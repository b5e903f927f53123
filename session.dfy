/** The session state of the E.ON Next (Kraken) client: the four token fields, the
    validity checks over them, the guard every authenticated GraphQL request passes,
    and the effect of a login reply on the fields. */
module Session {
  import opened Strings
  import opened Json

  /** `auth_token`, `refresh_token`, `token_expires`, `refresh_expires`: `None` until a
      login stores whatever the reply held. */
  datatype Tokens = Tokens(authToken: Json, refreshToken: Json, tokenExpires: Json, refreshExpires: Json)

  const NoTokens := Tokens(JNull, JNull, JNull, JNull)

  /** A JSON value Python can compare with an `int` (a `bool` counts as 0 or 1). */
  predicate IsNumber(j: Json)
  {
    j.JInt? || j.JBool?
  }

  function NumberValue(j: Json): int
    requires IsNumber(j)
  {
    if j.JInt? then j.n else if j.b then 1 else 0
  }

  /** `not token or not expires` gives False, otherwise `expires > now`; comparing a
      non-number with the clock raises. */
  function TokenValid(token: Json, expires: Json, now: int): (r: Result<bool>)
    ensures r == Ok(true) <==> Truthy(token) && Truthy(expires) && IsNumber(expires) && NumberValue(expires) > now
    ensures r.Err? <==> Truthy(token) && Truthy(expires) && !IsNumber(expires)
    ensures !Truthy(token) || expires == JNull || expires == JInt(0) ==> r == Ok(false)
  {
    if !Truthy(token) || !Truthy(expires) then Ok(false)
    else if IsNumber(expires) then Ok(NumberValue(expires) > now)
    else Err(TypeError("'>' not supported between instances of '" + TypeName(expires) + "' and 'int'"))
  }

  /** A GraphQL request as it goes on the wire. */
  datatype Request = Request(operation: string, variables: map<string, Json>, headers: map<string, string>)

  /** What one call of the request helper amounts to: refused before anything is sent,
      or a request sent together with the transport's reply (decoded body, or the
      exception the transport raised). */
  datatype Exchange = Refused(error: Error) | Exchanged(request: Request, reply: Result<Json>)

  /** The authentication guard of the request helper: an authenticated request with an
      invalid token raises before any request is sent; otherwise the request carries
      `authorization: JWT <token>` exactly when it is authenticated. */
  function GraphqlRequest(t: Tokens, now: int, authenticated: bool, operation: string,
                          variables: map<string, Json>, reply: Result<Json>): (x: Exchange)
    ensures x.Refused? <==> authenticated && TokenValid(t.authToken, t.tokenExpires, now) != Ok(true)
    ensures x.Refused? && TokenValid(t.authToken, t.tokenExpires, now) == Ok(false) ==>
      x.error == Failure("Authentication token is not valid")
    ensures x.Exchanged? ==> x.reply == reply && x.request.operation == operation && x.request.variables == variables
    ensures x.Exchanged? ==> ("authorization" in x.request.headers <==> authenticated)
    ensures x.Exchanged? && authenticated ==> x.request.headers["authorization"] == "JWT " + Text(t.authToken)
  {
    if !authenticated then Exchanged(Request(operation, variables, map[]), reply)
    else
      match TokenValid(t.authToken, t.tokenExpires, now)
      case Err(e) => Refused(e)
      case Ok(false) => Refused(Failure("Authentication token is not valid"))
      case Ok(true) => Exchanged(Request(operation, variables, map["authorization" := "JWT " + Text(t.authToken)]), reply)
  }

  /** `j[k0][k1]...`. */
  function Path(j: Json, keys: seq<string>): Result<Json>
  {
    if keys == [] then Ok(j)
    else
      var next :- Index(j, keys[0]);
      Path(next, keys[1..])
  }

  lemma {:induction false} PathConcat(j: Json, a: seq<string>, b: seq<string>)
    ensures Path(j, a + b) == match Path(j, a) case Ok(v) => Path(v, b) case Err(e) => Err(e)
  {
    if a == [] {
      assert a + b == b;
    } else {
      assert (a + b)[0] == a[0] && (a + b)[1..] == a[1..] + b;
      match Index(j, a[0])
      case Ok(next) => PathConcat(next, a[1..], b);
      case Err(_) =>
    }
  }

  const TokenPath := ["data", "obtainKrakenToken"]

  function LoginFailed(e: Error): Error
  {
    Failure("Login failed: " + Message(e))
  }

  /** The reply's `data.obtainKrakenToken` is present (the test that decides between
      storing tokens and returning False). */
  function HasKrakenToken(result: Json): Result<bool>
  {
    var hasData :- Contains("data", result);
    if !hasData then Ok(false)
    else
      var data :- Index(result, "data");
      Contains("obtainKrakenToken", data)
  }

  /** The reply holds all four values `login` stores. */
  predicate HoldsTokens(result: Json)
  {
    && Path(result, TokenPath + ["token"]).Ok?
    && Path(result, TokenPath + ["refreshToken"]).Ok?
    && Path(result, TokenPath + ["payload", "exp"]).Ok?
    && Path(result, TokenPath + ["refreshExpiresIn"]).Ok?
  }

  /** A reply with a value under `data.obtainKrakenToken` passes the presence test. */
  lemma TokenDataFound(result: Json, rest: seq<string>)
    ensures Path(result, TokenPath + rest).Ok? ==> HasKrakenToken(result) == Ok(true) && Path(result, TokenPath).Ok?
  {
    PathConcat(result, TokenPath, rest);
  }

  /** The token fields and result of `login` for a reply. The four fields are assigned
      one after another, so a reply that breaks off half-way leaves the fields already
      assigned changed; every exception is re-raised as "Login failed: <message>". */
  function LoginSpec(t: Tokens, reply: Result<Json>): (out: (Tokens, Result<bool>))
    ensures out.1.Err? ==> out.1.error.Failure? && "Login failed: " <= out.1.error.message
    ensures reply.Err? ==> out == (t, Err(LoginFailed(reply.error)))
    ensures out.1 == Ok(false) <==> reply.Ok? && HasKrakenToken(reply.value) == Ok(false)
    ensures out.1 == Ok(false) ==> out.0 == t
    ensures out.1 == Ok(true) <==> reply.Ok? && HoldsTokens(reply.value)
    ensures out.1 == Ok(true) ==>
      && reply.Ok? && HasKrakenToken(reply.value) == Ok(true)
      && Path(reply.value, TokenPath + ["token"]) == Ok(out.0.authToken)
      && Path(reply.value, TokenPath + ["refreshToken"]) == Ok(out.0.refreshToken)
      && Path(reply.value, TokenPath + ["payload", "exp"]) == Ok(out.0.tokenExpires)
      && Path(reply.value, TokenPath + ["refreshExpiresIn"]) == Ok(out.0.refreshExpires)
    ensures out.1.Err? ==> out.0.refreshExpires == t.refreshExpires
  {
    match reply
    case Err(e) => (t, Err(LoginFailed(e)))
    case Ok(result) =>
      TokenDataFound(result, ["token"]);
      match HasKrakenToken(result)
      case Err(e) => (t, Err(LoginFailed(e)))
      case Ok(false) => (t, Ok(false))
      case Ok(true) =>
        match Path(result, TokenPath)
        case Err(e) => (t, Err(LoginFailed(e)))
        case Ok(tokenData) =>
        PathConcat(result, TokenPath, ["token"]);
        PathConcat(result, TokenPath, ["refreshToken"]);
        PathConcat(result, TokenPath, ["payload", "exp"]);
        PathConcat(result, TokenPath, ["refreshExpiresIn"]);
        match Index(tokenData, "token")
        case Err(e) => (t, Err(LoginFailed(e)))
        case Ok(token) =>
          var t1 := t.(authToken := token);
          match Index(tokenData, "refreshToken")
          case Err(e) => (t1, Err(LoginFailed(e)))
          case Ok(refresh) =>
            var t2 := t1.(refreshToken := refresh);
            match Path(tokenData, ["payload", "exp"])
            case Err(e) => (t2, Err(LoginFailed(e)))
            case Ok(exp) =>
              var t3 := t2.(tokenExpires := exp);
              match Index(tokenData, "refreshExpiresIn")
              case Err(e) => (t3, Err(LoginFailed(e)))
              case Ok(refreshExp) => (t3.(refreshExpires := refreshExp), Ok(true))
  }

  /** The successful login reply the client's login is expected to accept: it returns
      True and stores the token, the refresh token and both expiry times. */
  lemma LoginAcceptsTokenReply(t: Tokens)
    ensures var tokenData := JObj(map[
          "token" := JStr("fake-token"),
          "refreshToken" := JStr("fake-refresh-token"),
          "payload" := JObj(map["exp" := JInt(9999999999)]),
          "refreshExpiresIn" := JInt(9999999999),
          "__typename" := JStr("ObtainJSONWebTokenPayload")]);
      LoginSpec(t, Ok(JObj(map["data" := JObj(map["obtainKrakenToken" := tokenData])])))
        == (Tokens(JStr("fake-token"), JStr("fake-refresh-token"), JInt(9999999999), JInt(9999999999)), Ok(true))
  {
  }
}
