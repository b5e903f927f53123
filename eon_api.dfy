/** The E.ON Next client object: its four token fields, the validity checks over them,
    the login that writes them, and the three authenticated queries, each proved
    equal to the function that specifies it. */
module EonApi {
  import opened Json
  import opened Session
  import opened Accounts
  import opened Consumption

  class EonNextApi {
    var authToken: Json
    var refreshToken: Json
    var tokenExpires: Json
    var refreshExpires: Json

    /** A new client holds no tokens. */
    constructor ()
      ensures TokenState() == NoTokens
    {
      authToken := JNull;
      refreshToken := JNull;
      tokenExpires := JNull;
      refreshExpires := JNull;
    }

    function TokenState(): Tokens
      reads this
    {
      Tokens(authToken, refreshToken, tokenExpires, refreshExpires)
    }

    /** `_is_token_valid` at time `now`. */
    function IsTokenValid(now: int): (r: Result<bool>)
      reads this
      ensures r == Ok(true) <==> Truthy(authToken) && Truthy(tokenExpires) && IsNumber(tokenExpires) && NumberValue(tokenExpires) > now
      ensures !Truthy(authToken) || !Truthy(tokenExpires) ==> r == Ok(false)
      ensures r.Err? ==> r.error.TypeError?
    {
      TokenValid(authToken, tokenExpires, now)
    }

    /** `_is_refresh_token_valid` at time `now`: the same test over the refresh fields. */
    function IsRefreshTokenValid(now: int): (r: Result<bool>)
      reads this
      ensures r == Ok(true) <==> Truthy(refreshToken) && Truthy(refreshExpires) && IsNumber(refreshExpires) && NumberValue(refreshExpires) > now
      ensures !Truthy(refreshToken) || !Truthy(refreshExpires) ==> r == Ok(false)
      ensures r.Err? ==> r.error.TypeError?
    {
      TokenValid(refreshToken, refreshExpires, now)
    }

    /** `login` for the transport's reply to the (unauthenticated) login request. The
        fields are written one at a time, as the reply is read. */
    method Login(reply: Result<Json>) returns (r: Result<bool>)
      modifies this
      ensures (TokenState(), r) == LoginSpec(old(TokenState()), reply)
    {
      if reply.Err? {
        return Err(LoginFailed(reply.error));
      }
      var result := reply.value;
      var found := HasKrakenToken(result);
      if found.Err? {
        return Err(LoginFailed(found.error));
      }
      if !found.value {
        return Ok(false);
      }
      var tokenData := Path(result, TokenPath);
      if tokenData.Err? {
        return Err(LoginFailed(tokenData.error));
      }
      var token := Index(tokenData.value, "token");
      if token.Err? {
        return Err(LoginFailed(token.error));
      }
      authToken := token.value;
      var refresh := Index(tokenData.value, "refreshToken");
      if refresh.Err? {
        return Err(LoginFailed(refresh.error));
      }
      refreshToken := refresh.value;
      var exp := Path(tokenData.value, ["payload", "exp"]);
      if exp.Err? {
        return Err(LoginFailed(exp.error));
      }
      tokenExpires := exp.value;
      var refreshExp := Index(tokenData.value, "refreshExpiresIn");
      if refreshExp.Err? {
        return Err(LoginFailed(refreshExp.error));
      }
      refreshExpires := refreshExp.value;
      return Ok(true);
    }

    /** `get_account_numbers`. */
    method GetAccountNumbers(now: int, reply: Result<Json>) returns (r: Result<seq<Json>>)
      ensures r == AccountNumbersSpec(TokenState(), now, reply)
    {
      var x := GraphqlRequest(TokenState(), now, true, AccountsOperation, map[], reply);
      if x.Refused? {
        return Err(x.error);
      }
      var result :- x.reply;
      r := AccountsReply(result);
    }

    /** `get_meters`: the property loop, electricity meter points before gas ones. */
    method GetMeters(now: int, accountNumber: Json, reply: Result<Json>) returns (r: Result<seq<Meter>>)
      ensures r == MetersSpec(TokenState(), now, accountNumber, reply)
    {
      var x := GraphqlRequest(TokenState(), now, true, MetersOperation, MetersVariables(accountNumber), reply);
      if x.Refused? {
        return Err(x.error);
      }
      var result :- x.reply;
      var hasData :- Contains("data", result);
      if !hasData {
        return Err(Failure("Failed to retrieve meters"));
      }
      var data :- Index(result, "data");
      var hasProperties :- Contains("properties", data);
      if !hasProperties {
        return Err(Failure("Failed to retrieve meters"));
      }
      var listed :- Index(data, "properties");
      var props :- Iter(listed);
      var meters: seq<Meter> := [];
      var i := 0;
      while i < |props|
        invariant i <= |props|
        invariant PropertiesFrom(props, i, meters) == PropertiesFrom(props, 0, [])
      {
        var prop := props[i];
        var electricity :- Get(prop, "electricityMeterPoints", JList([]));
        var electricityPoints :- Iter(electricity);
        meters :- CollectPointMeters("electricity", electricityPoints, meters);
        var gas := Get(prop, "gasMeterPoints", JList([])).value;
        var gasPoints :- Iter(gas);
        meters :- CollectPointMeters("gas", gasPoints, meters);
        i := i + 1;
      }
      return Ok(meters);
    }

    /** `get_consumption_data`, with `pages` the transport's replies to the successive
        page requests. */
    method GetConsumptionData(now: int, q: Query, pages: seq<Result<Json>>) returns (f: Fetch)
      ensures f == FetchSpec(TokenState(), now, q, pages)
    {
      var consumption: seq<Json> := [];
      var cursor := JNull;
      var hasNextPage := true;
      var pageCount := 0;
      var sent: seq<Sent> := [];
      while hasNextPage
        invariant pageCount == |sent| <= |pages|
        invariant PaginateFrom(TokenState(), now, q, pages, PageState(consumption, hasNextPage, cursor), sent)
               == FetchSpec(TokenState(), now, q, pages)
        decreases |pages| - pageCount
      {
        if pageCount == |pages| {
          return Exhausted(consumption, sent);
        }
        pageCount := pageCount + 1;
        var variables := PageVariables(q, cursor);
        var x := GraphqlRequest(TokenState(), now, true, Operation(q.meterType), variables, pages[pageCount - 1]);
        if x.Refused? {
          return Raised(x.error);
        }
        sent := sent + [Sent(pageCount, |consumption|, x.request)];
        if x.reply.Err? {
          return Raised(x.reply.error);
        }
        var step := ReadPage(x.reply.value, q, PageState(consumption, hasNextPage, cursor));
        if step.Err? {
          return Raised(step.error);
        }
        if step.value.EndOfData? {
          break;
        }
        consumption, hasNextPage, cursor := step.value.st.acc, step.value.st.hasNext, step.value.st.cursor;
      }
      return Fetched(consumption, sent);
    }
  }
}
