/** The paginated consumption fetch: a cursor-driven loop over the replies to successive
    page requests that keeps the half-hourly nodes of one meter whose `startAt` is not
    past the end of the window, compared as strings. */
module Consumption {
  import opened Strings
  import opened Json
  import opened Session

  /** The fixed inputs of one fetch; `startStr` and `endStr` are the window bounds
      already formatted as "%Y-%m-%dT%H:%M:%S+00:00". */
  datatype Query = Query(accountNumber: Json, meterId: Json, meterType: string, startStr: string, endStr: string)

  /** Any meter type other than "electricity" takes the gas branch. */
  function Operation(meterType: string): string
  {
    if meterType == "electricity" then "getElectricityConsumption" else "getGasConsumption"
  }

  function AgreementsKey(meterType: string): string
  {
    if meterType == "electricity" then "electricityAgreements" else "gasAgreements"
  }

  /** The variables of one page request: the cursor goes in as `after` only when it is
      truthy. */
  function PageVariables(q: Query, cursor: Json): (v: map<string, Json>)
    ensures "accountNumber" in v && v["accountNumber"] == q.accountNumber
    ensures "startDate" in v && v["startDate"] == JStr(q.startStr)
    ensures "after" in v <==> Truthy(cursor)
    ensures "after" in v ==> v["after"] == cursor
    ensures v.Keys <= {"accountNumber", "startDate", "after"}
  {
    var base := map["accountNumber" := q.accountNumber, "startDate" := JStr(q.startStr)];
    if Truthy(cursor) then base["after" := cursor] else base
  }

  /** A record the fetch may return: a dict whose `startAt` is a non-empty string not
      after `endStr` in string order. */
  predicate InWindowRecord(node: Json, endStr: string)
  {
    && node.JObj?
    && "startAt" in node.obj
    && node.obj["startAt"].JStr?
    && node.obj["startAt"].str != ""
    && LessEq(node.obj["startAt"].str, endStr)
  }

  /** A node whose `startAt` is a non-empty string after `endStr` in string order. */
  predicate PastEndRecord(node: Json, endStr: string)
  {
    && node.JObj?
    && "startAt" in node.obj
    && node.obj["startAt"].JStr?
    && node.obj["startAt"].str != ""
    && !LessEq(node.obj["startAt"].str, endStr)
  }

  datatype EdgeKind = Skipped | InWindow(node: Json) | PastEnd

  /** A truthy node the loop cannot read: not a dict, or a truthy `startAt` that is not
      a string. */
  predicate UnreadableNode(node: Json)
  {
    Truthy(node) && (!node.JObj? || ("startAt" in node.obj && Truthy(node.obj["startAt"]) && !node.obj["startAt"].JStr?))
  }

  /** What the edge loop does with one edge: null edges, null nodes and nodes with an
      empty or missing `startAt` are skipped, a non-string `startAt` cannot be compared
      with the end bound and raises. */
  function ClassifyEdge(edge: Json, endStr: string): (r: Result<EdgeKind>)
    ensures r.Ok? && r.value.InWindow? ==> InWindowRecord(r.value.node, endStr)
    ensures r.Ok? && r.value.InWindow? ==> edge.JObj? && "node" in edge.obj && edge.obj["node"] == r.value.node
    ensures r == Ok(PastEnd) <==> edge.JObj? && "node" in edge.obj && PastEndRecord(edge.obj["node"], endStr)
    ensures edge.JObj? && "node" in edge.obj && InWindowRecord(edge.obj["node"], endStr) ==> r == Ok(InWindow(edge.obj["node"]))
    ensures !Truthy(edge) ==> r == Ok(Skipped)
    ensures edge.JObj? && (("node" in edge.obj ==> !Truthy(edge.obj["node"]))) ==> r == Ok(Skipped)
    ensures r.Err? <==> Truthy(edge) && (!edge.JObj? || UnreadableNode(Get(edge, "node", JNull).value))
  {
    if !Truthy(edge) then Ok(Skipped)
    else
      var node :- Get(edge, "node", JNull);
      if !Truthy(node) then Ok(Skipped)
      else
        var start :- Get(node, "startAt", JStr(""));
        if !Truthy(start) then Ok(Skipped)
        else if !start.JStr? then Err(TypeError("'<=' not supported between instances of '" + TypeName(start) + "' and 'str'"))
        else if LessEq(start.str, endStr) then Ok(InWindow(node))
        else Ok(PastEnd)
  }

  datatype EdgeScan = EdgeScan(acc: seq<Json>, stopped: bool)

  /** The edge loop from the `i`-th edge on, appending to `acc`; it stops at the first
      node past the end bound. */
  function EdgesFrom(edges: seq<Json>, i: nat, endStr: string, acc: seq<Json>): Result<EdgeScan>
    decreases |edges| - i
  {
    if i >= |edges| then Ok(EdgeScan(acc, false))
    else
      var kind :- ClassifyEdge(edges[i], endStr);
      match kind
      case Skipped => EdgesFrom(edges, i + 1, endStr, acc)
      case InWindow(node) => EdgesFrom(edges, i + 1, endStr, acc + [node])
      case PastEnd => Ok(EdgeScan(acc, true))
  }

  /** The loop's variables that outlive one page: the records collected so far,
      `has_next_page` and the cursor. */
  datatype PageState = PageState(acc: seq<Json>, hasNext: bool, cursor: Json)

  const InitialState := PageState([], true, JNull)

  /** The connection of a matched meter: the edges are scanned, then `pageInfo` gives
      the new cursor and `hasNextPage`, which can only clear `has_next_page`. A meter
      without a consumption connection clears `has_next_page` and nothing else. */
  function MatchedMeter(meter: Json, q: Query, st: PageState): (r: Result<PageState>)
    requires meter.JObj?
    ensures var connection := Get(meter, "consumption", JNull).value;
      && (!Truthy(connection) ==> r == Ok(st.(hasNext := false)))
      && (Truthy(connection) && r.Ok? ==>
            && Get(connection, "edges", JList([])).Ok?
            && Iter(Get(connection, "edges", JList([])).value).Ok?
            && var scan := EdgesFrom(Iter(Get(connection, "edges", JList([])).value).value, 0, q.endStr, st.acc);
            && var pageInfo := Get(connection, "pageInfo", JObj(map[])).value;
            && scan.Ok?
            && pageInfo.JObj?
            && r.value.acc == scan.value.acc
            && r.value.hasNext == (st.hasNext && !scan.value.stopped && Truthy(Get(pageInfo, "hasNextPage", JBool(false)).value))
            && r.value.cursor == Get(pageInfo, "endCursor", JNull).value)
  {
    var connection := Get(meter, "consumption", JNull).value;
    if !Truthy(connection) then Ok(st.(hasNext := false))
    else
      var listed :- Get(connection, "edges", JList([]));
      var edges :- Iter(listed);
      var scan :- EdgesFrom(edges, 0, q.endStr, st.acc);
      var hasNext := st.hasNext && !scan.stopped;
      var pageInfo := Get(connection, "pageInfo", JObj(map[])).value;
      var more :- Get(pageInfo, "hasNextPage", JBool(false));
      var cursor := Get(pageInfo, "endCursor", JNull).value;
      Ok(PageState(scan.acc, Truthy(more) && hasNext, cursor))
  }

  /** `meter and meter.get("id") == meter_id`. */
  function MeterMatches(meter: Json, meterId: Json): (r: Result<bool>)
    ensures r == Ok(true) <==> Truthy(meter) && meter.JObj? && Get(meter, "id", JNull).value == meterId
    ensures r.Err? <==> Truthy(meter) && !meter.JObj?
  {
    if !Truthy(meter) then Ok(false)
    else
      var id :- Get(meter, "id", JNull);
      Ok(id == meterId)
  }

  /** The loop over the meters of one meter point, from the `i`-th on; the first
      matching meter is handled and ends the loop. */
  function MetersFrom(meters: seq<Json>, i: nat, q: Query, st: PageState): Result<PageState>
    decreases |meters| - i
  {
    if i >= |meters| then Ok(st)
    else
      var matches :- MeterMatches(meters[i], q.meterId);
      if matches then MatchedMeter(meters[i], q, st)
      else MetersFrom(meters, i + 1, q, st)
  }

  /** The meters listed under an agreement's meter point (`None` for an agreement
      without a meter point). */
  function AgreementMeters(agreement: Json): Result<Option<seq<Json>>>
  {
    var meterPoint :- Get(agreement, "meterPoint", JNull);
    if !Truthy(meterPoint) then Ok(None)
    else
      var listed :- Get(meterPoint, "meters", JList([]));
      var meters :- Iter(listed);
      Ok(Some(meters))
  }

  /** The loop over the agreements, from the `i`-th on. A match does not end this
      loop: a later agreement listing the same meter is scanned as well. */
  function AgreementsFrom(agreements: seq<Json>, i: nat, q: Query, st: PageState): Result<PageState>
    decreases |agreements| - i
  {
    if i >= |agreements| then Ok(st)
    else
      var meters :- AgreementMeters(agreements[i]);
      match meters
      case None => AgreementsFrom(agreements, i + 1, q, st)
      case Some(ms) =>
        var st' :- MetersFrom(ms, 0, q, st);
        AgreementsFrom(agreements, i + 1, q, st')
  }

  datatype PageStep = EndOfData | NextPage(st: PageState)

  /** One reply: without `data` or `data.account` the fetch ends with what it has;
      otherwise the agreements of the meter's type are scanned. */
  function ProcessPage(result: Json, q: Query, st: PageState): (r: Result<PageStep>)
    ensures Contains("data", result) == Ok(false) ==> r == Ok(EndOfData)
    ensures Index(result, "data").Ok? && Contains("account", result.obj["data"]) == Ok(false) ==> r == Ok(EndOfData)
  {
    var hasData :- Contains("data", result);
    if !hasData then Ok(EndOfData)
    else
      var data :- Index(result, "data");
      var hasAccount :- Contains("account", data);
      if !hasAccount then Ok(EndOfData)
      else
        var account :- Index(data, "account");
        var listed :- Get(account, AgreementsKey(q.meterType), JList([]));
        var agreements :- Iter(listed);
        var st' :- AgreementsFrom(agreements, 0, q, st);
        Ok(NextPage(st'))
  }

  /** A request that went out: `page` and `collected` are the arguments the progress
      callback receives before it. */
  datatype Sent = Sent(page: nat, collected: nat, request: Request)

  /** The outcome of a fetch. `Exhausted` is the model's bound: every reply in the
      given sequence was used while `has_next_page` was still true. */
  datatype Fetch =
    | Fetched(records: seq<Json>, sent: seq<Sent>)
    | Raised(error: Error)
    | Exhausted(records: seq<Json>, sent: seq<Sent>)

  /** The `while has_next_page` loop once `|sent|` requests have been answered by the
      first `|sent|` entries of `pages`. */
  function PaginateFrom(t: Tokens, now: int, q: Query, pages: seq<Result<Json>>, st: PageState, sent: seq<Sent>): Fetch
    decreases |pages| - |sent|
  {
    if !st.hasNext then Fetched(st.acc, sent)
    else if |sent| >= |pages| then Exhausted(st.acc, sent)
    else
      match GraphqlRequest(t, now, true, Operation(q.meterType), PageVariables(q, st.cursor), pages[|sent|])
      case Refused(e) => Raised(e)
      case Exchanged(request, reply) =>
        var sent' := sent + [Sent(|sent| + 1, |st.acc|, request)];
        match reply
        case Err(e) => Raised(e)
        case Ok(result) =>
          match ProcessPage(result, q, st)
          case Err(e) => Raised(e)
          case Ok(EndOfData) => Fetched(st.acc, sent')
          case Ok(NextPage(st')) => PaginateFrom(t, now, q, pages, st', sent')
  }

  /** `get_consumption_data` for the replies `pages` to its successive page requests.
      Every record it returns is a dict whose `startAt` is a non-empty string not after
      the end bound. */
  function FetchSpec(t: Tokens, now: int, q: Query, pages: seq<Result<Json>>): (f: Fetch)
    ensures f.Fetched? || f.Exhausted? ==> forall i :: 0 <= i < |f.records| ==> InWindowRecord(f.records[i], q.endStr)
    ensures f.Fetched? || f.Exhausted? ==> |f.sent| <= |pages|
    ensures f.Exhausted? ==> |f.sent| == |pages|
    ensures f.Fetched? || f.Exhausted? ==> f.records == NodesBetween(pages, 0, |f.sent|, q)
  {
    PaginateFromGrows(t, now, q, pages, InitialState, []);
    PaginateFromRecords(t, now, q, pages, InitialState, []);
    PaginateFrom(t, now, q, pages, InitialState, [])
  }

  // ---------------------------------------------------------------------------
  // What each level of the loop does to the collected records and the flag.

  /** `st'` extends `st`: old records kept in place, every new record in the window,
      `has_next_page` never set back to true. */
  predicate Grows(st: PageState, st': PageState, endStr: string)
  {
    && |st.acc| <= |st'.acc|
    && st'.acc[..|st.acc|] == st.acc
    && (forall k :: |st.acc| <= k < |st'.acc| ==> InWindowRecord(st'.acc[k], endStr))
    && (st'.hasNext ==> st.hasNext)
  }

  lemma GrowsTransitive(a: PageState, b: PageState, c: PageState, endStr: string)
    requires Grows(a, b, endStr) && Grows(b, c, endStr)
    ensures Grows(a, c, endStr)
  {
    assert c.acc[..|a.acc|] == c.acc[..|b.acc|][..|a.acc|];
  }

  lemma {:induction false} EdgesFromGrows(edges: seq<Json>, i: nat, endStr: string, acc: seq<Json>)
    requires EdgesFrom(edges, i, endStr, acc).Ok?
    ensures var scan := EdgesFrom(edges, i, endStr, acc).value;
      && |acc| <= |scan.acc| && scan.acc[..|acc|] == acc
      && forall k :: |acc| <= k < |scan.acc| ==> InWindowRecord(scan.acc[k], endStr)
    decreases |edges| - i
  {
    if i < |edges| {
      match ClassifyEdge(edges[i], endStr).value
      case Skipped => EdgesFromGrows(edges, i + 1, endStr, acc);
      case InWindow(node) =>
        EdgesFromGrows(edges, i + 1, endStr, acc + [node]);
        var scan := EdgesFrom(edges, i, endStr, acc).value;
        assert scan.acc[..|acc| + 1] == acc + [node];
        assert scan.acc[..|acc|] == (acc + [node])[..|acc|];
      case PastEnd =>
    }
  }

  lemma MatchedMeterGrows(meter: Json, q: Query, st: PageState)
    requires meter.JObj?
    requires MatchedMeter(meter, q, st).Ok?
    ensures Grows(st, MatchedMeter(meter, q, st).value, q.endStr)
  {
    var connection := Get(meter, "consumption", JNull).value;
    if Truthy(connection) {
      var edges := Iter(Get(connection, "edges", JList([])).value).value;
      EdgesFromGrows(edges, 0, q.endStr, st.acc);
    }
  }

  lemma {:induction false} MetersFromGrows(meters: seq<Json>, i: nat, q: Query, st: PageState)
    requires MetersFrom(meters, i, q, st).Ok?
    ensures Grows(st, MetersFrom(meters, i, q, st).value, q.endStr)
    decreases |meters| - i
  {
    if i < |meters| {
      if MeterMatches(meters[i], q.meterId).value {
        MatchedMeterGrows(meters[i], q, st);
      } else {
        MetersFromGrows(meters, i + 1, q, st);
      }
    }
  }

  lemma {:induction false} AgreementsFromGrows(agreements: seq<Json>, i: nat, q: Query, st: PageState)
    requires AgreementsFrom(agreements, i, q, st).Ok?
    ensures Grows(st, AgreementsFrom(agreements, i, q, st).value, q.endStr)
    decreases |agreements| - i
  {
    if i < |agreements| {
      match AgreementMeters(agreements[i]).value
      case None => AgreementsFromGrows(agreements, i + 1, q, st);
      case Some(ms) =>
        MetersFromGrows(ms, 0, q, st);
        var st' := MetersFrom(ms, 0, q, st).value;
        AgreementsFromGrows(agreements, i + 1, q, st');
        GrowsTransitive(st, st', AgreementsFrom(agreements, i + 1, q, st').value, q.endStr);
    }
  }

  lemma ProcessPageGrows(result: Json, q: Query, st: PageState)
    requires ProcessPage(result, q, st).Ok? && ProcessPage(result, q, st).value.NextPage?
    ensures Grows(st, ProcessPage(result, q, st).value.st, q.endStr)
  {
    var account := Index(Index(result, "data").value, "account").value;
    var agreements := Iter(Get(account, AgreementsKey(q.meterType), JList([])).value).value;
    AgreementsFromGrows(agreements, 0, q, st);
  }

  /** A fetch that ends normally from state `st` after `sentCount` requests keeps the
      records of `st` in place, adds only records in the window, and sends at most one
      request per page (all of them when it runs out). */
  predicate ExtendsState(f: Fetch, st: PageState, sentCount: nat, pageCount: nat, endStr: string)
  {
    f.Fetched? || f.Exhausted? ==>
      && |st.acc| <= |f.records| && f.records[..|st.acc|] == st.acc
      && (forall k :: |st.acc| <= k < |f.records| ==> InWindowRecord(f.records[k], endStr))
      && sentCount <= |f.sent| <= pageCount
      && (f.Exhausted? ==> |f.sent| == pageCount)
  }

  lemma ExtendsStateBack(f: Fetch, st: PageState, st': PageState, sentCount: nat, pageCount: nat, endStr: string)
    requires Grows(st, st', endStr)
    requires ExtendsState(f, st', sentCount + 1, pageCount, endStr)
    ensures ExtendsState(f, st, sentCount, pageCount, endStr)
  {
    if f.Fetched? || f.Exhausted? {
      assert f.records[..|st.acc|] == f.records[..|st'.acc|][..|st.acc|];
    }
  }

  /** The collected records only ever grow, and every one added is in the window. */
  lemma {:induction false} PaginateFromGrows(t: Tokens, now: int, q: Query, pages: seq<Result<Json>>, st: PageState, sent: seq<Sent>)
    requires |sent| <= |pages|
    ensures ExtendsState(PaginateFrom(t, now, q, pages, st, sent), st, |sent|, |pages|, q.endStr)
    decreases |pages| - |sent|
  {
    if st.hasNext && |sent| < |pages| {
      var x := GraphqlRequest(t, now, true, Operation(q.meterType), PageVariables(q, st.cursor), pages[|sent|]);
      if x.Exchanged? && x.reply.Ok? {
        var step := ProcessPage(x.reply.value, q, st);
        if step.Ok? && step.value.NextPage? {
          ProcessPageGrows(x.reply.value, q, st);
          var sent' := sent + [Sent(|sent| + 1, |st.acc|, x.request)];
          PaginateFromGrows(t, now, q, pages, step.value.st, sent');
          assert PaginateFrom(t, now, q, pages, st, sent) == PaginateFrom(t, now, q, pages, step.value.st, sent');
          ExtendsStateBack(PaginateFrom(t, now, q, pages, st, sent), st, step.value.st, |sent|, |pages|, q.endStr);
        }
      }
    }
  }

  // ---------------------------------------------------------------------------
  // The edge loop, described without the loop.

  /** The node the edge loop keeps from one edge: the edge's node exactly when it is an
      in-window record. */
  function KeptNode(edge: Json, endStr: string): (r: seq<Json>)
    ensures r == if edge.JObj? && "node" in edge.obj && InWindowRecord(edge.obj["node"], endStr) then [edge.obj["node"]] else []
  {
    match ClassifyEdge(edge, endStr)
    case Ok(InWindow(node)) => [node]
    case _ => []
  }

  /** The nodes of `edges` the edge loop keeps when it does not stop, in order. */
  function InWindowNodes(edges: seq<Json>, endStr: string): (r: seq<Json>)
    ensures forall k :: 0 <= k < |r| ==> InWindowRecord(r[k], endStr)
  {
    if edges == [] then [] else KeptNode(edges[0], endStr) + InWindowNodes(edges[1..], endStr)
  }

  lemma InWindowNodesFrom(edges: seq<Json>, i: nat, j: nat, endStr: string)
    requires i < j <= |edges|
    ensures InWindowNodes(edges[i..j], endStr) == KeptNode(edges[i], endStr) + InWindowNodes(edges[i + 1..j], endStr)
  {
    assert edges[i..j][0] == edges[i] && edges[i..j][1..] == edges[i + 1..j];
  }

  predicate PastEndAt(edges: seq<Json>, endStr: string, j: int)
    requires 0 <= j < |edges|
  {
    ClassifyEdge(edges[j], endStr) == Ok(PastEnd)
  }

  /** An edge before the first node past the end bound adds its kept node, if any. */
  lemma EdgesFromStep(edges: seq<Json>, i: nat, endStr: string, acc: seq<Json>)
    requires i < |edges| && !PastEndAt(edges, endStr, i)
    requires EdgesFrom(edges, i, endStr, acc).Ok?
    ensures EdgesFrom(edges, i, endStr, acc) == EdgesFrom(edges, i + 1, endStr, acc + KeptNode(edges[i], endStr))
  {
    if !ClassifyEdge(edges[i], endStr).value.InWindow? {
      assert acc + KeptNode(edges[i], endStr) == acc;
    }
  }

  /** The index of the first edge from the `i`-th on whose node is past the end bound,
      or the number of edges when there is none. */
  function FirstPastEnd(edges: seq<Json>, i: nat, endStr: string): (j: nat)
    requires i <= |edges|
    ensures i <= j <= |edges|
    ensures j < |edges| ==> PastEndAt(edges, endStr, j)
    ensures forall k :: i <= k < j ==> !PastEndAt(edges, endStr, k)
    decreases |edges| - i
  {
    if i == |edges| || PastEndAt(edges, endStr, i) then i else FirstPastEnd(edges, i + 1, endStr)
  }

  /** The edge loop keeps exactly the in-window nodes before the first node past the
      end bound, in edge order, and reports whether it met such a node. */
  lemma {:induction false} EdgesFromStopsAtFirstPastEnd(edges: seq<Json>, i: nat, endStr: string, acc: seq<Json>)
    requires i <= |edges|
    requires EdgesFrom(edges, i, endStr, acc).Ok?
    ensures var scan := EdgesFrom(edges, i, endStr, acc).value;
      var j := FirstPastEnd(edges, i, endStr);
      && (scan.stopped <==> j < |edges|)
      && scan.acc == acc + InWindowNodes(edges[i..j], endStr)
    decreases |edges| - i
  {
    if i == |edges| || PastEndAt(edges, endStr, i) {
      assert edges[i..i] == [];
      return;
    }
    var acc' := acc + KeptNode(edges[i], endStr);
    EdgesFromStep(edges, i, endStr, acc);
    EdgesFromStopsAtFirstPastEnd(edges, i + 1, endStr, acc');
    var j := FirstPastEnd(edges, i, endStr);
    assert j == FirstPastEnd(edges, i + 1, endStr);
    InWindowNodesFrom(edges, i, j, endStr);
  }

  // ---------------------------------------------------------------------------
  // What one page adds, described without the loops.

  /** The records a matched meter adds: the in-window nodes of its edges before the
      first node past the end bound. */
  function MeterNodes(meter: Json, endStr: string): seq<Json>
  {
    match Get(meter, "consumption", JNull)
    case Ok(connection) =>
      if !Truthy(connection) then []
      else
        (match Get(connection, "edges", JList([]))
         case Ok(listed) =>
           (match Iter(listed)
            case Ok(edges) => InWindowNodes(edges[..FirstPastEnd(edges, 0, endStr)], endStr)
            case Err(_) => [])
         case Err(_) => [])
    case Err(_) => []
  }

  /** The records the first meter from the `i`-th on with the wanted id adds. */
  function MatchNodes(meters: seq<Json>, i: nat, q: Query): seq<Json>
    decreases |meters| - i
  {
    if i >= |meters| then []
    else if MeterMatches(meters[i], q.meterId) == Ok(true) then MeterNodes(meters[i], q.endStr)
    else MatchNodes(meters, i + 1, q)
  }

  function AgreementNodes(agreement: Json, q: Query): seq<Json>
  {
    match AgreementMeters(agreement)
    case Ok(Some(ms)) => MatchNodes(ms, 0, q)
    case _ => []
  }

  /** The records the agreements from the `i`-th on add, agreement by agreement. */
  function PageNodes(agreements: seq<Json>, i: nat, q: Query): seq<Json>
    decreases |agreements| - i
  {
    if i >= |agreements| then [] else AgreementNodes(agreements[i], q) + PageNodes(agreements, i + 1, q)
  }

  /** The agreements of the meter's type in a reply that has `data.account`. */
  function PageAgreements(result: Json, q: Query): Option<seq<Json>>
  {
    if result.JObj? && "data" in result.obj && result.obj["data"].JObj? && "account" in result.obj["data"].obj then
      match Get(result.obj["data"].obj["account"], AgreementsKey(q.meterType), JList([]))
      case Ok(listed) => (match Iter(listed) case Ok(agreements) => Some(agreements) case Err(_) => None)
      case Err(_) => None
    else None
  }

  /** The records one reply contributes to the fetch. */
  function ReplyNodes(reply: Result<Json>, q: Query): seq<Json>
  {
    match reply
    case Ok(result) => (match PageAgreements(result, q) case Some(agreements) => PageNodes(agreements, 0, q) case None => [])
    case Err(_) => []
  }

  /** The records replies `i` to `j - 1` contribute, in order. */
  function NodesBetween(pages: seq<Result<Json>>, i: nat, j: nat, q: Query): seq<Json>
    decreases j - i
  {
    if i >= j || i >= |pages| then [] else ReplyNodes(pages[i], q) + NodesBetween(pages, i + 1, j, q)
  }

  lemma MatchedMeterNodes(meter: Json, q: Query, st: PageState)
    requires meter.JObj? && MatchedMeter(meter, q, st).Ok?
    ensures MatchedMeter(meter, q, st).value.acc == st.acc + MeterNodes(meter, q.endStr)
  {
    var connection := Get(meter, "consumption", JNull).value;
    if Truthy(connection) {
      var edges := Iter(Get(connection, "edges", JList([])).value).value;
      EdgesFromStopsAtFirstPastEnd(edges, 0, q.endStr, st.acc);
      assert edges[0..FirstPastEnd(edges, 0, q.endStr)] == edges[..FirstPastEnd(edges, 0, q.endStr)];
    } else {
      assert st.acc + [] == st.acc;
    }
  }

  lemma {:induction false} MetersFromNodes(meters: seq<Json>, i: nat, q: Query, st: PageState)
    requires MetersFrom(meters, i, q, st).Ok?
    ensures MetersFrom(meters, i, q, st).value.acc == st.acc + MatchNodes(meters, i, q)
    decreases |meters| - i
  {
    if i >= |meters| {
      assert st.acc + [] == st.acc;
    } else if MeterMatches(meters[i], q.meterId).value {
      MatchedMeterNodes(meters[i], q, st);
    } else {
      MetersFromNodes(meters, i + 1, q, st);
    }
  }

  lemma {:induction false} AgreementsFromNodes(agreements: seq<Json>, i: nat, q: Query, st: PageState)
    requires AgreementsFrom(agreements, i, q, st).Ok?
    ensures AgreementsFrom(agreements, i, q, st).value.acc == st.acc + PageNodes(agreements, i, q)
    decreases |agreements| - i
  {
    if i >= |agreements| {
      assert st.acc + [] == st.acc;
    } else {
      match AgreementMeters(agreements[i]).value
      case None =>
        AgreementsFromNodes(agreements, i + 1, q, st);
        assert AgreementNodes(agreements[i], q) == [];
        assert [] + PageNodes(agreements, i + 1, q) == PageNodes(agreements, i + 1, q);
      case Some(ms) =>
        MetersFromNodes(ms, 0, q, st);
        var st' := MetersFrom(ms, 0, q, st).value;
        AgreementsFromNodes(agreements, i + 1, q, st');
        assert st.acc + MatchNodes(ms, 0, q) + PageNodes(agreements, i + 1, q)
            == st.acc + (MatchNodes(ms, 0, q) + PageNodes(agreements, i + 1, q));
    }
  }

  /** A page ends the fetch exactly when the reply lacks `data.account`; otherwise it
      appends, agreement by agreement, the in-window records of the first meter with
      the wanted id, up to the first record past the end bound. */
  lemma ProcessPageNodes(result: Json, q: Query, st: PageState)
    ensures ProcessPage(result, q, st) == Ok(EndOfData) ==> PageAgreements(result, q).None?
    ensures ProcessPage(result, q, st).Ok? && ProcessPage(result, q, st).value.NextPage? ==>
      && PageAgreements(result, q).Some?
      && ProcessPage(result, q, st).value.st.acc == st.acc + PageNodes(PageAgreements(result, q).value, 0, q)
  {
    var r := ProcessPage(result, q, st);
    if r.Ok? && r.value.NextPage? {
      var account := Index(Index(result, "data").value, "account").value;
      var agreements := Iter(Get(account, AgreementsKey(q.meterType), JList([])).value).value;
      AgreementsFromNodes(agreements, 0, q, st);
    }
  }

  /** A fetch that ends normally from state `st` after `sentCount` requests returns the
      records of `st` followed by what each later reply contributes. */
  predicate RecordsFrom(f: Fetch, st: PageState, sentCount: nat, pages: seq<Result<Json>>, q: Query)
  {
    f.Fetched? || f.Exhausted? ==> f.records == st.acc + NodesBetween(pages, sentCount, |f.sent|, q)
  }

  lemma RecordsFromBack(f: Fetch, st: PageState, st': PageState, sentCount: nat, pages: seq<Result<Json>>, q: Query)
    requires sentCount < |pages|
    requires st'.acc == st.acc + ReplyNodes(pages[sentCount], q)
    requires RecordsFrom(f, st', sentCount + 1, pages, q)
    requires f.Fetched? || f.Exhausted? ==> sentCount + 1 <= |f.sent|
    ensures RecordsFrom(f, st, sentCount, pages, q)
  {
    if f.Fetched? || f.Exhausted? {
      var rest := NodesBetween(pages, sentCount + 1, |f.sent|, q);
      assert st.acc + ReplyNodes(pages[sentCount], q) + rest == st.acc + (ReplyNodes(pages[sentCount], q) + rest);
    }
  }

  /** From any point of the loop, the records returned are those collected so far and
      then, reply by reply, what each later reply contributes. */
  lemma {:induction false} PaginateFromRecords(t: Tokens, now: int, q: Query, pages: seq<Result<Json>>, st: PageState, sent: seq<Sent>)
    requires |sent| <= |pages|
    ensures RecordsFrom(PaginateFrom(t, now, q, pages, st, sent), st, |sent|, pages, q)
    decreases |pages| - |sent|
  {
    if st.hasNext && |sent| < |pages| {
      var x := GraphqlRequest(t, now, true, Operation(q.meterType), PageVariables(q, st.cursor), pages[|sent|]);
      if x.Exchanged? && x.reply.Ok? {
        var step := ProcessPage(x.reply.value, q, st);
        ProcessPageNodes(x.reply.value, q, st);
        var sent' := sent + [Sent(|sent| + 1, |st.acc|, x.request)];
        if step == Ok(EndOfData) {
          assert PaginateFrom(t, now, q, pages, st, sent) == Fetched(st.acc, sent');
          assert NodesBetween(pages, |sent| + 1, |sent'|, q) == [];
          assert NodesBetween(pages, |sent|, |sent'|, q) == [];
        } else if step.Ok? {
          PaginateFromRecords(t, now, q, pages, step.value.st, sent');
          PaginateFromGrows(t, now, q, pages, step.value.st, sent');
          assert PaginateFrom(t, now, q, pages, st, sent) == PaginateFrom(t, now, q, pages, step.value.st, sent');
          RecordsFromBack(PaginateFrom(t, now, q, pages, st, sent), st, step.value.st, |sent|, pages, q);
        }
      }
    }
  }

  // ---------------------------------------------------------------------------
  // A page that does not list the meter, and what that does to the loop.

  /** An agreement's meter point lists a meter with the wanted id. */
  predicate ListsMeter(agreement: Json, meterId: Json)
  {
    match AgreementMeters(agreement)
    case Ok(Some(ms)) => exists k :: 0 <= k < |ms| && MeterMatches(ms[k], meterId) == Ok(true)
    case _ => false
  }

  lemma {:induction false} MetersFromUnmatched(meters: seq<Json>, i: nat, q: Query, st: PageState)
    requires forall k :: i <= k < |meters| ==> MeterMatches(meters[k], q.meterId) != Ok(true)
    requires MetersFrom(meters, i, q, st).Ok?
    ensures MetersFrom(meters, i, q, st) == Ok(st)
    decreases |meters| - i
  {
    if i < |meters| {
      MetersFromUnmatched(meters, i + 1, q, st);
    }
  }

  lemma {:induction false} AgreementsFromUnmatched(agreements: seq<Json>, i: nat, q: Query, st: PageState)
    requires forall k :: i <= k < |agreements| ==> !ListsMeter(agreements[k], q.meterId)
    requires AgreementsFrom(agreements, i, q, st).Ok?
    ensures AgreementsFrom(agreements, i, q, st) == Ok(st)
    decreases |agreements| - i
  {
    if i < |agreements| {
      match AgreementMeters(agreements[i]).value
      case None => AgreementsFromUnmatched(agreements, i + 1, q, st);
      case Some(ms) =>
        assert !ListsMeter(agreements[i], q.meterId);
        MetersFromUnmatched(ms, 0, q, st);
        AgreementsFromUnmatched(agreements, i + 1, q, st);
    }
  }

  /** A reply none of whose agreements lists the meter leaves records, flag and cursor
      as they were: the next request goes out with the same cursor. */
  lemma UnmatchedPageChangesNothing(result: Json, q: Query, st: PageState)
    requires ProcessPage(result, q, st).Ok? && ProcessPage(result, q, st).value.NextPage?
    requires var account := Index(Index(result, "data").value, "account").value;
      var agreements := Iter(Get(account, AgreementsKey(q.meterType), JList([])).value).value;
      forall k :: 0 <= k < |agreements| ==> !ListsMeter(agreements[k], q.meterId)
    ensures ProcessPage(result, q, st) == Ok(NextPage(st))
  {
    var account := Index(Index(result, "data").value, "account").value;
    var agreements := Iter(Get(account, AgreementsKey(q.meterType), JList([])).value).value;
    AgreementsFromUnmatched(agreements, 0, q, st);
  }

  /** The loop does not terminate on its own when the server keeps answering with a
      page that leaves its state unchanged (for instance one that does not list the
      meter): it sends the same request again and again until the replies run out. */
  lemma {:induction false} RepeatedPageNeverEnds(t: Tokens, now: int, q: Query, pages: seq<Result<Json>>, result: Json,
                                                st: PageState, sent: seq<Sent>)
    requires TokenValid(t.authToken, t.tokenExpires, now) == Ok(true)
    requires st.hasNext && |sent| <= |pages|
    requires forall k :: |sent| <= k < |pages| ==> pages[k] == Ok(result)
    requires ProcessPage(result, q, st) == Ok(NextPage(st))
    ensures var f := PaginateFrom(t, now, q, pages, st, sent);
      && f.Exhausted? && f.records == st.acc && |f.sent| == |pages| && f.sent[..|sent|] == sent
      && forall k :: |sent| <= k < |pages| ==>
           f.sent[k] == Sent(k + 1, |st.acc|, Request(Operation(q.meterType), PageVariables(q, st.cursor),
                                                     map["authorization" := "JWT " + Text(t.authToken)]))
    decreases |pages| - |sent|
  {
    if |sent| < |pages| {
      var request := Request(Operation(q.meterType), PageVariables(q, st.cursor), map["authorization" := "JWT " + Text(t.authToken)]);
      var sent' := sent + [Sent(|sent| + 1, |st.acc|, request)];
      assert PaginateFrom(t, now, q, pages, st, sent) == PaginateFrom(t, now, q, pages, st, sent');
      RepeatedPageNeverEnds(t, now, q, pages, result, st, sent');
      var f := PaginateFrom(t, now, q, pages, st, sent');
      assert f.sent[..|sent|] == f.sent[..|sent'|][..|sent|];
    }
  }

  // ---------------------------------------------------------------------------
  // The requests the loop sends.

  /** One request of the fetch: the operation of the meter type, the account and the
      start date of the window. */
  predicate SentFor(q: Query, s: Sent)
  {
    && s.request.operation == Operation(q.meterType)
    && "startDate" in s.request.variables
    && s.request.variables["startDate"] == JStr(q.startStr)
    && "accountNumber" in s.request.variables
    && s.request.variables["accountNumber"] == q.accountNumber
  }

  /** Request number `k` (from 1) is page `k`, every request is `SentFor` the query,
      and the progress counts never decrease. */
  predicate WellSent(q: Query, sent: seq<Sent>)
  {
    && (forall k :: 0 <= k < |sent| ==> sent[k].page == k + 1 && SentFor(q, sent[k]))
    && (forall j, k :: 0 <= j < k < |sent| ==> sent[j].collected <= sent[k].collected)
  }

  lemma WellSentSnoc(q: Query, sent: seq<Sent>, s: Sent)
    requires WellSent(q, sent)
    requires s.page == |sent| + 1 && SentFor(q, s)
    requires forall k :: 0 <= k < |sent| ==> sent[k].collected <= s.collected
    ensures WellSent(q, sent + [s])
  {
  }

  lemma {:induction false} PaginateFromSends(t: Tokens, now: int, q: Query, pages: seq<Result<Json>>, st: PageState, sent: seq<Sent>)
    requires |sent| <= |pages|
    requires WellSent(q, sent)
    requires forall k :: 0 <= k < |sent| ==> sent[k].collected <= |st.acc|
    ensures var f := PaginateFrom(t, now, q, pages, st, sent);
      f.Fetched? || f.Exhausted? ==>
        && |sent| <= |f.sent| && f.sent[..|sent|] == sent
        && WellSent(q, f.sent)
        && (forall k :: 0 <= k < |f.sent| ==> f.sent[k].collected <= |f.records|)
        && (|sent| < |f.sent| ==> f.sent[|sent|].request.variables == PageVariables(q, st.cursor))
    decreases |pages| - |sent|
  {
    if st.hasNext && |sent| < |pages| {
      var x := GraphqlRequest(t, now, true, Operation(q.meterType), PageVariables(q, st.cursor), pages[|sent|]);
      if x.Exchanged? && x.reply.Ok? {
        var s := Sent(|sent| + 1, |st.acc|, x.request);
        var sent' := sent + [s];
        WellSentSnoc(q, sent, s);
        var step := ProcessPage(x.reply.value, q, st);
        if step.Ok? && step.value.NextPage? {
          ProcessPageGrows(x.reply.value, q, st);
          PaginateFromSends(t, now, q, pages, step.value.st, sent');
          var f := PaginateFrom(t, now, q, pages, step.value.st, sent');
          if f.Fetched? || f.Exhausted? {
            assert f.sent[..|sent|] == f.sent[..|sent'|][..|sent|];
            assert f.sent[|sent|] == f.sent[..|sent'|][|sent|];
          }
        }
      }
    }
  }

  /** The requests of a whole fetch: numbered 1, 2, ... in order, all for the same
      operation, account and start date, the first without a cursor, and the progress
      counts never decrease. */
  lemma FetchSends(t: Tokens, now: int, q: Query, pages: seq<Result<Json>>)
    ensures var f := FetchSpec(t, now, q, pages);
      f.Fetched? || f.Exhausted? ==>
        && WellSent(q, f.sent)
        && (|f.sent| > 0 ==> "after" !in f.sent[0].request.variables)
  {
    PaginateFromSends(t, now, q, pages, InitialState, []);
  }

  // ---------------------------------------------------------------------------
  // The loops, as the client runs them.

  /** The edge loop of one matched meter. */
  method CollectEdges(edges: seq<Json>, endStr: string, acc0: seq<Json>) returns (r: Result<EdgeScan>)
    ensures r == EdgesFrom(edges, 0, endStr, acc0)
  {
    var acc := acc0;
    var stopped := false;
    var i := 0;
    while i < |edges|
      invariant i <= |edges|
      invariant EdgesFrom(edges, i, endStr, acc) == EdgesFrom(edges, 0, endStr, acc0)
    {
      var edge := edges[i];
      i := i + 1;
      if !Truthy(edge) {
        continue;
      }
      var node :- Get(edge, "node", JNull);
      if !Truthy(node) {
        continue;
      }
      var start :- Get(node, "startAt", JStr(""));
      if Truthy(start) {
        if !start.JStr? {
          return Err(TypeError("'<=' not supported between instances of '" + TypeName(start) + "' and 'str'"));
        }
        if LessEq(start.str, endStr) {
          acc := acc + [node];
        } else {
          stopped := true;
          break;
        }
      }
    }
    return Ok(EdgeScan(acc, stopped));
  }

  /** The loop over the meters of one meter point. */
  method ScanMeters(meters: seq<Json>, q: Query, st0: PageState) returns (r: Result<PageState>)
    ensures r == MetersFrom(meters, 0, q, st0)
  {
    var st := st0;
    var i := 0;
    while i < |meters|
      invariant i <= |meters|
      invariant st == st0
      invariant MetersFrom(meters, i, q, st0) == MetersFrom(meters, 0, q, st0)
    {
      var meter := meters[i];
      var matches := false;
      if Truthy(meter) {
        var id :- Get(meter, "id", JNull);
        matches := id == q.meterId;
      }
      if matches {
        var connection := Get(meter, "consumption", JNull).value;
        if !Truthy(connection) {
          st := st.(hasNext := false);
          break;
        }
        var listed :- Get(connection, "edges", JList([]));
        var edges :- Iter(listed);
        var scan :- CollectEdges(edges, q.endStr, st.acc);
        var hasNext := st.hasNext && !scan.stopped;
        var pageInfo := Get(connection, "pageInfo", JObj(map[])).value;
        var more :- Get(pageInfo, "hasNextPage", JBool(false));
        var cursor := Get(pageInfo, "endCursor", JNull).value;
        st := PageState(scan.acc, Truthy(more) && hasNext, cursor);
        break;
      }
      i := i + 1;
    }
    return Ok(st);
  }

  /** The loop over the agreements of one reply. */
  method ScanAgreements(agreements: seq<Json>, q: Query, st0: PageState) returns (r: Result<PageState>)
    ensures r == AgreementsFrom(agreements, 0, q, st0)
  {
    var st := st0;
    var i := 0;
    while i < |agreements|
      invariant i <= |agreements|
      invariant AgreementsFrom(agreements, i, q, st) == AgreementsFrom(agreements, 0, q, st0)
    {
      var meterPoint :- Get(agreements[i], "meterPoint", JNull);
      if !Truthy(meterPoint) {
        i := i + 1;
        continue;
      }
      var listed :- Get(meterPoint, "meters", JList([]));
      var meters :- Iter(listed);
      st :- ScanMeters(meters, q, st);
      i := i + 1;
    }
    return Ok(st);
  }

  /** One reply of the page loop: the `data`/`account` test and the agreements scan. */
  method ReadPage(result: Json, q: Query, st: PageState) returns (r: Result<PageStep>)
    ensures r == ProcessPage(result, q, st)
  {
    var hasData :- Contains("data", result);
    if !hasData {
      return Ok(EndOfData);
    }
    var data :- Index(result, "data");
    var hasAccount :- Contains("account", data);
    if !hasAccount {
      return Ok(EndOfData);
    }
    var account :- Index(data, "account");
    var listed :- Get(account, AgreementsKey(q.meterType), JList([]));
    var agreements :- Iter(listed);
    var st' :- ScanAgreements(agreements, q, st);
    return Ok(NextPage(st'));
  }
}
