/** The coordinator's update cycle: log in again when the token is not valid, then
    build one entry per (account, meter) holding the latest reading of the last seven
    days. Any exception ends the cycle as a single `UpdateFailed`. */
module Coordinator {
  import opened Strings
  import opened Json
  import opened Session
  import opened Accounts
  import opened Consumption
  import opened EonApi

  /** `timedelta(days=7)`, in seconds. */
  const Week := 7 * 24 * 60 * 60

  const ReauthFailed := "Failed to re-authenticate with E.ON Next"

  const UpdateFailedPrefix := "Error communicating with API: "

  /** The transport's replies to the requests of one cycle: to the login request, to
      the accounts query, to the meters query of an account, and to the successive page
      requests of the fetch for (account, meter id, meter type). */
  datatype Server = Server(
    login: Result<Json>,
    accounts: Result<Json>,
    meters: Json -> Result<Json>,
    consumption: (Json, Json, string) -> seq<Result<Json>>)

  /** One element of `data["meters"]`: the meter dict, its account and the latest reading. */
  datatype MeterEntry = MeterEntry(info: Meter, account: Json, latestReading: Option<Json>)

  /** The end of a cycle. `PagesRanOut` is the model's bound on a fetch that was still
      paging when its replies ran out. */
  datatype Cycle = Updated(meters: seq<MeterEntry>) | UpdateFailed(message: string) | PagesRanOut

  /** `raise UpdateFailed(f"Error communicating with API: {err}")`. */
  function Failed(e: Error): Cycle
  {
    UpdateFailed(UpdateFailedPrefix + Message(e))
  }

  // ---------------------------------------------------------------------------
  // `consumption.sort(key=lambda x: x['startAt'], reverse=True)`

  predicate HasStartAt(x: Json)
  {
    x.JObj? && "startAt" in x.obj && x.obj["startAt"].JStr?
  }

  function StartAt(x: Json): string
    requires HasStartAt(x)
  {
    x.obj["startAt"].str
  }

  predicate AllHaveStartAt(xs: seq<Json>)
  {
    forall k :: 0 <= k < |xs| ==> HasStartAt(xs[k])
  }

  /** Puts `x` in front of the first element that does not start strictly later, so
      that `x` stays ahead of later elements with the same `startAt`. */
  function Insert(x: Json, ys: seq<Json>): (r: seq<Json>)
    requires HasStartAt(x) && AllHaveStartAt(ys)
    ensures |r| == |ys| + 1
    ensures multiset(r) == multiset(ys) + multiset{x}
    ensures AllHaveStartAt(r)
  {
    if ys == [] || LessEq(StartAt(ys[0]), StartAt(x)) then [x] + ys
    else
      assert ys == [ys[0]] + ys[1..];
      [ys[0]] + Insert(x, ys[1..])
  }

  /** Python's stable sort on `startAt`, latest first. */
  function SortDesc(xs: seq<Json>): (r: seq<Json>)
    requires AllHaveStartAt(xs)
    ensures |r| == |xs|
    ensures multiset(r) == multiset(xs)
    ensures AllHaveStartAt(r)
  {
    if xs == [] then []
    else
      assert xs == [xs[0]] + xs[1..];
      Insert(xs[0], SortDesc(xs[1..]))
  }

  predicate SortedDesc(r: seq<Json>)
    requires AllHaveStartAt(r)
  {
    forall i, j :: 0 <= i < j < |r| ==> LessEq(StartAt(r[j]), StartAt(r[i]))
  }

  /** Inserting a record no later than `bound` into records no later than `bound`
      gives records no later than `bound`. */
  lemma {:induction false} InsertBounded(x: Json, ys: seq<Json>, bound: string)
    requires HasStartAt(x) && AllHaveStartAt(ys)
    requires LessEq(StartAt(x), bound)
    requires forall k :: 0 <= k < |ys| ==> LessEq(StartAt(ys[k]), bound)
    ensures forall k :: 0 <= k < |ys| + 1 ==> LessEq(StartAt(Insert(x, ys)[k]), bound)
  {
    if ys != [] && !LessEq(StartAt(ys[0]), StartAt(x)) {
      InsertBounded(x, ys[1..], bound);
      var r := Insert(x, ys);
      assert forall k :: 1 <= k < |ys| + 1 ==> r[k] == Insert(x, ys[1..])[k - 1];
    }
  }

  lemma {:induction false} InsertSorted(x: Json, ys: seq<Json>)
    requires HasStartAt(x) && AllHaveStartAt(ys) && SortedDesc(ys)
    ensures SortedDesc(Insert(x, ys))
  {
    var r := Insert(x, ys);
    if ys == [] || LessEq(StartAt(ys[0]), StartAt(x)) {
      forall i, j | 0 <= i < j < |r|
        ensures LessEq(StartAt(r[j]), StartAt(r[i]))
      {
        if i == 0 && j > 1 {
          LessEqTransitive(StartAt(ys[j - 1]), StartAt(ys[0]), StartAt(x));
        }
      }
    } else {
      var rest := Insert(x, ys[1..]);
      InsertSorted(x, ys[1..]);
      LessEqTotal(StartAt(x), StartAt(ys[0]));
      InsertBounded(x, ys[1..], StartAt(ys[0]));
      assert r == [ys[0]] + rest;
      forall i, j | 0 <= i < j < |r|
        ensures LessEq(StartAt(r[j]), StartAt(r[i]))
      {
        assert r[j] == rest[j - 1];
        if i > 0 {
          assert r[i] == rest[i - 1];
        }
      }
    }
  }

  /** The sort orders the records latest first and loses or adds none. */
  lemma {:induction false} SortDescSorted(xs: seq<Json>)
    requires AllHaveStartAt(xs)
    ensures SortedDesc(SortDesc(xs)) && multiset(SortDesc(xs)) == multiset(xs)
  {
    if xs != [] {
      SortDescSorted(xs[1..]);
      InsertSorted(xs[0], SortDesc(xs[1..]));
    }
  }

  /** Record `i` has the greatest `startAt` in string order, and every earlier record
      starts strictly before it. */
  predicate IsFirstLatest(xs: seq<Json>, i: int)
    requires AllHaveStartAt(xs)
  {
    && 0 <= i < |xs|
    && (forall k :: 0 <= k < |xs| ==> LessEq(StartAt(xs[k]), StartAt(xs[i])))
    && (forall k :: 0 <= k < i ==> Less(StartAt(xs[k]), StartAt(xs[i])))
  }

  lemma {:induction false} SortDescHead(xs: seq<Json>)
    requires xs != [] && AllHaveStartAt(xs)
    ensures exists i :: IsFirstLatest(xs, i) && SortDesc(xs)[0] == xs[i]
  {
    var x := xs[0];
    if |xs| == 1 {
      LessEqReflexive(StartAt(x));
      assert IsFirstLatest(xs, 0);
      return;
    }
    var tail := xs[1..];
    SortDescHead(tail);
    var i' :| IsFirstLatest(tail, i') && SortDesc(tail)[0] == tail[i'];
    assert SortDesc(xs) == Insert(x, SortDesc(tail));
    InsertHead(x, SortDesc(tail));
    if LessEq(StartAt(tail[i']), StartAt(x)) {
      FirstLatestHead(xs, i');
      assert SortDesc(xs)[0] == xs[0];
    } else {
      FirstLatestInTail(xs, i');
      assert SortDesc(xs)[0] == xs[i' + 1];
    }
  }

  lemma InsertHead(x: Json, ys: seq<Json>)
    requires HasStartAt(x) && AllHaveStartAt(ys)
    ensures Insert(x, ys)[0] == if ys == [] || LessEq(StartAt(ys[0]), StartAt(x)) then x else ys[0]
  {
  }

  /** The first record is the first latest when it starts no earlier than the tail's. */
  lemma FirstLatestHead(xs: seq<Json>, i': nat)
    requires |xs| > 1 && AllHaveStartAt(xs) && IsFirstLatest(xs[1..], i')
    requires LessEq(StartAt(xs[1..][i']), StartAt(xs[0]))
    ensures IsFirstLatest(xs, 0)
  {
    var tail := xs[1..];
    forall k | 0 <= k < |xs|
      ensures LessEq(StartAt(xs[k]), StartAt(xs[0]))
    {
      if k == 0 {
        LessEqReflexive(StartAt(xs[0]));
      } else {
        assert xs[k] == tail[k - 1];
        LessEqTransitive(StartAt(xs[k]), StartAt(tail[i']), StartAt(xs[0]));
      }
    }
  }

  /** Otherwise the tail's first latest is the whole list's. */
  lemma FirstLatestInTail(xs: seq<Json>, i': nat)
    requires |xs| > 1 && AllHaveStartAt(xs) && IsFirstLatest(xs[1..], i')
    requires !LessEq(StartAt(xs[1..][i']), StartAt(xs[0]))
    ensures IsFirstLatest(xs, i' + 1)
  {
    var tail := xs[1..];
    var top := tail[i'];
    LessEqTotal(StartAt(xs[0]), StartAt(top));
    forall k | 0 <= k < |xs|
      ensures LessEq(StartAt(xs[k]), StartAt(top))
    {
      if k > 0 {
        assert xs[k] == tail[k - 1];
      }
    }
    forall k | 0 <= k < i' + 1
      ensures Less(StartAt(xs[k]), StartAt(top))
    {
      if k > 0 {
        assert xs[k] == tail[k - 1];
      }
    }
  }

  /** `latest_reading`: `None` for no records, otherwise the head of the sorted list,
      which is the first record with the greatest `startAt`. */
  function LatestReading(records: seq<Json>): (r: Option<Json>)
    requires AllHaveStartAt(records)
    ensures r.None? <==> records == []
    ensures r.Some? ==> exists i :: IsFirstLatest(records, i) && r.value == records[i]
  {
    if records == [] then None
    else
      SortDescHead(records);
      Some(SortDesc(records)[0])
  }

  // ---------------------------------------------------------------------------
  // The cycle.

  /** The fetch of one meter: from seven days before `now` to `now`, both formatted by
      `fmt`. */
  function Window(account: Json, meter: Meter, now: int, fmt: int -> string): Query
  {
    Query(account, meter.id, meter.kind, fmt(now - Week), fmt(now))
  }

  function MeterFetch(t: Tokens, now: int, fmt: int -> string, server: Server, account: Json, meter: Meter): Fetch
  {
    FetchSpec(t, now, Window(account, meter, now, fmt), server.consumption(account, meter.id, meter.kind))
  }

  /** What the meter loop makes of one fetch: the latest reading, or the exception
      that ends the cycle, or the model's bound on pages. */
  datatype Reading = Read(latest: Option<Json>) | ReadFailed(error: Error) | ReadRanOut

  function ReadingOf(f: Fetch): Reading
  {
    match f
    case Raised(e) => ReadFailed(e)
    case Exhausted(_, _) => ReadRanOut
    case Fetched(records, _) =>
      // The sort raises on a record without a string `startAt`; the client's fetches
      // return none (`CycleReadLatest`).
      if !AllHaveStartAt(records) then ReadFailed(KeyError("startAt"))
      else Read(LatestReading(records))
  }

  /** The readings of one cycle, as a function of (account, meter). */
  function CycleRead(t: Tokens, now: int, fmt: int -> string, server: Server): (Json, Meter) -> Reading
  {
    (account: Json, meter: Meter) => ReadingOf(MeterFetch(t, now, fmt, server, account, meter))
  }

  /** The meters queries of one cycle, as a function of the account. */
  function CycleMeters(t: Tokens, now: int, server: Server): Json -> Result<seq<Meter>>
  {
    (account: Json) => MetersSpec(t, now, account, server.meters(account))
  }

  /** A meter's reading is read exactly when its fetch succeeded; its records then all
      carry a string `startAt`, so the sort never raises, and the reading is the latest
      of them. A failed fetch fails the reading with the same exception. */
  lemma CycleReadLatest(t: Tokens, now: int, fmt: int -> string, server: Server, account: Json, meter: Meter)
    ensures var f := MeterFetch(t, now, fmt, server, account, meter);
      var r := CycleRead(t, now, fmt, server)(account, meter);
      && (r.Read? <==> f.Fetched?)
      && (f.Fetched? ==> AllHaveStartAt(f.records) && r.latest == LatestReading(f.records))
      && (f.Raised? ==> r == ReadFailed(f.error))
      && (f.Exhausted? <==> r == ReadRanOut)
  {
    var f := MeterFetch(t, now, fmt, server, account, meter);
    if f.Fetched? {
      assert forall k :: 0 <= k < |f.records| ==> InWindowRecord(f.records[k], fmt(now));
    }
  }

  datatype Outcome = Entries(entries: seq<MeterEntry>) | Aborted(error: Error) | OutOfPages

  /** The meter loop of one account, from the `j`-th meter on. */
  function EntriesFrom(read: (Json, Meter) -> Reading, account: Json, meters: seq<Meter>, j: nat, acc: seq<MeterEntry>): Outcome
    decreases |meters| - j
  {
    if j >= |meters| then Entries(acc)
    else
      match read(account, meters[j])
      case ReadFailed(e) => Aborted(e)
      case ReadRanOut => OutOfPages
      case Read(latest) => EntriesFrom(read, account, meters, j + 1, acc + [MeterEntry(meters[j], account, latest)])
  }

  /** The account loop, from the `i`-th account on. */
  function AccountsFrom(listMeters: Json -> Result<seq<Meter>>, read: (Json, Meter) -> Reading,
                        accounts: seq<Json>, i: nat, acc: seq<MeterEntry>): Outcome
    decreases |accounts| - i
  {
    if i >= |accounts| then Entries(acc)
    else
      match AccountStep(listMeters, read, accounts[i], acc)
      case Entries(acc') => AccountsFrom(listMeters, read, accounts, i + 1, acc')
      case Aborted(e) => Aborted(e)
      case OutOfPages => OutOfPages
  }

  /** One pass of the account loop: list the account's meters, then run the meter loop. */
  function AccountStep(listMeters: Json -> Result<seq<Meter>>, read: (Json, Meter) -> Reading,
                       account: Json, acc: seq<MeterEntry>): Outcome
  {
    match listMeters(account)
    case Err(e) => Aborted(e)
    case Ok(meters) => EntriesFrom(read, account, meters, 0, acc)
  }

  /** The account loop of one cycle over the listed `accounts`. */
  function CycleOutcome(t: Tokens, now: int, fmt: int -> string, server: Server, accounts: seq<Json>): Outcome
  {
    AccountsFrom(CycleMeters(t, now, server), CycleRead(t, now, fmt, server), accounts, 0, [])
  }

  /** `_async_update_data` for the client's token fields `t`, the clock reading `now`
      and the server's replies; the result pairs the new token fields with the cycle's
      end. A valid token is not refreshed; an invalid one triggers `login`, and a login
      that finds no token fails the cycle. Every failure carries the same prefix. */
  function CycleSpec(t: Tokens, now: int, fmt: int -> string, server: Server): (out: (Tokens, Cycle))
    ensures TokenValid(t.authToken, t.tokenExpires, now) == Ok(true) ==> out.0 == t
    ensures TokenValid(t.authToken, t.tokenExpires, now) == Ok(false) ==> out.0 == LoginSpec(t, server.login).0
    ensures TokenValid(t.authToken, t.tokenExpires, now) == Ok(false) && LoginSpec(t, server.login).1 == Ok(false) ==>
      out.1 == UpdateFailed(UpdateFailedPrefix + ReauthFailed)
    ensures out.1.UpdateFailed? ==> UpdateFailedPrefix <= out.1.message
  {
    match TokenValid(t.authToken, t.tokenExpires, now)
    case Err(e) => (t, Failed(e))
    case Ok(valid) =>
      var (t', login) := if valid then (t, Ok(true)) else LoginSpec(t, server.login);
      match login
      case Err(e) => (t', Failed(e))
      case Ok(false) => (t', Failed(Failure(ReauthFailed)))
      case Ok(true) =>
        match AccountNumbersSpec(t', now, server.accounts)
        case Err(e) => (t', Failed(e))
        case Ok(accounts) =>
          match CycleOutcome(t', now, fmt, server, accounts)
          case Entries(es) => (t', Updated(es))
          case Aborted(e) => (t', Failed(e))
          case OutOfPages => (t', PagesRanOut)
  }

  // ---------------------------------------------------------------------------
  // What a successful cycle returns.

  /** The (account, meter) pairs listed for `accounts[i..]`, in account order, then
      meter order. */
  function ListedPairs(listMeters: Json -> Result<seq<Meter>>, accounts: seq<Json>, i: nat): seq<(Json, Meter)>
    decreases |accounts| - i
  {
    if i >= |accounts| then []
    else
      (match listMeters(accounts[i])
       case Ok(ms) => Pairs(accounts[i], ms)
       case Err(_) => [])
      + ListedPairs(listMeters, accounts, i + 1)
  }

  /** Each of `meters` paired with the account that lists it. */
  function Pairs(account: Json, meters: seq<Meter>): (ps: seq<(Json, Meter)>)
    ensures |ps| == |meters|
    ensures forall j :: 0 <= j < |ps| ==> ps[j] == (account, meters[j])
  {
    if meters == [] then [] else [(account, meters[0])] + Pairs(account, meters[1..])
  }

  /** `e` is the entry of `meter` listed under `account`: that meter, that account, and
      the reading made of its fetch. */
  predicate EntryFor(e: MeterEntry, read: (Json, Meter) -> Reading, account: Json, meter: Meter)
  {
    read(account, meter).Read? && e == MeterEntry(meter, account, read(account, meter).latest)
  }

  /** Every pair's reading succeeded. */
  predicate AllRead(read: (Json, Meter) -> Reading, ps: seq<(Json, Meter)>)
  {
    ps != [] ==> read(ps[0].0, ps[0].1).Read? && AllRead(read, ps[1..])
  }

  /** The entries of the pairs `ps`, in order. */
  function EntriesOf(read: (Json, Meter) -> Reading, ps: seq<(Json, Meter)>): seq<MeterEntry>
  {
    if ps == [] then []
    else
      var r := read(ps[0].0, ps[0].1);
      [MeterEntry(ps[0].1, ps[0].0, if r.Read? then r.latest else None)] + EntriesOf(read, ps[1..])
  }

  lemma {:induction false} EntriesOfConcat(read: (Json, Meter) -> Reading, p1: seq<(Json, Meter)>, p2: seq<(Json, Meter)>)
    ensures EntriesOf(read, p1 + p2) == EntriesOf(read, p1) + EntriesOf(read, p2)
    ensures AllRead(read, p1 + p2) <==> AllRead(read, p1) && AllRead(read, p2)
  {
    if p1 != [] {
      assert (p1 + p2)[0] == p1[0] && (p1 + p2)[1..] == p1[1..] + p2;
      EntriesOfConcat(read, p1[1..], p2);
    } else {
      assert p1 + p2 == p2;
    }
  }

  /** Each entry of `EntriesOf` is the entry of its own pair. */
  lemma {:induction false} EntriesOfPointwise(read: (Json, Meter) -> Reading, ps: seq<(Json, Meter)>)
    requires AllRead(read, ps)
    ensures |EntriesOf(read, ps)| == |ps|
    ensures forall n :: 0 <= n < |ps| ==> EntryFor(EntriesOf(read, ps)[n], read, ps[n].0, ps[n].1)
  {
    if ps != [] {
      EntriesOfPointwise(read, ps[1..]);
      forall n | 1 <= n < |ps|
        ensures EntryFor(EntriesOf(read, ps)[n], read, ps[n].0, ps[n].1)
      {
        assert EntriesOf(read, ps)[n] == EntriesOf(read, ps[1..])[n - 1];
        assert ps[n] == ps[1..][n - 1];
      }
    }
  }

  /** The meter loop from the `j`-th meter on appends the entries of the remaining
      meters' pairs, and succeeds only when every one of their fetches did. */
  lemma {:induction false} EntriesFromPairs(read: (Json, Meter) -> Reading, account: Json,
                                           meters: seq<Meter>, j: nat, acc: seq<MeterEntry>)
    requires j <= |meters|
    requires EntriesFrom(read, account, meters, j, acc).Entries?
    ensures AllRead(read, Pairs(account, meters[j..]))
    ensures EntriesFrom(read, account, meters, j, acc).entries == acc + EntriesOf(read, Pairs(account, meters[j..]))
    decreases |meters| - j
  {
    if j == |meters| {
      assert meters[j..] == [];
    } else {
      var acc' := acc + [MeterEntry(meters[j], account, read(account, meters[j]).latest)];
      EntriesFromPairs(read, account, meters, j + 1, acc');
      assert meters[j..][0] == meters[j] && meters[j..][1..] == meters[j + 1..];
    }
  }

  /** The account loop from the `i`-th account on appends the entries of the remaining
      accounts' pairs, and succeeds only when every meter list and every fetch did. */
  lemma {:induction false} AccountsFromPairs(listMeters: Json -> Result<seq<Meter>>, read: (Json, Meter) -> Reading,
                                            accounts: seq<Json>, i: nat, acc: seq<MeterEntry>)
    requires i <= |accounts|
    requires AccountsFrom(listMeters, read, accounts, i, acc).Entries?
    ensures forall k :: i <= k < |accounts| ==> listMeters(accounts[k]).Ok?
    ensures AllRead(read, ListedPairs(listMeters, accounts, i))
    ensures AccountsFrom(listMeters, read, accounts, i, acc).entries == acc + EntriesOf(read, ListedPairs(listMeters, accounts, i))
    decreases |accounts| - i
  {
    if i < |accounts| {
      AccountStepPairs(listMeters, read, accounts[i], acc);
      var acc' := AccountStep(listMeters, read, accounts[i], acc).entries;
      AccountsFromPairs(listMeters, read, accounts, i + 1, acc');
      EntriesOfConcat(read, Pairs(accounts[i], listMeters(accounts[i]).value), ListedPairs(listMeters, accounts, i + 1));
    }
  }

  /** One pass of the account loop that succeeds listed the account's meters and
      appended the entries of its pairs. */
  lemma AccountStepPairs(listMeters: Json -> Result<seq<Meter>>, read: (Json, Meter) -> Reading,
                         account: Json, acc: seq<MeterEntry>)
    requires AccountStep(listMeters, read, account, acc).Entries?
    ensures listMeters(account).Ok?
    ensures AllRead(read, Pairs(account, listMeters(account).value))
    ensures AccountStep(listMeters, read, account, acc).entries == acc + EntriesOf(read, Pairs(account, listMeters(account).value))
  {
    var meters := listMeters(account).value;
    EntriesFromPairs(read, account, meters, 0, acc);
    assert meters[0..] == meters;
  }

  /** The account loop of a cycle, when it succeeds, returns exactly one entry per
      listed (account, meter) pair, in order, each built from that pair's own fetch. */
  lemma OutcomePairs(t: Tokens, now: int, fmt: int -> string, server: Server, accounts: seq<Json>)
    requires CycleOutcome(t, now, fmt, server, accounts).Entries?
    ensures var es := CycleOutcome(t, now, fmt, server, accounts).entries;
      && (forall k :: 0 <= k < |accounts| ==> MetersSpec(t, now, accounts[k], server.meters(accounts[k])).Ok?)
      && var ps := ListedPairs(CycleMeters(t, now, server), accounts, 0);
      && |es| == |ps|
      && forall n :: 0 <= n < |ps| ==> EntryFor(es[n], CycleRead(t, now, fmt, server), ps[n].0, ps[n].1)
  {
    var listMeters := CycleMeters(t, now, server);
    var read := CycleRead(t, now, fmt, server);
    AccountsFromPairs(listMeters, read, accounts, 0, []);
    var ps := ListedPairs(listMeters, accounts, 0);
    EntriesOfPointwise(read, ps);
    assert CycleOutcome(t, now, fmt, server, accounts).entries == EntriesOf(read, ps);
    forall k | 0 <= k < |accounts|
      ensures MetersSpec(t, now, accounts[k], server.meters(accounts[k])).Ok?
    {
      assert listMeters(accounts[k]).Ok?;
    }
  }

  /** A cycle that succeeds returns exactly one entry per (account, meter) pair, in
      account order, then meter order, each built from that meter's own fetch of the
      seven days before `now`. It succeeds only when the accounts query, every meters
      query and every fetch succeeded: one failure anywhere leaves no partial list. */
  lemma UpdatedEntries(t: Tokens, now: int, fmt: int -> string, server: Server)
    requires CycleSpec(t, now, fmt, server).1.Updated?
    ensures var (t', cycle) := CycleSpec(t, now, fmt, server);
      && AccountNumbersSpec(t', now, server.accounts).Ok?
      && var accounts := AccountNumbersSpec(t', now, server.accounts).value;
      && (forall k :: 0 <= k < |accounts| ==> MetersSpec(t', now, accounts[k], server.meters(accounts[k])).Ok?)
      && var ps := ListedPairs(CycleMeters(t', now, server), accounts, 0);
      && |cycle.meters| == |ps|
      && forall n :: 0 <= n < |ps| ==> EntryFor(cycle.meters[n], CycleRead(t', now, fmt, server), ps[n].0, ps[n].1)
  {
    var t' := CycleSpec(t, now, fmt, server).0;
    CycleUpdated(t, now, fmt, server);
    OutcomePairs(t', now, fmt, server, AccountNumbersSpec(t', now, server.accounts).value);
  }

  /** A cycle that updates got its account list and every account's entries. */
  lemma CycleUpdated(t: Tokens, now: int, fmt: int -> string, server: Server)
    requires CycleSpec(t, now, fmt, server).1.Updated?
    ensures var (t', cycle) := CycleSpec(t, now, fmt, server);
      && AccountNumbersSpec(t', now, server.accounts).Ok?
      && CycleOutcome(t', now, fmt, server, AccountNumbersSpec(t', now, server.accounts).value) == Entries(cycle.meters)
  {
  }

  // ---------------------------------------------------------------------------
  // When a cycle succeeds, and how it fails.

  /** The meter loop succeeds when every remaining meter's reading does. */
  lemma {:induction false} EntriesFromSucceeds(read: (Json, Meter) -> Reading, account: Json,
                                              meters: seq<Meter>, j: nat, acc: seq<MeterEntry>)
    requires j <= |meters|
    requires AllRead(read, Pairs(account, meters[j..]))
    ensures EntriesFrom(read, account, meters, j, acc) == Entries(acc + EntriesOf(read, Pairs(account, meters[j..])))
    decreases |meters| - j
  {
    if j == |meters| {
      assert meters[j..] == [];
      assert acc + [] == acc;
    } else {
      assert meters[j..][0] == meters[j] && meters[j..][1..] == meters[j + 1..];
      var e := MeterEntry(meters[j], account, read(account, meters[j]).latest);
      EntriesFromSucceeds(read, account, meters, j + 1, acc + [e]);
      assert acc + [e] + EntriesOf(read, Pairs(account, meters[j + 1..])) == acc + ([e] + EntriesOf(read, Pairs(account, meters[j + 1..])));
    }
  }

  /** The account loop succeeds when every remaining account's meter list and every
      listed meter's reading does. */
  lemma {:induction false} AccountsFromSucceeds(listMeters: Json -> Result<seq<Meter>>, read: (Json, Meter) -> Reading,
                                               accounts: seq<Json>, i: nat, acc: seq<MeterEntry>)
    requires i <= |accounts|
    requires forall k :: i <= k < |accounts| ==> listMeters(accounts[k]).Ok?
    requires AllRead(read, ListedPairs(listMeters, accounts, i))
    ensures AccountsFrom(listMeters, read, accounts, i, acc) == Entries(acc + EntriesOf(read, ListedPairs(listMeters, accounts, i)))
    decreases |accounts| - i
  {
    if i == |accounts| {
      assert acc + [] == acc;
    } else {
      var meters := listMeters(accounts[i]).value;
      var here := Pairs(accounts[i], meters);
      var rest := ListedPairs(listMeters, accounts, i + 1);
      EntriesOfConcat(read, here, rest);
      assert meters[0..] == meters;
      EntriesFromSucceeds(read, accounts[i], meters, 0, acc);
      AccountsFromSucceeds(listMeters, read, accounts, i + 1, acc + EntriesOf(read, here));
      assert acc + EntriesOf(read, here) + EntriesOf(read, rest) == acc + (EntriesOf(read, here) + EntriesOf(read, rest));
    }
  }

  /** Every pair whose reading succeeds, one by one, makes `AllRead`. */
  lemma {:induction false} AllReadPointwise(read: (Json, Meter) -> Reading, ps: seq<(Json, Meter)>)
    requires forall n :: 0 <= n < |ps| ==> read(ps[n].0, ps[n].1).Read?
    ensures AllRead(read, ps)
  {
    if ps != [] {
      assert forall n :: 0 <= n < |ps| - 1 ==> ps[1..][n] == ps[n + 1];
      AllReadPointwise(read, ps[1..]);
    }
  }

  /** The cycle got past the token check: the token was valid, or login returned True. */
  predicate LoggedIn(t: Tokens, now: int, server: Server)
  {
    || TokenValid(t.authToken, t.tokenExpires, now) == Ok(true)
    || (TokenValid(t.authToken, t.tokenExpires, now) == Ok(false) && LoginSpec(t, server.login).1 == Ok(true))
  }

  /** The converse of `UpdatedEntries`: a cycle that logs in, gets its account list and
      every account's meter list, and fetches every meter to the end, updates with one
      entry per (account, meter) pair, in order. */
  lemma CycleSucceeds(t: Tokens, now: int, fmt: int -> string, server: Server)
    requires LoggedIn(t, now, server)
    requires var t' := CycleSpec(t, now, fmt, server).0;
      && AccountNumbersSpec(t', now, server.accounts).Ok?
      && var accounts := AccountNumbersSpec(t', now, server.accounts).value;
      && (forall k :: 0 <= k < |accounts| ==> MetersSpec(t', now, accounts[k], server.meters(accounts[k])).Ok?)
      && var ps := ListedPairs(CycleMeters(t', now, server), accounts, 0);
      && AllFetched(t', now, fmt, server, ps)
    ensures var t' := CycleSpec(t, now, fmt, server).0;
      var accounts := AccountNumbersSpec(t', now, server.accounts).value;
      CycleSpec(t, now, fmt, server).1
        == Updated(EntriesOf(CycleRead(t', now, fmt, server), ListedPairs(CycleMeters(t', now, server), accounts, 0)))
  {
    var t' := CycleSpec(t, now, fmt, server).0;
    var accounts := AccountNumbersSpec(t', now, server.accounts).value;
    var ps := ListedPairs(CycleMeters(t', now, server), accounts, 0);
    ReadsSucceed(t', now, fmt, server, ps);
    OutcomeSucceeds(t', now, fmt, server, accounts);
    CycleOfOutcome(t, now, fmt, server);
  }

  /** Every pair's fetch ended normally. */
  predicate AllFetched(t: Tokens, now: int, fmt: int -> string, server: Server, ps: seq<(Json, Meter)>)
  {
    forall n :: 0 <= n < |ps| ==> MeterFetch(t, now, fmt, server, ps[n].0, ps[n].1).Fetched?
  }

  /** Every fetch that ends normally gives a reading. */
  lemma ReadsSucceed(t: Tokens, now: int, fmt: int -> string, server: Server, ps: seq<(Json, Meter)>)
    requires AllFetched(t, now, fmt, server, ps)
    ensures AllRead(CycleRead(t, now, fmt, server), ps)
  {
    var read := CycleRead(t, now, fmt, server);
    forall n | 0 <= n < |ps|
      ensures read(ps[n].0, ps[n].1).Read?
    {
      CycleReadLatest(t, now, fmt, server, ps[n].0, ps[n].1);
    }
    AllReadPointwise(read, ps);
  }

  lemma OutcomeSucceeds(t: Tokens, now: int, fmt: int -> string, server: Server, accounts: seq<Json>)
    requires forall k :: 0 <= k < |accounts| ==> MetersSpec(t, now, accounts[k], server.meters(accounts[k])).Ok?
    requires AllRead(CycleRead(t, now, fmt, server), ListedPairs(CycleMeters(t, now, server), accounts, 0))
    ensures CycleOutcome(t, now, fmt, server, accounts)
      == Entries(EntriesOf(CycleRead(t, now, fmt, server), ListedPairs(CycleMeters(t, now, server), accounts, 0)))
  {
    MetersListed(t, now, server, accounts);
    AccountLoopSucceeds(CycleMeters(t, now, server), CycleRead(t, now, fmt, server), accounts);
  }

  /** The whole account loop, started with no entries. */
  lemma AccountLoopSucceeds(listMeters: Json -> Result<seq<Meter>>, read: (Json, Meter) -> Reading, accounts: seq<Json>)
    requires forall k :: 0 <= k < |accounts| ==> listMeters(accounts[k]).Ok?
    requires AllRead(read, ListedPairs(listMeters, accounts, 0))
    ensures AccountsFrom(listMeters, read, accounts, 0, []) == Entries(EntriesOf(read, ListedPairs(listMeters, accounts, 0)))
  {
    var empty: seq<MeterEntry> := [];
    AccountsFromSucceeds(listMeters, read, accounts, 0, empty);
    var es := EntriesOf(read, ListedPairs(listMeters, accounts, 0));
    assert empty + es == es;
  }

  /** Every meters query that succeeds is a meter list of the cycle. */
  lemma MetersListed(t: Tokens, now: int, server: Server, accounts: seq<Json>)
    requires forall k :: 0 <= k < |accounts| ==> MetersSpec(t, now, accounts[k], server.meters(accounts[k])).Ok?
    ensures forall k :: 0 <= k < |accounts| ==> CycleMeters(t, now, server)(accounts[k]).Ok?
  {
  }

  /** Once logged in with an account list, the cycle ends as its account loop does:
      the entries, or the loop's exception behind the common prefix. */
  lemma CycleOfOutcome(t: Tokens, now: int, fmt: int -> string, server: Server)
    requires LoggedIn(t, now, server)
    requires AccountNumbersSpec(CycleSpec(t, now, fmt, server).0, now, server.accounts).Ok?
    ensures var t' := CycleSpec(t, now, fmt, server).0;
      var accounts := AccountNumbersSpec(t', now, server.accounts).value;
      CycleSpec(t, now, fmt, server).1 ==
        match CycleOutcome(t', now, fmt, server, accounts)
        case Entries(es) => Updated(es)
        case Aborted(e) => Failed(e)
        case OutOfPages => PagesRanOut
  {
  }

  /** Each step's exception ends the cycle as `UpdateFailed` with the common prefix
      followed by that exception's message: the token check, the login, the accounts
      query, and (`CycleOfOutcome`) the account loop. */
  lemma CycleFailures(t: Tokens, now: int, fmt: int -> string, server: Server)
    ensures var tv := TokenValid(t.authToken, t.tokenExpires, now);
      var login := LoginSpec(t, server.login);
      var t' := CycleSpec(t, now, fmt, server).0;
      var c := CycleSpec(t, now, fmt, server).1;
      && (tv.Err? ==> c == UpdateFailed(UpdateFailedPrefix + Message(tv.error)))
      && (tv == Ok(false) && login.1.Err? ==> c == UpdateFailed(UpdateFailedPrefix + Message(login.1.error)))
      && (LoggedIn(t, now, server) && AccountNumbersSpec(t', now, server.accounts).Err? ==>
            c == UpdateFailed(UpdateFailedPrefix + Message(AccountNumbersSpec(t', now, server.accounts).error)))
  {
  }

  /** The reading of one of the pairs `ps` failed with `e`. */
  predicate SomeReadFailed(read: (Json, Meter) -> Reading, ps: seq<(Json, Meter)>, e: Error)
  {
    exists n :: 0 <= n < |ps| && read(ps[n].0, ps[n].1) == ReadFailed(e)
  }

  /** The account loop aborts only with the exception of a meters query or of a fetch
      (or of the sort) of a listed meter. */
  lemma {:induction false} AccountsFromAborted(listMeters: Json -> Result<seq<Meter>>, read: (Json, Meter) -> Reading,
                                              accounts: seq<Json>, i: nat, acc: seq<MeterEntry>)
    requires AccountsFrom(listMeters, read, accounts, i, acc).Aborted?
    ensures var e := AccountsFrom(listMeters, read, accounts, i, acc).error;
      || (exists k :: i <= k < |accounts| && listMeters(accounts[k]) == Err(e))
      || SomeReadFailed(read, ListedPairs(listMeters, accounts, i), e)
    decreases |accounts| - i
  {
    var e := AccountsFrom(listMeters, read, accounts, i, acc).error;
    var ps := ListedPairs(listMeters, accounts, i);
    match listMeters(accounts[i])
    case Err(_) =>
    case Ok(meters) =>
      var here := Pairs(accounts[i], meters);
      var rest := ListedPairs(listMeters, accounts, i + 1);
      assert ps == here + rest;
      match EntriesFrom(read, accounts[i], meters, 0, acc)
      case Aborted(_) =>
        assert meters[0..] == meters;
        var j := EntriesFromAborted(read, accounts[i], meters, 0, acc);
        assert e == EntriesFrom(read, accounts[i], meters, 0, acc).error;
        assert ps[j] == here[j] == (accounts[i], meters[j]);
        assert 0 <= j < |ps| && read(ps[j].0, ps[j].1) == ReadFailed(e);
        assert SomeReadFailed(read, ps, e);
      case Entries(acc') =>
        AccountsFromAborted(listMeters, read, accounts, i + 1, acc');
        assert AccountsFrom(listMeters, read, accounts, i + 1, acc').error == e;
        if SomeReadFailed(read, rest, e) {
          var n :| 0 <= n < |rest| && read(rest[n].0, rest[n].1) == ReadFailed(e);
          var m := |here| + n;
          assert ps[m] == rest[n];
          assert 0 <= m < |ps| && read(ps[m].0, ps[m].1) == ReadFailed(e);
          assert SomeReadFailed(read, ps, e);
        } else {
          var k :| i + 1 <= k < |accounts| && listMeters(accounts[k]) == Err(e);
          assert i <= k;
        }
  }

  /** The index, among the meters from the `j`-th on, of the meter whose reading failed. */
  lemma {:induction false} EntriesFromAborted(read: (Json, Meter) -> Reading, account: Json,
                                             meters: seq<Meter>, j: nat, acc: seq<MeterEntry>) returns (n: nat)
    requires j <= |meters|
    requires EntriesFrom(read, account, meters, j, acc).Aborted?
    ensures n < |meters| - j
    ensures Pairs(account, meters[j..])[n] == (account, meters[j + n])
    ensures read(account, meters[j + n]) == ReadFailed(EntriesFrom(read, account, meters, j, acc).error)
    decreases |meters| - j
  {
    if read(account, meters[j]).ReadFailed? {
      n := 0;
    } else {
      var n' := EntriesFromAborted(read, account, meters, j + 1, acc + [MeterEntry(meters[j], account, read(account, meters[j]).latest)]);
      n := n' + 1;
    }
  }

  // ---------------------------------------------------------------------------
  // The coordinator object.

  class EonNextCoordinator {
    const api: EonNextApi
    /** The credentials the login request carries; the model takes that request's reply
        from the `Server`. */
    const username: string
    const password: string
    /** `data["meters"]`. */
    var meters: seq<MeterEntry>

    constructor (api: EonNextApi, username: string, password: string)
      ensures this.api == api && this.username == username && this.password == password
      ensures meters == []
    {
      this.api := api;
      this.username := username;
      this.password := password;
      meters := [];
    }

    /** The meter loop of `_async_update_data` for one account, appending to `all`. */
    method MeterEntries(now: int, fmt: int -> string, server: Server, account: Json,
                        accountMeters: seq<Meter>, all0: seq<MeterEntry>) returns (o: Outcome)
      ensures o == EntriesFrom(CycleRead(api.TokenState(), now, fmt, server), account, accountMeters, 0, all0)
    {
      var all := all0;
      var j := 0;
      while j < |accountMeters|
        invariant j <= |accountMeters|
        invariant EntriesFrom(CycleRead(api.TokenState(), now, fmt, server), account, accountMeters, j, all)
               == EntriesFrom(CycleRead(api.TokenState(), now, fmt, server), account, accountMeters, 0, all0)
      {
        var meter := accountMeters[j];
        var consumption := api.GetConsumptionData(now, Window(account, meter, now, fmt), server.consumption(account, meter.id, meter.kind));
        CycleReadLatest(api.TokenState(), now, fmt, server, account, meter);
        if consumption.Raised? {
          return Aborted(consumption.error);
        }
        if consumption.Exhausted? {
          return OutOfPages;
        }
        var latestReading := None;
        if consumption.records != [] {
          var sorted := SortDesc(consumption.records);
          latestReading := Some(sorted[0]);
        }
        all := all + [MeterEntry(meter, account, latestReading)];
        j := j + 1;
      }
      return Entries(all);
    }

    /** One pass of the account loop of `_async_update_data`. */
    method AccountEntries(now: int, fmt: int -> string, server: Server, account: Json,
                          all0: seq<MeterEntry>) returns (o: Outcome)
      ensures o == AccountStep(CycleMeters(api.TokenState(), now, server), CycleRead(api.TokenState(), now, fmt, server), account, all0)
    {
      var listed := api.GetMeters(now, account, server.meters(account));
      if listed.Err? {
        return Aborted(listed.error);
      }
      o := MeterEntries(now, fmt, server, account, listed.value, all0);
    }

    /** The account loop of `_async_update_data`; the first failure ends it. */
    method AccountLoop(now: int, fmt: int -> string, server: Server, accounts: seq<Json>) returns (o: Outcome)
      ensures o == CycleOutcome(api.TokenState(), now, fmt, server, accounts)
    {
      var all: seq<MeterEntry> := [];
      var i := 0;
      while i < |accounts|
        invariant i <= |accounts|
        invariant AccountsFrom(CycleMeters(api.TokenState(), now, server), CycleRead(api.TokenState(), now, fmt, server), accounts, i, all)
               == CycleOutcome(api.TokenState(), now, fmt, server, accounts)
      {
        var entries := AccountEntries(now, fmt, server, accounts[i], all);
        match entries {
          case Aborted(e) => return Aborted(e);
          case OutOfPages => return OutOfPages;
          case Entries(es) => all := es;
        }
        i := i + 1;
      }
      return Entries(all);
    }

    /** `_async_update_data`: changes nothing but the client's token fields. */
    method AsyncUpdateData(now: int, fmt: int -> string, server: Server) returns (c: Cycle)
      modifies api
      ensures (api.TokenState(), c) == CycleSpec(old(api.TokenState()), now, fmt, server)
    {
      var valid := api.IsTokenValid(now);
      if valid.Err? {
        return Failed(valid.error);
      }
      if !valid.value {
        var loggedIn := api.Login(server.login);
        if loggedIn.Err? {
          return Failed(loggedIn.error);
        }
        if !loggedIn.value {
          return Failed(Failure(ReauthFailed));
        }
      }
      var accountNumbers := api.GetAccountNumbers(now, server.accounts);
      if accountNumbers.Err? {
        return Failed(accountNumbers.error);
      }
      var outcome := AccountLoop(now, fmt, server, accountNumbers.value);
      match outcome {
        case Entries(es) => return Updated(es);
        case Aborted(e) => return Failed(e);
        case OutOfPages => return PagesRanOut;
      }
    }
  }
}
