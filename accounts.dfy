/** Account discovery and the meter listing: the `headerGetLoggedInUser` reply becomes
    the list of account numbers, and the nested property / meter-point / meter tree of
    the `getAccountMeterSelector` reply becomes a flat list of type-tagged meters. */
module Accounts {
  import opened Json
  import opened Session

  const AccountsOperation := "headerGetLoggedInUser"
  const MetersOperation := "getAccountMeterSelector"

  function MetersVariables(accountNumber: Json): map<string, Json>
  {
    map["accountNumber" := accountNumber, "showInactive" := JBool(false)]
  }

  /** `[acc["number"] for acc in accounts]`: one number per account, in reply order;
      the first account without a number raises. */
  function Numbers(accounts: seq<Json>): (r: Result<seq<Json>>)
    ensures r.Ok? <==> forall i :: 0 <= i < |accounts| ==> Index(accounts[i], "number").Ok?
    ensures r.Ok? ==> |r.value| == |accounts|
    ensures r.Ok? ==> forall i :: 0 <= i < |accounts| ==> Index(accounts[i], "number") == Ok(r.value[i])
  {
    if accounts == [] then Ok([])
    else
      var n :- Index(accounts[0], "number");
      var rest :- Numbers(accounts[1..]);
      assert forall i :: 1 <= i < |accounts| ==> accounts[i] == accounts[1..][i - 1];
      Ok([n] + rest)
  }

  /** The account numbers carried by a `headerGetLoggedInUser` reply; a reply without
      `data` or `data.viewer` raises "Failed to retrieve accounts". */
  function AccountsReply(result: Json): (r: Result<seq<Json>>)
    ensures Contains("data", result) == Ok(false) ==> r == Err(Failure("Failed to retrieve accounts"))
    ensures Index(result, "data").Ok? && Contains("viewer", result.obj["data"]) == Ok(false) ==>
      r == Err(Failure("Failed to retrieve accounts"))
    ensures r.Ok? ==>
      && Path(result, ["data", "viewer", "accounts"]).Ok?
      && Iter(Path(result, ["data", "viewer", "accounts"]).value).Ok?
      && var accounts := Iter(Path(result, ["data", "viewer", "accounts"]).value).value;
      && |r.value| == |accounts|
      && forall i :: 0 <= i < |accounts| ==> Index(accounts[i], "number") == Ok(r.value[i])
    ensures Path(result, ["data", "viewer", "accounts"]).Ok? && Iter(Path(result, ["data", "viewer", "accounts"]).value).Ok? ==>
      r == Numbers(Iter(Path(result, ["data", "viewer", "accounts"]).value).value)
  {
    var hasData :- Contains("data", result);
    if !hasData then Err(Failure("Failed to retrieve accounts"))
    else
      var data :- Index(result, "data");
      var hasViewer :- Contains("viewer", data);
      if !hasViewer then Err(Failure("Failed to retrieve accounts"))
      else
        var accounts :- Path(data, ["viewer", "accounts"]);
        var items :- Iter(accounts);
        assert ["data", "viewer", "accounts"][1..] == ["viewer", "accounts"];
        Numbers(items)
  }

  /** `get_account_numbers`: the authenticated request, then the reply's numbers. */
  function AccountNumbersSpec(t: Tokens, now: int, reply: Result<Json>): (r: Result<seq<Json>>)
    ensures TokenValid(t.authToken, t.tokenExpires, now) == Ok(false) ==> r == Err(Failure("Authentication token is not valid"))
    ensures reply.Err? && TokenValid(t.authToken, t.tokenExpires, now) == Ok(true) ==> r == Err(reply.error)
    ensures TokenValid(t.authToken, t.tokenExpires, now) == Ok(true) && reply.Ok? ==> r == AccountsReply(reply.value)
    ensures TokenValid(t.authToken, t.tokenExpires, now).Err? ==> r == Err(TokenValid(t.authToken, t.tokenExpires, now).error)
    ensures r.Ok? ==> reply.Ok? && r == AccountsReply(reply.value)
  {
    match GraphqlRequest(t, now, true, AccountsOperation, map[], reply)
    case Refused(e) => Err(e)
    case Exchanged(_, Err(e)) => Err(e)
    case Exchanged(_, Ok(result)) => AccountsReply(result)
  }

  /** One entry of the flat meter list. `pointRef` is the meter point's `mpan` for an
      electricity meter and its `mprn` for a gas meter. */
  datatype Meter = Meter(kind: string, serial: Json, id: Json, meterPointId: Json, pointRef: Json)

  function RefKey(kind: string): string
  {
    if kind == "electricity" then "mpan" else "mprn"
  }

  /** The dict appended for one meter under one meter point; its values are evaluated in
      order and a missing serial number or id raises, a missing mpan/mprn gives "". */
  function MeterRecord(kind: string, point: Json, meter: Json): (r: Result<Meter>)
    ensures r.Ok? <==> Index(meter, "serialNumber").Ok? && Index(meter, "id").Ok? && Index(point, "id").Ok?
    ensures r.Ok? ==>
      && r.value.kind == kind
      && Index(meter, "serialNumber") == Ok(r.value.serial)
      && Index(meter, "id") == Ok(r.value.id)
      && Index(point, "id") == Ok(r.value.meterPointId)
      && r.value.pointRef == (if RefKey(kind) in point.obj then point.obj[RefKey(kind)] else JStr(""))
  {
    var serial :- Index(meter, "serialNumber");
    var id :- Index(meter, "id");
    var pointId :- Index(point, "id");
    var ref := Get(point, RefKey(kind), JStr("")).value;
    Ok(Meter(kind, serial, id, pointId, ref))
  }

  /** The inner loop over the meters of one meter point, from the `j`-th on. */
  function PointMetersFrom(kind: string, point: Json, meters: seq<Json>, j: nat, acc: seq<Meter>): Result<seq<Meter>>
    decreases |meters| - j
  {
    if j >= |meters| then Ok(acc)
    else
      var m :- MeterRecord(kind, point, meters[j]);
      PointMetersFrom(kind, point, meters, j + 1, acc + [m])
  }

  /** The loop over the meter points of one kind, from the `i`-th on. */
  function PointsFrom(kind: string, points: seq<Json>, i: nat, acc: seq<Meter>): Result<seq<Meter>>
    decreases |points| - i
  {
    if i >= |points| then Ok(acc)
    else
      var listed :- Get(points[i], "meters", JList([]));
      var meters :- Iter(listed);
      var acc' :- PointMetersFrom(kind, points[i], meters, 0, acc);
      PointsFrom(kind, points, i + 1, acc')
  }

  /** One property: all its electricity meters, then all its gas meters. */
  function PropertyMeters(prop: Json, acc: seq<Meter>): Result<seq<Meter>>
  {
    var elec :- Get(prop, "electricityMeterPoints", JList([]));
    var elecPoints :- Iter(elec);
    var acc' :- PointsFrom("electricity", elecPoints, 0, acc);
    var gas :- Get(prop, "gasMeterPoints", JList([]));
    var gasPoints :- Iter(gas);
    PointsFrom("gas", gasPoints, 0, acc')
  }

  /** The loop over the properties, from the `i`-th on. */
  function PropertiesFrom(props: seq<Json>, i: nat, acc: seq<Meter>): Result<seq<Meter>>
    decreases |props| - i
  {
    if i >= |props| then Ok(acc)
    else
      var acc' :- PropertyMeters(props[i], acc);
      PropertiesFrom(props, i + 1, acc')
  }

  /** The meters of a `getAccountMeterSelector` reply; a reply without `data` or
      `data.properties` raises "Failed to retrieve meters". */
  function MetersReply(result: Json): (r: Result<seq<Meter>>)
    ensures Contains("data", result) == Ok(false) ==> r == Err(Failure("Failed to retrieve meters"))
    ensures Index(result, "data").Ok? && Contains("properties", result.obj["data"]) == Ok(false) ==>
      r == Err(Failure("Failed to retrieve meters"))
    ensures r.Ok? ==>
      && Path(result, ["data", "properties"]).Ok?
      && Iter(Path(result, ["data", "properties"]).value).Ok?
      && r == PropertiesFrom(Iter(Path(result, ["data", "properties"]).value).value, 0, [])
    ensures Path(result, ["data", "properties"]).Ok? && Iter(Path(result, ["data", "properties"]).value).Ok? ==>
      r == PropertiesFrom(Iter(Path(result, ["data", "properties"]).value).value, 0, [])
  {
    var hasData :- Contains("data", result);
    if !hasData then Err(Failure("Failed to retrieve meters"))
    else
      var data :- Index(result, "data");
      var hasProps :- Contains("properties", data);
      if !hasProps then Err(Failure("Failed to retrieve meters"))
      else
        var props :- Index(data, "properties");
        assert ["data", "properties"][1..] == ["properties"] && ["properties"][1..] == [];
        assert Path(props, []) == Ok(props);
        assert Path(data, ["properties"]) == Ok(props);
        assert Path(result, ["data", "properties"]) == Ok(props);
        var items :- Iter(props);
        PropertiesFrom(items, 0, [])
  }

  /** `get_meters`: the authenticated request, then the reply's meters. */
  function MetersSpec(t: Tokens, now: int, accountNumber: Json, reply: Result<Json>): (r: Result<seq<Meter>>)
    ensures TokenValid(t.authToken, t.tokenExpires, now) == Ok(false) ==> r == Err(Failure("Authentication token is not valid"))
    ensures reply.Err? && TokenValid(t.authToken, t.tokenExpires, now) == Ok(true) ==> r == Err(reply.error)
    ensures TokenValid(t.authToken, t.tokenExpires, now) == Ok(true) && reply.Ok? ==> r == MetersReply(reply.value)
    ensures TokenValid(t.authToken, t.tokenExpires, now).Err? ==> r == Err(TokenValid(t.authToken, t.tokenExpires, now).error)
    ensures r.Ok? ==> reply.Ok? && r == MetersReply(reply.value)
  {
    match GraphqlRequest(t, now, true, MetersOperation, MetersVariables(accountNumber), reply)
    case Refused(e) => Err(e)
    case Exchanged(_, Err(e)) => Err(e)
    case Exchanged(_, Ok(result)) => MetersReply(result)
  }

  /** The loops over the meter points of one kind and their meters, appending to the
      list `acc0`. */
  method CollectPointMeters(kind: string, points: seq<Json>, acc0: seq<Meter>) returns (r: Result<seq<Meter>>)
    ensures r == PointsFrom(kind, points, 0, acc0)
  {
    var acc := acc0;
    var i := 0;
    while i < |points|
      invariant i <= |points|
      invariant PointsFrom(kind, points, i, acc) == PointsFrom(kind, points, 0, acc0)
    {
      var point := points[i];
      var listed :- Get(point, "meters", JList([]));
      var meters :- Iter(listed);
      var j := 0;
      while j < |meters|
        invariant j <= |meters|
        invariant PointsFrom(kind, points, 0, acc0) ==
          match PointMetersFrom(kind, point, meters, j, acc)
          case Ok(a) => PointsFrom(kind, points, i + 1, a)
          case Err(e) => Err(e)
      {
        var m :- MeterRecord(kind, point, meters[j]);
        acc := acc + [m];
        j := j + 1;
      }
      i := i + 1;
    }
    return Ok(acc);
  }

  // ---------------------------------------------------------------------------
  // The flat list, described without loops: one slot per (meter point, meter) pair.

  /** A meter as it sits in the reply: its kind, its meter point and its own dict. */
  datatype Slot = Slot(kind: string, point: Json, meter: Json)

  /** The meters a meter point lists (none when they cannot be listed). */
  function ListedMeters(point: Json): seq<Json>
  {
    match Get(point, "meters", JList([]))
    case Ok(listed) => (match Iter(listed) case Ok(ms) => ms case Err(_) => [])
    case Err(_) => []
  }

  function PointSlots(kind: string, point: Json, meters: seq<Json>): (r: seq<Slot>)
    ensures |r| == |meters| && forall k :: 0 <= k < |meters| ==> r[k] == Slot(kind, point, meters[k])
  {
    seq(|meters|, k requires 0 <= k < |meters| => Slot(kind, point, meters[k]))
  }

  function KindSlots(kind: string, points: seq<Json>): seq<Slot>
  {
    if points == [] then []
    else PointSlots(kind, points[0], ListedMeters(points[0])) + KindSlots(kind, points[1..])
  }

  function ListedPoints(prop: Json, key: string): seq<Json>
  {
    match Get(prop, key, JList([]))
    case Ok(listed) => (match Iter(listed) case Ok(ps) => ps case Err(_) => [])
    case Err(_) => []
  }

  function PropertySlots(prop: Json): seq<Slot>
  {
    KindSlots("electricity", ListedPoints(prop, "electricityMeterPoints"))
      + KindSlots("gas", ListedPoints(prop, "gasMeterPoints"))
  }

  function AllSlots(props: seq<Json>): seq<Slot>
  {
    if props == [] then [] else PropertySlots(props[0]) + AllSlots(props[1..])
  }

  /** `ms` is the list of dicts built from `slots`, one for one. */
  predicate Built(slots: seq<Slot>, ms: seq<Meter>)
  {
    |ms| == |slots| && forall k :: 0 <= k < |slots| ==> MeterRecord(slots[k].kind, slots[k].point, slots[k].meter) == Ok(ms[k])
  }

  lemma BuiltConcat(s1: seq<Slot>, m1: seq<Meter>, s2: seq<Slot>, m2: seq<Meter>)
    requires Built(s1, m1) && Built(s2, m2)
    ensures Built(s1 + s2, m1 + m2)
  {
    forall k | 0 <= k < |s1 + s2|
      ensures MeterRecord((s1 + s2)[k].kind, (s1 + s2)[k].point, (s1 + s2)[k].meter) == Ok((m1 + m2)[k])
    {
      if k >= |s1| {
        assert (s1 + s2)[k] == s2[k - |s1|] && (m1 + m2)[k] == m2[k - |s1|];
      }
    }
  }

  /** Two accumulations in a row: the first extends `acc` to `a`, the second `a` to `r`. */
  lemma ExtendTwice<T>(acc: seq<T>, a: seq<T>, r: seq<T>)
    requires |acc| <= |a| && a[..|acc|] == acc && |a| <= |r| && r[..|a|] == a
    ensures |acc| <= |r| && r[..|acc|] == acc && r[|acc|..] == a[|acc|..] + r[|a|..]
  {
    assert r[..|acc|] == r[..|a|][..|acc|];
  }

  lemma {:induction false} PointMetersFromBuilds(kind: string, point: Json, meters: seq<Json>, j: nat, acc: seq<Meter>)
    requires j <= |meters|
    requires PointMetersFrom(kind, point, meters, j, acc).Ok?
    ensures var r := PointMetersFrom(kind, point, meters, j, acc).value;
      |acc| <= |r| && r[..|acc|] == acc && Built(PointSlots(kind, point, meters[j..]), r[|acc|..])
    decreases |meters| - j
  {
    var r := PointMetersFrom(kind, point, meters, j, acc).value;
    if j == |meters| {
      assert r == acc;
    } else {
      var m := MeterRecord(kind, point, meters[j]).value;
      PointMetersFromBuilds(kind, point, meters, j + 1, acc + [m]);
      assert r[..|acc|] == r[..|acc| + 1][..|acc|];
      assert r[|acc|..] == [m] + r[|acc| + 1..];
      PointSlotsCons(kind, point, meters, j);
      BuiltCons(Slot(kind, point, meters[j]), m, PointSlots(kind, point, meters[j + 1..]), r[|acc| + 1..]);
    }
  }

  lemma PointSlotsCons(kind: string, point: Json, meters: seq<Json>, j: nat)
    requires j < |meters|
    ensures PointSlots(kind, point, meters[j..]) == [Slot(kind, point, meters[j])] + PointSlots(kind, point, meters[j + 1..])
  {
    assert meters[j..][1..] == meters[j + 1..];
  }

  lemma BuiltCons(slot: Slot, m: Meter, slots: seq<Slot>, ms: seq<Meter>)
    requires MeterRecord(slot.kind, slot.point, slot.meter) == Ok(m) && Built(slots, ms)
    ensures Built([slot] + slots, [m] + ms)
  {
    forall k | 1 <= k < |slots| + 1
      ensures MeterRecord(([slot] + slots)[k].kind, ([slot] + slots)[k].point, ([slot] + slots)[k].meter) == Ok(([m] + ms)[k])
    {
      assert ([slot] + slots)[k] == slots[k - 1];
    }
  }

  lemma {:induction false} PointsFromBuilds(kind: string, points: seq<Json>, i: nat, acc: seq<Meter>)
    requires i <= |points|
    requires PointsFrom(kind, points, i, acc).Ok?
    ensures var r := PointsFrom(kind, points, i, acc).value;
      |acc| <= |r| && r[..|acc|] == acc && Built(KindSlots(kind, points[i..]), r[|acc|..])
    decreases |points| - i
  {
    var r := PointsFrom(kind, points, i, acc).value;
    if i == |points| {
      assert r == acc;
      assert points[i..] == [];
    } else {
      var meters := Iter(Get(points[i], "meters", JList([])).value).value;
      assert ListedMeters(points[i]) == meters;
      PointMetersFromBuilds(kind, points[i], meters, 0, acc);
      var a := PointMetersFrom(kind, points[i], meters, 0, acc).value;
      PointsFromBuilds(kind, points, i + 1, a);
      ExtendTwice(acc, a, r);
      assert points[i..][1..] == points[i + 1..];
      assert meters[0..] == meters;
      BuiltConcat(PointSlots(kind, points[i], meters), a[|acc|..], KindSlots(kind, points[i + 1..]), r[|a|..]);
    }
  }

  lemma PropertyMetersBuilds(prop: Json, acc: seq<Meter>)
    requires PropertyMeters(prop, acc).Ok?
    ensures var r := PropertyMeters(prop, acc).value;
      |acc| <= |r| && r[..|acc|] == acc && Built(PropertySlots(prop), r[|acc|..])
  {
    var r := PropertyMeters(prop, acc).value;
    var elecPoints := ListedPoints(prop, "electricityMeterPoints");
    var gasPoints := ListedPoints(prop, "gasMeterPoints");
    PointsFromBuilds("electricity", elecPoints, 0, acc);
    var a := PointsFrom("electricity", elecPoints, 0, acc).value;
    PointsFromBuilds("gas", gasPoints, 0, a);
    assert elecPoints[0..] == elecPoints && gasPoints[0..] == gasPoints;
    ExtendTwice(acc, a, r);
    BuiltConcat(KindSlots("electricity", elecPoints), a[|acc|..], KindSlots("gas", gasPoints), r[|a|..]);
  }

  lemma {:induction false} PropertiesFromBuilds(props: seq<Json>, i: nat, acc: seq<Meter>)
    requires i <= |props|
    requires PropertiesFrom(props, i, acc).Ok?
    ensures var r := PropertiesFrom(props, i, acc).value;
      |acc| <= |r| && r[..|acc|] == acc && Built(AllSlots(props[i..]), r[|acc|..])
    decreases |props| - i
  {
    var r := PropertiesFrom(props, i, acc).value;
    if i == |props| {
      assert r == acc;
      assert props[i..] == [];
    } else {
      PropertyMetersBuilds(props[i], acc);
      var a := PropertyMeters(props[i], acc).value;
      PropertiesFromBuilds(props, i + 1, a);
      ExtendTwice(acc, a, r);
      assert props[i..][0] == props[i] && props[i..][1..] == props[i + 1..];
      BuiltConcat(PropertySlots(props[i]), a[|acc|..], AllSlots(props[i + 1..]), r[|a|..]);
    }
  }

  /** The flat meter list of a reply: one entry per (meter point, meter) pair, property
      by property, each property's electricity meters before its gas meters, each entry
      tagged with its kind and built from its meter and meter point. */
  lemma MetersReplyFlattens(result: Json)
    requires MetersReply(result).Ok?
    ensures var props := Iter(Path(result, ["data", "properties"]).value).value;
      Built(AllSlots(props), MetersReply(result).value)
  {
    var props := Iter(Path(result, ["data", "properties"]).value).value;
    PropertiesFromBuilds(props, 0, []);
    assert props[0..] == props;
  }

  /** Every meter `get_meters` returns is tagged "electricity" or "gas". */
  lemma MetersReplyKinds(result: Json)
    requires MetersReply(result).Ok?
    ensures forall k :: 0 <= k < |MetersReply(result).value| ==> MetersReply(result).value[k].kind in {"electricity", "gas"}
  {
    var props := Iter(Path(result, ["data", "properties"]).value).value;
    MetersReplyFlattens(result);
    SlotKinds(props);
  }

  /** Every entry of the flat meter list is an electricity or a gas meter. */
  lemma {:induction false} SlotKinds(props: seq<Json>)
    ensures forall k :: 0 <= k < |AllSlots(props)| ==> AllSlots(props)[k].kind in {"electricity", "gas"}
  {
    if props != [] {
      SlotKinds(props[1..]);
      KindSlotsKind("electricity", ListedPoints(props[0], "electricityMeterPoints"));
      KindSlotsKind("gas", ListedPoints(props[0], "gasMeterPoints"));
    }
  }

  lemma {:induction false} KindSlotsKind(kind: string, points: seq<Json>)
    ensures forall k :: 0 <= k < |KindSlots(kind, points)| ==> KindSlots(kind, points)[k].kind == kind
  {
    if points != [] {
      KindSlotsKind(kind, points[1..]);
    }
  }

  // ---------------------------------------------------------------------------
  // When the meter listing succeeds.

  /** The dict of a slot's meter can be built. */
  predicate SlotBuilds(s: Slot)
  {
    MeterRecord(s.kind, s.point, s.meter).Ok?
  }

  predicate AllBuild(slots: seq<Slot>)
  {
    forall k :: 0 <= k < |slots| ==> SlotBuilds(slots[k])
  }

  /** A meter point's `meters` can be listed. */
  predicate PointIterates(point: Json)
  {
    Get(point, "meters", JList([])).Ok? && Iter(Get(point, "meters", JList([])).value).Ok?
  }

  /** A property's meter points under `key` can be listed, and so can their meters. */
  predicate PointsIterate(prop: Json, key: string)
  {
    && Get(prop, key, JList([])).Ok?
    && Iter(Get(prop, key, JList([])).value).Ok?
    && forall k :: 0 <= k < |ListedPoints(prop, key)| ==> PointIterates(ListedPoints(prop, key)[k])
  }

  /** Every list the property loop iterates over can be iterated. */
  predicate TreeIterates(props: seq<Json>)
  {
    forall i :: 0 <= i < |props| ==> PointsIterate(props[i], "electricityMeterPoints") && PointsIterate(props[i], "gasMeterPoints")
  }

  lemma AllBuildSplit(a: seq<Slot>, b: seq<Slot>)
    requires AllBuild(a + b)
    ensures AllBuild(a) && AllBuild(b)
  {
    forall k | 0 <= k < |a|
      ensures SlotBuilds(a[k])
    {
      assert (a + b)[k] == a[k];
    }
    forall k | 0 <= k < |b|
      ensures SlotBuilds(b[k])
    {
      assert (a + b)[|a| + k] == b[k];
    }
  }

  lemma {:induction false} PointMetersFromOk(kind: string, point: Json, meters: seq<Json>, j: nat, acc: seq<Meter>)
    requires j <= |meters| && AllBuild(PointSlots(kind, point, meters[j..]))
    ensures PointMetersFrom(kind, point, meters, j, acc).Ok?
    decreases |meters| - j
  {
    if j < |meters| {
      PointSlotsCons(kind, point, meters, j);
      AllBuildSplit([Slot(kind, point, meters[j])], PointSlots(kind, point, meters[j + 1..]));
      assert SlotBuilds(Slot(kind, point, meters[j]));
      PointMetersFromOk(kind, point, meters, j + 1, acc + [MeterRecord(kind, point, meters[j]).value]);
    }
  }

  lemma {:induction false} PointsFromOk(kind: string, points: seq<Json>, i: nat, acc: seq<Meter>)
    requires i <= |points|
    requires forall k :: i <= k < |points| ==> PointIterates(points[k])
    requires AllBuild(KindSlots(kind, points[i..]))
    ensures PointsFrom(kind, points, i, acc).Ok?
    decreases |points| - i
  {
    if i < |points| {
      var meters := ListedMeters(points[i]);
      assert points[i..][1..] == points[i + 1..];
      AllBuildSplit(PointSlots(kind, points[i], meters), KindSlots(kind, points[i + 1..]));
      assert meters[0..] == meters;
      PointMetersFromOk(kind, points[i], meters, 0, acc);
      PointsFromOk(kind, points, i + 1, PointMetersFrom(kind, points[i], meters, 0, acc).value);
    }
  }

  lemma PropertyMetersOk(prop: Json, acc: seq<Meter>)
    requires PointsIterate(prop, "electricityMeterPoints") && PointsIterate(prop, "gasMeterPoints")
    requires AllBuild(PropertySlots(prop))
    ensures PropertyMeters(prop, acc).Ok?
  {
    var elecPoints := ListedPoints(prop, "electricityMeterPoints");
    var gasPoints := ListedPoints(prop, "gasMeterPoints");
    AllBuildSplit(KindSlots("electricity", elecPoints), KindSlots("gas", gasPoints));
    assert elecPoints[0..] == elecPoints && gasPoints[0..] == gasPoints;
    PointsFromOk("electricity", elecPoints, 0, acc);
    PointsFromOk("gas", gasPoints, 0, PointsFrom("electricity", elecPoints, 0, acc).value);
  }

  lemma {:induction false} PropertiesFromOk(props: seq<Json>, i: nat, acc: seq<Meter>)
    requires i <= |props| && TreeIterates(props)
    requires AllBuild(AllSlots(props[i..]))
    ensures PropertiesFrom(props, i, acc).Ok?
    decreases |props| - i
  {
    if i < |props| {
      assert props[i..][0] == props[i] && props[i..][1..] == props[i + 1..];
      AllBuildSplit(PropertySlots(props[i]), AllSlots(props[i + 1..]));
      PropertyMetersOk(props[i], acc);
      PropertiesFromOk(props, i + 1, PropertyMeters(props[i], acc).value);
    }
  }

  /** A reply whose `data.properties` can be listed, whose meter-point and meter lists
      can all be listed, and whose every meter has a serial number and an id under a
      meter point with an id, succeeds: with the flattened meter list. */
  lemma MetersReplySucceeds(result: Json)
    requires Path(result, ["data", "properties"]).Ok?
    requires Iter(Path(result, ["data", "properties"]).value).Ok?
    requires var props := Iter(Path(result, ["data", "properties"]).value).value;
      TreeIterates(props) && AllBuild(AllSlots(props))
    ensures MetersReply(result).Ok?
    ensures Built(AllSlots(Iter(Path(result, ["data", "properties"]).value).value), MetersReply(result).value)
  {
    var props := Iter(Path(result, ["data", "properties"]).value).value;
    assert props[0..] == props;
    PropertiesFromOk(props, 0, []);
    MetersReplyFlattens(result);
  }

  lemma {:induction false} PointsFromIterates(kind: string, points: seq<Json>, i: nat, acc: seq<Meter>)
    requires i <= |points| && PointsFrom(kind, points, i, acc).Ok?
    ensures forall k :: i <= k < |points| ==> PointIterates(points[k])
    decreases |points| - i
  {
    if i < |points| {
      var meters := Iter(Get(points[i], "meters", JList([])).value).value;
      PointsFromIterates(kind, points, i + 1, PointMetersFrom(kind, points[i], meters, 0, acc).value);
    }
  }

  lemma {:induction false} PropertiesFromIterates(props: seq<Json>, i: nat, acc: seq<Meter>)
    requires i <= |props| && PropertiesFrom(props, i, acc).Ok?
    ensures forall k :: i <= k < |props| ==>
      PointsIterate(props[k], "electricityMeterPoints") && PointsIterate(props[k], "gasMeterPoints")
    decreases |props| - i
  {
    if i < |props| {
      var prop := props[i];
      var elecPoints := ListedPoints(prop, "electricityMeterPoints");
      var gasPoints := ListedPoints(prop, "gasMeterPoints");
      PointsFromIterates("electricity", elecPoints, 0, acc);
      PointsFromIterates("gas", gasPoints, 0, PointsFrom("electricity", elecPoints, 0, acc).value);
      PropertiesFromIterates(props, i + 1, PropertyMeters(prop, acc).value);
    }
  }

  /** The converse: a reply that succeeds had every list iterable and every meter
      buildable, so the conditions of `MetersReplySucceeds` are exactly those of success. */
  lemma MetersReplyNeeds(result: Json)
    requires MetersReply(result).Ok?
    ensures var props := Iter(Path(result, ["data", "properties"]).value).value;
      TreeIterates(props) && AllBuild(AllSlots(props))
  {
    var props := Iter(Path(result, ["data", "properties"]).value).value;
    PropertiesFromIterates(props, 0, []);
    MetersReplyFlattens(result);
  }
}
