/** The consumption sensor: the names it is registered under, and the state and
    attributes it reads from the coordinator's entries. Entries are looked up by meter
    serial, and the first entry with that serial is the one used. */
module Sensor {
  import opened Strings
  import opened Json
  import opened Accounts
  import opened Coordinator

  /** `UnitOfEnergy.KILO_WATT_HOUR`. */
  const Kwh := "kWh"

  /** The meter types the client reports. */
  const Kinds := {"electricity", "gas"}

  /** What `__init__` stores: the entry it was built from, the meter's serial, type and
      id, and the entity's name, unique id and unit. */
  datatype ConsumptionSensor = ConsumptionSensor(
    meterData: MeterEntry,
    serial: Json,
    meterType: string,
    meterId: Json,
    name: string,
    uniqueId: string,
    unit: string)

  const UniquePrefix := "eon_next_"
  const UniqueSuffix := "_latest"

  /** `f"eon_next_{serial}_{meter_type}_latest"`. */
  function UniqueId(serial: string, kind: string): string
  {
    UniquePrefix + serial + "_" + kind + UniqueSuffix
  }

  /** `f"E.ON Next {meter_type.capitalize()} ({serial})"`. */
  function Name(serial: string, kind: string): string
  {
    "E.ON Next " + Capitalize(kind) + " (" + serial + ")"
  }

  /** `EonNextConsumptionSensor.__init__`. Every meter type gets kWh. */
  function NewSensor(meterData: MeterEntry): (s: ConsumptionSensor)
    ensures s.meterData == meterData
    ensures s.serial == meterData.info.serial && s.meterType == meterData.info.kind && s.meterId == meterData.info.id
    ensures s.uniqueId == UniqueId(Text(s.serial), s.meterType)
    ensures s.name == Name(Text(s.serial), s.meterType)
    ensures s.unit == Kwh
  {
    var info := meterData.info;
    ConsumptionSensor(meterData, info.serial, info.kind, info.id, Name(Text(info.serial), info.kind),
                      UniqueId(Text(info.serial), info.kind), Kwh)
  }

  /** The names of the two meter types' sensors. */
  lemma KindNames(serial: string)
    ensures Name(serial, "electricity") == "E.ON Next Electricity (" + serial + ")"
    ensures Name(serial, "gas") == "E.ON Next Gas (" + serial + ")"
  {
    assert Capitalize("electricity") == "Electricity";
    assert Capitalize("gas") == "Gas";
  }

  /** Two sensors of the two known meter types share a unique id only when they share
      both the serial text and the type: the id determines both. */
  lemma {:induction false} UniqueIdInjective(s1: string, k1: string, s2: string, k2: string)
    requires k1 in Kinds && k2 in Kinds
    requires UniqueId(s1, k1) == UniqueId(s2, k2)
    ensures s1 == s2 && k1 == k2
  {
    var u := UniqueId(s1, k1);
    var w1 := s1 + "_" + k1;
    var w2 := s2 + "_" + k2;
    assert u == UniquePrefix + w1 + UniqueSuffix;
    assert u == UniquePrefix + w2 + UniqueSuffix;
    assert |w1| == |w2|;
    assert w1 == u[|UniquePrefix|..|u| - |UniqueSuffix|] == w2;
    assert w1[|w1| - 1] == k1[|k1| - 1];
    assert w2[|w2| - 1] == k2[|k2| - 1];
    assert k1 == k2;
    assert s1 == w1[..|s1|];
    assert s2 == w2[..|s2|];
  }

  /** The index of the first entry whose meter has `serial`: the element
      `next(...)` returns. */
  function FindEntry(meters: seq<MeterEntry>, serial: Json): (r: Option<nat>)
    ensures r.Some? ==> r.value < |meters| && meters[r.value].info.serial == serial
    ensures r.Some? ==> forall k :: 0 <= k < r.value ==> meters[k].info.serial != serial
    ensures r.None? <==> forall k :: 0 <= k < |meters| ==> meters[k].info.serial != serial
  {
    if meters == [] then None
    else if meters[0].info.serial == serial then Some(0)
    else
      match FindEntry(meters[1..], serial)
      case None => None
      case Some(k) => Some(k + 1)
  }

  /** The entry `next(...)` returns, or `None`. */
  function CurrentEntry(meters: seq<MeterEntry>, serial: Json): Option<MeterEntry>
  {
    match FindEntry(meters, serial)
    case None => None
    case Some(k) => Some(meters[k])
  }

  /** `current_data and current_data["latest_reading"]`: an entry is a non-empty dict,
      so the test is the truth of the reading. */
  predicate HasReading(e: MeterEntry)
  {
    e.latestReading.Some? && Truthy(e.latestReading.value)
  }

  /** `native_value`, with the reading's `value` returned as it is (no `float`). */
  function NativeValue(meters: seq<MeterEntry>, serial: Json): (r: Result<Option<Json>>)
    ensures FindEntry(meters, serial).None? ==> r == Ok(None)
    ensures FindEntry(meters, serial).Some? ==>
      var e := meters[FindEntry(meters, serial).value];
      && (!HasReading(e) ==> r == Ok(None))
      && (HasReading(e) ==> r == (match Index(e.latestReading.value, "value") case Ok(v) => Ok(Some(v)) case Err(x) => Err(x)))
    ensures r.Ok? && r.value.Some? ==>
      && FindEntry(meters, serial).Some?
      && var e := meters[FindEntry(meters, serial).value];
      && HasReading(e) && e.latestReading.value.JObj? && "value" in e.latestReading.value.obj
      && r.value.value == e.latestReading.value.obj["value"]
  {
    match CurrentEntry(meters, serial)
    case None => Ok(None)
    case Some(e) =>
      if !HasReading(e) then Ok(None)
      else
        var v :- Index(e.latestReading.value, "value");
        Ok(Some(v))
  }

  /** `extra_state_attributes`: the sensor's own serial, type and id, then the reading's
      `startAt` and `endAt` when the current entry has a reading. */
  function ExtraStateAttributes(s: ConsumptionSensor, meters: seq<MeterEntry>): (r: Result<map<string, Json>>)
    ensures r.Ok? ==>
      && "meter_serial" in r.value && r.value["meter_serial"] == s.serial
      && "meter_type" in r.value && r.value["meter_type"] == JStr(s.meterType)
      && "meter_id" in r.value && r.value["meter_id"] == s.meterId
      && r.value.Keys <= {"meter_serial", "meter_type", "meter_id", "reading_start", "reading_end"}
    ensures var e := CurrentEntry(meters, s.serial);
      r.Ok? ==>
      && ("reading_start" in r.value <==> e.Some? && HasReading(e.value))
      && ("reading_end" in r.value <==> e.Some? && HasReading(e.value))
    ensures var e := CurrentEntry(meters, s.serial);
      e.Some? && HasReading(e.value) ==>
      var reading := e.value.latestReading.value;
      match (Index(reading, "startAt"), Index(reading, "endAt"))
      case (Ok(start), Ok(end)) => r.Ok? && r.value["reading_start"] == start && r.value["reading_end"] == end
      case (Err(x), _) => r == Err(x)
      case (Ok(_), Err(x)) => r == Err(x)
    ensures r.Err? ==> CurrentEntry(meters, s.serial).Some? && HasReading(CurrentEntry(meters, s.serial).value)
  {
    var attrs := map["meter_serial" := s.serial, "meter_type" := JStr(s.meterType), "meter_id" := s.meterId];
    match CurrentEntry(meters, s.serial)
    case None => Ok(attrs)
    case Some(e) =>
      if !HasReading(e) then Ok(attrs)
      else
        var start :- Index(e.latestReading.value, "startAt");
        var end :- Index(e.latestReading.value, "endAt");
        Ok(attrs["reading_start" := start]["reading_end" := end])
  }

  /** Entries before the first one with the serial do not matter, and neither do the
      entries after it: both readouts depend on that entry alone. */
  lemma {:induction false} FirstEntryWins(before: seq<MeterEntry>, e: MeterEntry, after: seq<MeterEntry>, s: ConsumptionSensor)
    requires forall k :: 0 <= k < |before| ==> before[k].info.serial != s.serial
    requires e.info.serial == s.serial
    ensures CurrentEntry(before + [e] + after, s.serial) == Some(e)
    ensures NativeValue(before + [e] + after, s.serial) == NativeValue([e], s.serial)
    ensures ExtraStateAttributes(s, before + [e] + after) == ExtraStateAttributes(s, [e])
  {
    FindEntrySkips(before, [e] + after, s.serial);
    assert before + [e] + after == before + ([e] + after);
  }

  lemma {:induction false} FindEntrySkips(before: seq<MeterEntry>, rest: seq<MeterEntry>, serial: Json)
    requires forall k :: 0 <= k < |before| ==> before[k].info.serial != serial
    requires rest != [] && rest[0].info.serial == serial
    ensures FindEntry(before + rest, serial) == Some(|before|)
  {
    if before != [] {
      assert (before + rest)[1..] == before[1..] + rest;
      FindEntrySkips(before[1..], rest, serial);
    }
  }

  /** A sensor built from an entry of `meters` reads that entry back, unless an earlier
      entry has the same serial. */
  lemma OwnEntry(meters: seq<MeterEntry>, i: nat)
    requires i < |meters|
    requires forall k :: 0 <= k < i ==> meters[k].info.serial != meters[i].info.serial
    ensures CurrentEntry(meters, NewSensor(meters[i]).serial) == Some(meters[i])
  {
    FindEntrySkips(meters[..i], meters[i..], meters[i].info.serial);
    assert meters[..i] + meters[i..] == meters;
  }
}
