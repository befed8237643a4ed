/** _tracking.py (CallTrackingMixin and `_get_node_seed`) and the call
    records of types.py. */
module Tracking {
  import opened Base
  import opened UuidLayout

  /** Where a call came from; every part may be unknown. */
  datatype CallerInfo = CallerInfo(
    moduleName: Option<string>,
    file: Option<string>,
    line: Option<int>,
    functionName: Option<string>,
    qualname: Option<string>)

  const UnknownCaller := CallerInfo(None, None, None, None, None)

  /** UUIDCall: the UUID returned, whether it was mocked, the version
      recorded, and the caller. */
  datatype UUIDCall = UUIDCall(uuid: Uuid, wasMocked: bool, uuidVersion: int, caller: CallerInfo)

  /** NamespaceUUIDCall: a uuid3/uuid5 call with its arguments. */
  datatype NamespaceUUIDCall = NamespaceUUIDCall(uuid: Uuid, uuidVersion: int, namespace: Uuid, name: string, caller: CallerInfo)

  /** The tracking attributes: `_call_count`, `_generated_uuids`, `_calls`. */
  datatype Tracker = Tracker(callCount: nat, generatedUuids: seq<Uuid>, calls: seq<UUIDCall>)

  /** The three attributes describe the same calls: the count is the
      number of records and the UUID list is the records' UUIDs. */
  ghost predicate Consistent(t: Tracker)
  {
    && t.callCount == |t.calls| == |t.generatedUuids|
    && forall i :: 0 <= i < |t.calls| ==> t.generatedUuids[i] == t.calls[i].uuid
  }

  const EmptyTracker := Tracker(0, [], [])

  /** `_record_call`. */
  function RecordCall(t: Tracker, result: Uuid, wasMocked: bool, caller: CallerInfo, uuidVersion: int): (r: Tracker)
    ensures Consistent(t) ==> Consistent(r)
    ensures r.callCount == t.callCount + 1
    ensures r.calls == t.calls + [UUIDCall(result, wasMocked, uuidVersion, caller)]
    ensures r.generatedUuids == t.generatedUuids + [result]
  {
    Tracker(t.callCount + 1, t.generatedUuids + [result], t.calls + [UUIDCall(result, wasMocked, uuidVersion, caller)])
  }

  /** `_record_call` as written, on an object whose `__init__` did or did
      not create `_tracking_lock`. The mixin only annotates the attribute,
      so without it `with self._tracking_lock` raises AttributeError
      before anything is recorded. */
  function RecordCallAsWritten(t: Tracker, hasLock: bool, result: Uuid, wasMocked: bool, caller: CallerInfo, uuidVersion: int): (r: Result<Tracker>)
    ensures r.Err? <==> !hasLock
    ensures r.Err? ==> r.error == AttributeError("_tracking_lock")
    ensures r.Ok? ==> r.value.calls == t.calls + [UUIDCall(result, wasMocked, uuidVersion, caller)]
  {
    if hasLock then Ok(RecordCall(t, result, wasMocked, caller, uuidVersion))
    else Err(AttributeError("_tracking_lock"))
  }

  /** `_reset_tracking`. */
  function ResetTracking(t: Tracker): (r: Tracker)
    ensures Consistent(r) && r.callCount == 0 && r.calls == [] && r.generatedUuids == []
  {
    EmptyTracker
  }

  /** `last_uuid`. */
  function LastUuid(t: Tracker): (r: Option<Uuid>)
    ensures r.None? <==> t.generatedUuids == []
    ensures r.Some? ==> r.value == t.generatedUuids[|t.generatedUuids| - 1]
  {
    if |t.generatedUuids| > 0 then Some(t.generatedUuids[|t.generatedUuids| - 1]) else None
  }

  predicate IsMocked(c: UUIDCall) { c.wasMocked }
  predicate IsReal(c: UUIDCall) { !c.wasMocked }

  /** `mocked_calls`: exactly the recorded calls that returned a mocked UUID. */
  function MockedCalls(t: Tracker): (r: seq<UUIDCall>)
    ensures forall i :: 0 <= i < |r| ==> r[i] in t.calls && r[i].wasMocked
    ensures forall i :: 0 <= i < |t.calls| && t.calls[i].wasMocked ==> t.calls[i] in r
  {
    Filter(t.calls, IsMocked)
  }

  /** `real_calls`: exactly the recorded calls that returned a real UUID. */
  function RealCalls(t: Tracker): (r: seq<UUIDCall>)
    ensures forall i :: 0 <= i < |r| ==> r[i] in t.calls && !r[i].wasMocked
    ensures forall i :: 0 <= i < |t.calls| && !t.calls[i].wasMocked ==> t.calls[i] in r
  {
    Filter(t.calls, IsReal)
  }

  /** `mocked_count`: the counting sum agrees with the length of
      `mocked_calls`. */
  function MockedCount(t: Tracker): (r: nat)
    ensures r == |MockedCalls(t)|
  {
    CountIsFilterLength(t.calls, IsMocked);
    Count(t.calls, IsMocked)
  }

  /** `real_count`: the counting sum agrees with the length of
      `real_calls`. */
  function RealCount(t: Tracker): (r: nat)
    ensures r == |RealCalls(t)|
  {
    CountIsFilterLength(t.calls, IsReal);
    Count(t.calls, IsReal)
  }

  /** The counts are the lengths of the lists; mocked and real calls
      split the record, so they add up to `call_count`. */
  lemma CountsSplitCalls(t: Tracker)
    requires Consistent(t)
    ensures MockedCount(t) == |MockedCalls(t)| && RealCount(t) == |RealCalls(t)|
    ensures MockedCount(t) + RealCount(t) == t.callCount
    ensures multiset(MockedCalls(t)) + multiset(RealCalls(t)) == multiset(t.calls)
  {
    CountIsFilterLength(t.calls, IsMocked);
    CountIsFilterLength(t.calls, IsReal);
    FilterPartition(t.calls, IsMocked, IsReal);
  }

  /** A recorded call lands at the end of exactly one of the two lists and
      becomes `last_uuid`. */
  lemma RecordCallClassifies(t: Tracker, result: Uuid, wasMocked: bool, caller: CallerInfo, uuidVersion: int)
    ensures var r := RecordCall(t, result, wasMocked, caller, uuidVersion);
      var c := UUIDCall(result, wasMocked, uuidVersion, caller);
      && LastUuid(r) == Some(result)
      && MockedCalls(r) == MockedCalls(t) + (if wasMocked then [c] else [])
      && RealCalls(r) == RealCalls(t) + (if wasMocked then [] else [c])
  {
    var c := UUIDCall(result, wasMocked, uuidVersion, caller);
    FilterAppend(t.calls, [c], IsMocked);
    FilterAppend(t.calls, [c], IsReal);
  }

  /** The `calls_from` test: a known, non-empty module name that starts
      with the prefix. */
  predicate FromModule(caller: CallerInfo, prefix: string)
  {
    caller.moduleName.Some? && caller.moduleName.value != "" && StartsWith(caller.moduleName.value, prefix)
  }

  /** `calls_from`. */
  function CallsFrom(t: Tracker, prefix: string): (r: seq<UUIDCall>)
    ensures forall i :: 0 <= i < |r| ==> r[i] in t.calls && FromModule(r[i].caller, prefix)
    ensures forall i :: 0 <= i < |t.calls| && FromModule(t.calls[i].caller, prefix) ==> t.calls[i] in r
  {
    Filter(t.calls, (c: UUIDCall) => FromModule(c.caller, prefix))
  }

  /** `calls_from` keeps the record's order: a new call is appended to it
      exactly when it comes from a matching module. */
  lemma CallsFromRecord(t: Tracker, result: Uuid, wasMocked: bool, caller: CallerInfo, uuidVersion: int, prefix: string)
    ensures CallsFrom(RecordCall(t, result, wasMocked, caller, uuidVersion), prefix)
      == CallsFrom(t, prefix) + (if FromModule(caller, prefix) then [UUIDCall(result, wasMocked, uuidVersion, caller)] else [])
  {
    FilterAppend(t.calls, [UUIDCall(result, wasMocked, uuidVersion, caller)], (c: UUIDCall) => FromModule(c.caller, prefix));
  }

  /** The empty prefix selects every call with a known, non-empty module
      name, and never a call without one. */
  lemma CallsFromEmptyPrefix(t: Tracker, i: nat)
    requires i < |t.calls|
    ensures t.calls[i] in CallsFrom(t, "") <==>
      t.calls[i].caller.moduleName.Some? && t.calls[i].caller.moduleName.value != ""
  {
  }

  // ---------------------------------------------------------------------
  // The node seed: int(md5(node_id).hexdigest()[:8], 16)

  predicate IsHexDigit(c: char)
  {
    ('0' <= c <= '9') || ('a' <= c <= 'f')
  }

  predicate IsHex(s: string)
  {
    forall i :: 0 <= i < |s| ==> IsHexDigit(s[i])
  }

  function HexDigitValue(c: char): (v: nat)
    requires IsHexDigit(c)
    ensures v < 16
  {
    if c <= '9' then (c as int) - ('0' as int) else (c as int) - ('a' as int) + 10
  }

  function HexDigit(v: nat): (c: char)
    requires v < 16
    ensures IsHexDigit(c) && HexDigitValue(c) == v
  {
    if v < 10 then ('0' as int + v) as char else ('a' as int + v - 10) as char
  }

  function Pow16(n: nat): (p: nat)
    ensures p >= 1
  {
    if n == 0 then 1 else 16 * Pow16(n - 1)
  }

  /** `int(s, 16)` on lower-case hex digits, most significant first. */
  function HexValue(s: string): (v: nat)
    requires IsHex(s)
    ensures v < Pow16(|s|)
  {
    if |s| == 0 then 0 else 16 * HexValue(s[..|s| - 1]) + HexDigitValue(s[|s| - 1])
  }

  /** v written with exactly `width` lower-case hex digits. */
  function ToHex(v: nat, width: nat): (s: string)
    requires v < Pow16(width)
    ensures |s| == width && IsHex(s)
  {
    if width == 0 then [] else ToHex(v / 16, width - 1) + [HexDigit(v % 16)]
  }

  lemma {:induction false} HexValueToHex(v: nat, width: nat)
    requires v < Pow16(width)
    ensures HexValue(ToHex(v, width)) == v
  {
    if width > 0 {
      HexValueToHex(v / 16, width - 1);
      var s := ToHex(v, width);
      assert s[..|s| - 1] == ToHex(v / 16, width - 1);
    }
  }

  lemma {:induction false} ToHexHexValue(s: string)
    requires IsHex(s)
    ensures ToHex(HexValue(s), |s|) == s
  {
    if |s| > 0 {
      var init := s[..|s| - 1];
      ToHexHexValue(init);
      var v := HexValue(s);
      assert v / 16 == HexValue(init) && v % 16 == HexDigitValue(s[|s| - 1]);
      assert s == init + [s[|s| - 1]];
    }
  }

  /** A hexdigest: 32 lower-case hex digits. */
  predicate IsHexDigest(d: string)
  {
    |d| == 32 && IsHex(d)
  }

  /** `_get_node_seed`, given the node id's MD5 hexdigest: the first eight
      hex digits read as an integer, so a 32-bit value. */
  function NodeSeed(digest: string): (seed: nat)
    requires IsHexDigest(digest)
    ensures seed < 0x1_0000_0000
    ensures ToHex(seed, 8) == digest[..8]
  {
    assert Pow16(8) == 0x1_0000_0000;
    ToHexHexValue(digest[..8]);
    HexValue(digest[..8])
  }

  /** Every 32-bit value is the seed of some digest, and digests that agree
      on their first eight digits give the same seed. */
  lemma NodeSeedOnto(seed: nat, tail: string)
    requires seed < 0x1_0000_0000 && |tail| == 24 && IsHex(tail)
    ensures IsHexDigest(ToHex(seed, 8) + tail) && NodeSeed(ToHex(seed, 8) + tail) == seed
  {
    assert Pow16(8) == 0x1_0000_0000;
    var d := ToHex(seed, 8) + tail;
    assert d[..8] == ToHex(seed, 8);
    HexValueToHex(seed, 8);
  }
}
