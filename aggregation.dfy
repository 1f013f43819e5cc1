/** The usage records, the "on" filter and the two per-device groupings
    (sum of wattage, number of records) that the summary is built from. */
module Aggregation {

  import opened RealSums

  /** One row of the uploaded usage table. */
  datatype Record = Record(deviceType: string, powerWatt: real, status: string)

  /** A record is active when its status is exactly "on"; the comparison is
      case-sensitive, so "On" and "ON" are not active. */
  predicate IsOn(r: Record) {
    r.status == "on"
  }

  /** The active records, in their original order. */
  function Active(rs: seq<Record>): (a: seq<Record>)
    ensures forall r :: r in a <==> r in rs && IsOn(r)
    ensures |a| <= |rs|
  {
    if |rs| == 0 then [] else (if IsOn(rs[0]) then [rs[0]] else []) + Active(rs[1..])
  }

  /** The filter keeps every "on" record as many times as it occurs and
      drops every other record. */
  lemma {:induction false} ActiveMultiplicity(rs: seq<Record>)
    ensures forall r :: multiset(Active(rs))[r] == (if IsOn(r) then multiset(rs)[r] else 0)
  {
    if |rs| > 0 {
      assert rs == [rs[0]] + rs[1..];
      ActiveMultiplicity(rs[1..]);
    }
  }

  /** The device types that occur in a table. */
  function DeviceTypes(a: seq<Record>): set<string> {
    set r | r in a :: r.deviceType
  }

  /** The device types that have at least one active record. */
  function OnDevices(rs: seq<Record>): set<string> {
    set r | r in rs && IsOn(r) :: r.deviceType
  }

  predicate NoDuplicates(keys: seq<string>) {
    forall i, j :: 0 <= i < j < |keys| ==> keys[i] != keys[j]
  }

  /** Reference definition: the summed wattage of the active records of one
      device type. */
  function PowerOf(rs: seq<Record>, d: string): real {
    if |rs| == 0 then 0.0
    else (if IsOn(rs[0]) && rs[0].deviceType == d then rs[0].powerWatt else 0.0) + PowerOf(rs[1..], d)
  }

  /** Reference definition: the number of active records of one device type. */
  function CountOf(rs: seq<Record>, d: string): (n: nat)
    ensures n <= |rs|
    ensures n > 0 <==> d in OnDevices(rs)
  {
    if |rs| == 0 then 0
    else
      assert forall r :: r in rs <==> r == rs[0] || r in rs[1..];
      (if IsOn(rs[0]) && rs[0].deviceType == d then 1 else 0) + CountOf(rs[1..], d)
  }

  /** Reference definition: the summed wattage of all active records. */
  function TotalOnPower(rs: seq<Record>): real {
    if |rs| == 0 then 0.0 else (if IsOn(rs[0]) then rs[0].powerWatt else 0.0) + TotalOnPower(rs[1..])
  }

  /** Group by device type and sum the wattage: one entry per device type
      of the table. */
  function GroupSum(a: seq<Record>): (m: map<string, real>)
    ensures m.Keys == DeviceTypes(a)
  {
    if |a| == 0 then map[]
    else
      assert forall r :: r in a <==> r == a[0] || r in a[1..];
      var m := GroupSum(a[1..]);
      var d := a[0].deviceType;
      m[d := a[0].powerWatt + (if d in m then m[d] else 0.0)]
  }

  /** Count the records of each device type: one entry per device type of
      the table, and no entry below one. */
  function GroupCount(a: seq<Record>): (m: map<string, nat>)
    ensures m.Keys == DeviceTypes(a)
    ensures forall d :: d in m ==> m[d] >= 1
  {
    if |a| == 0 then map[]
    else
      assert forall r :: r in a <==> r == a[0] || r in a[1..];
      var m := GroupCount(a[1..]);
      var d := a[0].deviceType;
      m[d := 1 + (if d in m then m[d] else 0)]
  }

  /** The device types of a table, each once, in order of first occurrence. */
  function DeviceOrder(a: seq<Record>): (keys: seq<string>)
    ensures NoDuplicates(keys)
    ensures forall k :: k in keys <==> k in DeviceTypes(a)
  {
    if |a| == 0 then []
    else
      var init := a[..|a| - 1];
      var last := a[|a| - 1];
      assert a == init + [last];
      assert forall r :: r in a <==> r == last || r in init;
      var keys := DeviceOrder(init);
      if last.deviceType in keys then keys else keys + [last.deviceType]
  }

  /** Filtering distributes over concatenation. */
  lemma {:induction false} ActiveConcat(a: seq<Record>, b: seq<Record>)
    ensures Active(a + b) == Active(a) + Active(b)
  {
    if |a| == 0 {
      assert a + b == b;
    } else {
      assert (a + b)[1..] == a[1..] + b;
      ActiveConcat(a[1..], b);
    }
  }

  /** Inserting a record that is not "on" anywhere leaves the filtered
      records unchanged. */
  lemma ActiveIgnoresInactive(before: seq<Record>, x: Record, after: seq<Record>)
    requires !IsOn(x)
    ensures Active(before + [x] + after) == Active(before + after)
  {
    ActiveConcat(before + [x], after);
    ActiveConcat(before, [x]);
    ActiveConcat(before, after);
    assert Active([x]) == [];
  }

  /** The device types of the active records are the on-devices. */
  lemma ActiveDeviceTypes(rs: seq<Record>)
    ensures DeviceTypes(Active(rs)) == OnDevices(rs)
  {
  }

  /** Grouping the active records by sum gives, for every on-device and for
      no other device type, that device's summed active wattage. */
  lemma {:induction false} GroupSumOfActive(rs: seq<Record>)
    ensures GroupSum(Active(rs)).Keys == OnDevices(rs)
    ensures forall d :: d in GroupSum(Active(rs)) ==> GroupSum(Active(rs))[d] == PowerOf(rs, d)
  {
    ActiveDeviceTypes(rs);
    if |rs| > 0 {
      GroupSumOfActive(rs[1..]);
      if IsOn(rs[0]) {
        forall d | d in GroupSum(Active(rs)) ensures GroupSum(Active(rs))[d] == PowerOf(rs, d) {
          GroupSumOfActiveOnHead(rs, d);
        }
      } else {
        assert Active(rs) == Active(rs[1..]);
      }
    }
  }

  /** The induction step of GroupSumOfActive when the first record is on. */
  lemma GroupSumOfActiveOnHead(rs: seq<Record>, d: string)
    requires |rs| > 0 && IsOn(rs[0])
    requires forall d :: d in GroupSum(Active(rs[1..])) ==> GroupSum(Active(rs[1..]))[d] == PowerOf(rs[1..], d)
    requires d in GroupSum(Active(rs))
    ensures GroupSum(Active(rs))[d] == PowerOf(rs, d)
  {
    var tail := Active(rs[1..]);
    var a := [rs[0]] + tail;
    assert Active(rs) == a;
    assert a[1..] == tail;
    if d != rs[0].deviceType {
      assert d in GroupSum(tail);
    } else if d !in GroupSum(tail) {
      ActiveDeviceTypes(rs[1..]);
      PowerOfAbsent(rs[1..], d);
    }
  }

  /** Grouping the active records by count gives, for every on-device,
      that device's number of active records. */
  lemma {:induction false} GroupCountOfActive(rs: seq<Record>)
    ensures GroupCount(Active(rs)).Keys == OnDevices(rs)
    ensures forall d :: d in GroupCount(Active(rs)) ==> GroupCount(Active(rs))[d] == CountOf(rs, d)
  {
    ActiveDeviceTypes(rs);
    if |rs| > 0 {
      GroupCountOfActive(rs[1..]);
      if IsOn(rs[0]) {
        forall d | d in GroupCount(Active(rs)) ensures GroupCount(Active(rs))[d] == CountOf(rs, d) {
          GroupCountOfActiveOnHead(rs, d);
        }
      } else {
        assert Active(rs) == Active(rs[1..]);
      }
    }
  }

  /** The induction step of GroupCountOfActive when the first record is on. */
  lemma GroupCountOfActiveOnHead(rs: seq<Record>, d: string)
    requires |rs| > 0 && IsOn(rs[0])
    requires forall d :: d in GroupCount(Active(rs[1..])) ==> GroupCount(Active(rs[1..]))[d] == CountOf(rs[1..], d)
    requires d in GroupCount(Active(rs))
    ensures GroupCount(Active(rs))[d] == CountOf(rs, d)
  {
    var tail := Active(rs[1..]);
    var a := [rs[0]] + tail;
    assert Active(rs) == a;
    assert a[1..] == tail;
    if d != rs[0].deviceType {
      assert d in GroupCount(tail);
    } else if d !in GroupCount(tail) {
      ActiveDeviceTypes(rs[1..]);
    }
  }

  /** A device type without active records contributes no wattage. */
  lemma {:induction false} PowerOfAbsent(rs: seq<Record>, d: string)
    requires d !in OnDevices(rs)
    ensures PowerOf(rs, d) == 0.0
  {
    if |rs| > 0 {
      assert forall r :: r in rs[1..] ==> r in rs;
      PowerOfAbsent(rs[1..], d);
    }
  }

  /** Without negative wattage in the input, no device type has negative
      summed wattage. */
  lemma {:induction false} PowerOfNonNegative(rs: seq<Record>, d: string)
    requires forall r :: r in rs ==> r.powerWatt >= 0.0
    ensures PowerOf(rs, d) >= 0.0
  {
    if |rs| > 0 {
      assert rs[0] in rs;
      assert forall r :: r in rs[1..] ==> r in rs;
      PowerOfNonNegative(rs[1..], d);
    }
  }

  /** Reference definition: the summed wattage of the active records whose
      device type is in a given set. */
  function PowerIn(rs: seq<Record>, ks: set<string>): real {
    if |rs| == 0 then 0.0
    else (if IsOn(rs[0]) && rs[0].deviceType in ks then rs[0].powerWatt else 0.0) + PowerIn(rs[1..], ks)
  }

  /** The summed active wattage of each device type in a key column. */
  function PowerColumn(rs: seq<Record>, keys: seq<string>): (col: seq<real>)
    ensures |col| == |keys|
    ensures forall i :: 0 <= i < |keys| ==> col[i] == PowerOf(rs, keys[i])
  {
    seq(|keys|, i requires 0 <= i < |keys| => PowerOf(rs, keys[i]))
  }

  /** Adding one device type to a set of device types adds its wattage. */
  lemma {:induction false} PowerInAddKey(rs: seq<Record>, k: string, ks: set<string>)
    requires k !in ks
    ensures PowerIn(rs, {k} + ks) == PowerOf(rs, k) + PowerIn(rs, ks)
  {
    if |rs| > 0 {
      PowerInAddKey(rs[1..], k, ks);
    }
  }

  /** A set holding every on-device captures all active wattage. */
  lemma {:induction false} PowerInCoversAll(rs: seq<Record>, ks: set<string>)
    requires OnDevices(rs) <= ks
    ensures PowerIn(rs, ks) == TotalOnPower(rs)
  {
    if |rs| > 0 {
      assert OnDevices(rs[1..]) <= OnDevices(rs) by {
        assert forall r :: r in rs[1..] ==> r in rs;
      }
      if IsOn(rs[0]) {
        assert rs[0].deviceType in OnDevices(rs);
      }
      PowerInCoversAll(rs[1..], ks);
    }
  }

  /** Summing per-device wattage over distinct keys sums the wattage of the
      records whose device type is one of those keys. */
  lemma {:induction false} PowerColumnSum(rs: seq<Record>, keys: seq<string>)
    requires NoDuplicates(keys)
    ensures Sum(PowerColumn(rs, keys)) == PowerIn(rs, set k | k in keys)
  {
    if |keys| == 0 {
      assert (set k | k in keys) == {};
      PowerInNone(rs);
    } else {
      var rest := keys[1..];
      assert PowerColumn(rs, keys)[1..] == PowerColumn(rs, rest);
      PowerColumnSum(rs, rest);
      assert (set k | k in keys) == {keys[0]} + (set k | k in rest);
      assert keys[0] !in rest;
      PowerInAddKey(rs, keys[0], set k | k in rest);
    }
  }

  /** No device type selects no wattage. */
  lemma {:induction false} PowerInNone(rs: seq<Record>)
    ensures PowerIn(rs, {}) == 0.0
  {
    if |rs| > 0 {
      PowerInNone(rs[1..]);
    }
  }

  /** The per-device sums over a column holding every on-device exactly
      once add up to the summed wattage of all active records. */
  lemma PowerColumnPartition(rs: seq<Record>, keys: seq<string>)
    requires NoDuplicates(keys)
    requires forall k :: k in keys <==> k in OnDevices(rs)
    ensures Sum(PowerColumn(rs, keys)) == TotalOnPower(rs)
  {
    PowerColumnSum(rs, keys);
    PowerInCoversAll(rs, set k | k in keys);
  }
}
