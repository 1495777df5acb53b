/**
 * The key-value table every server handler reads and writes (the `kv`
 * module index.tsx imports). Its implementation, kv_store.tsx, is not part of
 * this model: the table is a map from keys to records, `set` replaces the
 * value under one key, and `getByPrefix` returns the values of all keys that
 * start with a prefix, in an order the model leaves open.
 *
 * Records of each kind live under a key that starts with the kind's prefix;
 * `WellFormed` states that the prefix of a key tells the kind of its value.
 */
module Store {
  import opened Domain

  datatype Value =
    | IncomeValue(income: Income)
    | ExpenseValue(expense: Expense)
    | EmployeeValue(employee: Employee)
    | AttendanceValue(attendance: Attendance)
    | PartnerValue(partner: Partner)
    | ProfitSharingValue(profitSharing: ProfitSharing)
    | LivestockTypeValue(livestockType: LivestockType)
    | OtherValue(json: string)

  const IncomePrefix: string := "income:"
  const ExpensePrefix: string := "expense:"
  const EmployeePrefix: string := "employee:"
  const AttendancePrefix: string := "attendance:"
  const PartnerPrefix: string := "partner:"
  const ProfitSharingPrefix: string := "profitsharing:"
  const LivestockTypePrefix: string := "livestocktype:"

  /** The kind of value a key is meant to hold. */
  predicate WellKinded(key: string, v: Value) {
    (StartsWith(key, IncomePrefix) ==> v.IncomeValue?)
    && (StartsWith(key, ExpensePrefix) ==> v.ExpenseValue?)
    && (StartsWith(key, EmployeePrefix) ==> v.EmployeeValue?)
    && (StartsWith(key, AttendancePrefix) ==> v.AttendanceValue?)
    && (StartsWith(key, PartnerPrefix) ==> v.PartnerValue?)
    && (StartsWith(key, ProfitSharingPrefix) ==> v.ProfitSharingValue?)
    && (StartsWith(key, LivestockTypePrefix) ==> v.LivestockTypeValue?)
  }

  predicate WellFormed(data: map<string, Value>) {
    forall k :: k in data ==> WellKinded(k, data[k])
  }

  /** Writing a value of the right kind keeps the table well formed. */
  lemma SetKeepsWellFormed(data: map<string, Value>, key: string, v: Value)
    requires WellFormed(data) && WellKinded(key, v)
    ensures WellFormed(data[key := v])
  {
  }

  /** A profit-sharing record belongs under any key `profitsharing:<month>`. */
  lemma ProfitSharingKeyKind(month: string, ps: ProfitSharing)
    ensures WellKinded(ProfitSharingPrefix + month, ProfitSharingValue(ps))
  {
    var key := ProfitSharingPrefix + month;
    StartsWithConcat(ProfitSharingPrefix, month);
    StartsWithAt(key, ProfitSharingPrefix, 0);
    StartsWithAt(key, ProfitSharingPrefix, 1);
    assert key[0] == 'p' && key[1] == 'r';
    assert !StartsWith(key, PartnerPrefix) by {
      if StartsWith(key, PartnerPrefix) { StartsWithAt(key, PartnerPrefix, 1); }
    }
  }

  /** An attendance record belongs under any key `attendance:<employeeId>:<date>`. */
  lemma AttendanceKeyKind(rest: string, a: Attendance)
    ensures WellKinded(AttendancePrefix + rest, AttendanceValue(a))
  {
    var key := AttendancePrefix + rest;
    StartsWithConcat(AttendancePrefix, rest);
    StartsWithAt(key, AttendancePrefix, 0);
  }

  /**
   * `keys` is what a scan for `prefix` visits: every key of the table that
   * starts with `prefix`, each once, and no other key.
   */
  ghost predicate IsScan(data: map<string, Value>, prefix: string, keys: seq<string>) {
    (forall i, j :: 0 <= i < j < |keys| ==> keys[i] != keys[j])
    && (forall i :: 0 <= i < |keys| ==> keys[i] in data && StartsWith(keys[i], prefix))
    && (forall k :: k in data && StartsWith(k, prefix) ==> k in keys)
  }

  /** A scan visits each key once, so two scans for one prefix differ only in order. */
  lemma ScansArePermutations(data: map<string, Value>, prefix: string, keys1: seq<string>, keys2: seq<string>)
    requires IsScan(data, prefix, keys1) && IsScan(data, prefix, keys2)
    ensures multiset(keys1) == multiset(keys2)
  {
    forall k ensures multiset(keys1)[k] == multiset(keys2)[k] {
      DistinctCount(keys1, k);
      DistinctCount(keys2, k);
    }
  }

  lemma {:induction false} DistinctCount(keys: seq<string>, k: string)
    requires forall i, j :: 0 <= i < j < |keys| ==> keys[i] != keys[j]
    ensures multiset(keys)[k] == if k in keys then 1 else 0
  {
    if keys != [] {
      DistinctCount(keys[1..], k);
      assert keys == [keys[0]] + keys[1..];
      assert keys[0] !in keys[1..];
    }
  }

  /** The values stored under `keys`, in that order. */
  function ValuesAt(data: map<string, Value>, keys: seq<string>): (vs: seq<Value>)
    requires forall i :: 0 <= i < |keys| ==> keys[i] in data
    ensures |vs| == |keys|
    ensures forall i :: 0 <= i < |keys| ==> vs[i] == data[keys[i]]
  {
    if keys == [] then [] else [data[keys[0]]] + ValuesAt(data, keys[1..])
  }

  /** The incomes among scanned values (in a well-formed table, all values of an `income:` scan). */
  function Incomes(vs: seq<Value>): (xs: seq<Income>)
    ensures |xs| <= |vs|
    ensures (forall i :: 0 <= i < |vs| ==> vs[i].IncomeValue?) ==>
              |xs| == |vs| && forall i :: 0 <= i < |vs| ==> xs[i] == vs[i].income
  {
    if vs == [] then []
    else (if vs[0].IncomeValue? then [vs[0].income] else []) + Incomes(vs[1..])
  }

  function Expenses(vs: seq<Value>): (xs: seq<Expense>)
    ensures |xs| <= |vs|
    ensures (forall i :: 0 <= i < |vs| ==> vs[i].ExpenseValue?) ==>
              |xs| == |vs| && forall i :: 0 <= i < |vs| ==> xs[i] == vs[i].expense
  {
    if vs == [] then []
    else (if vs[0].ExpenseValue? then [vs[0].expense] else []) + Expenses(vs[1..])
  }

  function Employees(vs: seq<Value>): (xs: seq<Employee>)
    ensures |xs| <= |vs|
    ensures (forall i :: 0 <= i < |vs| ==> vs[i].EmployeeValue?) ==>
              |xs| == |vs| && forall i :: 0 <= i < |vs| ==> xs[i] == vs[i].employee
  {
    if vs == [] then []
    else (if vs[0].EmployeeValue? then [vs[0].employee] else []) + Employees(vs[1..])
  }

  function Attendances(vs: seq<Value>): (xs: seq<Attendance>)
    ensures |xs| <= |vs|
    ensures (forall i :: 0 <= i < |vs| ==> vs[i].AttendanceValue?) ==>
              |xs| == |vs| && forall i :: 0 <= i < |vs| ==> xs[i] == vs[i].attendance
  {
    if vs == [] then []
    else (if vs[0].AttendanceValue? then [vs[0].attendance] else []) + Attendances(vs[1..])
  }

  function Partners(vs: seq<Value>): (xs: seq<Partner>)
    ensures |xs| <= |vs|
    ensures (forall i :: 0 <= i < |vs| ==> vs[i].PartnerValue?) ==>
              |xs| == |vs| && forall i :: 0 <= i < |vs| ==> xs[i] == vs[i].partner
  {
    if vs == [] then []
    else (if vs[0].PartnerValue? then [vs[0].partner] else []) + Partners(vs[1..])
  }

  function LivestockTypes(vs: seq<Value>): (xs: seq<LivestockType>)
    ensures |xs| <= |vs|
    ensures (forall i :: 0 <= i < |vs| ==> vs[i].LivestockTypeValue?) ==>
              |xs| == |vs| && forall i :: 0 <= i < |vs| ==> xs[i] == vs[i].livestockType
  {
    if vs == [] then []
    else (if vs[0].LivestockTypeValue? then [vs[0].livestockType] else []) + LivestockTypes(vs[1..])
  }

  /** In a well-formed table, a scan for a kind's prefix finds only values of that kind. */
  lemma ScanKinds(data: map<string, Value>, prefix: string, keys: seq<string>)
    requires WellFormed(data) && IsScan(data, prefix, keys)
    ensures prefix == IncomePrefix ==> forall i :: 0 <= i < |keys| ==> data[keys[i]].IncomeValue?
    ensures prefix == ExpensePrefix ==> forall i :: 0 <= i < |keys| ==> data[keys[i]].ExpenseValue?
    ensures prefix == PartnerPrefix ==> forall i :: 0 <= i < |keys| ==> data[keys[i]].PartnerValue?
    ensures prefix == AttendancePrefix ==> forall i :: 0 <= i < |keys| ==> data[keys[i]].AttendanceValue?
  {
  }

  class KvStore {
    var data: map<string, Value>

    ghost predicate Valid()
      reads this
    {
      WellFormed(data)
    }

    constructor ()
      ensures data == map[] && Valid()
    {
      data := map[];
    }

    /** `kv.get(key)`: the value under `key`, or nothing. */
    method Get(key: string) returns (v: Option<Value>)
      ensures key in data <==> v.Some?
      ensures v.Some? ==> v.value == data[key]
    {
      if key in data {
        v := Some(data[key]);
      } else {
        v := None;
      }
    }

    /** `kv.set(key, value)`: replaces the value under `key` and leaves every other key alone. */
    method Set(key: string, v: Value)
      modifies this
      ensures data == old(data)[key := v]
    {
      data := data[key := v];
    }

    /** `kv.getByPrefix(prefix)`: the values of all keys that start with `prefix`. */
    method GetByPrefix(prefix: string) returns (vs: seq<Value>, ghost keys: seq<string>)
      ensures IsScan(data, prefix, keys)
      ensures |vs| == |keys| && forall i :: 0 <= i < |keys| ==> vs[i] == data[keys[i]]
    {
      vs, keys := [], [];
      var remaining := data.Keys;
      while remaining != {}
        invariant remaining <= data.Keys
        invariant forall i, j :: 0 <= i < j < |keys| ==> keys[i] != keys[j]
        invariant forall i :: 0 <= i < |keys| ==> keys[i] in data && StartsWith(keys[i], prefix) && keys[i] !in remaining
        invariant forall k :: k in data && StartsWith(k, prefix) ==> k in keys || k in remaining
        invariant |vs| == |keys| && forall i :: 0 <= i < |keys| ==> vs[i] == data[keys[i]]
        decreases remaining
      {
        var k :| k in remaining;
        if StartsWith(k, prefix) {
          vs, keys := vs + [data[k]], keys + [k];
        }
        remaining := remaining - {k};
      }
    }
  }
}
