/** Input flag, reference flag, process name and process identifier of the
    inventory rows, and the legacy identifier of the weighted-average process. */
module ProcessColumns {
  import opened Table
  import opened Text

  /** The argument handed to `make_uuid`: one string, or a list of cells. */
  datatype UuidInput = Name(name: string) | Parts(parts: seq<Value>)

  const Diesel := "diesel"
  const ProcessNamePrefix := "Transport, rail, freight; diesel powered; tier "
  const WeightedAverageProcess := "Transport, rail, freight; diesel powered; tier weighted average"
  const LegacyProcessId := "7de9c230-fd0f-3478-be87-f80181132faa"

  /** The state of one inventory row after lines 74-77: it is an input exactly
      when its `data name` is `diesel`, it is not a reference flow, its process
      is named after its tier, and the process identifier is `make_uuid` of
      that name. */
  ghost predicate ProcessColumnsAssigned(before: Row, after: Row, makeUuid: UuidInput -> string)
  {
    && Updated(before, after, {IsInput, Reference, ProcessName, ProcessId})
    && after[IsInput] == Bool(Get(before, DataName) == Str(Diesel))
    && after[Reference] == Bool(false)
    && Get(before, Tier).Str?
    && after[ProcessName] == Str(ProcessNamePrefix + Get(before, Tier).s)
    && after[ProcessId] == Str(makeUuid(Name(after[ProcessName].s)))
  }

  method AssignProcessColumns(t: seq<Row>, makeUuid: UuidInput -> string) returns (r: seq<Row>)
    requires TiersAreText(t)
    ensures |r| == |t|
    ensures forall i :: 0 <= i < |t| ==> ProcessColumnsAssigned(t[i], r[i], makeUuid)
  {
    r := t;
    for i := 0 to |t|
      invariant |r| == |t|
      invariant forall k :: 0 <= k < i ==> ProcessColumnsAssigned(t[k], r[k], makeUuid)
      invariant forall k :: i <= k < |t| ==> r[k] == t[k]
    {
      var isInput := Get(r[i], DataName) == Str(Diesel);
      var name := ProcessNamePrefix + Get(r[i], Tier).s;
      r := r[i := r[i][IsInput := Bool(isInput)][Reference := Bool(false)]
                      [ProcessName := Str(name)][ProcessId := Str(makeUuid(Name(name)))]];
    }
  }

  /** The mask of line 102: the process name contains the weighted-average
      process name (a substring test; a cell that is not text never matches). */
  predicate NamesWeightedAverage(row: Row)
  {
    Get(row, ProcessName).Str? && Contains(Get(row, ProcessName).s, WeightedAverageProcess)
  }

  /** Lines 99-103: the legacy identifier replaces the process identifier of
      exactly the masked rows; every other row is left as it was. */
  method OverrideLegacyProcessId(t: seq<Row>) returns (r: seq<Row>)
    ensures |r| == |t|
    ensures forall i :: 0 <= i < |t| && NamesWeightedAverage(t[i]) ==>
              r[i] == t[i][ProcessId := Str(LegacyProcessId)]
    ensures forall i :: 0 <= i < |t| && !NamesWeightedAverage(t[i]) ==> r[i] == t[i]
  {
    r := t;
    for i := 0 to |t|
      invariant |r| == |t|
      invariant forall k :: 0 <= k < i && NamesWeightedAverage(t[k]) ==>
                  r[k] == t[k][ProcessId := Str(LegacyProcessId)]
      invariant forall k :: 0 <= k < i && !NamesWeightedAverage(t[k]) ==> r[k] == t[k]
      invariant forall k :: i <= k < |t| ==> r[k] == t[k]
    {
      if NamesWeightedAverage(r[i]) {
        r := r[i := r[i][ProcessId := Str(LegacyProcessId)]];
      }
    }
  }

  /** Because the mask is a substring test, every tier that starts with
      `weighted average` is given the legacy identifier, not only that exact tier. */
  lemma LegacyIdForWeightedAveragePrefix(suffix: string)
    ensures NamesWeightedAverage(map[ProcessName := Str(ProcessNamePrefix + "weighted average" + suffix)])
  {
    var s := ProcessNamePrefix + "weighted average" + suffix;
    assert s == WeightedAverageProcess + suffix;
    assert s[..|WeightedAverageProcess|] == WeightedAverageProcess;
    assert OccursAt(s, WeightedAverageProcess, 0);
    ContainsIffOccurs(s, WeightedAverageProcess);
  }

  /** Two rows that name the same process carry the same process identifier. */
  ghost predicate IdFollowsName(t: seq<Row>)
  {
    forall i, j :: 0 <= i < |t| && 0 <= j < |t| && Get(t[i], ProcessName) == Get(t[j], ProcessName) ==>
      Get(t[i], ProcessId) == Get(t[j], ProcessId)
  }

  /** Two rows of the same tier name the same process and carry the same identifier. */
  ghost predicate TierFixesProcess(t: seq<Row>)
  {
    forall i, j :: 0 <= i < |t| && 0 <= j < |t| && Get(t[i], Tier) == Get(t[j], Tier) ==>
      Get(t[i], ProcessName) == Get(t[j], ProcessName) && Get(t[i], ProcessId) == Get(t[j], ProcessId)
  }

  /** After the generated identifiers (line 77) and the legacy override
      (line 103), the process identifier is still a function of the process
      name, and hence of the tier. */
  lemma OverrideKeepsIdentifiersConsistent(a: seq<Row>, r: seq<Row>, makeUuid: UuidInput -> string)
    requires forall i :: 0 <= i < |a| ==>
               Get(a[i], Tier).Str? && Get(a[i], ProcessName) == Str(ProcessNamePrefix + Get(a[i], Tier).s)
    requires forall i :: 0 <= i < |a| ==> Get(a[i], ProcessId) == Str(makeUuid(Name(Get(a[i], ProcessName).s)))
    requires |r| == |a|
    requires forall i :: 0 <= i < |a| && NamesWeightedAverage(a[i]) ==> r[i] == a[i][ProcessId := Str(LegacyProcessId)]
    requires forall i :: 0 <= i < |a| && !NamesWeightedAverage(a[i]) ==> r[i] == a[i]
    ensures IdFollowsName(r) && TierFixesProcess(r)
  {
    forall i, j | 0 <= i < |r| && 0 <= j < |r| && Get(r[i], ProcessName) == Get(r[j], ProcessName)
      ensures Get(r[i], ProcessId) == Get(r[j], ProcessId)
    {
      assert Get(r[i], ProcessName) == Get(a[i], ProcessName);
      assert Get(r[j], ProcessName) == Get(a[j], ProcessName);
    }
    forall i, j | 0 <= i < |r| && 0 <= j < |r| && Get(r[i], Tier) == Get(r[j], Tier)
      ensures Get(r[i], ProcessName) == Get(r[j], ProcessName)
    {
      assert Get(r[i], Tier) == Get(a[i], Tier);
      assert Get(r[j], Tier) == Get(a[j], Tier);
    }
  }
}
