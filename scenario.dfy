/** A worked instance of the transformation: three inventory rows, two of tier
    `1` (diesel and electricity) and one diesel row of the weighted-average tier. */
module RailScenario {
  import opened Table
  import opened Tiers
  import opened ProcessColumns
  import opened FlowMapper
  import opened ReferenceFlows
  import opened RailPipeline

  function ScenarioRows(): seq<Row>
  {
    [ map[Tier := Str("1"), DataName := Str(Diesel)],
      map[Tier := Str("1"), DataName := Str("electricity")],
      map[Tier := Str(WeightedAverageTier), DataName := Str(Diesel)] ]
  }

  /** The distinct tiers of the scenario are `1` and `weighted average`, in that order. */
  lemma ScenarioTiers()
    ensures UniqueTiers(ScenarioRows()) == [Str("1"), Str(WeightedAverageTier)]
  {
    var t := ScenarioRows();
    var column := TierValues(t);
    assert column[0] == Str("1") && column[1] == Str("1") && column[2] == Str(WeightedAverageTier);
    var one := Str("1");
    assert column[..1] == [one];
    assert Distinct(column[..1]) == [one];
    assert column[..2][..1] == column[..1] && column[..2][1] == one;
    assert Distinct(column[..2]) == [one];
    assert column[..3][..2] == column[..2] && column[..3] == column;
  }

  /** Whatever the table built from the scenario: it has five rows (the three
      inventory rows and two reference rows); the tier-1 process has the diesel
      input and the electricity output; its reference row is the tier-1
      reference output; and the weighted-average process carries both legacy
      identifiers. */
  lemma ScenarioTable(r: seq<Row>, flows: FlowTable, makeUuid: UuidInput -> string)
    requires InventoryWithReferences(ScenarioRows(), r, flows, makeUuid)
    ensures |r| == 5
    ensures Get(r[0], IsInput) == Bool(true) && Get(r[1], IsInput) == Bool(false)
    ensures Get(r[0], ProcessName) == Get(r[1], ProcessName) == Get(r[3], ProcessName)
    ensures Get(r[3], Tier) == Str("1") && Get(r[3], Reference) == Bool(true)
    ensures Get(r[3], Amount) == Num(1.0) && Get(r[3], Unit) == Str(TonKilometre)
    ensures Get(r[2], ProcessId) == Str(LegacyProcessId)
    ensures Get(r[4], Tier) == Str(WeightedAverageTier) && Get(r[4], FlowUuid) == Str(LegacyReferenceFlowUuid)
  {
    var t := ScenarioRows();
    ScenarioTiers();
    assert |r| == 5;
    assert InventoryRow(t[0], r[0], flows, makeUuid) && InventoryRow(t[1], r[1], flows, makeUuid);
    ScenarioWeightedAverageRow(t[2], r[2], flows, makeUuid);
    var tiers := UniqueTiers(t);
    assert tiers[0] == Str("1") && tiers[1] == Str(WeightedAverageTier);
    assert ReferenceRowsHold(r, |t|, tiers, makeUuid);
    assert ReferenceCells(r[|t| + 0], tiers[0].s, makeUuid) && ReferenceCells(r[|t| + 1], tiers[1].s, makeUuid);
    assert TierFixesProcess(r) && Get(r[0], Tier) == Get(r[3], Tier);
  }

  /** In the same table, the tier-1 process has exactly one reference row, and
      that row is an output; the weighted-average row and its reference row
      belong to another process. */
  lemma ScenarioProcesses(r: seq<Row>, flows: FlowTable, makeUuid: UuidInput -> string)
    requires InventoryWithReferences(ScenarioRows(), r, flows, makeUuid)
    ensures |r| == 5
    ensures Get(r[3], IsInput) == Bool(false)
    ensures ReferenceCount(r, Str("1")) == 1
    ensures Get(r[2], ProcessName) != Get(r[0], ProcessName)
    ensures Get(r[4], ProcessName) != Get(r[0], ProcessName)
  {
    var t := ScenarioRows();
    ScenarioTiers();
    var tiers := UniqueTiers(t);
    assert tiers[0] == Str("1") && tiers[1] == Str(WeightedAverageTier);
    assert ReferenceRowsHold(r, |t|, tiers, makeUuid);
    assert ReferenceCells(r[|t| + 0], tiers[0].s, makeUuid) && ReferenceCells(r[|t| + 1], tiers[1].s, makeUuid);
    assert InventoryRow(t[0], r[0], flows, makeUuid) && InventoryRow(t[2], r[2], flows, makeUuid);
    assert TierValues(r)[0] == Str("1");
    var one := ProcessNamePrefix + "1";
    var average := ProcessNamePrefix + WeightedAverageTier;
    assert one[|ProcessNamePrefix|] != average[|ProcessNamePrefix|];
    assert TierFixesProcess(r) && Get(r[2], Tier) == Get(r[4], Tier);
  }

  lemma ScenarioWeightedAverageRow(before: Row, row: Row, flows: FlowTable, makeUuid: UuidInput -> string)
    requires Get(before, Tier) == Str(WeightedAverageTier)
    requires InventoryRow(before, row, flows, makeUuid)
    ensures Get(row, ProcessId) == Str(LegacyProcessId)
  {
    LegacyIdForWeightedAveragePrefix("");
    assert ProcessNamePrefix + WeightedAverageTier + "" == ProcessNamePrefix + WeightedAverageTier;
    assert NamesWeightedAverage(map[ProcessName := Get(row, ProcessName)]);
  }
}
