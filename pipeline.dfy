/** The whole transformation of lines 45-179, stage after stage, and what it
    guarantees about the exchange table it hands on. */
module RailPipeline {
  import opened Table
  import opened Tiers
  import opened Schema
  import opened ProcessColumns
  import opened FlowMapper
  import opened ReferenceFlows
  import opened SharedColumns
  import opened CountryJoin

  /** `b` has the rows of `a`, with the same tier, reference flag, process name
      and process identifier in each. */
  ghost predicate KeepsProcessColumns(a: seq<Row>, b: seq<Row>)
  {
    && |a| == |b|
    && forall i :: 0 <= i < |a| ==>
         && Get(b[i], Tier) == Get(a[i], Tier)
         && Get(b[i], Reference) == Get(a[i], Reference)
         && Get(b[i], ProcessName) == Get(a[i], ProcessName)
         && Get(b[i], ProcessId) == Get(a[i], ProcessId)
  }

  lemma {:induction false} KeepsReferenceCount(a: seq<Row>, b: seq<Row>, tier: Value)
    requires KeepsProcessColumns(a, b)
    ensures ReferenceCount(b, tier) == ReferenceCount(a, tier)
  {
    if a != [] {
      var n := |a|;
      assert KeepsProcessColumns(a[..n - 1], b[..n - 1]);
      KeepsReferenceCount(a[..n - 1], b[..n - 1], tier);
    }
  }

  /** A stage that keeps the process columns keeps one reference row per tier
      and the consistency of process names and identifiers. */
  lemma KeepsProcessInvariants(a: seq<Row>, b: seq<Row>)
    requires KeepsProcessColumns(a, b)
    requires forall tier :: tier in TierValues(a) ==> ReferenceCount(a, tier) == 1
    requires IdFollowsName(a) && TierFixesProcess(a)
    ensures forall tier :: tier in TierValues(b) ==> ReferenceCount(b, tier) == 1
    ensures IdFollowsName(b) && TierFixesProcess(b)
  {
    assert TierValues(a) == TierValues(b);
    forall tier | tier in TierValues(b)
      ensures ReferenceCount(b, tier) == 1
    {
      KeepsReferenceCount(a, b, tier);
    }
  }

  /** The columns lines 45-179 write on an inventory row: the schema columns,
      `Year` and `CountryCode`. Every other column (`data name`, `tier`,
      `amount`, `unit` and the rest of the inventory file) is the row's own. */
  predicate IsWrittenColumn(c: Column)
  {
    || c.ProcessId? || c.ProcessCategory? || c.ProcessName? || c.FlowUuid? || c.FlowName?
    || c.Context? || c.IsInput? || c.FlowType? || c.Reference? || c.DefaultProvider?
    || c.DefaultProviderName? || c.AvoidedProduct? || c.ExchangeDqi? || c.Location?
    || c.Year? || c.CountryCode?
  }

  /** The constructor tests of `IsWrittenColumn` name exactly the schema
      columns, `Year` and `CountryCode`. */
  lemma WrittenColumnsAreSchemaYearCountry(c: Column)
    ensures IsWrittenColumn(c) <==> c in SchemaSet || c == Year || c == CountryCode
  {
  }

  /** What lines 45-103 make of the inventory row `before`; the columns the
      script does not write keep their cells. */
  ghost predicate InventoryRow(before: Row, row: Row, flows: FlowTable, makeUuid: UuidInput -> string)
  {
    && (forall c :: !IsWrittenColumn(c) ==> Get(row, c) == Get(before, c))
    && Get(before, Tier).Str?
    && Get(row, Tier) == Get(before, Tier)
    && Get(row, IsInput) == Bool(Get(before, DataName) == Str(Diesel))
    && Get(row, Reference) == Bool(false)
    && Get(row, ProcessName) == Str(ProcessNamePrefix + Get(before, Tier).s)
    && Get(row, ProcessId) == Str(if NamesWeightedAverage(row) then LegacyProcessId
                                  else makeUuid(Name(ProcessNamePrefix + Get(before, Tier).s)))
    && var key := Get(before, DataName);
       if key.Str? && key.s in flows then
         && Get(row, FlowName) == flows[key.s].flowName
         && Get(row, FlowUuid) == flows[key.s].flowUuid
         && Get(row, DefaultProviderName) == flows[key.s].processName
         && Get(row, DefaultProvider) == flows[key.s].defaultProviderUuid
       else
         && Get(row, FlowName) == Missing
         && Get(row, FlowUuid) == Missing
         && Get(row, DefaultProviderName) == Missing
         && Get(row, DefaultProvider) == Missing
  }

  /** The six schema columns that lines 74-103 leave alone still hold the
      `''` written at line 65; lines 152-171 fill them in later. */
  ghost predicate BlankSharedCells(row: Row)
  {
    && Get(row, ProcessCategory) == Str("") && Get(row, Context) == Str("")
    && Get(row, FlowType) == Str("") && Get(row, AvoidedProduct) == Str("")
    && Get(row, ExchangeDqi) == Str("") && Get(row, Location) == Str("")
  }

  lemma InventoryStagesKeepBlanks(r1: Row, r2: Row, r3: Row, r4: Row)
    requires BlankSharedCells(r1)
    requires Updated(r1, r2, {IsInput, Reference, ProcessName, ProcessId})
    requires Updated(r2, r3, {FlowName, FlowUuid, DefaultProviderName, DefaultProvider})
    requires r4 == r3 || r4 == r3[ProcessId := Str(LegacyProcessId)]
    ensures BlankSharedCells(r4)
  {
    forall c: Column | c.ProcessCategory? || c.Context? || c.FlowType? || c.AvoidedProduct? || c.ExchangeDqi? || c.Location?
      ensures Get(r4, c) == Get(r1, c)
    {
      UpdatedGet(r1, r2, {IsInput, Reference, ProcessName, ProcessId}, c);
      UpdatedGet(r2, r3, {FlowName, FlowUuid, DefaultProviderName, DefaultProvider}, c);
    }
  }

  lemma SchemaKeepsInventoryColumns(r0: Row, r1: Row)
    requires Updated(r0, r1, SchemaSet)
    ensures Get(r1, Tier) == Get(r0, Tier) && Get(r1, DataName) == Get(r0, DataName)
    ensures CountryCode in r1 <==> CountryCode in r0
  {
    UpdatedGet(r0, r1, SchemaSet, Tier);
    UpdatedGet(r0, r1, SchemaSet, DataName);
    UpdatedGet(r0, r1, SchemaSet, CountryCode);
  }

  lemma ProcessColumnsKeepInventoryColumns(r1: Row, r2: Row, makeUuid: UuidInput -> string)
    requires ProcessColumnsAssigned(r1, r2, makeUuid)
    ensures Get(r2, Tier) == Get(r1, Tier) && Get(r2, DataName) == Get(r1, DataName)
    ensures CountryCode in r2 <==> CountryCode in r1
  {
    var touched := {IsInput, Reference, ProcessName, ProcessId};
    UpdatedGet(r1, r2, touched, Tier);
    UpdatedGet(r1, r2, touched, DataName);
    UpdatedGet(r1, r2, touched, CountryCode);
  }

  lemma FlowColumnsKeepProcessColumns(r2: Row, r3: Row, flows: FlowTable)
    requires FlowColumnsMapped(r2, r3, flows)
    ensures Get(r3, Tier) == Get(r2, Tier) && Get(r3, IsInput) == Get(r2, IsInput)
    ensures Get(r3, Reference) == Get(r2, Reference)
    ensures Get(r3, ProcessName) == Get(r2, ProcessName) && Get(r3, ProcessId) == Get(r2, ProcessId)
    ensures CountryCode in r3 <==> CountryCode in r2
  {
    var touched := {FlowName, FlowUuid, DefaultProviderName, DefaultProvider};
    UpdatedGet(r2, r3, touched, Tier);
    UpdatedGet(r2, r3, touched, IsInput);
    UpdatedGet(r2, r3, touched, Reference);
    UpdatedGet(r2, r3, touched, ProcessName);
    UpdatedGet(r2, r3, touched, ProcessId);
    UpdatedGet(r2, r3, touched, CountryCode);
  }

  lemma InventoryRowStages(r0: Row, r1: Row, r2: Row, r3: Row, r4: Row,
                           flows: FlowTable, makeUuid: UuidInput -> string)
    requires Get(r0, Tier).Str? && CountryCode !in r0
    requires Updated(r0, r1, SchemaSet)
    requires ProcessColumnsAssigned(r1, r2, makeUuid)
    requires FlowColumnsMapped(r2, r3, flows)
    requires r4 == if NamesWeightedAverage(r3) then r3[ProcessId := Str(LegacyProcessId)] else r3
    ensures Get(r3, Tier) == Get(r0, Tier)
    ensures Get(r3, ProcessName) == Str(ProcessNamePrefix + Get(r0, Tier).s)
    ensures Get(r3, ProcessId) == Str(makeUuid(Name(Get(r3, ProcessName).s)))
    ensures InventoryRow(r0, r4, flows, makeUuid) && CountryCode !in r4
    ensures BlankSharedCells(r1) ==> BlankSharedCells(r4)
  {
    SchemaKeepsInventoryColumns(r0, r1);
    ProcessColumnsKeepInventoryColumns(r1, r2, makeUuid);
    FlowColumnsKeepProcessColumns(r2, r3, flows);
    InventoryStagesKeepOwnCells(r0, r1, r2, r3, r4);
    if BlankSharedCells(r1) {
      InventoryStagesKeepBlanks(r1, r2, r3, r4);
    }
    assert Get(r4, ProcessName) == Get(r3, ProcessName);
  }

  /** A column the script does not write is none of the columns stages 1-4 touch. */
  lemma OwnColumnUntouched(c: Column)
    requires !IsWrittenColumn(c)
    ensures c !in SchemaSet && c != ProcessId
    ensures c !in {IsInput, Reference, ProcessName, ProcessId}
    ensures c !in {FlowName, FlowUuid, DefaultProviderName, DefaultProvider}
  {
  }

  lemma InventoryStagesKeepOwnCells(r0: Row, r1: Row, r2: Row, r3: Row, r4: Row)
    requires Updated(r0, r1, SchemaSet)
    requires Updated(r1, r2, {IsInput, Reference, ProcessName, ProcessId})
    requires Updated(r2, r3, {FlowName, FlowUuid, DefaultProviderName, DefaultProvider})
    requires r4 == r3 || r4 == r3[ProcessId := Str(LegacyProcessId)]
    ensures forall c :: !IsWrittenColumn(c) ==> Get(r4, c) == Get(r0, c)
  {
    forall c | !IsWrittenColumn(c)
      ensures Get(r4, c) == Get(r0, c)
    {
      OwnColumnUntouched(c);
      UpdatedGet(r0, r1, SchemaSet, c);
      UpdatedGet(r1, r2, {IsInput, Reference, ProcessName, ProcessId}, c);
      UpdatedGet(r2, r3, {FlowName, FlowUuid, DefaultProviderName, DefaultProvider}, c);
    }
  }

  /** Lines 45-103: schema columns, input and reference flags, process names
      and identifiers, flow metadata, and the legacy process identifier. */
  method PrepareInventoryRows(input: seq<Row>, flows: FlowTable, makeUuid: UuidInput -> string)
    returns (t: seq<Row>)
    requires TiersAreText(input)
    requires forall i :: 0 <= i < |input| ==> CountryCode !in input[i]
    ensures |t| == |input|
    ensures forall i :: 0 <= i < |input| ==> InventoryRow(input[i], t[i], flows, makeUuid) && CountryCode !in t[i]
    ensures forall i :: 0 <= i < |input| ==> BlankSharedCells(t[i])
    ensures TiersAreText(t) && TierValues(t) == TierValues(input)
    ensures IdFollowsName(t) && TierFixesProcess(t)
  {
    var t1 := AddSchemaColumns(input);
    var t2 := AssignProcessColumns(t1, makeUuid);
    var t3 := MapFlowMeta(t2, flows);
    t := OverrideLegacyProcessId(t3);
    forall i | 0 <= i < |input|
      ensures Get(t3[i], Tier) == Get(input[i], Tier)
      ensures Get(t3[i], ProcessName) == Str(ProcessNamePrefix + Get(input[i], Tier).s)
      ensures Get(t3[i], ProcessId) == Str(makeUuid(Name(Get(t3[i], ProcessName).s)))
      ensures InventoryRow(input[i], t[i], flows, makeUuid) && CountryCode !in t[i]
      ensures BlankSharedCells(t[i])
    {
      assert BlankSharedCells(t1[i]);
      InventoryRowStages(input[i], t1[i], t2[i], t3[i], t[i], flows, makeUuid);
    }
    OverrideKeepsIdentifiersConsistent(t3, t, makeUuid);
    assert TierValues(t) == TierValues(input);
  }

  /** The columns written after the reference rows are appended (lines 152-179). */
  predicate IsLaterColumn(c: Column)
  {
    || c.ProcessCategory? || c.Context? || c.FlowType? || c.AvoidedProduct? || c.Location? || c.Year?
    || c.ExchangeDqi? || c.CountryCode?
  }

  /** What lines 152-179 write on every row: the shared columns, the context
      (manufacturing for refinery diesel, rail otherwise), the one exchange
      score, and the 3-letter code paired with `US`. */
  ghost predicate ExchangeCells(row: Row, iso: IsoTable, dqi: string)
  {
    && Get(row, ProcessCategory) == Str(RailCategory)
    && Get(row, FlowType) == Str(ProductFlow)
    && Get(row, AvoidedProduct) == Bool(false)
    && Get(row, Location) == Str(UnitedStates)
    && Get(row, Year) == Int(DataYear)
    && Get(row, ExchangeDqi) == Str(dqi)
    && PairedCode(iso, Str(UnitedStates), Get(row, CountryCode))
    && Get(row, Context) == Str(if IsRefineryDiesel(row) then ManufacturingContext else RailContext)
  }

  /** Every column not written by lines 152-179 reads the same in `a` and `b`. */
  ghost predicate SameEarlierCells(a: Row, b: Row)
  {
    forall c :: !IsLaterColumn(c) ==> Get(b, c) == Get(a, c)
  }

  lemma LaterRowCells(r5: Row, r6: Row, r7: Row, r8: Row, r9: Row, iso: IsoTable, dqi: string)
    requires SharedColumnsAssigned(r5, r6)
    requires r7 == if IsRefineryDiesel(r6) then r6[Context := Str(ManufacturingContext)] else r6
    requires Updated(r7, r8, {ExchangeDqi}) && r8[ExchangeDqi] == Str(dqi)
    requires Updated(r8, r9, {CountryCode}) && PairedCode(iso, Get(r8, Location), r9[CountryCode])
    ensures ExchangeCells(r9, iso, dqi)
  {
    forall c: Column | !c.ExchangeDqi? && !c.CountryCode?
      ensures Get(r9, c) == Get(r7, c)
    {
      UpdatedGet(r7, r8, {ExchangeDqi}, c);
      UpdatedGet(r8, r9, {CountryCode}, c);
    }
  }

  lemma LaterRowKeepsEarlierCells(r5: Row, r6: Row, r7: Row, r8: Row, r9: Row)
    requires Updated(r5, r6, SharedSet)
    requires r7 == r6 || r7 == r6[Context := Str(ManufacturingContext)]
    requires Updated(r7, r8, {ExchangeDqi})
    requires Updated(r8, r9, {CountryCode})
    ensures SameEarlierCells(r5, r9)
  {
    forall c | !IsLaterColumn(c)
      ensures Get(r9, c) == Get(r5, c)
    {
      UpdatedGet(r5, r6, SharedSet, c);
      UpdatedGet(r7, r8, {ExchangeDqi}, c);
      UpdatedGet(r8, r9, {CountryCode}, c);
    }
  }

  lemma InventoryRowKept(before: Row, a: Row, b: Row, flows: FlowTable, makeUuid: UuidInput -> string)
    requires InventoryRow(before, a, flows, makeUuid) && SameEarlierCells(a, b)
    ensures InventoryRow(before, b, flows, makeUuid)
  {
  }

  lemma ReferenceCellsKept(a: Row, b: Row, tier: string, makeUuid: UuidInput -> string)
    requires ReferenceCells(a, tier, makeUuid) && SameEarlierCells(a, b)
    ensures ReferenceCells(b, tier, makeUuid)
  {
  }

  /** Lines 152-179 on the table with its reference rows. */
  method CompleteExchanges(t5: seq<Row>, iso: IsoTable, dqi: string) returns (r: seq<Row>)
    requires forall i :: 0 <= i < |t5| ==> CountryCode !in t5[i]
    ensures |r| >= |t5|
    ensures UniqueAlpha2(iso) ==> |r| == |t5|
    ensures UniqueAlpha2(iso) ==> forall i :: 0 <= i < |t5| ==>
              ExchangeCells(r[i], iso, dqi) && SameEarlierCells(t5[i], r[i])
  {
    var t6 := AssignSharedColumns(t5);
    var t7 := RelocateDiesel(t6);
    var t8 := AssignExchangeDqi(t7, dqi);
    forall i | 0 <= i < |t8|
      ensures CountryCode !in t8[i]
    {
      UpdatedGet(t5[i], t6[i], SharedSet, CountryCode);
      UpdatedGet(t7[i], t8[i], {ExchangeDqi}, CountryCode);
    }
    r := MergeCountryCodes(t8, iso);
    LeftJoinNeverDrops(t8, iso);
    if UniqueAlpha2(iso) {
      forall i | 0 <= i < |t5|
        ensures ExchangeCells(r[i], iso, dqi) && SameEarlierCells(t5[i], r[i])
      {
        LaterRowCells(t5[i], t6[i], t7[i], t8[i], r[i], iso, dqi);
        LaterRowKeepsEarlierCells(t5[i], t6[i], t7[i], t8[i], r[i]);
      }
    }
  }

  /** `t` is the inventory rows of `input`, in order and completed as
      `InventoryRow` says, followed by one reference row per distinct tier in
      order of first appearance; every tier has exactly one reference row; and
      process identifiers follow process names and tiers. */
  ghost predicate InventoryWithReferences(input: seq<Row>, t: seq<Row>, flows: FlowTable,
                                          makeUuid: UuidInput -> string)
  {
    && |t| == |input| + |UniqueTiers(input)|
    && (forall i :: 0 <= i < |input| ==> InventoryRow(input[i], t[i], flows, makeUuid))
    && ReferenceRowsHold(t, |input|, UniqueTiers(input), makeUuid)
    && (forall tier :: tier in TierValues(t) ==> ReferenceCount(t, tier) == 1)
    && IdFollowsName(t) && TierFixesProcess(t)
  }

  /** The rows of `t` after the first `n` hold the reference cells of `tiers`, in order. */
  ghost predicate ReferenceRowsHold(t: seq<Row>, n: nat, tiers: seq<Value>, makeUuid: UuidInput -> string)
  {
    n + |tiers| <= |t| &&
    forall k :: 0 <= k < |tiers| ==> tiers[k].Str? && ReferenceCells(t[n + k], tiers[k].s, makeUuid)
  }

  /** Lines 45-147: the inventory rows followed by the reference rows. */
  method BuildReferenceTable(input: seq<Row>, flows: FlowTable, makeUuid: UuidInput -> string)
    returns (t5: seq<Row>)
    requires TiersAreText(input)
    requires forall i :: 0 <= i < |input| ==> CountryCode !in input[i]
    ensures InventoryWithReferences(input, t5, flows, makeUuid)
    ensures BlankSharedRows(t5, |input|)
    ensures ReferenceRowKeys(t5, |input|, |UniqueTiers(input)|)
    ensures forall i :: 0 <= i < |t5| ==> CountryCode !in t5[i]
  {
    var t4 := PrepareInventoryRows(input, flows, makeUuid);
    t5 := AddReferenceRows(t4, makeUuid);
    assert UniqueTiers(input) == UniqueTiers(t4);
    AppendedRowsLackCountryCode(t4, t5, makeUuid);
    ReferenceStageInvariants(t4, t5, makeUuid);
    ReferenceRowsHoldCells(input, t4, t5, makeUuid);
    InventoryRowsPrefix(input, t4, t5, flows, makeUuid);
    BlankRowsPrefix(t4, t5);
    ReferenceRowsHaveOwnKeys(t4, t5, makeUuid);
  }

  /** The first `n` rows of `t` hold the pending blanks of `BlankSharedCells`. */
  ghost predicate BlankSharedRows(t: seq<Row>, n: nat)
  {
    n <= |t| && forall i :: 0 <= i < n ==> BlankSharedCells(t[i])
  }

  /** The `m` rows after the first `n` rows of `t` have exactly the keys of `new_row`. */
  ghost predicate ReferenceRowKeys(t: seq<Row>, n: nat, m: nat)
  {
    n + m <= |t| && forall i :: n <= i < n + m ==> t[i].Keys == ReferenceColumns
  }

  lemma BlankRowsPrefix(t4: seq<Row>, t5: seq<Row>)
    requires |t5| >= |t4| && t5[..|t4|] == t4
    requires forall i :: 0 <= i < |t4| ==> BlankSharedCells(t4[i])
    ensures BlankSharedRows(t5, |t4|)
  {
    forall i | 0 <= i < |t4|
      ensures BlankSharedCells(t5[i])
    {
      assert t5[i] == t5[..|t4|][i];
    }
  }

  lemma ReferenceRowsHaveOwnKeys(t4: seq<Row>, t5: seq<Row>, makeUuid: UuidInput -> string)
    requires ReferenceRowsAppended(t4, t5, makeUuid)
    ensures ReferenceRowKeys(t5, |t4|, |UniqueTiers(t4)|)
  {
    forall i | |t4| <= i < |t4| + |UniqueTiers(t4)|
      ensures t5[i].Keys == ReferenceColumns
    {
      var k := i - |t4|;
      assert UniqueTiers(t4)[k].Str? && t5[|t4| + k].Keys == ReferenceColumns;
    }
  }

  /** Lines 45-179 on the inventory rows `input`, given the flow metadata
      `flows`, the ISO code table `iso`, the identifier generator `makeUuid`
      and the formatted exchange score `dqi`. The join never drops a row; when
      the 2-letter codes are unique it adds none either, and the result is the
      inventory rows followed by the reference rows, every one of them
      carrying the shared exchange cells. */
  method BuildExchangeTable(input: seq<Row>, flows: FlowTable, iso: IsoTable,
                            makeUuid: UuidInput -> string, dqi: string) returns (r: seq<Row>)
    requires TiersAreText(input)
    requires forall i :: 0 <= i < |input| ==> CountryCode !in input[i]
    ensures |r| >= |input| + |UniqueTiers(input)|
    ensures UniqueAlpha2(iso) ==> InventoryWithReferences(input, r, flows, makeUuid)
    ensures UniqueAlpha2(iso) ==> forall i :: 0 <= i < |r| ==> ExchangeCells(r[i], iso, dqi)
    ensures UniqueAlpha2(iso) ==> ReferenceRowsBare(r, |input|, |UniqueTiers(input)|)
  {
    var t5 := BuildReferenceTable(input, flows, makeUuid);
    r := CompleteExchanges(t5, iso, dqi);
    if UniqueAlpha2(iso) {
      ExchangesKeepInventoryWithReferences(input, t5, r, flows, makeUuid);
      ReferenceRowsStayBare(|input|, |UniqueTiers(input)|, t5, r);
    }
  }

  /** A reference row is NaN in every column that is neither a key of
      `new_row` nor written by lines 152-179. */
  ghost predicate OnlyReferenceCells(row: Row)
  {
    forall c :: c !in ReferenceColumns && !IsLaterColumn(c) ==> Get(row, c) == Missing
  }

  /** The `m` rows after the first `n` rows of `t` hold only reference cells. */
  ghost predicate ReferenceRowsBare(t: seq<Row>, n: nat, m: nat)
  {
    n + m <= |t| && forall i :: n <= i < n + m ==> OnlyReferenceCells(t[i])
  }

  lemma ReferenceRowsStayBare(n: nat, m: nat, t5: seq<Row>, r: seq<Row>)
    requires |r| == |t5| && ReferenceRowKeys(t5, n, m)
    requires forall i :: 0 <= i < |t5| ==> SameEarlierCells(t5[i], r[i])
    ensures ReferenceRowsBare(r, n, m)
  {
    forall i, c | n <= i < n + m && c !in ReferenceColumns && !IsLaterColumn(c)
      ensures Get(r[i], c) == Missing
    {
      assert SameEarlierCells(t5[i], r[i]);
      assert t5[i].Keys == ReferenceColumns;
    }
  }

  lemma ExchangesKeepInventoryWithReferences(input: seq<Row>, t5: seq<Row>, r: seq<Row>, flows: FlowTable,
                                             makeUuid: UuidInput -> string)
    requires InventoryWithReferences(input, t5, flows, makeUuid)
    requires |r| == |t5|
    requires forall i :: 0 <= i < |t5| ==> SameEarlierCells(t5[i], r[i])
    ensures InventoryWithReferences(input, r, flows, makeUuid)
  {
    ExchangesKeepInventoryRows(input, t5, r, flows, makeUuid);
    ReferenceRowsKept(|input|, UniqueTiers(input), t5, r, makeUuid);
    ProcessInvariantsKept(t5, r);
  }

  lemma ExchangesKeepInventoryRows(input: seq<Row>, t5: seq<Row>, r: seq<Row>, flows: FlowTable,
                                   makeUuid: UuidInput -> string)
    requires InventoryWithReferences(input, t5, flows, makeUuid)
    requires |r| == |t5|
    requires forall i :: 0 <= i < |t5| ==> SameEarlierCells(t5[i], r[i])
    ensures forall i :: 0 <= i < |input| ==> InventoryRow(input[i], r[i], flows, makeUuid)
  {
    InventoryRowsKept(input, t5, r, flows, makeUuid);
  }

  lemma AppendedRowsLackCountryCode(t4: seq<Row>, t5: seq<Row>, makeUuid: UuidInput -> string)
    requires TiersAreText(t4) && forall i :: 0 <= i < |t4| ==> CountryCode !in t4[i]
    requires ReferenceRowsAppended(t4, t5, makeUuid)
    ensures forall i :: 0 <= i < |t5| ==> CountryCode !in t5[i]
  {
    assert CountryCode !in ReferenceColumns;
    forall i | 0 <= i < |t5|
      ensures CountryCode !in t5[i]
    {
      if i < |t4| {
        assert t5[i] == t5[..|t4|][i];
      } else {
        var k := i - |t4|;
        assert UniqueTiers(t4)[k].Str?;
        assert t5[|t4| + k].Keys == ReferenceColumns;
      }
    }
  }

  lemma ReferenceRowsHoldCells(input: seq<Row>, t4: seq<Row>, t5: seq<Row>, makeUuid: UuidInput -> string)
    requires TiersAreText(t4) && |t4| == |input| && UniqueTiers(t4) == UniqueTiers(input)
    requires ReferenceRowsAppended(t4, t5, makeUuid)
    ensures ReferenceRowsHold(t5, |input|, UniqueTiers(input), makeUuid)
  {
    var tiers := UniqueTiers(t4);
    forall k | 0 <= k < |tiers|
      ensures tiers[k].Str? && ReferenceCells(t5[|t4| + k], tiers[k].s, makeUuid)
    {
      assert tiers[k].Str? &&
             IsReferenceRowFor(t5[|t4| + k], tiers[k].s, t4[FirstIndex(TierValues(t4), tiers[k])], makeUuid);
    }
  }

  lemma InventoryRowsPrefix(input: seq<Row>, t4: seq<Row>, t5: seq<Row>, flows: FlowTable,
                            makeUuid: UuidInput -> string)
    requires |t4| == |input| && |t5| >= |t4| && t5[..|t4|] == t4
    requires forall i :: 0 <= i < |input| ==> InventoryRow(input[i], t4[i], flows, makeUuid)
    ensures forall i :: 0 <= i < |input| ==> InventoryRow(input[i], t5[i], flows, makeUuid)
  {
    forall i | 0 <= i < |input|
      ensures InventoryRow(input[i], t5[i], flows, makeUuid)
    {
      assert t5[i] == t5[..|t4|][i];
    }
  }

  lemma ReferenceStageInvariants(t4: seq<Row>, t5: seq<Row>, makeUuid: UuidInput -> string)
    requires TiersAreText(t4) && IdFollowsName(t4) && TierFixesProcess(t4)
    requires forall i :: 0 <= i < |t4| ==> Get(t4[i], Reference) == Bool(false)
    requires ReferenceRowsAppended(t4, t5, makeUuid)
    ensures forall tier :: tier in TierValues(t5) ==> ReferenceCount(t5, tier) == 1
    ensures IdFollowsName(t5) && TierFixesProcess(t5)
  {
    OneReferencePerTier(t4, t5, makeUuid);
    AppendKeepsProcessesConsistent(t4, t5, makeUuid);
  }

  lemma InventoryRowsKept(input: seq<Row>, t5: seq<Row>, r: seq<Row>, flows: FlowTable,
                          makeUuid: UuidInput -> string)
    requires |t5| >= |input| && |r| == |t5|
    requires forall i :: 0 <= i < |input| ==> InventoryRow(input[i], t5[i], flows, makeUuid)
    requires forall i :: 0 <= i < |t5| ==> SameEarlierCells(t5[i], r[i])
    ensures forall i :: 0 <= i < |input| ==> InventoryRow(input[i], r[i], flows, makeUuid)
  {
    forall i | 0 <= i < |input|
      ensures InventoryRow(input[i], r[i], flows, makeUuid)
    {
      InventoryRowKept(input[i], t5[i], r[i], flows, makeUuid);
    }
  }

  lemma ReferenceRowsKept(n: nat, tiers: seq<Value>, t5: seq<Row>, r: seq<Row>, makeUuid: UuidInput -> string)
    requires |t5| == n + |tiers| && |r| == |t5|
    requires ReferenceRowsHold(t5, n, tiers, makeUuid)
    requires forall i :: 0 <= i < |t5| ==> SameEarlierCells(t5[i], r[i])
    ensures ReferenceRowsHold(r, n, tiers, makeUuid)
  {
    forall k | 0 <= k < |tiers|
      ensures tiers[k].Str? && ReferenceCells(r[n + k], tiers[k].s, makeUuid)
    {
      ReferenceCellsKept(t5[n + k], r[n + k], tiers[k].s, makeUuid);
    }
  }

  lemma ProcessInvariantsKept(t5: seq<Row>, r: seq<Row>)
    requires forall tier :: tier in TierValues(t5) ==> ReferenceCount(t5, tier) == 1
    requires IdFollowsName(t5) && TierFixesProcess(t5)
    requires |r| == |t5|
    requires forall i :: 0 <= i < |t5| ==> SameEarlierCells(t5[i], r[i])
    ensures forall tier :: tier in TierValues(r) ==> ReferenceCount(r, tier) == 1
    ensures IdFollowsName(r) && TierFixesProcess(r)
  {
    forall i | 0 <= i < |t5|
      ensures Get(r[i], Tier) == Get(t5[i], Tier) && Get(r[i], Reference) == Get(t5[i], Reference)
      ensures Get(r[i], ProcessName) == Get(t5[i], ProcessName) && Get(r[i], ProcessId) == Get(t5[i], ProcessId)
    {
      assert SameEarlierCells(t5[i], r[i]);
    }
    KeepsProcessInvariants(t5, r);
  }
}
