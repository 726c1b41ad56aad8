/** One reference-flow row per distinct tier, appended after the inventory rows. */
module ReferenceFlows {
  import opened Table
  import opened Tiers
  import opened ProcessColumns

  const ReferenceFlowPrefix := "Transport, rail, freight; diesel powered; emissions tier "
  const WeightedAverageTier := "weighted average"
  const LegacyReferenceFlowUuid := "73c7494d-4e93-3769-896b-8bb82f0dfccc"
  const TonKilometre := "t*km"
  const NotApplicable := "nan"

  /** The `tier` column. */
  function TierValues(t: seq<Row>): seq<Value>
  {
    seq(|t|, i requires 0 <= i < |t| => Get(t[i], Tier))
  }

  /** The tiers in order of first appearance (`df_olca['tier'].unique()`). */
  function UniqueTiers(t: seq<Row>): seq<Value>
  {
    Distinct(TierValues(t))
  }

  /** The columns of a synthesized row (the keys of `new_row`). */
  const ReferenceColumns: set<Column> :=
    {Tier, ProcessId, ProcessName, FlowName, FlowUuid, IsInput, Reference, Amount, Unit,
     DefaultProvider, DefaultProviderName}

  /** `row` holds the reference flow of `tier`: an output with `reference`
      set, one t*km of the tier's transport service, no default provider, and
      the legacy flow identifier for the weighted-average tier or else
      `make_uuid` of (flow name, process name, process identifier). */
  ghost predicate ReferenceCells(row: Row, tier: string, makeUuid: UuidInput -> string)
  {
    var flowName := ReferenceFlowPrefix + tier;
    && Get(row, Tier) == Str(tier)
    && Get(row, FlowName) == Str(flowName)
    && Get(row, FlowUuid) == Str(if tier == WeightedAverageTier then LegacyReferenceFlowUuid
                                 else makeUuid(Parts([Str(flowName), Get(row, ProcessName), Get(row, ProcessId)])))
    && Get(row, IsInput) == Bool(false)
    && Get(row, Reference) == Bool(true)
    && Get(row, Amount) == Num(1.0)
    && Get(row, Unit) == Str(TonKilometre)
    && Get(row, DefaultProvider) == Str(NotApplicable)
    && Get(row, DefaultProviderName) == Str(NotApplicable)
  }

  /** The synthesized row itself: exactly the columns of `new_row` (every other
      column of the table is NaN in it), the process name and identifier of
      `first`, and the reference cells. */
  ghost predicate IsReferenceRowFor(row: Row, tier: string, first: Row, makeUuid: UuidInput -> string)
  {
    && row.Keys == ReferenceColumns
    && Get(row, ProcessId) == Get(first, ProcessId)
    && Get(row, ProcessName) == Get(first, ProcessName)
    && ReferenceCells(row, tier, makeUuid)
  }

  /** `r` is `t` followed by exactly one reference row per distinct tier of
      `t`, in order of first appearance, each built from the first row of its tier. */
  ghost predicate ReferenceRowsAppended(t: seq<Row>, r: seq<Row>, makeUuid: UuidInput -> string)
  {
    && |r| == |t| + |UniqueTiers(t)|
    && r[..|t|] == t
    && forall k :: 0 <= k < |UniqueTiers(t)| ==>
         UniqueTiers(t)[k].Str? &&
         IsReferenceRowFor(r[|t| + k], UniqueTiers(t)[k].s, t[FirstIndex(TierValues(t), UniqueTiers(t)[k])], makeUuid)
  }

  lemma UniqueTiersAreText(t: seq<Row>)
    requires TiersAreText(t)
    ensures forall k :: 0 <= k < |UniqueTiers(t)| ==> UniqueTiers(t)[k] in TierValues(t) && UniqueTiers(t)[k].Str?
  {
    forall k | 0 <= k < |UniqueTiers(t)|
      ensures UniqueTiers(t)[k] in TierValues(t) && UniqueTiers(t)[k].Str?
    {
      assert UniqueTiers(t)[k] in UniqueTiers(t);
      assert UniqueTiers(t)[k] in TierValues(t);
      var i :| 0 <= i < |t| && TierValues(t)[i] == UniqueTiers(t)[k];
    }
  }

  /** The row that `df_olca[df_olca['tier'] == tier].iloc[0]` selects. */
  method FirstRowOfTier(t: seq<Row>, tier: Value) returns (j: nat)
    requires tier in TierValues(t)
    ensures j < |t| && Get(t[j], Tier) == tier
    ensures forall k :: 0 <= k < j ==> Get(t[k], Tier) != tier
  {
    j := 0;
    while Get(t[j], Tier) != tier
      invariant j < |t| && tier in TierValues(t)[j..]
      invariant forall k :: 0 <= k < j ==> Get(t[k], Tier) != tier
      decreases |t| - j
    {
      assert TierValues(t)[j..] == [TierValues(t)[j]] + TierValues(t)[j + 1..];
      j := j + 1;
    }
  }

  /** The dictionary `new_row` of lines 116-140 for `tier`, whose first row is `first`. */
  method NewReferenceRow(tier: string, first: Row, makeUuid: UuidInput -> string) returns (row: Row)
    ensures IsReferenceRowFor(row, tier, first, makeUuid)
  {
    var processId := Get(first, ProcessId);
    var processName := Get(first, ProcessName);
    var flowName := ReferenceFlowPrefix + tier;
    var flowUuid;
    if tier == WeightedAverageTier {
      flowUuid := LegacyReferenceFlowUuid;
    } else {
      flowUuid := makeUuid(Parts([Str(flowName), processName, processId]));
    }
    row := map[Tier := Str(tier), ProcessId := processId, ProcessName := processName,
               FlowName := Str(flowName), FlowUuid := Str(flowUuid),
               IsInput := Bool(false), Reference := Bool(true), Amount := Num(1.0),
               Unit := Str(TonKilometre), DefaultProvider := Str(NotApplicable),
               DefaultProviderName := Str(NotApplicable)];
  }

  /** Lines 109-147: build `new_rows` tier by tier and concatenate them onto the table. */
  method AddReferenceRows(t: seq<Row>, makeUuid: UuidInput -> string) returns (r: seq<Row>)
    requires TiersAreText(t)
    ensures ReferenceRowsAppended(t, r, makeUuid)
  {
    var tiers := UniqueTiers(t);
    UniqueTiersAreText(t);
    var newRows: seq<Row> := [];
    for k := 0 to |tiers|
      invariant |newRows| == k
      invariant forall m :: 0 <= m < k ==>
                  tiers[m].Str? &&
                  IsReferenceRowFor(newRows[m], tiers[m].s, t[FirstIndex(TierValues(t), tiers[m])], makeUuid)
    {
      var tier := tiers[k];
      var j := FirstRowOfTier(t, tier);
      FirstIndexUnique(TierValues(t), tier, j);
      var newRow := NewReferenceRow(tier.s, t[j], makeUuid);
      newRows := newRows + [newRow];
    }
    r := t + newRows;
    assert r[..|t|] == t;
    forall k | 0 <= k < |tiers|
      ensures IsReferenceRowFor(r[|t| + k], tiers[k].s, t[FirstIndex(TierValues(t), tiers[k])], makeUuid)
    {
      assert r[|t| + k] == newRows[k];
    }
  }

  /** The number of rows of `tier` whose `reference` flag is set. */
  function ReferenceCount(t: seq<Row>, tier: Value): nat
  {
    if t == [] then 0
    else
      var last := t[|t| - 1];
      ReferenceCount(t[..|t| - 1], tier) + (if Get(last, Tier) == tier && Get(last, Reference) == Bool(true) then 1 else 0)
  }

  lemma {:induction false} ReferenceCountAppend(a: seq<Row>, b: seq<Row>, tier: Value)
    ensures ReferenceCount(a + b, tier) == ReferenceCount(a, tier) + ReferenceCount(b, tier)
    decreases |b|
  {
    if b != [] {
      assert (a + b)[..|a + b| - 1] == a + b[..|b| - 1];
      ReferenceCountAppend(a, b[..|b| - 1], tier);
    } else {
      assert a + b == a;
    }
  }

  lemma {:induction false} ReferenceCountNoneSet(t: seq<Row>, tier: Value)
    requires forall i :: 0 <= i < |t| ==> Get(t[i], Reference) == Bool(false)
    ensures ReferenceCount(t, tier) == 0
  {
    if t != [] {
      ReferenceCountNoneSet(t[..|t| - 1], tier);
    }
  }

  /** Rows whose tiers are pairwise distinct and all set as reference: each tier
      among them is counted once, any other tier not at all. */
  lemma {:induction false} ReferenceCountDistinct(rows: seq<Row>, tiers: seq<Value>, tier: Value)
    requires |rows| == |tiers| && NoDuplicates(tiers)
    requires forall k :: 0 <= k < |rows| ==> Get(rows[k], Tier) == tiers[k] && Get(rows[k], Reference) == Bool(true)
    ensures ReferenceCount(rows, tier) == if tier in tiers then 1 else 0
  {
    if rows != [] {
      var n := |rows|;
      ReferenceCountDistinct(rows[..n - 1], tiers[..n - 1], tier);
      assert tiers == tiers[..n - 1] + [tiers[n - 1]];
      if tiers[n - 1] == tier {
        assert tier !in tiers[..n - 1];
      }
    }
  }

  /** After the reference rows are appended to rows that are not reference
      flows (line 75), every tier of the table has exactly one reference row. */
  lemma OneReferencePerTier(t: seq<Row>, r: seq<Row>, makeUuid: UuidInput -> string)
    requires TiersAreText(t)
    requires forall i :: 0 <= i < |t| ==> Get(t[i], Reference) == Bool(false)
    requires ReferenceRowsAppended(t, r, makeUuid)
    ensures forall tier :: tier in TierValues(r) ==> ReferenceCount(r, tier) == 1
  {
    var tiers := UniqueTiers(t);
    var added := r[|t|..];
    assert r == t + added;
    forall k | 0 <= k < |added|
      ensures Get(added[k], Tier) == tiers[k] && Get(added[k], Reference) == Bool(true)
    {
      assert added[k] == r[|t| + k];
    }
    forall tier | tier in TierValues(r)
      ensures ReferenceCount(r, tier) == 1
    {
      var i :| 0 <= i < |r| && TierValues(r)[i] == tier;
      if i < |t| {
        assert TierValues(t)[i] == tier;
      } else {
        assert Get(added[i - |t|], Tier) == tiers[i - |t|];
      }
      assert tier in tiers;
      ReferenceCountAppend(t, added, tier);
      ReferenceCountNoneSet(t, tier);
      ReferenceCountDistinct(added, tiers, tier);
    }
  }

  /** The appended rows take their process from the first row of their tier, so
      the tier still fixes the process, and the identifier still follows the name. */
  lemma AppendKeepsProcessesConsistent(t: seq<Row>, r: seq<Row>, makeUuid: UuidInput -> string)
    requires TiersAreText(t)
    requires IdFollowsName(t) && TierFixesProcess(t)
    requires ReferenceRowsAppended(t, r, makeUuid)
    ensures IdFollowsName(r) && TierFixesProcess(r)
  {
    var tiers := UniqueTiers(t);
    // every row of r agrees, on tier, process name and identifier, with some row of t
    forall i | 0 <= i < |r|
      ensures exists j :: 0 <= j < |t| && Get(r[i], Tier) == Get(t[j], Tier)
                && Get(r[i], ProcessName) == Get(t[j], ProcessName) && Get(r[i], ProcessId) == Get(t[j], ProcessId)
    {
      if i < |t| {
        assert r[i] == r[..|t|][i] == t[i];
      } else {
        var k := i - |t|;
        var j := FirstIndex(TierValues(t), tiers[k]);
        assert Get(r[i], Tier) == Get(t[j], Tier);
      }
    }
  }
}
