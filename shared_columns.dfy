/** Columns shared by the inventory rows and the reference rows, the context
    of refinery diesel, and the exchange data-quality score. */
module SharedColumns {
  import opened Table
  import opened Text

  const RailCategory := "48-49: Transportation and Warehousing/ 4821: Rail Transportation"
  const RailContext := "Technosphere flows / 48-49: Transportation and Warehousing / 4821: Rail Transportation"
  const ProductFlow := "PRODUCT_FLOW"
  const UnitedStates := "US"
  const DataYear := 2020
  const RefineryDiesel := "Diesel, at refinery"
  const ManufacturingContext :=
    "Technosphere flows / 31-33: Manufacturing / 3241: Petroleum and Coal Products Manufacturing"

  const SharedSet: set<Column> := {ProcessCategory, Context, FlowType, AvoidedProduct, Location, Year}

  /** The state of a row after lines 152-158: the rail category and context,
      a product flow that is not an avoided product, located in the US, for
      the year 2020. Nothing else changes. */
  ghost predicate SharedColumnsAssigned(before: Row, after: Row)
  {
    && Updated(before, after, SharedSet)
    && after[ProcessCategory] == Str(RailCategory)
    && after[Context] == Str(RailContext)
    && after[FlowType] == Str(ProductFlow)
    && after[AvoidedProduct] == Bool(false)
    && after[Location] == Str(UnitedStates)
    && after[Year] == Int(DataYear)
  }

  method AssignSharedColumns(t: seq<Row>) returns (r: seq<Row>)
    ensures |r| == |t|
    ensures forall i :: 0 <= i < |t| ==> SharedColumnsAssigned(t[i], r[i])
  {
    r := Broadcast(t, ProcessCategory, Str(RailCategory));
    r := Broadcast(r, Context, Str(RailContext));
    r := Broadcast(r, FlowType, Str(ProductFlow));
    r := Broadcast(r, AvoidedProduct, Bool(false));
    r := Broadcast(r, Location, Str(UnitedStates));
    r := Broadcast(r, Year, Int(DataYear));
  }

  /** The mask of line 166: the flow name is text containing `Diesel, at refinery`
      (NaN and other cells never match). */
  predicate IsRefineryDiesel(row: Row)
  {
    Get(row, FlowName).Str? && Contains(Get(row, FlowName).s, RefineryDiesel)
  }

  /** Lines 163-167: the masked rows get the manufacturing context; every other
      row is left as it was. */
  method RelocateDiesel(t: seq<Row>) returns (r: seq<Row>)
    ensures |r| == |t|
    ensures forall i :: 0 <= i < |t| && IsRefineryDiesel(t[i]) ==> r[i] == t[i][Context := Str(ManufacturingContext)]
    ensures forall i :: 0 <= i < |t| && !IsRefineryDiesel(t[i]) ==> r[i] == t[i]
  {
    r := t;
    for i := 0 to |t|
      invariant |r| == |t|
      invariant forall k :: 0 <= k < i && IsRefineryDiesel(t[k]) ==> r[k] == t[k][Context := Str(ManufacturingContext)]
      invariant forall k :: 0 <= k < i && !IsRefineryDiesel(t[k]) ==> r[k] == t[k]
      invariant forall k :: i <= k < |t| ==> r[k] == t[k]
    {
      if IsRefineryDiesel(r[i]) {
        r := r[i := r[i][Context := Str(ManufacturingContext)]];
      }
    }
  }

  /** Line 171: one formatted score (the value of `format_dqi_score`) on every row. */
  method AssignExchangeDqi(t: seq<Row>, dqi: string) returns (r: seq<Row>)
    ensures |r| == |t|
    ensures forall i :: 0 <= i < |t| ==> Updated(t[i], r[i], {ExchangeDqi}) && r[i][ExchangeDqi] == Str(dqi)
  {
    r := Broadcast(t, ExchangeDqi, Str(dqi));
  }
}
