/** The working table `df_olca`: a sequence of rows, each a map from column
    name to cell, and the column operations shared by every stage. */
module Table {

  /** One cell. `Missing` is pandas' NaN (an empty cell, an unmatched lookup). */
  datatype Value = Str(s: string) | Bool(b: bool) | Num(x: real) | Int(n: int) | Missing

  /** A row of the table. A column of the table that a row does not carry
      holds NaN in that row, which is what `Get` returns for it. */
  type Row = map<Column, Value>

  function Get(row: Row, column: Column): Value
  {
    if column in row then row[column] else Missing
  }

  /** `after` carries the columns of `before` plus `touched`, and agrees with
      `before` on every column outside `touched`. */
  ghost predicate Updated(before: Row, after: Row, touched: set<Column>)
  {
    && after.Keys == before.Keys + touched
    && forall k :: k in before && k !in touched ==> after[k] == before[k]
  }

  lemma UpdatedGet(before: Row, after: Row, touched: set<Column>, column: Column)
    requires Updated(before, after, touched) && column !in touched
    ensures Get(after, column) == Get(before, column)
    ensures column in after <==> column in before
  {
  }

  /** The columns of the working table: those the script reads or writes, by
      their names in the source, and any other column of the inventory file. */
  datatype Column =
    | DataName       // "data name"
    | Tier           // "tier"
    | ProcessId      // "ProcessID"
    | ProcessCategory
    | ProcessName
    | FlowUuid       // "FlowUUID"
    | FlowName
    | Context
    | IsInput
    | FlowType
    | Reference      // "reference"
    | DefaultProvider      // "default_provider"
    | DefaultProviderName  // "default_provider_name"
    | AvoidedProduct       // "avoided_product"
    | ExchangeDqi          // "exchange_dqi"
    | Location             // "location"
    | Amount               // "amount"
    | Unit                 // "unit"
    | Year
    | CountryCode
    | Other(name: string)  // any other column of the inventory file

  /** Every row carries a textual `tier`. The script fails on any other tier:
      a number cannot be appended to the process-name prefix (line 76), and a
      NaN tier selects no row at all when its first row is looked up (line 116). */
  predicate TiersAreText(t: seq<Row>)
  {
    forall i :: 0 <= i < |t| ==> Get(t[i], Tier).Str?
  }

  /** The whole-column assignment `df[column] = v` of one scalar. */
  method Broadcast(t: seq<Row>, column: Column, v: Value) returns (r: seq<Row>)
    ensures |r| == |t|
    ensures forall i :: 0 <= i < |t| ==> r[i] == t[i][column := v]
  {
    r := t;
    for i := 0 to |t|
      invariant |r| == |t|
      invariant forall k :: 0 <= k < i ==> r[k] == t[k][column := v]
      invariant forall k :: i <= k < |t| ==> r[k] == t[k]
    {
      r := r[i := r[i][column := v]];
    }
  }
}
