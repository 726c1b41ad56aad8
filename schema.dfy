/** Conforming the inventory rows to the exchange schema. */
module Schema {
  import opened Table

  /** The exchange columns every row must carry (`amount` and `unit` are not
      among them). */
  const SchemaColumns: seq<Column> :=
    [ProcessId, ProcessCategory, ProcessName, FlowUuid, FlowName, Context, IsInput,
     FlowType, Reference, DefaultProvider, DefaultProviderName, AvoidedProduct,
     ExchangeDqi, Location]

  const SchemaSet: set<Column> :=
    {ProcessId, ProcessCategory, ProcessName, FlowUuid, FlowName, Context, IsInput,
     FlowType, Reference, DefaultProvider, DefaultProviderName, AvoidedProduct,
     ExchangeDqi, Location}

  /** The set of schema columns is the set of the listed ones. */
  lemma SchemaSetListsSchemaColumns()
    ensures forall c :: c in SchemaSet <==> c in SchemaColumns
  {
    forall c: Column
      ensures c in SchemaSet <==> c in SchemaColumns
    {
      if c in SchemaColumns {
        var i :| 0 <= i < |SchemaColumns| && SchemaColumns[i] == c;
      }
    }
  }

  /** `for column in schema: df_olca[column] = ''`: every schema column is
      present on every row and holds the empty string; the other columns and
      the number of rows are unchanged. */
  method AddSchemaColumns(t: seq<Row>) returns (r: seq<Row>)
    ensures |r| == |t|
    ensures forall i :: 0 <= i < |t| ==> Updated(t[i], r[i], SchemaSet)
    ensures forall i, c :: 0 <= i < |t| && c in SchemaSet ==> c in r[i] && r[i][c] == Str("")
  {
    r := t;
    ghost var done: set<Column> := {};
    for j := 0 to |SchemaColumns|
      invariant |r| == |t|
      invariant forall c :: c in done <==> c in SchemaColumns[..j]
      invariant forall i :: 0 <= i < |t| ==> r[i].Keys == t[i].Keys + done
      invariant forall i, c :: 0 <= i < |t| && c in done ==> r[i][c] == Str("")
      invariant forall i, c :: 0 <= i < |t| && c in t[i] && c !in done ==> r[i][c] == t[i][c]
    {
      assert SchemaColumns[..j + 1] == SchemaColumns[..j] + [SchemaColumns[j]];
      r := Broadcast(r, SchemaColumns[j], Str(""));
      done := done + {SchemaColumns[j]};
    }
    assert SchemaColumns[..|SchemaColumns|] == SchemaColumns;
    assert done == SchemaSet;
  }
}
