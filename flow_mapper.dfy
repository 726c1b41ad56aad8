/** Flow name, flow identifier and default provider of every inventory row,
    looked up by `data name` in the flow metadata (`meta['Flows']`). */
module FlowMapper {
  import opened Table

  /** One entry of `meta['Flows']`. The fields are YAML values, which may be null. */
  datatype FlowMeta = FlowMeta(flowName: Value, flowUuid: Value, processName: Value, defaultProviderUuid: Value)

  type FlowTable = map<string, FlowMeta>

  /** The state of one row after lines 82-95: when its `data name` is a key of
      the flow metadata the four columns hold that entry's `FlowName`,
      `FlowUUID`, `ProcessName` and `DefaultProviderUUID`; otherwise all four
      are NaN. Nothing else changes. */
  ghost predicate FlowColumnsMapped(before: Row, after: Row, flows: FlowTable)
  {
    && Updated(before, after, {FlowName, FlowUuid, DefaultProviderName, DefaultProvider})
    && var key := Get(before, DataName);
       if key.Str? && key.s in flows then
         && after[FlowName] == flows[key.s].flowName
         && after[FlowUuid] == flows[key.s].flowUuid
         && after[DefaultProviderName] == flows[key.s].processName
         && after[DefaultProvider] == flows[key.s].defaultProviderUuid
       else
         && after[FlowName] == Missing
         && after[FlowUuid] == Missing
         && after[DefaultProviderName] == Missing
         && after[DefaultProvider] == Missing
  }

  method MapFlowMeta(t: seq<Row>, flows: FlowTable) returns (r: seq<Row>)
    ensures |r| == |t|
    ensures forall i :: 0 <= i < |t| ==> FlowColumnsMapped(t[i], r[i], flows)
  {
    r := t;
    for i := 0 to |t|
      invariant |r| == |t|
      invariant forall k :: 0 <= k < i ==> FlowColumnsMapped(t[k], r[k], flows)
      invariant forall k :: i <= k < |t| ==> r[k] == t[k]
    {
      var key := Get(r[i], DataName);
      if key.Str? && key.s in flows {
        var entry := flows[key.s];
        r := r[i := r[i][FlowName := entry.flowName][FlowUuid := entry.flowUuid]
                        [DefaultProviderName := entry.processName][DefaultProvider := entry.defaultProviderUuid]];
      } else {
        r := r[i := r[i][FlowName := Missing][FlowUuid := Missing]
                        [DefaultProviderName := Missing][DefaultProvider := Missing]];
      }
    }
  }
}
