# Rail transportation exchange table, modelled in Dafny

`build_rail_transportation_olca_objects.py` builds the openLCA objects of the
US rail freight transport processes. Its core is one pass over a pandas table,
`df_olca`, of rail inventory rows. Each row is one exchange of one
tier-specific process, identified by `data name` and `tier`. The pass turns
these rows into the exchange table that the later object builders consume:

1. It adds the schema columns, each set to the empty string (lines 45-65).
2. It sets the input and reference flags, the process name built from the tier,
   and the process identifier from `make_uuid` (lines 74-77).
3. It looks up the flow name, flow identifier and default provider in the flow
   metadata by `data name` (lines 82-95).
4. It gives the legacy identifier to the weighted-average process
   (lines 99-103).
5. It appends one reference output per distinct tier, in order of first
   appearance (lines 109-147).
6. It writes the category, context, flow type, avoided-product flag, location
   and year shared by every row (lines 152-158).
7. It moves refinery diesel to the manufacturing context (lines 163-167).
8. It writes one exchange data-quality score (line 171).
9. It left-merges the ISO 3166 table to add the 3-letter `CountryCode`
   (lines 175-179).

The model keeps that shape:

- The table is a `seq<Row>`. A row is a `map<Column, Value>`, and a NaN cell is `Missing`.
- A column that a row does not carry reads as NaN (`Table.Get`). This is what
  `pd.concat` does to the columns the new rows lack.
- Every stage is a method that threads the table through its loops, updating one row at a time.
- Each stage is proved against a row-level predicate that states what the
  stage promises. This includes that nothing else in the row changes.
- `RailPipeline.BuildExchangeTable` chains the stages. It proves what the whole
  pass guarantees about the table it hands on.

Three things the script calls are not part of this model, so they are parameters:

- `make_uuid` (esupy) is an arbitrary function `makeUuid` of a string or a list of cells.
- `format_dqi_score` becomes the already formatted string `dqi`.
- The table of `read_iso_3166` becomes a sequence of (2-letter, 3-letter) pairs.

Files:

- `table.dfy`: cells, rows, the NaN-defaulting read, and the whole-column assignment.
- `text.dfy`: the substring test of `str.contains(..., regex=False)`.
- `tiers.dfy`: `Series.unique()` and the first row of a filter.
- `schema.dfy`: stage 1.
- `process_columns.dfy`: stages 2 and 4.
- `flow_mapper.dfy`: stage 3.
- `reference_flows.dfy`: stage 5.
- `shared_columns.dfy`: stages 6-8.
- `country_join.dfy`: stage 9.
- `pipeline.dfy`: the composition.
- `scenario.dfy`: a three-row instance.

Two tests in the code are worth singling out:

- The legacy process identifier is applied by a substring test on the process
  name (line 102). So every tier that begins with `weighted average` gets it,
  not only that exact tier. `ProcessColumns.LegacyIdForWeightedAveragePrefix`
  states this.
- The legacy reference-flow identifier is applied by exact equality of the
  tier (line 121).

## Model

| member | source | states |
|---|---|---|
| Table.Broadcast | build_rail_transportation_olca_objects.py:152-158 | a whole-column assignment of one value keeps the number of rows and sets that column, and only that column, on every row |
| Text.ContainsIffOccurs | build_rail_transportation_olca_objects.py:102 | the substring test used by both masks is true exactly when the pattern occurs at some position of the text |
| Tiers.Distinct | build_rail_transportation_olca_objects.py:109 | the unique tiers are the tiers of the table, each exactly once, and there are no more of them than rows |
| Tiers.DistinctFirstAppearance | build_rail_transportation_olca_objects.py:109 | the unique tiers are listed in the order of their first appearance in the table |
| Tiers.FirstIndex | build_rail_transportation_olca_objects.py:116-117 | the first row holding a tier holds it, and no earlier row does |
| Schema.SchemaSetListsSchemaColumns | build_rail_transportation_olca_objects.py:45-60 | the set of schema columns is exactly the set of the fourteen listed ones |
| Schema.AddSchemaColumns | build_rail_transportation_olca_objects.py:46-65 | every schema column is present on every row and holds `''`; no other column changes and the row count is kept |
| ProcessColumns.AssignProcessColumns | build_rail_transportation_olca_objects.py:74-77 | each row is an input exactly when its `data name` is `diesel`, is not a reference flow, has the process name `Transport, rail, freight; diesel powered; tier ` followed by its tier, and has `make_uuid` of that name as process identifier; nothing else changes |
| ProcessColumns.OverrideLegacyProcessId | build_rail_transportation_olca_objects.py:99-103 | exactly the rows whose process name contains the weighted-average process name get the identifier `7de9c230-fd0f-3478-be87-f80181132faa`; every other row is unchanged |
| ProcessColumns.LegacyIdForWeightedAveragePrefix | build_rail_transportation_olca_objects.py:99-102 | the override mask matches every tier that starts with `weighted average`, not only that exact tier |
| ProcessColumns.OverrideKeepsIdentifiersConsistent | build_rail_transportation_olca_objects.py:76-103 | after identifier generation and the override, rows with the same process name have the same identifier, and rows of the same tier have the same process name and identifier |
| FlowMapper.MapFlowMeta | build_rail_transportation_olca_objects.py:82-95 | a row whose `data name` is a key of the flow metadata gets that entry's `FlowName`, `FlowUUID`, `ProcessName` and `DefaultProviderUUID`; any other row gets NaN in all four; nothing else changes |
| ReferenceFlows.FirstRowOfTier | build_rail_transportation_olca_objects.py:116-117 | the search returns the first row of the given tier |
| ReferenceFlows.NewReferenceRow | build_rail_transportation_olca_objects.py:116-140 | the new row has exactly the eleven keys of `new_row`; the process name and identifier of the tier's first row; flow name `...; emissions tier {tier}`; the legacy flow identifier `73c7494d-4e93-3769-896b-8bb82f0dfccc` for `weighted average`, else `make_uuid` of (flow name, process name, process identifier); an output, reference, amount 1.0, unit `t*km`, default provider fields `'nan'` |
| ReferenceFlows.AddReferenceRows | build_rail_transportation_olca_objects.py:109-147 | the table is the original rows, unchanged and in order, followed by exactly one new reference row per distinct tier in order of first appearance, each built from the first row of its tier |
| ReferenceFlows.OneReferencePerTier | build_rail_transportation_olca_objects.py:109-147 | after the append, every tier of the table has exactly one row with `reference` set |
| ReferenceFlows.AppendKeepsProcessesConsistent | build_rail_transportation_olca_objects.py:113-147 | the appended rows keep process identifiers a function of process names, and process name and identifier a function of the tier |
| SharedColumns.AssignSharedColumns | build_rail_transportation_olca_objects.py:152-158 | every row gets the rail category and context, `PRODUCT_FLOW`, no avoided product, location `US` and year 2020; nothing else changes |
| SharedColumns.RelocateDiesel | build_rail_transportation_olca_objects.py:163-167 | exactly the rows whose flow name is text containing `Diesel, at refinery` get the manufacturing context; every other row is unchanged |
| SharedColumns.AssignExchangeDqi | build_rail_transportation_olca_objects.py:171 | every row gets the one formatted score; nothing else changes |
| CountryJoin.MatchesCharacterized | build_rail_transportation_olca_objects.py:175-179 | no code matches a location exactly when no pair of the ISO table has it as 2-letter code, and every matched code is paired with it |
| CountryJoin.MatchesAtMostOne | build_rail_transportation_olca_objects.py:175-179 | with unique 2-letter codes at most one code matches a location |
| CountryJoin.JoinRowPaired | build_rail_transportation_olca_objects.py:175-179 | with unique 2-letter codes a row joins to exactly one row, which differs from it only by the paired 3-letter code, or NaN |
| CountryJoin.LeftJoinNeverDrops | build_rail_transportation_olca_objects.py:175-179 | the left merge never has fewer rows than the table |
| CountryJoin.LeftJoinKeepsRows | build_rail_transportation_olca_objects.py:175-179 | with unique 2-letter codes the merge keeps the row count and order, and each row gains only `CountryCode`, the code paired with its location or NaN |
| CountryJoin.MergeCountryCodes | build_rail_transportation_olca_objects.py:175-179 | the nested scan computes the left merge; with unique 2-letter codes it keeps the rows and adds the paired code or NaN |
| RailPipeline.PrepareInventoryRows | build_rail_transportation_olca_objects.py:45-103 | each inventory row ends stages 1-4 with its tier, input and reference flags, process name, process identifier (legacy for the weighted-average name, else `make_uuid` of the name) and flow metadata or NaN; every column the script does not write (`data name`, `tier`, `amount`, `unit` and the other inventory columns) keeps its cell; the six schema columns lines 74-103 leave alone (category, context, flow type, avoided product, exchange score, location) still hold `''`; identifiers follow names and tiers |
| RailPipeline.WrittenColumnsAreSchemaYearCountry | build_rail_transportation_olca_objects.py:45-179 | the columns the pass writes are exactly the schema columns, `Year` and `CountryCode` |
| RailPipeline.CompleteExchanges | build_rail_transportation_olca_objects.py:152-179 | with unique 2-letter codes, the row count is kept; every row carries the shared cells, the score, the paired country code, and the manufacturing context exactly when it is refinery diesel; every column those lines do not write is unchanged |
| RailPipeline.BuildReferenceTable | build_rail_transportation_olca_objects.py:45-147 | the table is the completed inventory rows, each keeping the cells of the columns the script does not write and the six pending `''` schema cells, followed by one reference row per distinct tier in order of first appearance, each with exactly the eleven keys of `new_row` (NaN in every other column); each tier has exactly one reference row; identifiers follow names and tiers |
| RailPipeline.BuildExchangeTable | build_rail_transportation_olca_objects.py:45-179 | the pass never loses a row; with unique 2-letter codes the final table keeps `InventoryWithReferences` (inventory rows with their own cells in every column the script does not write, one reference row per tier with its reference cells, identifiers following names and tiers), every row carries the shared exchange cells, and each reference row is NaN in every column outside `new_row`'s keys that lines 152-179 do not write |
| RailScenario.ScenarioTiers | build_rail_transportation_olca_objects.py:109 | the three-row instance (tier 1 diesel, tier 1 electricity, weighted-average diesel) has the distinct tiers `1` and `weighted average`, in that order |
| RailScenario.ScenarioTable | build_rail_transportation_olca_objects.py:45-147 | any table built from that instance has five rows; the tier-1 process has a diesel input, the electricity row as another output, and a reference row of 1 t*km under its process name; the weighted-average process and its reference flow carry the two legacy identifiers |
| RailScenario.ScenarioProcesses | build_rail_transportation_olca_objects.py:74-147 | in that table tier 1 has exactly one reference row, which is an output, and the weighted-average row and its reference row belong to a different process than the tier-1 rows |

## Left out

- Reading the inventory CSV, the flow and process metadata YAML and the ISO
  3166 table (lines 31-41) is I/O. The rows, `meta['Flows']` and the code
  pairs are parameters.
- `make_uuid`, `format_dqi_score` and `read_iso_3166` are foreign code.
  - The first is an arbitrary function parameter. Nothing is assumed about collisions.
  - The second is its result string.
  - The third is its table.
- Lines 180-232 are not part of this model. They cover the location, source,
  actor and quality-system builders, `validate_exchange_data`, the per-year
  loop over `build_process_dict`, `write_objects` and the output directory
  and zip handling. All of these are foreign builders or persistence.
- Column order, dtypes and the pandas index are not modelled. A row is a map
  from column to cell, and every cell is text, a boolean, a number or NaN.
- Every tier must be text (`Table.TiersAreText`). The script fails on any
  other tier, at line 76 for a number and at line 116 for NaN, so those
  inputs are excluded rather than modelled as errors.
- The input rows must not carry `CountryCode`. With that column the merge
  would also join on the existing `CountryCode`, which is not modelled.
- FlowMapper.MapFlowMeta: each of the four dictionaries of lines 82-95 reads
  one field of every `meta['Flows']` entry. A null entry, or one without
  `FlowName`, raises `TypeError` or `KeyError` at line 83, before any column
  is mapped. An entry without `FlowUUID`, `ProcessName` or
  `DefaultProviderUUID` raises at line 87, 91 or 95, the first comprehension
  that reads the missing field, and the script stops there with the earlier
  columns assigned. The metadata is taken to be complete (`FlowMeta` has all
  four fields), and these error paths are not modelled.
- ProcessColumns.AssignProcessColumns and FlowMapper.MapFlowMeta: a table
  without a `data name` column raises `KeyError` at line 74. The model reads
  an absent `data name` as NaN instead, so such a row becomes an output
  without flow metadata. That error path is not modelled.
- Column names are taken to be distinct. `Column.Other` names any column of
  the inventory file beyond the named ones; an `Other` name that spells a
  named column (`Other("ProcessID")`) would be the same pandas column, which
  the model does not identify.
- A missing 2-letter code in the ISO table (pandas reads Namibia's `NA` as
  NaN) is not modelled. Codes are text, and a NaN location matches nothing.
  Every location is `US` by the time of the merge.
- RailPipeline.BuildExchangeTable: when the 2-letter codes are not unique,
  the merge duplicates rows. Then only the lower bound on the row count is
  stated.
- RailPipeline.BuildExchangeTable: at the end it states the reference rows'
  cells and process columns. It does not restate that their process comes
  from the first row of their tier, which `ReferenceFlows.AddReferenceRows`
  states. Together with the reference cells, the same-tier property
  `TierFixesProcess` of the final table implies the first-row relation.
  Lines 152-179 add keys to every row, so the exact key set of `new_row`
  holds only up to line 147 (`RailPipeline.BuildReferenceTable`). The final
  table states instead that a reference row is NaN in every column outside
  those keys that lines 152-179 do not write. That `CountryCode` is absent
  holds only up to line 147 as well, since line 175 adds it.
