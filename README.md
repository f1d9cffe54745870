# I_monitor status engine in Dafny

This project models the status-classification and rollup engine of the
I_monitor order-flow monitor. The monitor watches orders that travel from SAP
through the PO middleware, the firewall and SCXConnect into the WMS. It
covers three parts.

- **The data generator** (`data_manufacturing.py`). It has these pieces:
  - `pick_failure` chooses a transport failure from a cumulative threshold table.
  - The generation loop draws the business outcome, the response time, the confirmed lines and the rejection pair.
  - `make_tech_events` is the fail-fast checkpoint state machine.
  - `make_business_event` is a branch table.
  - `make_rollup` derives the tech health, business health and SLA state that are stored per flow.
  - The identifiers are the correlation id, the IDoc number and the SAP order number.
- **The query layer of the dashboard** (`data_store.py`). It covers:
  - The colour lattice GREEN < AMBER < RED and `worst_status`.
  - `sla_state_to_status` and `worst_overall`.
  - The prefix-dispatched tile filter and the twelve tile counts.
  - `to_grouped_rows`, with its per-SAP-order back-fill.
- **The earlier single-file dashboard** (`sap_monitior_app.py`). Its flow aggregate and tile filter compare stored values as they are. It has eleven tile counts and the four-rows-per-flow tree.

The files, one module each:

| file | module | content |
|---|---|---|
| `py_values.dfy` | PyValues | JSON field values (missing, null, string), `dict.get` with and without `or`, ASCII `str.upper`, list-comprehension filtering |
| `status_lattice.dfy` | StatusLattice | colours, SLA states, `worst_status`, `sla_state_to_status` |
| `rollup_doc.dfy` | RollupDoc | the stored rollup document, tile ids and their prefix dispatch |
| `data_store.py` → `data_store.dfy` | DataStore | the dashboard's query layer and grouped rows |
| `sap_monitior_app.py` → `monitor_app.dfy` | MonitorApp | the single-file dashboard |
| `decimal.dfy` | Decimal | decimal text of naturals, zero padding, read-back |
| `identifiers.dfy` | Identifiers | `corr_id`, `idoc_number`, `sap_order` |
| `flow_doc.dfy` | FlowDoc | checkpoints, failure codes, outcomes, the per-flow record |
| `tech_events.dfy` | TechEvents | `pick_failure`, `make_tech_events` |
| `business_events.dfy` | BusinessEvents | outcome draw, response time, confirmed lines, rejection pair, `make_business_event` |
| `rollup_derivation.dfy` | RollupDerivation | `make_rollup` |
| `generation.dfy` | Generation | one iteration of the generation loop and the whole loop |
| `agreement.dfy` | Agreement | how the two dashboards relate |

The model follows the shape of the source:
- Pure code is a function. For example, `worst_status` is the maximum of the colour lattice over a list, and `filter_rollups` (a list comprehension) is `Filter` over a predicate.
- Loops are methods with invariants, each proved against a function:
  - `pick_failure`'s accumulator loop;
  - the confirmed-lines loop;
  - the three passes of `to_grouped_rows`;
  - `to_tree_rows`;
  - the generation loop.
- `make_tech_events` appends with early returns and is modelled that way.

The rollup collection, which both dashboards load from MongoDB at import time, is a parameter.

Every random draw of the generator is a parameter, and its range is a precondition:
- `random.random()` is an integer in parts per million, so the probabilities become integer cut-offs. The `pick_failure` thresholds are 2000, 3500, 4300, 5000, 6000 and 9000. The outcome thresholds are 1000, 1500, 2000, 4000 and 10000.
- `randint(a, b)` is a natural number between a and b.
- `choice` is an index.

Python's floating-point tests are written as exact integer tests:
- `int(randint(80, 450) / 100.0 * 1000) // 1000` is `centi / 100`.
- `actual > due * 0.8` is `5 * actual > 4 * due`.

A JSON field that the readers default is a `Value`: `Absent`, `Null` or `Str(s)`. This keeps `d.get(k, dflt)` (`GetOr`, only a missing key defaults) apart from `d.get(k) or dflt` (`OrElse`, where missing, null and "" all default). This is one of several differences between the two dashboards. The others are these:
- `data_store.py` upper-cases the stored values and the tile suffix, while the single-file dashboard compares them as stored.
- `data_store.py` has twelve tiles, and the single-file dashboard eleven (it has no `tech_AMBER`).
- `data_store.py` emits grouped rows keyed by SAP order with an order aggregate, while the single-file dashboard emits tree rows keyed by a path under the correlation id.

The local `overall` that `make_rollup` computes is never stored (data_manufacturing.py:385-389). The `Rollup` datatype therefore has no overall field.

## Model

| member | source | states |
|---|---|---|
| StatusLattice.WorstStatus | data_store.py:44-53 | the result is the worst entry: no upper-cased entry is worse, and unless GREEN some entry has that colour (so empty or unknown lists give GREEN) |
| StatusLattice.WorstIsUnique | data_store.py:44-53 | the worst colour of a list is unique, so WorstStatus is fully determined by that property |
| StatusLattice.WorstStatusOrderIndependent | data_store.py:44-53 | two lists with the same members give the same result, whatever the order or repetition |
| StatusLattice.WorstStatusAppend | data_store.py:44-53 | the worst of a concatenation is the join of the worsts of the parts (the fold is associative) |
| StatusLattice.WorstStatusIdempotent | data_store.py:44-53 | repeating the list does not change the result |
| StatusLattice.WorstStatusRedAbsorbs | data_store.py:48-50 | an entry that upper-cases to RED forces RED |
| StatusLattice.JoinLaws | data_store.py:44-53 | the binary worst-of is commutative, associative and idempotent, with GREEN as its unit and RED absorbing |
| StatusLattice.WorstStatusOfName | data_store.py:205 | folding a colour name alone, or with GREEN, gives that colour back |
| StatusLattice.WorstStatusFoldStep | data_store.py:203-205 | folding one more entry into a running aggregate gives the aggregate of the longer list |
| StatusLattice.FoldWorstIsWorstStatus | data_store.py:202-205 | the running fold started at GREEN equals the one-shot worst_status on every list |
| StatusLattice.SlaStateToStatus | data_store.py:29-41 | RED iff the state upper-cases to BREACH; AMBER iff it upper-cases to AT_RISK; GREEN otherwise |
| StatusLattice.SlaStateToStatusTable | data_store.py:29-41 | letter case is ignored; OK/AT_RISK/BREACH map to GREEN/AMBER/RED; null, missing and "" give GREEN |
| PyValues.FilterCount | data_store.py:68-84 | a list comprehension keeps each matching element as often as it occurs and drops every other element |
| RollupDoc.ParseTileRoundTrip | data_store.py:67-84 | a tile id made of an axis prefix and any suffix dispatches to that axis with that suffix (no prefix shadows another) |
| DataStore.WorstOverallCases | data_store.py:56-61 | RED iff a health upper-cases to RED or the state to BREACH; AMBER iff not RED and a health is AMBER or the state AT_RISK; missing, null or "" count as GREEN/OK |
| DataStore.FilterRollups | data_store.py:67-84 | an unknown prefix returns every rollup; otherwise each kept rollup comes from the input and its defaulted, upper-cased axis value equals the upper-cased suffix, and every input rollup that matches is kept, as often as it occurs in the input |
| DataStore.FilterRollupsKeepsOrder | data_store.py:67-84 | filtering a concatenation concatenates the filtered parts: an order-preserving subsequence |
| DataStore.ComputeCounts | data_store.py:87-94 | the keys are exactly the twelve tile ids |
| DataStore.CountsLookup | data_store.py:87-94 | each tile id maps to the length of its filter |
| DataStore.OverallTileSelects | data_store.py:68-70 | the overall tile of a colour selects exactly the rollups whose aggregate is that colour |
| DataStore.OverallTileCount | data_store.py:87-94 | the overall tile of a colour counts the rollups whose aggregate is that colour |
| DataStore.OverallCountsPartition | data_store.py:87-94 | the three overall counts add up to the number of rollups |
| DataStore.FlowRowAggregatesChildren | data_store.py:106-199 | the TECH and BUSINESS rows carry their own health and the SLA row the colour of the state; the FLOW row's status is the worst of those three; all four rows share sap_order (UNKNOWN when missing), overall and node kind |
| DataStore.AllRowsAt | data_store.py:106-199 | row i of the first pass is row kind i mod 4 of flow i div 4 |
| DataStore.FlowRowHeadsGroup | data_store.py:126-199 | every row shares sap_order with its flow's FLOW row, whose status is the row's overall |
| DataStore.FlowRowShared | data_store.py:123-199 | all rows of a flow share sap_order and overall; the FLOW row's status is the overall |
| DataStore.GroupStatusesSameKeys | data_store.py:202-205 | the per-order grouping reads only sap_order and row_status, so the back-fill does not change it |
| DataStore.GroupWorstStep | data_store.py:203-205 | one step of the per-order loop turns the aggregate over the first i rows into the aggregate over i + 1; other orders keep theirs |
| DataStore.OrderOverallDominates | data_store.py:201-208 | a row's overall never exceeds its order's aggregate when a row of that order carries the overall as its status |
| DataStore.FlowRows | data_store.py:104-199 | the first pass appends the four rows of every flow in input order |
| DataStore.PerOrderWorst | data_store.py:202-205 | for every sap_order, the map's value (GREEN if absent) is worst_status over the row statuses of that order |
| DataStore.BackFill | data_store.py:207-208 | every row's order_overall becomes its order's aggregate; nothing else changes |
| DataStore.ToGroupedRows | data_store.py:103-210 | four rows per flow in input order as FLOW, TECH, BUSINESS, SLA; every order_overall is worst_status over the statuses of its order, shared by all rows of that order and never below the row's overall |
| DataStore.BackFilledDominates | data_store.py:201-208 | after the back-fill no row's overall exceeds its order_overall |
| MonitorApp.WorstOverallCases | sap_monitior_app.py:47-56 | RED iff a stored health is exactly RED or the state exactly BREACH; AMBER iff not RED and a health is exactly AMBER or the state AT_RISK; missing or null fields give GREEN |
| MonitorApp.FilterRollups | sap_monitior_app.py:59-76 | an unknown prefix returns every rollup; otherwise exactly the rollups whose raw stored axis value equals the suffix, case-sensitively, with no default, each as often as it occurs in the input |
| MonitorApp.MissingHealthNeverMatches | sap_monitior_app.py:64-70 | a rollup with a missing or null health is never counted by a tech_ or business_ tile |
| MonitorApp.ComputeCounts | sap_monitior_app.py:165-172 | the keys are exactly the eleven tile ids |
| MonitorApp.CountsLookup | sap_monitior_app.py:165-172 | each tile id maps to the length of its filter |
| MonitorApp.NoTechAmberTile | sap_monitior_app.py:166-171 | there is no tech_AMBER tile |
| MonitorApp.OverallTileSelects | sap_monitior_app.py:60-62 | the overall tile of a colour selects exactly the rollups whose aggregate is that colour |
| MonitorApp.OverallTileCount | sap_monitior_app.py:165-172 | the overall tile of a colour counts the rollups whose aggregate is that colour |
| MonitorApp.OverallCountsPartition | sap_monitior_app.py:165-172 | the three overall counts add up to the number of rollups |
| MonitorApp.FlowTreeRowFacts | sap_monitior_app.py:82-160 | all four rows carry the flow's overall and node kind under the path of its correlation id, one or two long, whose second entry is TECH, BUSINESS or SLA for the child rows; the SLA reason is BREACH iff the flag is set; a missing or null TECH reason or checkpoint reads "" |
| MonitorApp.AllTreeRowsAt | sap_monitior_app.py:79-162 | row i is row kind i mod 4 of flow i div 4 |
| MonitorApp.ToTreeRows | sap_monitior_app.py:79-162 | four rows per flow in input order: FLOW, TECH, BUSINESS, SLA |
| MonitorApp.FlowPathsDistinct | sap_monitior_app.py:93-147 | with distinct correlation ids, rows of different flows or of different kinds have different paths |
| MonitorApp.TreePathsDistinct | sap_monitior_app.py:79-162 | with distinct correlation ids every tree row has its own path |
| Decimal.Digits | data_manufacturing.py:70-71 | the decimal text is non-empty and all digits, without a leading zero |
| Decimal.DigitsRoundTrip | data_manufacturing.py:70-71 | reading the decimal text back gives the number |
| Decimal.ZeroPad | data_manufacturing.py:62-67 | the padded text is all digits, at least the width long, and ends in the decimal text |
| Decimal.ZeroPadRoundTrip | data_manufacturing.py:62-67 | reading the padded text back gives the number |
| Decimal.ZeroPadInjective | data_manufacturing.py:62-67 | equal padded texts come from equal numbers |
| Identifiers.IdocNumber | data_manufacturing.py:66-67 | the IDoc number is 16 digits |
| Identifiers.IdocNumberRoundTrip | data_manufacturing.py:66-67 | while 9000000000 + i has at most 16 digits, the IDoc number reads back to it |
| Identifiers.IdocNumberInjective | data_manufacturing.py:66-67 | in that range different flows get different IDoc numbers |
| Identifiers.YmdParts | data_manufacturing.py:62-63 | the date text is 8 digits and splits back into year, month and day |
| Identifiers.CorrIdShape | data_manufacturing.py:62-63 | a correlation id is DC-, the 8-digit date, a dash and the padded flow number, each readable back |
| Identifiers.CorrIdInjective | data_manufacturing.py:62-63 | equal correlation ids mean the same flow number and the same day |
| Identifiers.SapOrderNumberInjective | data_manufacturing.py:70-71 | equal SAP order numbers mean the same flow number |
| Identifiers.DistinctFlows | data_manufacturing.py:416-420 | different flow numbers never share a correlation id or an SAP order, whatever their days |
| TechEvents.BucketsConsistent | data_manufacturing.py:78-92 | every row of the draw table, once its checkpoint is resolved, is a row of the reason_transport table |
| TechEvents.PickFailure | data_manufacturing.py:74-94 | no failure iff the draw reaches 9000 ppm (0.9%); otherwise the row whose cumulative band holds the draw, with the "other" row resolving DNS/reset/backlog to PO_SENT_HTTP and the HTTP codes to SCXCONNECT_HTTP_ACK; the pair is always in the reason_transport table |
| TechEvents.ConsistentFailureStopsAtItsCheckpoint | data_manufacturing.py:122-266 | a failure from the reason_transport table stops the event list exactly at its own checkpoint |
| TechEvents.OffsetMonotone | data_manufacturing.py:117-279 | the stamp offsets 1, 2, 5, 8, 12, 13, 15, 15 + latency, + delay never decrease along the pipeline |
| TechEvents.MakeTechEvents | data_manufacturing.py:97-294 | OK events at the checkpoints in pipeline order up to the failure point, then the FAIL event there; without one, all nine ending with the WMS_INGESTED event |
| TechEvents.EventsFacts | data_manufacturing.py:110-294 | 2 to 9 events; the first is SAP_IDOC_CREATED OK at send + 1; event k is at checkpoint k; all but the last are OK; stamps never decrease; a table failure ends FAIL at its checkpoint with its code; a schema failure gives 2 events; no failure gives 9, the last FAIL with WMS_INGEST_FAILED iff false success |
| TechEvents.EventPayloads | data_manufacturing.py:110-294 | only the SCXCONNECT_HTTP_ACK event has an HTTP block, with the latency in ms and status 204 iff OK (else 504, 500, 401 or 413 by code); OK events carry their checkpoint's reason and no detail; the failing event's detail is a schema text, the unmapped plant, the firewall rule, or for PO_SENT_HTTP present iff the code is TLS, DNS, reset or backlog; the ingest event has neither |
| BusinessEvents.DecideOutcome | data_manufacturing.py:467-480 | never NOT_SENT; the k-th outcome of the draw order exactly when the draw lies in its cumulative band |
| BusinessEvents.OutcomeBand | data_manufacturing.py:467-480 | the draws that decide an outcome form one band of the million, as wide as that outcome's probability |
| BusinessEvents.ResponseTime | data_manufacturing.py:482-489 | none iff NO_RESPONSE; a late draw (below 0.4%) gives due + 10 to due + 240; otherwise 5 to max(10, due - 5) |
| BusinessEvents.BreachIffLate | data_manufacturing.py:435-489 | for the windows 60, 120 and 180, a response is past due exactly when the late draw fired |
| BusinessEvents.ConfirmedQty | data_manufacturing.py:497-508 | PARTIAL gives 0 to req - 1; CONFIRMED_GT gives req + 1 to req + 3; REJECT and UOM_MISMATCH give 0; OK gives req |
| BusinessEvents.ConfirmedLines | data_manufacturing.py:496-512 | one confirmed line per requested line |
| BusinessEvents.ConfirmedLinesAt | data_manufacturing.py:496-512 | line i keeps the SKU and unit of item i and holds its confirmed quantity |
| BusinessEvents.ConfirmItems | data_manufacturing.py:493-513 | empty when transport failed, on a false success or without a response; otherwise the confirmed lines of the items in order |
| BusinessEvents.ConfirmedTotals | data_manufacturing.py:496-508 | summed over the order: OK confirms what was requested, PARTIAL strictly less, CONFIRMED_GT strictly more, REJECT and UOM_MISMATCH nothing |
| BusinessEvents.RejectionFor | data_manufacturing.py:515-522 | a pair exactly for REJECT (one of the three) and UOM_MISMATCH (code UOM_MISMATCH) |
| BusinessEvents.MakeBusinessEvent | data_manufacturing.py:297-370 | identity copied; WMS status NONE, no items and no response time iff there was no response; actual missing iff transport failed; breach iff no response or response past due; OK iff a full confirmation in time; DEGRADED iff a partial one in time; the not-sent and false-success reasons |
| BusinessEvents.BreachMeansFail | data_manufacturing.py:297-370 | a breach always means FAIL, and only OK and PARTIAL can avoid FAIL |
| BusinessEvents.FailureReasons | data_manufacturing.py:323-369 | no response is FAIL / NO_WMS_RESPONSE with actual past due; CONFIRMED_GT and UOM_MISMATCH always FAIL with their reasons and WMS statuses |
| BusinessEvents.OnTimeReasons | data_manufacturing.py:344-358 | in time: OK is OK / FULL_CONFIRM, PARTIAL is DEGRADED / QTY_MISMATCH_PARTIAL, REJECT is FAIL with the reject code |
| BusinessEvents.LateReasons | data_manufacturing.py:344-358 | late: OK gives SLA_BREACH_LATE_RESPONSE, PARTIAL gives SLA_BREACH_PARTIAL_LATE, REJECT gives SLA_BREACH_ plus the code |
| RollupDerivation.MakeRollup | data_manufacturing.py:373-407 | identity copied; names stored upper case; tech health RED iff the last event failed or some event failed at WMS_INGESTED, else GREEN, never AMBER; business health AMBER iff DEGRADED, RED iff FAIL; SLA BREACH iff breach, AT_RISK iff not breached and actual above 0.8 of due |
| RollupDerivation.SlaColourOfRollup | data_manufacturing.py:390-395 | the stored SLA state reads back through sla_state_to_status as RED on breach, AMBER when at risk, GREEN otherwise |
| Generation.DrawFlow | data_manufacturing.py:416-522 | identifiers of flow i; plant, schema, send time and items as drawn; due from the three windows; latency centi div 100, 0 to 4 s; no failure iff the draw reaches 0.9%; a failure gives NOT_SENT and no false success; otherwise the drawn outcome and response time; false success iff transported and the draw is below 0.08%; the confirmed lines of the outcome when it confirms, else none; the rejection pair of the outcome |
| Generation.DrawTransport | data_manufacturing.py:416-462 | the flow before the answer: identifiers, plant, schema, items, due, send time and latency as drawn; the pick_failure result; false success iff transported and below 0.08%; not yet answered |
| Generation.DrawAnswer | data_manufacturing.py:464-522 | only the answer fields change; a transport failure stays NOT_SENT without response; otherwise the drawn outcome, response time, confirmed lines and rejection pair |
| Generation.GenerateFlow | data_manufacturing.py:416-533 | the events, business event and rollup of flow i; tech RED iff transport failed or false success; never AMBER; a transport failure reports its checkpoint and code, NOT_SENT_DUE_TECH_FAILURE and BREACH; SLA BREACH iff false success, no response or a late draw; the business reason is NOT_SENT_DUE_TECH_FAILURE iff transport failed |
| Generation.NotSentMeansTransportFailed | data_manufacturing.py:297-370 | no other branch of make_business_event yields NOT_SENT_DUE_TECH_FAILURE, so that reason means the transport failed |
| Generation.FlowTechEvents | data_manufacturing.py:525-532 | for a drawn flow the last event is the failure or, without one, the ninth event, failed at ingest iff false success |
| Generation.IngestFailedIffFalseSuccess | data_manufacturing.py:378 | a transported flow's events show an ingest failure exactly on a false success |
| Generation.TechVerdict | data_manufacturing.py:375-379 | the tech block of a generated rollup: RED exactly for a transport failure or a silent ingest failure, reported at that checkpoint |
| Generation.BusinessVerdict | data_manufacturing.py:300-322 | the business and SLA blocks for a flow that was not sent or failed silently at ingest; breach iff no response or late |
| Generation.SlaVerdict | data_manufacturing.py:390-395 | SLA BREACH exactly for a false success, a missing response or a late draw |
| Generation.Generate | data_manufacturing.py:416-534 | one rollup per draw, canonical, never tech AMBER, stamped with its flow's ids; no two share a correlation id or an SAP order |
| Generation.GeneratedRollupsDistinct | data_manufacturing.py:416-420 | the rollups of one run have pairwise distinct correlation ids and SAP orders |
| Agreement.WorstOverallAgree | sap_monitior_app.py:47-56 | on rollups whose fields are missing, null, "" or a colour or state name, the two worst_overall functions agree |
| Agreement.LowerCaseHealthDisagrees | sap_monitior_app.py:48-52 | a lower-case "red" health is RED for data_store.py and GREEN for the single-file dashboard |
| Agreement.AxisAgree | sap_monitior_app.py:59-74 | on a canonical rollup the two axis tests match the same upper-case suffixes |
| Agreement.FiltersAgree | sap_monitior_app.py:59-76 | on canonical rollups both filter_rollups select the same rollups in the same order for every tile id with an upper-case suffix |
| Agreement.SharedTileShape | sap_monitior_app.py:166-171 | each of the eleven tile ids names an axis and an upper-case suffix |
| Agreement.SharedCountsAgree | sap_monitior_app.py:165-172 | on canonical rollups the two dashboards count the same on each shared tile |
| Agreement.AllSharedCountsAgree | sap_monitior_app.py:165-172 | the same, for all eleven shared tiles at once |
| Agreement.TechAmberCountsNothing | data_store.py:87-94 | with no AMBER tech health, the tile only data_store.py has, tech_AMBER, counts 0 |
| Agreement.DistinctIdsDistinctPaths | sap_monitior_app.py:79-162 | distinct stored correlation ids give a tree whose rows all have distinct paths |
| Agreement.GenerateMeetsRunHypotheses | data_manufacturing.py:416-534 | the rollups that a generation run writes, as Generation.Generate states them, have the generated shape and distinct correlation ids, so GeneratedRunAgrees applies to them |
| Agreement.GeneratedRunAgrees | data_manufacturing.py:416-534 | for rollups as a generation run writes them, the shared tiles count the same on both dashboards, tech_AMBER counts 0, and the tree paths are distinct |

## Left out

- MongoDB loading and the import-time globals `ROLLUPS`, `COUNTS` and `ROLLUP_BY_CID` are not modelled. The collection is a parameter of every query.
- All Dash layout and callbacks are not modelled: tiles, grids, pages, `app.py`, `utils.py` and the grid-styling script. They are display code.
- The constant `city` and `sap_idoc.idoc_type` of a stored rollup (data_manufacturing.py:397, 400) are not modelled. They are constants that no query reads.
- A rollup whose `order` or `sap_idoc` block is null is not modelled. The readers would raise on `.get` there.
- The `value` text columns of the grouped rows and tree rows are left out. Those f-strings only format fields that are already modelled.
- The `city`, `layer`, `route`, `sap_idoc`, `message` and `process` blocks of the events are not stored. They are constants or copies of flow fields.
- A tech event's `endpoint` is not stored on the event. It is a function of the checkpoint (`Checkpoint.System`, `Checkpoint.Host`).
- The SHA-256 payload hash is not modelled, because it is a foreign computation.
- Datetime arithmetic and ISO-8601 text are not modelled. Timestamps are integer seconds, and the send time and day are draws.
- JSON and JSONL file output is not modelled, because it is I/O.
- The seeded random generator is not modelled. Every draw is a parameter with its range as a precondition, so replaying the exact random sequence is out of reach. This includes the `random.choice` of the "other" codes, which is evaluated on every `pick_failure` call.
- The random generation of order items (SKU, quantity 1 to 12, occasional unit) is an input: `FlowDraws.items`, constrained by `ValidFlowDraws`.
- Probabilities are exact integer parts per million. Python sums the floats cumulatively, so a threshold such as 0.002 + 0.0015 + 0.0008 can differ from 4300 ppm by one unit in the last place. The model does not capture draws that fall inside that rounding gap.
- Python's `str.upper` is modelled on ASCII letters only. The Unicode case mappings are not modelled.
- A rollup whose `tech`, `business` or `sla` block is itself null is not modelled. The Python code would raise on `.get` there; the model only distinguishes missing, null and string values of the fields inside the blocks.
- The last `return base` of `make_business_event` is not modelled. It is reachable only for a transported flow whose outcome is NOT_SENT, which the generation loop never builds. `ReadyForBusiness` excludes it.
- Generation.Generate: its ensures state what every rollup of the run is (canonical, never tech AMBER, identifiers of its flow number, pairwise distinct). It does not state the full per-flow equations that Generation.GenerateFlow gives for each iteration.
