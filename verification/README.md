# Verified models of the Gate05 paid protocol and the freeze-chain cores

This project models four groups of code of the flight-disruption collection
repository and proves what they are for.

1. **One paid CREATE, independent STOP.** Paid operators, STOP watchers, the
   logged owner table, the unlogged callback sessions, the provider account,
   private directories and the public issue thread form one transition system
   (`paid_protocol.dfy`). Any number of operators and watchers interleave with
   crashes, lost responses, ambiguous commits, database restarts and foreign
   activity. `paid_safety.dfy` proves an invariant of every step,
   `paid_guards.dfy` says in columns and clock readings when each step can be
   taken and what it leaves, `paid_theorems.dfy` what the invariant means for
   whole runs, and `paid_runs.dfy`
   gives runs that complete a purchase, reach the last rearm and race from two
   directories.
   `owner_ledger.dfy` is the owner table with its CHECK constraints, unique
   indexes and BEFORE trigger, and the four transactions that write it.
   `stop_watcher.dfy` is the watcher once more, now as the loop the script
   runs: a class whose methods are proved against an environment that chooses
   every answer and every delay. `paid_windows.dfy` nests the clock windows.
2. **Route-graph components.** `route_graph.dfy` keeps the in-place dictionary
   with path halving and ties it to connectivity in the route graph.
3. **Serialisers and parsers.** `js_text.dfy`, `canonical_json.dfy`,
   `canonical_order.dfy`, `frozen_hashes.dfy` and `reference_freeze.dfy` treat
   the canonical JSON printers, what is hashed with them and the write-once
   freeze record; `csv_codec.dfy` and `csv_columns.dfy` the CSV export, the
   hand-written splitter and the loader that picks columns by name.
4. **Numeric and ranking cores.** `probe_ledger.dfy`, `ranking.dfy`,
   `tiering.dfy`, `stability.dfy`, `diversity.dfy` and `route_pipeline.dfy`,
   over the shared `sorting.dfy`, `counting.dfy`, `counters.dfy` and
   `moments.dfy`.

## What the proofs found

- **The rearm after the start boundary can never succeed.** The restore window
  ends thirty seconds before the start, while the second rearm is offered after
  it, so a session row lost in between always ends the attempt without a POST
  (`PaidTheorems.LastMomentRearmNeverSucceeds`), and every commission has a run
  that gets there (`PaidRuns.LastRearmIsReached`). The comment beside that call
  speaks of a recoverable event; the model follows the code.
- **The intent file is per directory, not per scope.** One private directory
  pays for one POST over all scopes (`PaidTheorems.OnePostPerDirectory`), and
  one scope can be POSTed for from two directories exactly when they differ
  (`PaidRuns.TwoPostsExactlyFromTwoDirectories`). Only operators that raced at
  the issue thread get there (`PaidTheorems.OnlyRacingOperatorsShareAScope`).
- **The trigger alone would let a paid row be FAILED**: a statement does it
  exactly when it is a raw write, admitted by the table, that sets an ACTIVE row
  to FAILED (`OwnerLedger.PaidRowFailsOnlyByRawWrite`), and a list of statements
  exactly when it holds such a write
  (`OwnerLedger.PaidRowsFailExactlyByRawWrites`); three accepted statements are
  the witness (`OwnerLedger.RawWriteCanFailPaidRow`). The scripts never do it
  (`OwnerLedger.ScriptLifecycle`).
- **The watcher's lag is bounded by two polls plus the grace**, plus at most
  sixteen calls, between a reading under the threshold and the first delete, or
  the end of a watch that deletes nothing: a reading, a poll sleep, a fault, the
  grace, one more sleep (`StopWatcher.SpendAtFirstDelete`,
  `StopWatcher.SpendWithoutDelete`). This is an upper bound; no script is shown
  to attain it.
- **The CSV export reads back exactly when no field holds a newline and every
  field is its own trim.** Lone carriage returns, commas and quotes are harmless
  (`CsvCodec.FileReadsBack`).
- **The reservation's lock is needed**: two reservations that both read before
  either inserts break the cap exactly when each fits alone and the two do not
  fit together (`ProbeLedger.LockIsNeeded`); in the lock's order they never do.
- **Published in-degrees may sum to less than published out-degrees.** The
  published out-degrees add up to all busy routes, the in-degrees to those whose
  destination is published, so the sums agree exactly when every busy
  destination is (`RoutePipeline.PublishedSums`); one route to an airport
  without departures gives 1 against 0
  (`RoutePipeline.BusyDestinationMayBeUnpublished`).

## Modelling decisions

- Time is in whole milliseconds and never runs backwards. In the protocol a step
  that is not enabled leaves the world unchanged, so every event list is a run.
- The provider hands out an id at most once and never reactivates a
  subscription this protocol created. Foreign subscriptions come and go freely.
- An operator step is one write, one database or account read, or one group of
  reads that a single guard judges together: the liveness test reads the STOP
  run, its jobs and the thread at one instant.
- A closeout follows an account inspection that found nothing active, made after
  the purchase it closes; the two inspections thirty seconds apart are one step.
  One closeout script pins the id by hash, the other takes it from the row; both
  compare it with the row they update.
- The other evidence checks before a recommission or a closeout (earlier log
  files, balances) are outside the model: the transactions may happen whenever
  their row checks pass, which allows more runs than the scripts do. Columns a
  CHECK pins to one value are left out.
- A receipt is posted by an armed watcher, and any other comment, from a bot or
  not and of any body, may be posted by anyone at any time.
- In the watcher the reconnecting query wrapper is part of the environment's
  answer to a query. A free read is `charged` at an instant inside the call.
  Timing results assume a bound on calls, four calls and a poll within nine
  minutes, and sleeps late by at most thirty seconds; safety results do not. The
  duration of a delete is not bounded.
- The constants are those of the newest watcher: poll 25 s, grace 120 s, and the
  300 s and 15 s graces while no id is known.
- SHA-256 is a function without collisions. A JSON number is its printed text.
  The freeze file is either missing, unreadable, or the value JSON.parse gives;
  calendar dates come with the day they name.
- The reader of printed JSON and of quoted strings is the part of JSON.parse that
  printed texts need: no white space, lower-case hexadecimal digits.
- `math.log` is any function that turns products into sums and lies under the
  line x - 1, touching it at 1 only.
  `localeCompare` on ICAO codes is a total order.
- Shares, means and the Herfindahl index are exact rationals or reals; the square
  root is any non-negative root of its argument. The tier cut `ceil(n * share)`
  and the five-minute plan mark are computed exactly; for the list lengths and
  clock values that occur, double rounding gives the same integers.
- The probe ledger's `estimate` field remembers what was first reserved, and
  `running` that a probe has yet to report; both are bookkeeping of the model.

## Model

| member | source | states |
|---|---|---|
| OwnerLedger.WriteKeeps | migrations/staged/V0074__gate05_science_prepaid_owner_v39.sql:6-53 | a write the table admits keeps the state and window checks, the one open owner and the unique ids, and only advances its row |
| OwnerLedger.WriteCommitsExactly | migrations/staged/V0074__gate05_science_prepaid_owner_v39.sql:6-111 | the only writes the table takes: a PREPARED row for a new scope while none is open, PREPARED to ACTIVE with a new id, ACTIVE to STOPPED with its id and verified, and PREPARED or ACTIVE to FAILED with its id or none; no other row changes |
| OwnerLedger.CommissionCommitsExactly | migrations/staged/V0074__gate05_science_prepaid_owner_v39.sql:28-63 | a commission commits if and only if the scope is new, the window is one hour with at most thirty minutes to the expiry, and no row is open |
| OwnerLedger.RecommissionCommitsExactly | scripts/v39_gate05_science_recommission_after_fifth_failed_watch_v39.ts:348-405 | a recommission commits if and only if the prior row is PREPARED with the expected receiver, authorization, ticket, start and stop and the new scope is unused with a proper window; it leaves the prior row FAILED and the new one PREPARED |
| OwnerLedger.BindCommitsExactly | scripts/v39_gate05_science_one_paid_create_newscope_20261028_v39.ts:450-482 | a bind commits if and only if the row has the five pins and is PREPARED, for an id no other row carries, or already ACTIVE with it |
| OwnerLedger.CloseoutCommitsExactly | scripts/v39_gate05_oct29_success_exact_owner_closeout_once_v39.ts:84-214 | a closeout commits if and only if the row is ACTIVE with that id and the five pins, both lists are empty, both balances are equal and the debit is within its limit |
| OwnerLedger.ExecKeeps | migrations/staged/V0074__gate05_science_prepaid_owner_v39.sql:55-111 | any statement, from a script or not, keeps the table invariant, changes no pinned column and never rewrites an id or terminal evidence; scripts never fail a paid row |
| OwnerLedger.LifecycleOverAnyStatements | migrations/staged/V0074__gate05_science_prepaid_owner_v39.sql:6-111 | the same over every list of statements |
| OwnerLedger.ScriptLifecycle | scripts/v39_gate05_science_recommission_after_fifth_failed_watch_v39.ts:348-424 | under the four scripts a row only moves PREPARED to ACTIVE to STOPPED or PREPARED to FAILED, has an id exactly when ACTIVE or STOPPED, gets id and evidence at most once, and at most one row is open along any chain of recommissions |
| OwnerLedger.PaidRowFailsOnlyByRawWrite | migrations/staged/V0074__gate05_science_prepaid_owner_v39.sql:66-103 | from a table where no paid row is FAILED, a statement leaves one FAILED if and only if it is a raw write, admitted by the table, that sets an ACTIVE row to FAILED |
| OwnerLedger.PaidRowsFailExactlyByRawWrites | migrations/staged/V0074__gate05_science_prepaid_owner_v39.sql:66-111 | a list of statements leaves a paid row FAILED if and only if one of them is such a write |
| OwnerLedger.RawWriteCanFailPaidRow | migrations/staged/V0074__gate05_science_prepaid_owner_v39.sql:66-103 | three statements the trigger accepts leave a paid row FAILED, so the last property is not the trigger's |
| PaidSafety.StepKeeps | scripts/v39_gate05_science_one_paid_create_newscope_20261028_v39.ts:173-519 | every step of operators, watchers, database, provider and crashes keeps the protocol invariant and takes back no file, comment, purchase, binding or deletion |
| PaidTheorems.RunKeeps | scripts/v39_gate05_science_one_paid_create_newscope_20261028_v39.ts:173-519 | the same over whole runs |
| PaidGuards.MovesExactly | scripts/v39_gate05_science_one_paid_create_newscope_20261028_v39.ts:256-516 | from every place of its script an operator can go exactly where the script lets it, each on exactly the columns, files, comments, account readings and clock windows the script looks at |
| PaidGuards.StepWrites | scripts/v39_gate05_science_one_paid_create_newscope_20261028_v39.ts:86-89 | what each operator step leaves, field by field; nobody else's record and nothing else changes |
| PaidGuards.EventsHappenExactly | scripts/v39_gate05_science_exact_owned_actions_stop_retry6_v39.ts:76-87 | when the watchers', administration's and outside events can happen, in fields |
| PaidGuards.EventsLeave | scripts/v39_gate05_science_exact_owned_actions_stop_retry6_v39.ts:186-233 | what those events leave, in fields |
| PaidTheorems.OnePostPerDirectory | scripts/v39_gate05_science_one_paid_create_newscope_20261028_v39.ts:86-89 | over any interleaving and crashes, operators sharing a private directory make at most one provider POST |
| PaidTheorems.OnlyRacingOperatorsShareAScope | scripts/v39_gate05_science_one_paid_create_newscope_20261028_v39.ts:68-85 | two POSTs for one scope come from different directories whose operators each read the thread before the other's intent was there |
| PaidTheorems.LateOperatorsNeverPost | scripts/v39_gate05_science_one_paid_create_newscope_20261028_v39.ts:379-409 | after a POST for a scope no operator that had not yet read the thread ever POSTs for it, in any directory |
| PaidTheorems.NothingSilentlyAbandoned | scripts/v39_gate05_science_one_paid_create_newscope_20261028_v39.ts:379-516 | every active subscription the protocol created has a durable intent on disk and in the thread, and is bound in its scope's row, held by a live operator, or accounted for by a crash, a lost answer or an unverified delete |
| PaidTheorems.OperatorsCleanUpAfterThemselves | scripts/v39_gate05_science_one_paid_create_newscope_20261028_v39.ts:495-516 | an operator that leaves without crashing sees its id bound or has asked for that id's delete |
| PaidTheorems.BoundOnceToAPurchase | scripts/v39_gate05_science_one_paid_create_newscope_20261028_v39.ts:450-482 | a scope is bound once and for all to an id one of its own operators was given, and no other row ever carries it |
| PaidTheorems.OnlyOwnedIdsAreDeleted | scripts/v39_gate05_science_exact_owned_actions_stop_retry6_v39.ts:420-448 | no foreign subscription is ever deleted: an operator deletes what its own CREATE returned, a watcher what its scope's row holds, and a verified delete leaves it inactive |
| PaidTheorems.WatcherDeletesOneId | scripts/v39_gate05_science_exact_owned_actions_stop_retry6_v39.ts:200-206 | one watcher deletes at most one id however long it runs |
| PaidTheorems.StoppedMeansInactive | scripts/v39_gate05_oct29_success_exact_owner_closeout_once_v39.ts:84-223 | in every reachable world the id of a STOPPED row is off, and stays off in every later one |
| PaidTheorems.PostsRestOnFreshEvidence | scripts/v39_gate05_science_one_paid_create_newscope_20261028_v39.ts:262-409 | every POST follows, in order and within fifteen seconds of the start, a STOP run of the same scope and runner alive at that time with a receipt for the same receiver and stop at most twelve minutes old, a session row that was armed, carried no id and expires with the commission, an unchanged balance, a list with nothing active, and a clock reading; before them the owner row was PREPARED without an id and carried the five pins |
| PaidTheorems.LastMomentRearmNeverSucceeds | server/lib/disruption/gate05PreparedCallbackRestartRecovery_v39.ts:46-57 | at the rearm after the start boundary only raising or crashing is possible |
| PaidRuns.LastRearmIsReached | scripts/v39_gate05_science_one_paid_create_newscope_20261028_v39.ts:344-363 | for every commission a run leads an operator to that rearm |
| PaidRuns.OnePurchaseCompletes | scripts/v39_gate05_science_one_paid_create_newscope_20261028_v39.ts:344-494 | for every commission a run exists that POSTs once, ends with the row ACTIVE and bound and the operator finished, and still has a live armed watcher of the commission |
| PaidRuns.TwoDirectoriesCanBothPost | scripts/v39_gate05_science_one_paid_create_newscope_20261028_v39.ts:68-89 | for every commission and any two different directories a run has a POST for the scope from each |
| PaidRuns.TwoPostsExactlyFromTwoDirectories | scripts/v39_gate05_science_one_paid_create_newscope_20261028_v39.ts:68-89 | two POSTs for a scope from directories d1 and d2 are reachable if and only if d1 and d2 differ |
| StopWatcher.Watcher.ReadOwner | scripts/v39_gate05_science_exact_owned_actions_stop_retry6_v39.ts:186-207 | a row is accepted exactly when it is single, matches the five pins and its id, if any, is six to 128 letters, digits, underscores or hyphens and the one already known; only then is an id learned |
| StopWatcher.Watcher.CheckEpoch | scripts/v39_gate05_science_exact_owned_actions_stop_retry6_v39.ts:242-263 | the poll goes on exactly when the database did not restart, or restarted before the start with no id known; a delete is issued exactly on a restart with an id known, and a verified one ends the watch |
| StopWatcher.Watcher.OnTelemetryFault | scripts/v39_gate05_science_exact_owned_actions_stop_retry6_v39.ts:287-354 | a fault is waited out if and only if it is transient and, with an id known, it is before the stop and at most 120 s old; without one, at most 300 s old up to nine minutes before the start, and after that at most 15 s old with the row no longer PREPARED. A delete is issued exactly with an id known at the stop or after 120 s |
| StopWatcher.Watcher.CheckForeign | scripts/v39_gate05_science_exact_owned_actions_stop_retry6_v39.ts:358-374 | foreign activity is tolerated exactly with no id known and for eight seconds; a delete of the known id is issued exactly beside foreign activity when it is listed once |
| StopWatcher.Watcher.Judge | scripts/v39_gate05_science_exact_owned_actions_stop_retry6_v39.ts:355-402 | the watch goes on exactly for healthy readings, issues its delete exactly when the known id is listed once beside foreign activity, from 350 credits on, or at the stop, and ends exactly for a STOPPED row with its id off, a verified delete at the limit, or nobody active there |
| StopWatcher.Watcher.Poll | scripts/v39_gate05_science_exact_owned_actions_stop_retry6_v39.ts:236-403 | a turn leads to the next, and issues a delete, exactly when its four answers, their times and the fault that is running say so; how it ends is as exact; it keeps the single id and the timing of the loop |
| StopWatcher.Watcher.ReadHealth | server/lib/disruption/gate05PublishedReceiverHealth_v39.ts:23-80 | the receiver is accepted exactly when one of at most six reads verified it and every read before was a transport fault or 5xx answer; the reads and pauses stay within their bound |
| StopWatcher.Watcher.Arm | scripts/v39_gate05_science_exact_owned_actions_stop_retry6_v39.ts:166-233 | the watch is armed if and only if the reader's role is read-only, the row matches its pins and is PREPARED without an id, the restart time is readable, nothing is charged, at least twelve request units are left, nothing is active and the receipt is posted |
| StopWatcher.Watcher.Close | scripts/v39_gate05_science_exact_owned_actions_stop_retry6_v39.ts:404-419 | a clean end comes exactly when the last list and balance were read and the list showed the owned id inactive |
| StopWatcher.Watcher.Emergency | scripts/v39_gate05_science_exact_owned_actions_stop_retry6_v39.ts:420-474 | a delete is attempted exactly with an id known, none verified before, and no re-read row against it; the catch block returns exactly for a transient fault with a verified delete, and otherwise throws the error it caught; without a delete it ends within the lag |
| StopWatcher.Watcher.Watch | scripts/v39_gate05_science_exact_owned_actions_stop_retry6_v39.ts:93-478 | for every environment: outside its window the watch refuses before any call; one id, read from a row matching all pins, is the only one ever deleted; nothing owned is silently abandoned on return or throw; the first delete comes within the lag, and an admitted watch without one ends within it; the watch terminates |
| StopWatcher.SpendAtFirstDelete | scripts/v39_gate05_science_exact_owned_actions_stop_retry6_v39.ts:355-391 | if the provider charges at most r per millisecond, the spend when the first delete is issued is below 350 + r times the lag |
| StopWatcher.SpendWithoutDelete | scripts/v39_gate05_science_exact_owned_actions_stop_retry6_v39.ts:355-391 | a watch that ends without a delete, as Watch leaves it, has seen the spend stay below the same bound |
| StopWatcher.ReserveSuffices | server/lib/disruption/gate05ProviderTelemetrySafety_v39.ts:1-13 | the spend stays below 500 until the delete is carried out whenever r times the lag and the delete's duration is at most 150 |
| PaidWindows.PlanStartIsTheNextMark | scripts/v39_gate05_science_recommission_after_fifth_failed_watch_v39.ts:72-84 | the planned start is the first five-minute mark at least twenty minutes away |
| PaidWindows.EveryPlanCanBePaid | scripts/v39_gate05_github_owner_controller_retry5_v39.ts:50-74 | for every planning time, dispatch, arming, paid run and POST all fit their windows and the receipt is still fresh at every moment the POST may go out |
| PaidWindows.WindowsNest | scripts/v39_gate05_science_one_paid_create_newscope_20261028_v39.ts:100-106 | the POST window is exactly the fifteen seconds from the start, lies inside the paid and live windows, and never meets the restore window |
| PaidWindows.GatesInMilliseconds | scripts/v39_gate05_github_owner_controller_retry5_v39.ts:50-74 | each gate around the start, to the millisecond |
| RouteGraph.HalvingKeepsRoots | scripts/analyze_overnight2.py:58-63 | skipping a grandparent moves no node to another root |
| RouteGraph.SameRootIsConnected | scripts/analyze_overnight2.py:65-78 | two airports share a root exactly when the undirected route graph connects them |
| RouteGraph.Components.Find | scripts/analyze_overnight2.py:58-63 | find terminates, returns the root, adds only the airport itself and keeps every root |
| RouteGraph.Components.Union | scripts/analyze_overnight2.py:65-68 | union hangs the one tree below the other's root, changes no other root, and counts as a merge exactly when the roots differed |
| RouteGraph.Components.AddRow | scripts/analyze_overnight2.py:72-77 | a row adds its route exactly when both ends are present and non-empty, and forest and graph stay in agreement |
| RouteGraph.Components.Sizes | scripts/analyze_overnight2.py:82-84 | one tally entry per root with the size of its tree; entries plus merges equal the nodes |
| RouteGraph.TallyIsComponentCount | scripts/analyze_overnight2.py:82-86 | the tally is one representative per connected component with its exact size, and the sizes add up to the nodes |
| RouteGraph.ComponentSizes | scripts/analyze_overnight2.py:56-86 | for all rows in any order, the edges are the pairs some row names with both ends non-empty, the nodes are their ends, and the sizes are those of the true components |
| JsText.QuotedReads | scripts/build_final_frame_v39.ts:128-133 | a string quoted as JSON.stringify does, lone surrogates included, followed by anything, reads back exactly |
| JsText.QuotedSpells | scripts/build_final_frame_v39.ts:128-133 | the quoted text unit by unit: the short escapes, four lower-case hexadecimal digits for other controls and lone surrogates, everything else as it is (QuoteJSONString, section 25.5.2 of ECMA-262) |
| JsText.TextLeqIsBefore | scripts/v39_freeze_record_v39.ts:47 | the default sort compares the first differing code unit, a proper prefix first |
| CanonicalJson.ValueReads | scripts/build_final_frame_v39.ts:128-133 | a printed value followed by a delimiter reads back exactly |
| CanonicalJson.PrintedReads | scripts/build_final_frame_v39.ts:128-133 | reading what JSON.stringify prints gives the value, so printing is injective |
| CanonicalJson.PrintSpells | scripts/build_final_frame_v39.ts:128-133 | the printed text of every value spelt out: literals, quoted strings, lists and objects without white space |
| CanonicalOrder.CanonicalIsPrint | scripts/build_final_frame_v39.ts:128-133 | canonical text is the plain print of the value with its members in key order |
| CanonicalOrder.CanonicalDecides | scripts/v39_freeze_record_v39.ts:43-48 | canonical texts are equal exactly when the values are equal up to key order |
| CanonicalOrder.CanonicalReads | scripts/v39_freeze_record_v39.ts:43-48 | a canonical text reads back to the value up to key order |
| CanonicalOrder.CanonicalAscends | scripts/v39_freeze_record_v39.ts:43-48 | in every object of a canonical text each earlier key is a proper prefix of the later one or smaller at the first differing code unit |
| CanonicalOrder.CanonicalIsAscendingPrint | scripts/v39_freeze_record_v39.ts:43-48 | the canonical text is the plain print of the arrangement of the value with ascending keys |
| CanonicalOrder.StableIsCanonical | scripts/v39_compare_schema_inventories_v39.ts:11-18 | the comparison's printer gives the same text as the freeze chain's on every JSON value |
| FrozenHashes.SectionTextDecides | scripts/v39_compare_schema_inventories_v39.ts:24-31 | a section's texts are equal exactly when its project rows are the same, in order, up to key order |
| FrozenHashes.CompareSections | scripts/v39_compare_schema_inventories_v39.ts:56-65 | the loop reports exactly the sections whose project rows differ |
| FrozenHashes.OneSidedRowDiffers | scripts/v39_compare_schema_inventories_v39.ts:24-65 | a row of schema clean or public, by the section's own schema column, that the other side does not have makes its section differ |
| FrozenHashes.OthersIgnored | scripts/v39_compare_schema_inventories_v39.ts:24-31 | rows of other schemas change nothing wherever they stand |
| FrozenHashes.FrameTextDecides | scripts/build_final_frame_v39.ts:193-210 | for rows with distinct ICAO codes the frame text is equal for two lists exactly when they hold the same rows, whatever their order |
| FrozenHashes.FrameFields | scripts/build_final_frame_v39.ts:193-210 | which of a row's values is hashed under which of the fourteen names |
| FrozenHashes.SameHashVerifiesSameContent | scripts/v39_freeze_record_v39.ts:85-98 | a record carrying a verified record's hash verifies exactly when its content is the same up to key order |
| FrozenHashes.VerifiesMeans | scripts/v39_freeze_record_v39.ts:90-98 | a record verifies exactly with its schema version, status, date and a hash of the rest |
| FrozenHashes.SignedVerifies | scripts/v39_freeze_record_v39.ts:182 | the record written verifies and its unsigned part is what was frozen |
| ReferenceFreeze.MatchesSamePins | scripts/v39_freeze_record_v39.ts:133-185 | the record frozen from some inputs matches others exactly when they agree on the eight compared hashes and versions |
| ReferenceFreeze.AcceptedExactlyWithSamePins | scripts/v39_freeze_record_v39.ts:144-154 | a frozen record is accepted by a later run exactly when that run's inputs have the same eight pins and its reference was fresh on the day of the freeze |
| ReferenceFreeze.FreshMeans | server/lib/disruption/trafficReferenceFreshness_v39.ts:38-95 | fresh means retrieved between the end of the period and the freeze and no older than the declared age or thirty, for a quarterly reference ninety-two days, which no declaration may exceed |
| ReferenceFreeze.SourceFields | scripts/v39_freeze_record_v39.ts:158-181 | which input is frozen under which name, here the source and period fields; its sister lemmas cover the other seventeen |
| ReferenceFreeze.FreezeFile.WriteReferenceFreeze | scripts/v39_freeze_record_v39.ts:144-185 | an existing file is never changed; a missing one becomes the signed record only if fresh and nobody else created it first; a result is the file's own verified, matching, fresh record, and there is one exactly in those cases |
| CsvCodec.SplitLine | scripts/test-extractor-real-payload.ts:42-49 | the loop computes the quote-aware split |
| CsvCodec.CellText | scripts/export_flight_data.ts:111-116 | a cell is quoted exactly when it holds a quote, a comma, a line feed or a carriage return |
| CsvCodec.CrLfEndsLine | scripts/test-extractor-real-payload.ts:26 | CR LF ends a line as LF does |
| CsvCodec.QuoteRunsHalve | scripts/test-extractor-real-payload.ts:38-39 | in any cell, written by the export or not, each run of quotes is halved, an odd one rounded up, and all else is kept |
| CsvCodec.TrimTakesBlanks | scripts/test-extractor-real-payload.ts:38-39 | trimming takes off blanks at both ends and nothing else |
| CsvCodec.LineReads | scripts/export_flight_data.ts:111-116 | for every row of values the printed line splits and parses back to the trimmed fields |
| CsvColumns.LoadRows | scripts/test-extractor-real-payload.ts:19-68 | the loader finds the columns by name in the header and gives one record per non-blank line after it, or raises on a text without lines |
| CsvColumns.CellReads | scripts/test-extractor-real-payload.ts:27-52 | the cell picked under a column's name is that column's trimmed field of the printed row, and empty for a missing column |
| CsvColumns.ProjectedFields | scripts/test-extractor-real-payload.ts:28-67 | each field of a record comes from its own named column, an empty optional one is null, and only "true" is true |
| CsvColumns.ExportLoads | scripts/export_flight_data.ts:139-141 | the export of rows without newlines loads as one record per row, each field from its own column whatever the column order |
| CsvCodec.PrintFile | scripts/export_flight_data.ts:139-141 | the export loop prints the header and rows, one line each |
| CsvCodec.FileReadsBack | scripts/test-extractor-real-payload.ts:25-51 | the exported file reads back to the original fields exactly when no field holds a newline and every field equals its trim |
| ProbeLedger.ChargesMean | scripts/anchor_probe.ts:247-252 | a row is charged its largest amount on record: reserved, settled or sent for the two totals, reserved or sent inside the reservation |
| ProbeLedger.ReducerIsSqlSum | scripts/anchor_probe.ts:247-252 | the reducer is never below the SQL sum, and equals it exactly when no row is negative in all three columns |
| ProbeLedger.Ledger.Used | scripts/anchor_probe.ts:435-437 | the sum inside the reservation is the day's locked exposure |
| ProbeLedger.Ledger.Reserve | scripts/anchor_probe.ts:430-447 | a reservation is made exactly when exposure plus estimate fits the cap, appends one running row, and keeps the day at or below the cap |
| ProbeLedger.Ledger.Complete | scripts/anchor_probe.ts:558-573 | completion charges what was really sent and keeps the exposure bound |
| ProbeLedger.Ledger.Fail | scripts/anchor_probe.ts:536-548 | failure charges the larger of reservation and sends and keeps the exposure bound |
| ProbeLedger.Ledger.Abandon | scripts/anchor_probe.ts:743-749 | cleanup of a probing row changes no day's exposure |
| ProbeLedger.RunDay | scripts/anchor_probe.ts:430-447 | the ledger's statements in any interleaving leave exactly the rows the events say |
| ProbeLedger.ExposureBounded | scripts/anchor_probe.ts:430-447 | after every list of events every day's exposure is within the cap plus the sum of overshoots |
| ProbeLedger.CapHolds | scripts/anchor_probe.ts:384-392 | after every list of events in which no window goes beyond its reservation no day goes beyond the cap |
| ProbeLedger.LockMakesAtomic | scripts/anchor_probe.ts:433-445 | reading and inserting in the order the lock imposes leaves the table of atomic reservations |
| ProbeLedger.LockIsNeeded | scripts/anchor_probe.ts:434 | two reservations that both read first break the cap if and only if each fits alone and the two do not fit together |
| Ranking.PositionIsRank | scripts/v39_freeze_mrairspace_reference_v39.ts:84 | the position in the sorted list is the number of rows the order puts before |
| Ranking.OrderMeans | scripts/anchor_probe.ts:291-293 | the comparison at a blend of the bounds puts the greater score first and equal scores by code |
| Ranking.AmbiguityInvariantMeans | scripts/anchor_probe.ts:290-295 | the check passes exactly when every two candidates stand in the same order by lower bound and by upper bound, codes breaking ties, and then every convex blend ranks all candidates, and so every top k, the same |
| Tiering.CutsLeaveRoom | scripts/v39_freeze_mrairspace_reference_v39.ts:60-62 | from twelve airports on both cuts fall strictly inside the list, so the cap at the list length never acts |
| Tiering.RankCountIsCeil | scripts/v39_freeze_mrairspace_reference_v39.ts:60-62 | a cut is the smallest positive number of airports that reaches the percentage |
| Tiering.CutsMean | scripts/v39_freeze_mrairspace_reference_v39.ts:57-62 | the percentages of both builders, and at least one MID airport between the cuts |
| Tiering.FrozenOrder | scripts/v39_freeze_mrairspace_reference_v39.ts:84 | busier airports first, equal traffic by code |
| Tiering.AssignTiers | scripts/v39_build_opdi_reference_v39.py:157-162 | the loop writes the tier of every position, changes nothing else, and returns three positive sizes and the traffic at the hub cut, or raises for fewer than twelve airports |
| Tiering.InputOrderIrrelevant | scripts/v39_freeze_mrairspace_reference_v39.ts:84-103 | the frozen list does not depend on the order the airports were read in |
| Tiering.TiersAreOrdered | scripts/v39_freeze_mrairspace_reference_v39.ts:85-103 | three non-empty tiers, a higher tier never with less traffic, and the hub cut is the least HUB traffic |
| Tiering.TierByRank | scripts/v39_build_opdi_reference_v39.py:225-226 | the tier in the frozen list is the tier of the airport's rank among the rows |
| Tiering.MoreTrafficNeverLowers | scripts/v39_build_opdi_reference_v39.py:157-162 | raising one airport's traffic with all others fixed never lowers its tier |
| Stability.CountBuckets | scripts/anchor_probe.ts:266-273 | the loop yields floor(end/w) - ceil(start/w) counts, or none, each the events of its bucket |
| Stability.BucketsPartitionTheSpan | scripts/anchor_probe.ts:266-273 | the counts add up to the events inside the span of complete buckets |
| Stability.BucketsIgnoreOrder | scripts/anchor_probe.ts:261-273 | the counts do not depend on the order of the events |
| Stability.VarianceIsGap | scripts/anchor_probe.ts:277 | the variance is the Cauchy-Schwarz gap of the counts over the squared number of buckets |
| Stability.StabilityBounds | scripts/anchor_probe.ts:274-278 | with n counted buckets and an event, stability lies between 1/(1+sqrt(n-1)) and 1 and is 1 exactly when all counts are equal |
| Stability.StabilityMeans | scripts/anchor_probe.ts:270-278 | the value in every case: too few buckets, none, no events, or the s for which (1 - s) / s squared is the Cauchy-Schwarz gap over the squared events |
| Moments.CauchySchwarz | scripts/v39_evaluate_mrairspace_reference_v39.py:224-238 | n times the squares is at least the squared total, with equality exactly when all counts are equal |
| Diversity.Diversity | scripts/v39_build_opdi_reference_v39.py:141-149 | the share loop computes squared total over squares, counts the operators with at least five percent, and sums the Shannon entropy |
| Diversity.DiversityBounds | scripts/v39_evaluate_mrairspace_reference_v39.py:224-238 | effective carriers lie between 1 and k, reach k exactly when all counts are equal, and at most twenty operators reach five percent |
| Diversity.EntropyBounds | scripts/v39_evaluate_mrairspace_reference_v39.py:224-238 | the entropy lies between the logarithms of the effective carriers and of the number of operators, and equals either exactly when all counts are equal |
| RoutePipeline.ReadMonth | scripts/v39_build_opdi_reference_v39.py:103-118 | the loop computes the tally that the next three rows describe |
| RoutePipeline.RouteCounts | scripts/v39_build_opdi_reference_v39.py:103-118 | the count of a route is the sum over the rows with exactly that origin and destination, and the entries are the pairs of different four-character codes that occur |
| RoutePipeline.OperatorCounts | scripts/v39_build_opdi_reference_v39.py:103-118 | the same per operator, for three-letter codes |
| RoutePipeline.QualityCounts | scripts/v39_build_opdi_reference_v39.py:103-118 | invalid pairs, coded and uncoded flights are the sums over the rows of each kind |
| RoutePipeline.MergeIsConcatenation | scripts/v39_build_opdi_reference_v39.py:180-182 | merging two months' tallies is tallying their concatenation |
| RoutePipeline.ReadMonths | scripts/v39_build_opdi_reference_v39.py:173-184 | month-by-month merging equals one pass over all months |
| RoutePipeline.ReadKeeps | scripts/v39_build_opdi_reference_v39.py:106-117 | every grouped flight is an invalid pair or on a route, coded or not, and a route's coded flights never exceed its flights |
| RoutePipeline.Classify | scripts/v39_build_opdi_reference_v39.py:186-193 | missing metadata, non-scheduled and retained are exactly the routes with an unknown end, a known but unscheduled end, and two scheduled ends; their flights add up to all |
| RoutePipeline.CountFlights | scripts/v39_build_opdi_reference_v39.py:173-193 | invalid pairs, missing metadata, non-scheduled and retained add up to all grouped flights |
| RoutePipeline.Departures | scripts/v39_build_opdi_reference_v39.py:203-205 | the per-airport counter is the sum of the routes leaving it, and adds up to all flights |
| RoutePipeline.CommercialCounts | scripts/v39_build_opdi_reference_v39.py:194-199 | a retained route counts its coded flights, and only if some row of it is coded |
| RoutePipeline.CoverageMeans | scripts/v39_build_opdi_reference_v39.py:214-214 | the coverage times all departures is the coded departures, and an airport without departures has coverage nothing |
| RoutePipeline.CoverageNeedsNoClamp | scripts/v39_build_opdi_reference_v39.py:194-221 | operator-coded departures never exceed all departures, so the clamp changes nothing |
| RoutePipeline.Degrees | scripts/v39_build_opdi_reference_v39.py:201-206 | neighbours are exactly the ends of busy routes, and summed out-degree equals summed in-degree |
| RoutePipeline.BusyOriginsArePublished | scripts/v39_build_opdi_reference_v39.py:28-29 | every airport with an out-degree has enough departures to be published |
| RoutePipeline.PublishedSums | scripts/v39_build_opdi_reference_v39.py:201-219 | published out-degrees add up to the busy routes, in-degrees to the busy routes with a published destination, and the two agree if and only if every busy destination is published |
| RoutePipeline.BusyDestinationMayBeUnpublished | scripts/v39_build_opdi_reference_v39.py:211-219 | with one busy route to an airport without departures the sums are 1 and 0 |

## Left out

- Earlier copies of the operator, watcher and controller: the same protocol with weaker recovery and other constants; one version of each is modelled.
- The retry5 operator reading a private commission file: same intent, bind and cleanup steps as the modelled operator.
- PaidTheorems.OnlyRacingOperatorsShareAScope: does not bound the POSTs of racing operators on separate disks to one, because the code does not (`PaidRuns.TwoPostsExactlyFromTwoDirectories`).
- StopWatcher.ReserveSuffices: bounds the spend under a rate the caller supplies; the provider enforces none.
- The watcher as a loop and the watcher of the transition system are two models of one script: the first has every branch and delay, the second interleaves with everything else; no refinement between them is proved.
- Postgres, GitHub CLI, fetch, file system and environment plumbing: nondeterministic steps; only exclusive create, atomic transactions and compare-and-set counts are kept.
- Session runtime triggers and the callback path behind the armed session: only armed, bound and lost sessions are distinguished.
- HMAC, Ed25519 and SHA-256: a hash is collision-free; signatures are not modelled.
- buildFinalFrameRows and normalizeAirportCoverageForFinalFrame: field-by-field projections of imported region and reference tables.
- Percentiles and nearest rank: no property beyond their formula.
- quarter_aggregate and resolve_route of the MrAirspace evaluation: the same aggregation after a route-resolution step; the OPDI pipeline is modelled.
- The JSON branch of the smoke test and the replay of the loaded payloads: no parser of this repository is involved.
- selectTop5Stage2, closeProbeBudgetDay and probeCapStopReason: no ranking or barrier is established by them.
- Floating-point rounding: exact rationals and reals throughout.
