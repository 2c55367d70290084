# A verified model of SentinelForge

SentinelForge turns the text of a security report into a detection rule and runs the rule over an authentication log. This project
models the four parts of it that carry the guarantees, and proves them in Dafny for all inputs, all random choices and all
interleavings. `dafny verify dfyconfig.toml` checks the whole project.

**Detection.** `Timestamps` parses and prints instants (section 5.6 of RFC 3339) as exact microseconds. `Detection` says what a rule
means: closed-window counts, rising edges, incidents. `RefEngine`, `RefEngineLaws` and `PolicyCompare` are the reference engine: it
quarantines, removes duplicates, groups, scans and joins with versioned policy rows. `RefDetect` is the second, independently written
detector, and `Agreement` proves that the two report the same. `Ordering` and `Grouping` hold what both need of Python's sorting and
dictionaries.

**The labelled dataset.** `Incidents` is the incident context with all its builders, `Random` its random source (every draw is an
arbitrary choice within its range, and a draw from too small a range fails as ValueError does). `Labels`, `IncidentShapes` and
`IncidentLogs` say when labels are exact about a log and why each construction is. `Slots` and `Background` generate the benign
background, `BackgroundLimit` shows exactly when it is silent, and `Generate` puts everything together: for every random choice the
dataset passes its own cross-check.

**The evidence gate.** `Behaviours` is the registry, `TextSpans` the sentence spans of a report and the choice among overlapping
matches, `Evidence` what the deterministic finder hands over and the quotes it cuts from the report. `Reconcile` specifies the decision about a proposal, `Reconciler` is the code that makes it by appending to a list of reasons, `ReconcileLaws` characterises
acceptance, and `Gate` draws the consequences: no proposal can supply a number, and no compiled number differs from what the rule
sentences say. `Validation` is strict validation and compilation, `DatasetSupport` the check of a rule against a dataset, `Pipeline`
the only path from report to rule.

**The service.** `Lifecycle` says what each write transaction does to the tables, `RuleStore` updates the tables in place, `Jobs` is the
job table, `Refinement` an analyst's change of a number. `Interleavings` is the service as a transition system: a transaction is one
atomic step, what a call read before it is a stale local that any other step may overtake, workers move one step at a time, and the
process may die at any moment. `LifecycleLaws`, `LifecycleKeeps` and `ServiceRuns` prove the invariants over every run. `Drafts`,
`ServiceLimits` and `ServiceWitnesses` draw the line between what holds in every run and what does not.

## Where code and documentation differ

* The background's header says it is provably unable to trigger any rule and bounds the failures in a 120-second window by four. The
  slot layout gives a sharper and a conditional statement: before a login a window of w seconds holds at most 2 * ((w + 294) / 300)
  failures, and that many do occur. So the promise holds exactly when this number is below the sequence rule's threshold
  (`BackgroundLimit.SilentIff`); for windows up to 305 seconds the number is two and the promise holds for every threshold the
  parameter checks admit. Nothing checks the window's length.
* The engine is meant to be independent of arrival order. What it evaluates is, exactly if no event has two different smallest copies
  with the same instant and content (`RefEngineLaws.ArrivalOrderIrrelevantIffTieFree`). The content leaves out column names and nulls,
  so such copies exist, and with them a report can change (`RefEngineLaws.ReportDependsOnOrder`).
* The job documentation lists `validating` before `rejected`; the code also goes from `extracting` to `rejected` when the extractor
  refuses the text, and the machine in `Jobs` follows the code.
* A threshold object without any number reaches a message that needs the number and escapes as KeyError; it is an outcome of its own
  in `Reconcile.Decide` and `Pipeline.Analyze`, and `Gate.RaisesIff` says for which proposals.

## What the service does not promise

* At most one draft per rule: a refinement or a resumption beside another draft leaves two, and nothing else does
  (`ServiceLimits.TwoDraftsIff`); a run in which it happens is `ServiceWitnesses.TwoDraftsReachable`.
* That a new version fits current data: it fits the dataset version its analysis was asked about (`ServiceLimits.MadeForItsData`), and
  creation does not look again. Until the next schema event only the check before a run notices
  (`ServiceWitnesses.StaleDraftReachable`).

## Assumptions

Numbers are exact (`int`, `real`), text is ASCII where letters, digits or white space matter, ids handed out by uuid4 never collide, a
write transaction is atomic, and what the database holds survives a crash. Printed instants have four-digit years from 1000 on.

## Model

| member | source | states |
|---|---|---|
| `Timestamps.Text` | sentinelforge/refengine.py:38-54 | Every spelling of an instant (any fraction of up to six digits, `Z` or any numeric zone) parses to exactly that instant |
| `Timestamps.FmtTs` | scripts/verify/scenarios.py:37-57 | Whatever style the scenario generator prints an instant in, parsing the text gives the instant back |
| `Timestamps.FmtAt` | scripts/verify/scenarios.py:41-57 | The same, with the second and the microseconds given separately |
| `Timestamps.Render` | sentinelforge/refengine.py:57-61 | Printing with milliseconds and parsing back gives the instant cut down to the millisecond, also before 1970 |
| `Timestamps.CivilOf` | sentinelforge/refengine.py:59-61 | The civil time of a second count is a valid date and time that counts back to the same seconds |
| `Timestamps.NumberOfZeroPad` | scripts/verify/scenarios.py:46-57 | Zero padding is lossless: the padded digits read back as the number |
| `Timestamps.DaysBeforeYearClosed` | sentinelforge/refengine.py:49-53 | The year-by-year day count equals the closed Gregorian leap-year formula |
| `Detection.ScanReportsEdges` | sentinelforge/refengine.py:158-171 | The scan with a "previously breaching" flag over one group's sorted rows reports exactly the rising edges of the group |
| `Detection.OneAlertPerIncident` | sentinelforge/refengine.py:20-21 | A row is reported exactly when it starts a maximal run of breaching rows |
| `Detection.AlertIffSomeInterval` | sentinelforge/refengine.py:160-171 | A group has an alert if and only if some closed interval of the window's length, placed anywhere in time, holds at least N distinct values |
| `Detection.AlertMonotone` | sentinelforge/refengine.py:160-171 | A longer window or a lower threshold never silences a group that had an alert |
| `Detection.EdgesOfDisjointUnion` | sentinelforge/refengine.py:153-171 | Two logs without a common group raise exactly the union of their alerts when mixed |
| `Detection.CountPermuted` | sentinelforge/refengine.py:139-140 | How many observations a window holds does not depend on the order of arrival |
| `Grouping.GroupBy` | sentinelforge/refengine.py:131-133 | Filling the dictionary of lists: every key once, each key first occurring before those after it in the order, each with exactly its rows in order |
| `RefEngine.Prepare` | sentinelforge/refengine.py:84-114 | The surviving rows are, per event id, the smallest (instant, content) copy of the rows that are not quarantined; the quarantine lists every rejected row with its first reason; read = evaluated + quarantined + dropped, and the per-reason counts are exact |
| `RefEngine.Deduplicate` | sentinelforge/refengine.py:105-108 | One row per event id: the minimum by (instant, content), first of equal minima |
| `RefEngine.CountReasons` | sentinelforge/refengine.py:109-111 | Each reason is counted exactly as often as it occurs |
| `RefEngine.SurvivorsDistinct` | sentinelforge/refengine.py:105-108 | No two surviving rows share an event id |
| `RefEngine.SequenceGroup` | sentinelforge/refengine.py:135-145 | One group's loop finds each alert its trigger events deserve, once and no other: at least N counted events of the group in the closed window, with their count and ids |
| `RefEngine.RunSequence` | sentinelforge/refengine.py:128-147 | KeyError exactly if a surviving row lacks the column `event_type`; otherwise the report is, sorted by (detection time, trigger id), exactly one alert for every trigger with at least N counted events of its group in the closed window, with the count and the cited events |
| `RefEngine.DistinctGroup` | sentinelforge/refengine.py:158-171 | One group's loop finds each alert of a rising edge, once and no other, with the distinct count and the cited events |
| `RefEngine.RunDistinct` | sentinelforge/refengine.py:150-173 | KeyError exactly if a surviving row lacks the column `event_type`; otherwise the report is, sorted, exactly one alert for every rising edge of the surviving matching events, with the distinct count and the cited events |
| `RefEngineLaws.SurvivorsWithoutTies` | sentinelforge/refengine.py:105-108 | Without ties the survivors are exactly the minimal copies, wherever they stand |
| `RefEngineLaws.ArrivalOrderIrrelevantIffTieFree` | sentinelforge/refengine.py:84-114 | Every reordering evaluates the same rows if and only if no event has two different copies that tie on instant and content |
| `RefEngineLaws.ReportDependsOnOrder` | sentinelforge/refengine.py:72-81 | An input whose report depends on arrival order: a login and a damaged copy of it with the same content, whose event type has slipped into the session column; for any sequence rule by account with threshold one the login triggers an alert in one order, and in the other there is no alert at all |
| `RefEngineLaws.RedeliveryChangesNothing` | sentinelforge/refengine.py:105-108 | Delivering an exact copy of an event again, at any later place in the log, never changes what is evaluated, ties or not |
| `RefEngineLaws.SameMembersSameSurvivors` | sentinelforge/refengine.py:84-108 | Without ties neither the order nor the number of deliveries changes what is evaluated |
| `RefEngineLaws.QuarantineOrder` | sentinelforge/refengine.py:87-103 | The quarantine report is the same multiset in any order of arrival |
| `RefEngineLaws.SequenceReportOrder` | sentinelforge/refengine.py:128-147 | Shuffled or redelivered logs give the identical sequence report |
| `RefEngineLaws.DistinctReportOrder` | sentinelforge/refengine.py:150-173 | The same for the distinct-count report |
| `RefEngineLaws.PolicyReportOrder` | sentinelforge/refengine.py:216-217 | The same for the rows the policy join visits, in order |
| `RefEngineLaws.DistinctReportComplete` | sentinelforge/refengine.py:150-173 | On whole reports: a group is named if and only if some closed interval of the window's length shows enough distinct values among its surviving events |
| `PolicyCompare.PolicyRowsFor` | sentinelforge/refengine.py:176-199 | The rows that apply at an instant: all of them, or in a versioned table those with the latest start at or before it |
| `PolicyCompare.SingleVersion` | sentinelforge/refengine.py:202-204 | The version all applicable rows name, as text, if they name exactly one |
| `PolicyCompare.ByAccount` | sentinelforge/refengine.py:210-213 | The account dictionary holds each account's rows and drops rows without an account |
| `PolicyCompare.Decide` | sentinelforge/refengine.py:224-239 | The engine's chain of tests decides as the documented table of cases does |
| `PolicyCompare.RunPolicy` | sentinelforge/refengine.py:207-246 | KeyError exactly if a surviving row lacks the column `event_type`; otherwise one result per matching surviving event, in (instant, id) order, decided from the policy as a set; alerts are the results that are not "no alert" |
| `PolicyCompare.NotRetroactive` | sentinelforge/refengine.py:176-199 | Adding rows that start after an event, or whose start cannot be read, leaves its result unchanged, even if they make the table versioned or are the account's first rows |
| `PolicyCompare.ParsedAfterAlways` | sentinelforge/refengine.py:188-193 | Every parsed instant is later than the "always in force" start used for rows without one |
| `PolicyCompare.CompliantMeans` | sentinelforge/refengine.py:224-239 | A result other than "insufficient context" rests on a present log value and one agreed non-null policy value, and alerts exactly on a violation |
| `RefDetect.Detect` | scripts/datagen/refdetect.py:41-54 | The second detector returns exactly the findings of the five rules, for events in any order |
| `RefDetect.DetectB1` | scripts/datagen/refdetect.py:61-74 | The sequence loop reports exactly the successes with enough failures of the account in the closed window |
| `RefDetect.DistinctEpisodes` | scripts/datagen/refdetect.py:77-93 | The episode loop reports exactly the rising edges of every group |
| `RefDetect.DetectPolicy` | scripts/datagen/refdetect.py:96-120 | The policy loop reports exactly the successes whose row is missing, whose value is null, or that violate the row |
| `RefDetect.RunningIsWindow` | scripts/datagen/refdetect.py:85-88 | On sorted rows the prefix up to an event plus its same-second peers shows exactly the values of the whole closed window |
| `RefDetect.EpisodesAreEdges` | scripts/datagen/refdetect.py:84-92 | The "in episode" flag marks exactly the rising edges |
| `RefDetect.FailuresCounted` | scripts/datagen/refdetect.py:67-71 | Counting the seconds in an account's list is counting its failures in the whole log |
| `RefDetect.FindingsPermuted` | scripts/datagen/refdetect.py:43-44 | The findings do not depend on the order of the log |
| `RefDetect.StatusLocal` | scripts/datagen/refdetect.py:61-120 | Events that share no account and no host with an event do not change the verdict on it |
| `RefDetect.FindingsOfIsolated` | scripts/datagen/refdetect.py:41-54 | Two parts of a log without common accounts and hosts report together exactly what each reports alone |
| `Agreement.SameEdge` | scripts/datagen/refdetect.py:86-92 | Measuring time in microseconds instead of seconds moves no rising edge |
| `Agreement.SequenceReportsAgree` | sentinelforge/refengine.py:128-147 | On whole-second logs with distinct ids and filled keys, the engine's sequence report names exactly the (account, trigger) pairs of the second detector |
| `Agreement.DistinctReportsAgree` | sentinelforge/refengine.py:150-173 | The same for both distinct-count rules, whichever field groups and whichever is counted |
| `Agreement.PolicyReportsAgree` | sentinelforge/refengine.py:207-246 | The same for both policy rules, with a table of at most one filled unversioned row per account: the engine's results are the successes one for one, and both detectors give the same set of accounts, triggers and statuses |
| `Agreement.PolicyAlertsAgree` | scripts/datagen/refdetect.py:96-120 | The second detector's alerts of a policy rule are exactly the engine's results other than compliance |
| `Agreement.RowsInForce` | sentinelforge/refengine.py:210-223 | The rows the engine's join finds are the single row the second detector's dictionary holds |
| `Labels.SoundUnion` | scripts/datagen/incidents.py:35-98 | Pieces of log whose labels are exact and that share no event id, account or host: the labels are exact about both together |
| `Labels.ExactUnion` | scripts/datagen/generate.py:174-181 | Exactness of labels is preserved by the union of findings about disjoint events |
| `Labels.NextId` | scripts/datagen/incidents.py:48-64 | The next id of a counter was never handed out before |
| `Incidents.Context.constructor` | scripts/datagen/incidents.py:35-45 | An empty context, about which the labels are exact |
| `Incidents.Context.Account` | scripts/datagen/incidents.py:48-56 | A fresh account id, and its policy row unless it is to have none |
| `Incidents.Context.Host` | scripts/datagen/incidents.py:58-60 | A fresh host id |
| `Incidents.Context.AddEvent` | scripts/datagen/incidents.py:62-73 | One event with a fresh id is appended |
| `Incidents.Context.AddLabel` | scripts/datagen/incidents.py:83-98 | One label is appended |
| `Incidents.Context.T0` | scripts/datagen/incidents.py:75-81 | A start inside the data range, or ValueError exactly when the range is too short |
| `Random.DistinctSeconds` | scripts/datagen/incidents.py:101-103 | Distinct ascending seconds from the range, or ValueError exactly when the range holds too few |
| `Incidents.FirstBreach` | scripts/datagen/incidents.py:197-207 | The first event at which the running number of distinct accounts reaches the threshold, found exactly when there are enough accounts |
| `Incidents.Context.B1PosTypical` | scripts/datagen/incidents.py:115-121 | labels stay exact about the whole log; one alert expected from n failures and a success of one account on one host, all in the window, T <= n <= T + 4; raises exactly if the range or the window is too short for the n drawn |
| `Incidents.Context.B1PosBoundary` | scripts/datagen/incidents.py:124-131 | labels stay exact about the whole log; one alert expected from exactly T failures and a success of one account on one host, the first failure exactly W seconds before the success |
| `Incidents.Context.B1NegBoundary` | scripts/datagen/incidents.py:134-141 | labels stay exact about the whole log; no alert expected from exactly T failures and a success of one account on one host, the first failure W + 1 seconds before the success |
| `Incidents.Context.B1NegThreshold` | scripts/datagen/incidents.py:144-150 | labels stay exact about the whole log; no alert expected from T - 1 failures in the window and a success of one account on one host |
| `Incidents.Context.B1NegNoSuccess` | scripts/datagen/incidents.py:153-159 | labels stay exact about the whole log; no alert expected from T + 1 failures of one account in one window without a success |
| `Incidents.Context.B1NegSpread` | scripts/datagen/incidents.py:162-170 | labels stay exact about the whole log; no alert expected from 2T + 1 failures of one account on one host, of which T - 2 are in the window before its success |
| `Incidents.Context.B1NegOrder` | scripts/datagen/incidents.py:173-180 | labels stay exact about the whole log; no alert expected from a success followed by T + 1 failures of the same account on the same host |
| `Incidents.Context.B1NegWrongAccount` | scripts/datagen/incidents.py:183-191 | labels stay exact about the whole log; no alert expected from T + 1 failures of one account in the window before another account's success on the same host |
| `Incidents.Context.B2PosTypical` | scripts/datagen/incidents.py:210-222 | labels stay exact about the whole log; one alert expected at the event that brings the distinct accounts to T; n failures of T to T + 4 accounts on one host in one window are written, and it raises exactly if the range or the window is too short for the n drawn |
| `Incidents.Context.B2PosBoundary` | scripts/datagen/incidents.py:225-233 | labels stay exact about the whole log; one alert expected from one failure of each of T accounts on one host, the last exactly W seconds after the first |
| `Incidents.Context.B2NegBoundary` | scripts/datagen/incidents.py:236-244 | labels stay exact about the whole log; no alert expected from one failure of each of T accounts on one host, the last W + 1 seconds after the first |
| `Incidents.Context.B2NegThreshold` | scripts/datagen/incidents.py:247-258 | labels stay exact about the whole log; no alert expected from 2T failures of T - 1 accounts on one host in one window |
| `Incidents.Context.B2NegSingleAccount` | scripts/datagen/incidents.py:261-267 | labels stay exact about the whole log; no alert expected from twelve failures of one account in one window |
| `Incidents.Context.B2NegSuccessEvents` | scripts/datagen/incidents.py:270-277 | labels stay exact about the whole log; no alert expected from successes of T + 2 accounts on one host in one window |
| `Incidents.Context.B2NegSlow` | scripts/datagen/incidents.py:280-288 | labels stay exact about the whole log; no alert expected from one failure of each of T accounts on one host, more than half a window apart |
| `Incidents.Context.B3PosTypical` | scripts/datagen/incidents.py:303-306 | labels stay exact about the whole log; one alert expected at the second of two sessions of an account, on another host and 1 to W seconds later |
| `Incidents.Context.B3PosBoundary` | scripts/datagen/incidents.py:309-312 | labels stay exact about the whole log; one alert expected from two sessions of an account on two hosts exactly W seconds apart |
| `Incidents.Context.B3NegBoundary` | scripts/datagen/incidents.py:315-318 | labels stay exact about the whole log; no alert expected from two sessions of an account on two hosts W + 1 seconds apart |
| `Incidents.Context.B3NegSameHost` | scripts/datagen/incidents.py:321-324 | labels stay exact about the whole log; no alert expected from two sessions of an account on one host, 60 to W seconds apart |
| `Incidents.Context.B3NegFailure` | scripts/datagen/incidents.py:327-330 | labels stay exact about the whole log; no alert expected from a session and then, 1 to W seconds later, a failure of the account on another host |
| `Incidents.Context.B3NegFarHosts` | scripts/datagen/incidents.py:333-339 | labels stay exact about the whole log; no alert expected from three sessions of an account on three hosts, each more than W seconds after the one before |
| `Incidents.Context.B4Pos` | scripts/datagen/incidents.py:349-353 | labels stay exact about the whole log; one alert expected for a success whose method differs from that of its policy row |
| `Incidents.Context.B4NegCompliant` | scripts/datagen/incidents.py:356-360 | labels stay exact about the whole log; no alert expected for a success with the method of its policy row |
| `Incidents.Context.B4NegFailure` | scripts/datagen/incidents.py:363-367 | labels stay exact about the whole log; no alert expected for a failed login whose method differs from that of its policy row |
| `Incidents.Context.B5Pos` | scripts/datagen/incidents.py:392-395 | labels stay exact about the whole log; one alert expected for a success without MFA whose policy row requires it |
| `Incidents.Context.B5NegCompliant` | scripts/datagen/incidents.py:398-401 | labels stay exact about the whole log; no alert expected for a success with the MFA its policy row requires |
| `Incidents.Context.B5NegNotRequired` | scripts/datagen/incidents.py:404-407 | labels stay exact about the whole log; no alert expected for a success without MFA whose policy row does not require it |
| `Incidents.Context.B5NegFailure` | scripts/datagen/incidents.py:410-413 | labels stay exact about the whole log; no alert expected for a failed login without the MFA its policy row requires |
| `Incidents.Context.PolicyMissing` | scripts/datagen/incidents.py:370-386 | labels stay exact about the whole log; two labels, one per policy rule, for a success without a policy row |
| `Incidents.Context.InjectOne` | scripts/datagen/incidents.py:440-441 | One behaviour's builders are cycled through evenly, and each succeeds or raises as its draw decides, the first that raises ending the run |
| `Incidents.Context.Inject` | scripts/datagen/incidents.py:437-441 | After any choices that do not raise, the labels are exact about the whole log and follow the plan of kinds; draw by draw the numbers drawn decide whether and where it raises |
| `Incidents.DrawsDecide` | scripts/datagen/incidents.py:75-121 | A builder succeeds whatever it draws exactly if its greatest draw fits, and with some draw exactly if its least one does |
| `Incidents.RoundsDecided` | scripts/datagen/incidents.py:437-441 | If no draw of the builders in use raises, the run succeeds; if it succeeds, each of them has a draw that does not raise |
| `Incidents.FeasibleIff` | scripts/datagen/incidents.py:75-441 | With eight incidents or more per behaviour, no draw can raise ValueError exactly for the parameters and ranges given by eight inequalities; outside them some builder has a draw with which it raises, or nothing to draw from |
| `IncidentLogs.SequenceFindings` | scripts/datagen/incidents.py:109-191 | Failures then a success: the sequence rule speaks exactly when enough failures lie in the closed window, and no other rule speaks |
| `IncidentShapes.RunCrossesAt` | scripts/datagen/incidents.py:210-233 | A run that shows enough values from one event on is reported exactly at that event |
| `IncidentLogs.SlowSpray` | scripts/datagen/incidents.py:280-288 | Failures more than half a window apart never show three accounts in one window |
| `Slots.ChooseSlots` | scripts/datagen/background.py:100-108 | The slots ranked first by the raised random keys are distinct, and a human account gets only 08:00-18:00 slots |
| `Slots.HumanSlotsFirst` | scripts/datagen/background.py:100-106 | Adding 2 to the keys outside pushes those slots behind every allowed one |
| `Background.GenerateDay` | scripts/datagen/background.py:86-138 | For every random choice the table is the sorted, numbered day of some plan with at most one login per account and slot at second 60..299 and up to two failures at second 5..54 of the slot |
| `Background.GenerateBackground` | scripts/datagen/generate.py:104-111 | Day after day, with one running event counter |
| `Background.DaysSlot` | scripts/datagen/background.py:7-10 | Over all days, blocks and sorting, no account fails more than twice in any slot |
| `Background.BackgroundIsBenign` | scripts/datagen/background.py:7-15 | Every generated background has at most two failures per account and slot, one home host per account, hosts of two accounts, and compliant successes |
| `Background.FewFailures` | scripts/datagen/background.py:7-10 | Before a login, a closed window of w seconds holds at most two failures for each of the (w + 294) / 300 slots it can reach |
| `Background.NoSpray` | scripts/datagen/background.py:11-13 | At most two accounts ever fail from one host, so the spray rule is silent |
| `Background.OneHome` | scripts/datagen/background.py:11-13 | Two events of one account come from one host |
| `Background.BackgroundSilent` | scripts/datagen/background.py:3-15 | The background alone raises no alert of any of the five rules when the threshold exceeds that bound |
| `BackgroundLimit.SilentIff` | scripts/datagen/background.py:3-10 | Exact limit of the promise: every background is silent if and only if the bound is below the sequence threshold, and always for windows up to 305 seconds |
| `Generate.StatusFor` | scripts/datagen/refdetect.py:123-133 | The alerts about a label's events are reduced to "alert" before "insufficient context" before "no alert", with the first such event |
| `Generate.Verify` | scripts/datagen/generate.py:164-189 | The report counts mismatched labels and the differences of expected and actual pairs exactly; too many rows are skipped |
| `Generate.ExactPasses` | scripts/datagen/generate.py:174-189 | When the labels are exact, verification passes, in whatever order the detector reports |
| `Generate.PassMeans` | scripts/datagen/generate.py:180-188 | A passing report means the detector speaks about the labelled triggers and about nothing else |
| `Generate.WholeLogExact` | scripts/datagen/generate.py:104-120 | Background and incidents together: the labels are exact about the whole log |
| `Generate.Build` | scripts/datagen/generate.py:72-161 | For every random choice the generated dataset passes its own cross-check; nothing raises if the greatest draws fit the range and windows, and only if the least ones do can it succeed |
| `Behaviours.FindText` | sentinelforge/behaviours.py:136-142 | Every registered id finds its own behaviour |
| `Validation.Accepted` | sentinelforge/validation.py:93-249 | The validator finds no issue exactly for a spec that states one count and one window consistently and in range, or neither for a policy rule |
| `Validation.StatedOnce` | sentinelforge/validation.py:164-167 | A spec states at most one count and one window |
| `Validation.CheckCounts` | sentinelforge/validation.py:157-182 | The loop over the stated counts finds exactly the specified issues in order |
| `Validation.CheckWindows` | sentinelforge/validation.py:221-243 | The loop over the stated windows finds exactly the specified issues and the agreed seconds |
| `Validation.ValidateSpec` | sentinelforge/validation.py:93-249 | Accepts exactly the acceptable specs and hands on exactly the stated count and window |
| `Validation.CompileSpec` | sentinelforge/compile.py:46-76 | Compiles exactly the acceptable specs, into the behaviour's fixed recipe with the stated numbers |
| `Validation.CompiledNumbers` | sentinelforge/compile.py:52-69 | Compilation is a function of the spec, and compiled numbers are in range |
| `DatasetSupport.CheckDataset` | sentinelforge/validation.py:307-335 | Supported if and only if every field the rule reads exists, has the right type and is reliable, with each field's status in order |
| `Reconciler.SortCounts` | sentinelforge/reconcile.py:117-137 | The candidates of the rule sentences fall into seven buckets by the order of tests |
| `Reconciler.Ledger.SelectCount` | sentinelforge/reconcile.py:117-183 | The reasons appended and the candidate returned are the specified ones |
| `Reconciler.Ledger.SelectWindow` | sentinelforge/reconcile.py:186-221 | The reasons appended and the window returned are the specified ones |
| `Reconciler.Ledger.CompareThreshold` | sentinelforge/reconcile.py:320-332 | The proposal's threshold adds exactly the specified reasons, and cannot be reported exactly when it holds no number |
| `Reconciler.Ledger.CompareWindow` | sentinelforge/reconcile.py:334-359 | The proposal's window and span add exactly the specified reasons |
| `Reconciler.ReconcileReport` | sentinelforge/reconcile.py:235-397 | The whole decision, with every reason in order, is the specified one |
| `ReconcileLaws.CountDecided` | sentinelforge/reconcile.py:117-183 | No reason is given about the count if and only if the rule sentences settle one minimum; then the chosen candidate states it |
| `ReconcileLaws.WindowDecided` | sentinelforge/reconcile.py:186-221 | No reason is given about the window if and only if the passage settles one; then the chosen candidate states it |
| `ReconcileLaws.ConsiderAccepts` | sentinelforge/reconcile.py:298-397 | A behaviour under consideration is accepted if and only if the passage is settled and the proposal repeats its numbers |
| `Gate.PassageAccepts` | sentinelforge/reconcile.py:279-397 | The passage alone is accepted if and only if it is settled and its window stands in a rule sentence |
| `Gate.ProposalAccepts` | sentinelforge/reconcile.py:235-397 | A proposal is accepted if and only if it names the one behaviour the passage settles and repeats its numbers |
| `Gate.NonInterference` | sentinelforge/reconcile.py:186-397 | A proposal is accepted if and only if the passage alone reaches the same behaviour with no reason but the place of its window, and the proposal repeats its numbers |
| `Gate.RaisesIff` | sentinelforge/reconcile.py:320-333 | Deciding raises KeyError exactly if the proposal names a windowed behaviour whose minimum the passage states, and its threshold has entries but no number |
| `Gate.RaisesForText` | sentinelforge/reconcile.py:85-97 | Such a proposal: "five or more failed logins" in the passage, and the threshold {minimum: "five"} in the proposal |
| `Gate.SpecUnchanged` | sentinelforge/reconcile.py:391-423 | The spec of an acceptance is the spec of the passage alone |
| `Gate.AcceptedAgree` | sentinelforge/reconcile.py:391-423 | Any two accepted proposals have the same behaviour and spec |
| `Gate.NoSilentWrongRule` | sentinelforge/reconcile.py:117-221 | Every minimum in a rule sentence states exactly the compiled threshold, and every exact marked rule-sentence window (or, without one, every strongly marked duration) comes to the compiled window |
| `Gate.OneRulePerPassage` | sentinelforge/reconcile.py:235-397 | A passage compiles to at most one rule, whatever is proposed |
| `Gate.EvidenceVerifies` | sentinelforge/reconcile.py:404-433 | The numbers of an accepted rule are candidates of the passage, and their quotes, cut from the report at non-empty matches, reproduce it at their offsets |
| `Evidence.QuoteInReport` | sentinelforge/conditions.py:66-72 | A verified quote is the report's text from its offset on, and is empty exactly when the offset lies behind the report's end |
| `Gate.SpecValid` | sentinelforge/reconcile.py:404-423 | The spec of a settled passage passes strict validation if and only if its numbers are in range |
| `Pipeline.Analyze` | sentinelforge/pipeline.py:44-62 | A rule is compiled if and only if the decision accepts, the data supports it and the numbers are in range; the rule is faithful to the passage and its spec is the one the passage alone yields; KeyError exactly for the proposals of `Gate.RaisesIff`; every other outcome is characterised |
| `DatasetSupport.AnalyseRule` | sentinelforge/service/schema_impact.py:45-55 | Affected if and only if some condition is blocked; blocked and evaluable are exactly the conditions with and without a bad field |
| `DatasetSupport.ConditionsCover` | sentinelforge/service/schema_impact.py:17-42 | A rule's conditions mention exactly its dependencies |
| `Refinement.Rebuild` | sentinelforge/service/workflow.py:259-295 | A refinement is rebuilt exactly for a windowed rule and numbers a rule may have, and changes only the overridden numbers |
| `Refinement.RefinementCompiles` | sentinelforge/service/workflow.py:277-294 | A refined spec validates if and only if each new number is allowed |
| `Refinement.RefinementOnly` | sentinelforge/service/workflow.py:277-292 | Refining changes the overridden numbers to the analyst's and nothing else about the rule |
| `Jobs.JobRunner.Submit` | sentinelforge/service/jobs.py:50-65 | A queued job with a one-entry history |
| `Jobs.JobRunner.Transition` | sentinelforge/service/jobs.py:67-75 | The state is appended to the history, unless the job is over or unknown |
| `Jobs.JobRunner.Recover` | sentinelforge/service/jobs.py:38-48 | Every job in flight, and no other, becomes failed, and they are counted |
| `Jobs.TransitionKeepsPaths` | sentinelforge/service/jobs.py:3-8 | A step of the machine keeps every history a path |
| `Jobs.RecoverKeepsPaths` | sentinelforge/service/jobs.py:38-48 | So does a restart, after which every job is over |
| `Jobs.TerminalIsLast` | sentinelforge/service/jobs.py:19-20 | A terminal entry is the last one |
| `RuleStore.Store.constructor` | sentinelforge/service/store.py:23-55 | Empty tables |
| `RuleStore.Store.CreateRuleVersion` | sentinelforge/service/workflow.py:221-234 | The write: find or insert the rule, supersede its drafts, insert the next version |
| `RuleStore.Store.RefineRuleVersion` | sentinelforge/service/workflow.py:296-304 | The write: supersede the refined version if it still can be, insert the next version and the decision |
| `RuleStore.Store.Cas` | sentinelforge/service/store.py:119-125 | The new state only from an allowed one; otherwise nothing changes |
| `RuleStore.Store.Decide` | sentinelforge/service/workflow.py:321-327 | Approve or reject by compare-and-set, with the decision row |
| `RuleStore.Store.SubmitRun` | sentinelforge/service/workflow.py:349-352 | A queued run row |
| `RuleStore.Store.MarkRunning` | sentinelforge/service/workflow.py:362-364 | The run row becomes running |
| `RuleStore.Store.FinishRun` | sentinelforge/service/workflow.py:371-380 | The outcome, and for a completed revalidation of a paused version its resumption |
| `RuleStore.Store.DeriveVersion` | sentinelforge/service/datasets.py:207-212 | A new dataset version becomes current, unless its number is taken |
| `RuleStore.Store.RecordSchemaEvent` | sentinelforge/service/workflow.py:476-508 | The loop pauses, lists and records exactly as specified |
| `Lifecycle.SchemaEventExact` | sentinelforge/service/workflow.py:476-508 | Affected, unaffected and resumable partition the live versions; afterwards every draft or approved version is supported by the new profile; affected are exactly the live ones with a blocked condition, and newly paused versions keep their state and conditions |
| `LifecycleKeeps.CreateKeeps` | sentinelforge/service/workflow.py:214-235 | Creating a version keeps every invariant, from a stale reading of the analysis |
| `LifecycleKeeps.RefineKeeps` | sentinelforge/service/workflow.py:259-305 | So does refining, from stale readings of the version and the analysis |
| `LifecycleKeeps.ApproveKeeps` | sentinelforge/service/workflow.py:307-328 | So does approving, from a stale reading of the run |
| `LifecycleKeeps.RejectKeeps` | sentinelforge/service/workflow.py:307-328 | So does rejecting |
| `LifecycleKeeps.FinishRunKeeps` | sentinelforge/service/workflow.py:371-380 | So does finishing a run, with or without a resumption |
| `LifecycleKeeps.DeriveKeeps` | sentinelforge/service/datasets.py:170-213 | So does deriving a dataset version, also when another caller was faster |
| `LifecycleKeeps.SchemaEventKeeps` | sentinelforge/service/workflow.py:476-508 | So does a schema event |
| `ServiceRuns.StepKeeps` | sentinelforge/service/workflow.py:119-182 | Every step of the service, a call's reading or writing, a worker's move, a crash or a restart, keeps the invariant and only adds to the record |
| `ServiceRuns.EveryState` | sentinelforge/service/workflow.py:214-381 | The invariant holds in every state of every run |
| `ServiceRuns.ApprovalSafety` | sentinelforge/service/workflow.py:307-328 | In every reachable state an approved version, or one paused from approval, has exactly one approval, and every approval names a completed execution run of that version |
| `ServiceRuns.RejectionFinal` | sentinelforge/service/workflow.py:321-327 | A version is retired exactly when it was rejected, once, and afterwards only refinement notes are recorded about it |
| `ServiceRuns.PauseSoundness` | sentinelforge/service/workflow.py:331-381 | A paused version was a draft or approved and has a blocked condition in the dataset version named; resumptions name completed revalidations, one per run; every run ever created is on a dataset version that supports its rule |
| `ServiceRuns.VersionNumbers` | sentinelforge/service/workflow.py:221-234 | A rule's versions are exactly 1..k in order of creation, and there is one rule per report and behaviour |
| `ServiceRuns.VersionRules` | sentinelforge/service/workflow.py:277-303 | Every version's rule is the one its analysis found, up to an analyst's count or window, with numbers in range |
| `ServiceRuns.JobHistories` | sentinelforge/service/jobs.py:3-8 | Every history is a path of its machine, at most one entry is terminal and then it is last, and while the service is up every job in flight has a worker |
| `ServiceRuns.RecoverStep` | sentinelforge/service/jobs.py:38-48 | After a restart no earlier job is in flight |
| `ServiceRuns.DatasetVersions` | sentinelforge/service/datasets.py:170-213 | Dataset versions are numbered 1..current without a gap |
| `ServiceRuns.RecordGrows` | sentinelforge/service/store.py:1-8 | Between any two states of a run nothing is deleted or rewritten: superseded and retired versions and finished runs and jobs stay as they are |
| `Drafts.CreateDrafts` | sentinelforge/service/workflow.py:222-234 | Creating a version leaves exactly one draft of its rule and other rules' drafts as they were |
| `Drafts.RefineDrafts` | sentinelforge/service/workflow.py:293-303 | Refining a version leaves one draft of its rule if and only if no other version of the rule was a draft |
| `Drafts.FinishDrafts` | sentinelforge/service/workflow.py:370-381 | Finishing a run leaves one draft of a rule as before, unless it resumes a paused draft of the rule: then if and only if the rule has no draft |
| `ServiceLimits.TwoDraftsIff` | sentinelforge/service/workflow.py:214-381 | From a reachable state with at most one draft of a rule, a step leaves two if and only if it is a refinement beside another draft or a resumption of a draft beside another |
| `ServiceLimits.MadeForItsData` | sentinelforge/service/workflow.py:120-182 | In every reachable state each version's behaviour is supported by the dataset version its analysis was asked about, if any |
| `ServiceLimits.FitsWhileCurrent` | sentinelforge/service/workflow.py:214-236 | What an analysis found fits the dataset's current version as long as the version it was asked about is still current |
| `ServiceWitnesses.TwoDraftsReachable` | sentinelforge/service/workflow.py:259-305 | A reachable state with two drafts of one rule: two requests for the same refinement read the version before either writes |
| `ServiceWitnesses.StaleDraftReachable` | sentinelforge/service/workflow.py:214-236 | A reachable state with a new draft that the dataset's current version cannot evaluate: the schema event came between the analysis and the creation, and found nothing to pause |
| `ServiceWitnesses.BothReached` | sentinelforge/service/workflow.py:214-305 | Both states are reached for a concrete rule, refinement and pair of profiles |
| `TextSpans.Sentences` | sentinelforge/textutil.py:73-110 | The spans are in order and apart, and every character that is not white space lies in exactly one; they are the trimmed, merged pieces between the breaks |
| `TextSpans.Trim` | sentinelforge/textutil.py:113-118 | The span without the white space at its ends; a blank span becomes the empty span at its end |
| `TextSpans.Merge` | sentinelforge/textutil.py:95-110 | The last span is replaced exactly when the next one continues it |
| `TextSpans.MergedCovers` | sentinelforge/textutil.py:95-110 | Merging loses no character and keeps the spans in order |
| `TextSpans.SentenceOf` | sentinelforge/textutil.py:121-125 | The first span around a position, or an empty one exactly when there is none |
| `TextSpans.TakenGreedy` | sentinelforge/conditions.py:272-302 | The matches taken do not overlap, and every usable match that is not taken overlaps one taken before it |
| `TextSpans.TakeMatches` | sentinelforge/conditions.py:272-302 | The loop takes exactly those matches |

## Left out

* Regular expressions and vocabularies of the condition finder: its candidates are arbitrary values, and which sentences revise something is a parameter.
* Uncertainties, messages and audit fields of a reconciliation: they never influence a decision.
* Proposals whose parts have unhashable or wrongly typed containers, which escape as TypeError, and behaviour ids that are not strings;
  likewise specs whose `semantics` or `unit` is a list or an object, where the model reports an issue.
* Required and policy field lists of a proposal and of a spec beyond being lists of names: they only feed uncertainties.
* Notes of the validator about legacy ids, and its finer issue codes for values that are not numbers (boolean, text, infinite): one code stands for them.
* The hash of a compiled rule and its constant version and processing fields.
* Label notes, incident numbers, window stamps, session ids and source addresses of generated events.
* Order of random draws relative to entity allocation in the builders: the model draws first, so that a failing builder leaves nothing behind.
* Random distributions (Poisson, failure probabilities): any value in range may be drawn.
* Datasets built on an external background directory, partition files, Parquet, numpy and their encodings.
* Reading the stored files back in `generate.build`: the rows come back in an arbitrary order.
* Rows with `windowStart` text: alerts carry the instant, whose printing is `Timestamps.Render`.
* Values of log columns other than strings, booleans and nulls, and timestamps that are not strings; Python's equality of booleans with the
  numbers 0 and 1 where a column mixes the two.
* Events of the second detector without a column the rules read.
* Analysis failures inside the extractor, the prompt-injection guard and engine execution: a worker may fail or finish at any step with any outcome.
* Dataset files, fingerprints, row counts and kinds: a dataset version is an immutable profile.
* The user, note and time of a decision, and input checks that only refuse a request.
* Sigma export, evidence records, the web layer, the Spark engine and the streaming launcher.
- RefEngine.SurvivorsDistinct: stated on sets; the order of the surviving rows is not modelled, because grouping and sorting do not depend on it.
- TextSpans.TakenGreedy: takes the matches of all forms as one list in the order of the forms, and the filters' verdict as given.
- Agreement.PolicyReportsAgree: accounts, triggers and statuses are compared, not the reasons and versions that only the engine reports.
