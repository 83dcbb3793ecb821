# Prosimos log pre-processing and parameter parsing, in Dafny

Prosimos is a business process simulator. Before a simulation, two kinds of code turn what
the simulator is given into its parameters:

- the discovery side (`bpdfr_discovery/log_parser.py`) reads event logs and writes the
  simulator's JSON parameter document;
- the configuration side (`bpdfr_simulation_engine/simulation_properties_parser.py`) reads
  a QBP (BIMP) model or a JSON document.

This project models the self-contained, deterministic parts of those two files and proves
what they promise. The model is made of these modules:

- `Wrappers`: Option, Result and the Python exceptions the code lets escape (`KeyError`,
  `IndexError`, `ZeroDivisionError`).
- `OrderedDict`: a Python dict as a sequence of key/value pairs in insertion order.
  Assigning to a present key keeps its position; a new key goes last. Much of the code
  turns that order into the order of the lists it writes.
- `Text`: ASCII case mapping, `split`, substring search, and decimal formatting of naturals.
- `Records`: `TaskEvent`, `Trace`, a calendar window (`TimePeriod`) and a `Distribution`.
- `LogIntervals`: `_max_disjoint_intervals`, the greedy earliest-completion pass.
  - It sorts the caller's array in place, stably, by completion time.
  - It repeatedly extracts a chain of non-overlapping intervals and re-runs on what it
    discarded.
- `LogEvents`:
  - `fix_enablement_from_incorrect_models`, which repairs one entry of an array in place;
  - the start/complete pairing of `event_list_from_xes_log`;
  - the header detection and first-appearance grouping of `event_list_from_csv`.
- `LogExport`:
  - `map_task_id_from_names`;
  - `_create_resource_profile_entry`;
  - the in-memory restructuring done by `save_prosimos_json`.
- `SimulationProperties`: `format_date`, `extract_dist_params`,
  `parse_simulation_parameters` and `parse_calendar_from_json`.
- `QbpProcess`: steps 2 to 5 of `parse_qbp_simulation_process`:
  - reading the timetables and choosing the arrival calendar;
  - the arrival distribution;
  - expanding each resource pool into single resources;
  - the task-to-resource duration distributions.

The loops of the source stay loops: methods with invariants, proved against specification
functions. Where the source calls something with a side effect or outside these two files,
the model takes it as a parameter or as an already-read record:

- event timestamps are converted by a function parameter `toInstant`;
- the XML elements and the JSON input are records;
- instants are integers.

The two calendar suffixes differ in the code itself:

- `parse_calendar_from_json` names a calendar `r + "_timetable"`;
- `save_prosimos_json` names it `r + "timetable"`, with no underscore.

The model follows each function as written.

## Model

| member | source | states |
|---|---|---|
| LogIntervals.SortByCompletion | bpdfr_discovery/log_parser.py:486 | the array ends as `StableSort` of what it held: sorted by completion time, a permutation, with tied intervals in their input order |
| LogIntervals.StableSortSorts | bpdfr_discovery/log_parser.py:486 | `StableSort` sorts by completion time and keeps every interval (a permutation) |
| LogIntervals.StableSortKeepsTies | bpdfr_discovery/log_parser.py:486 | stability, as Python's `list.sort` guarantees: for every completion time, the intervals that end at it come out in their input order |
| LogIntervals.InsertLast | bpdfr_discovery/log_parser.py:486 | moving element `i` left past the strictly later completions puts `a[..i+1]` at `Insert(a[..i], a[i])` and leaves the rest of the array as it was |
| LogIntervals.InsertSorted | bpdfr_discovery/log_parser.py:486 | inserting into a list sorted by completion keeps it sorted |
| LogIntervals.InsertKeepsTies | bpdfr_discovery/log_parser.py:486 | an inserted interval goes after every interval that ties with it |
| LogIntervals.GreedyPass | bpdfr_discovery/log_parser.py:489-498 | the loop's kept and discarded lists are those of the specification `Pass` |
| LogIntervals.PassSplits | bpdfr_discovery/log_parser.py:489-498 | one pass splits its input: kept and discarded together are the input, as a multiset |
| LogIntervals.PassFromChain | bpdfr_discovery/log_parser.py:493-496 | the intervals a pass keeps form a chain, each starting at or after the completion of the one before it |
| LogIntervals.PassProperties | bpdfr_discovery/log_parser.py:486-498 | on sorted input, the kept list is a chain, and both the kept and the discarded list stay sorted by completion |
| LogIntervals.MaxDisjointIntervals | bpdfr_discovery/log_parser.py:483-504 | a one-element input comes back as `[input]`, untouched; otherwise the array is sorted in place (a permutation), and the groups are the rounds `MaxDisjoint` of the sorted list; in both cases the array ends as `StableSort` of the input and the groups are `MaxDisjoint(StableSort(input))`, so completion-time ties are settled by input order, as in the source |
| LogIntervals.GroupsAreChains | bpdfr_discovery/log_parser.py:486-500 | every returned group has at least two members, is a chain, and is sorted by completion |
| LogIntervals.GroupsPartition | bpdfr_discovery/log_parser.py:486-503 | the groups and the dropped intervals together are exactly the input as a multiset, so groups are disjoint and come from the input |
| LogIntervals.DroppedCannotChain | bpdfr_discovery/log_parser.py:499-503 | when all durations are positive, no two dropped intervals could follow one another, so stopping on a singleton loses no chain |
| LogIntervals.ZeroLengthTieDropsPair | bpdfr_discovery/log_parser.py:499-503 | with a zero-length interval tied on completion, a pair that does chain is dropped and no group is returned |
| LogIntervals.OverlappingPairDropped | bpdfr_discovery/log_parser.py:499-503 | two overlapping intervals give no group at all: both are dropped |
| LogEvents.FixEnablement | bpdfr_discovery/log_parser.py:386-395 | returns true iff an earlier event completed at the original enablement time; on true only entry `from_i` changes, to `trace[from_i].started_at`; on false nothing changes |
| LogEvents.FirstEventNeverFixed | bpdfr_discovery/log_parser.py:389-390 | `from_i == 0` never finds an earlier event |
| LogEvents.PairTrace | bpdfr_discovery/log_parser.py:30-40 | the loop with its `started_events` map produces exactly the specification pairing `PairedUpTo` of the trace |
| LogEvents.OpenStartStep | bpdfr_discovery/log_parser.py:33-39 | a start or assign opens (overwrites) the start of its task, a complete closes it, and any other event or task keeps its open start |
| LogEvents.EventListFromXesLog | bpdfr_discovery/log_parser.py:24-41 | the completed events of all traces, in order, are the specification pairing of each trace |
| LogEvents.OpenStartIsLatest | bpdfr_discovery/log_parser.py:33-36 | an open start is the latest start of its task: no later start or complete of that task follows it |
| LogEvents.LatestStartIsOpen | bpdfr_discovery/log_parser.py:33-36 | conversely, a start with no later start or complete of its task is the open one |
| LogEvents.PairedSound | bpdfr_discovery/log_parser.py:37-40 | every completed event is a start paired with a later complete of the same task, with the start still open when the complete arrives |
| LogEvents.Offset | bpdfr_discovery/log_parser.py:89-90 | the column offset is 1 or 2 |
| LogEvents.RowEventsAt | bpdfr_discovery/log_parser.py:79-84 | data row `k` (the header excluded) becomes event `k - 1`, read at the offset the header selects |
| LogEvents.ReadRow | bpdfr_discovery/log_parser.py:80-84 | a row becomes its event: case, task, and resource at `offset + 3`; enabled at column 2 only when the header names it; started and completed at `offset + 1` and `offset + 2` |
| LogEvents.GroupRows | bpdfr_discovery/log_parser.py:76-91 | succeeds iff every data row is long enough, else `IndexError`; the result is `TracesOf` the row events |
| LogEvents.EventListFromCsv | bpdfr_discovery/log_parser.py:70-95 | an empty file gives no traces; otherwise success iff the header and every row are long enough (`IndexError` otherwise), with the traces being `TracesOf` the data rows' events |
| LogEvents.AddToTrace | bpdfr_discovery/log_parser.py:85-88 | filing one event keeps `trace_list` equal to `TracesOf` the events so far, with `trace_map` indexing each case's trace |
| LogEvents.GroupedStep | bpdfr_discovery/log_parser.py:85-88 | the new-case and known-case updates of `trace_map`/`trace_list` preserve the grouping invariant |
| LogEvents.TracesOf | bpdfr_discovery/log_parser.py:85-88 | one trace per distinct case id, in first-appearance order, each holding that case's events |
| LogEvents.TracesOfNewCase | bpdfr_discovery/log_parser.py:85-88 | an event of a case not seen yet appends a trace holding just that event |
| LogEvents.TracesOfKnownCase | bpdfr_discovery/log_parser.py:88 | an event of a known case is appended to that case's trace and changes no other trace |
| LogEvents.EventsOfMembers | bpdfr_discovery/log_parser.py:88 | a trace holds an event iff the event is in the log and belongs to that case |
| LogEvents.TracesInFirstAppearanceOrder | bpdfr_discovery/log_parser.py:85-88 | traces appear in the order in which their case ids first appear in the file |
| LogExport.MapTaskIdFromNames | bpdfr_discovery/log_parser.py:379-383 | `KeyError` for the first name `from_name` does not know, iff there is one; otherwise the keys are the renamed keys, without duplicates, in first-seen order, and each key holds the value of the last entry renamed to it |
| LogExport.InjectiveRenaming | bpdfr_discovery/log_parser.py:379-383 | with an injective `from_name`, the keys are exactly the renamed input keys, and each carries its own entry's value |
| LogExport.CreatedMemberWritten | bpdfr_discovery/log_parser.py:456 | a pool member made as `_create_resource_profile_entry(r, r)` (CreateResourceProfileEntry, lines 507-513, with amount and cost per hour defaulting to 1) is written with id and name `r`, amount 1, cost 1, calendar `r + "timetable"`, and exactly the tasks whose distribution map mentions `r` (the written form of lines 325-331) |
| LogExport.CalendarIdOf | bpdfr_discovery/log_parser.py:290 | a calendar id is the resource id followed by `timetable` |
| LogExport.CalendarIdInjective | bpdfr_discovery/log_parser.py:290 | distinct resources get distinct calendar ids |
| LogExport.BuildResourceCalendars | bpdfr_discovery/log_parser.py:287-293 | one calendar per resource, in order, with id and name `r + "timetable"`; reading the list back gives the input dictionary |
| LogExport.WrapParams | bpdfr_discovery/log_parser.py:305-309 | each parameter is wrapped in a `{"value": p}` record, in order; unwrapping gives the parameters back |
| LogExport.UnwrappedInjective | bpdfr_discovery/log_parser.py:305-309 | the wrapping loses nothing: equal unwrapped lists come from equal record lists |
| LogExport.ReadTask | bpdfr_discovery/log_parser.py:298-314 | one task's resource records read back to its distribution map, and `assigned_tasks` is updated for the task's pairs |
| LogExport.BuildTaskDistributions | bpdfr_discovery/log_parser.py:295-318 | reading the written distributions back gives the input, and `assigned_tasks[r]` is the list of `r`'s tasks, deduplicated, in first-seen order, present only for resources that occur |
| LogExport.TasksOfMembers | bpdfr_discovery/log_parser.py:301-304 | a task is collected for `r` iff it was visited paired with `r` |
| LogExport.AllPairsMembers | bpdfr_discovery/log_parser.py:297-304 | the loop visits the pair (t, r) iff task `t`'s distribution map mentions `r` |
| LogExport.AssignedTasksExactly | bpdfr_discovery/log_parser.py:301-304 | `assigned_tasks[r]` contains exactly the tasks whose distribution map mentions `r` |
| LogExport.AssignedTasksPresent | bpdfr_discovery/log_parser.py:301-302 | `assigned_tasks` has an entry for `r` iff some task's map mentions `r` |
| LogExport.AssignedIffMentioned | bpdfr_discovery/log_parser.py:301-302 | for the map the loop builds, `r` is a key iff some task mentions `r` |
| LogExport.ResourceJsonOf | bpdfr_discovery/log_parser.py:325-332 | a written member keeps its fields, gets calendar `id + "timetable"`, and lists its assigned tasks |
| LogExport.BuildResourceList | bpdfr_discovery/log_parser.py:323-332 | `KeyError` for the first member without assigned tasks, iff there is one; otherwise one record per member, in order |
| LogExport.BuildResourceProfiles | bpdfr_discovery/log_parser.py:320-335 | `KeyError` for the first member (in pool order) without assigned tasks, iff there is one; otherwise one profile per pool, in order, with its id, name and written members |
| LogExport.BuildProbabilities | bpdfr_discovery/log_parser.py:339-345 | one `{path_id, value}` per arc, in order; reading them back gives the gateway's probability map |
| LogExport.BuildGatewayBranching | bpdfr_discovery/log_parser.py:337-349 | one record per gateway, in order; reading them back gives the branching dictionary |
| LogExport.SaveProsimosJson | bpdfr_discovery/log_parser.py:286-359 | `KeyError` iff some pool member is mentioned by no task, and then for the first such member; otherwise the document holds the input in the source's layout: calendars with id and name `r + "timetable"` reading back to the input, distributions and branching reading back to the input, the arrival name and wrapped parameters, the arrival calendar as given, and each pool with its id, name and written members |
| LogExport.CalendarsConsistent | bpdfr_discovery/log_parser.py:288-293 | a member whose id has a calendar is written with a calendar id equal to that calendar's written id |
| SimulationProperties.FormatDate | bpdfr_simulation_engine/simulation_properties_parser.py:229-233 | the result is a prefix of the input, so never longer |
| SimulationProperties.UtcSuffixOfSplit | bpdfr_simulation_engine/simulation_properties_parser.py:230-231 | splitting on `+` into exactly two parts, the second `00:00`, means the string ends in its only `+` followed by `00:00` |
| SimulationProperties.FormatDateStripsUtcSuffix | bpdfr_simulation_engine/simulation_properties_parser.py:229-233 | the part before `+` is returned exactly when the string's only `+` is followed by `00:00` and nothing else; otherwise the string comes back unchanged |
| SimulationProperties.FormatDateIdempotent | bpdfr_simulation_engine/simulation_properties_parser.py:229-233 | applying `format_date` twice gives what applying it once gives |
| SimulationProperties.ExtractDistParams | bpdfr_simulation_engine/simulation_properties_parser.py:194-226 | `ZeroDivisionError` iff the type is GAMMA with a zero mean or variance; otherwise a distribution exactly for the six known types, `None` for any other |
| SimulationProperties.ExtractDistParamsIgnoresCase | bpdfr_simulation_engine/simulation_properties_parser.py:201 | the type is matched without regard to letter case |
| SimulationProperties.ExtractDistParamsMapping | bpdfr_simulation_engine/simulation_properties_parser.py:202-226 | depending on the type: EXPONENTIAL gives `expon [0, arg1]`; NORMAL gives `norm [mean, arg1]`; FIXED gives `fix [mean, 0, 1]`; TRIANGULAR gives `triang [mean, arg1, arg2 - arg1]`; GAMMA gives `gamma [mean²/var, 0, var/mean]`; unknown types give `None` |
| SimulationProperties.GammaParamsMoments | bpdfr_simulation_engine/simulation_properties_parser.py:218-221 | the GAMMA parameters reproduce the given mean (`a·scale`) and variance (`a·scale²`) |
| SimulationProperties.UniformScaleAlwaysZero | bpdfr_simulation_engine/simulation_properties_parser.py:214-217 | as written, UNIFORM always gets `[arg1, 0]` |
| SimulationProperties.UniformCounterexample | bpdfr_simulation_engine/simulation_properties_parser.py:214-217 | a uniform distribution with bounds 0 and 10 comes out with upper bound 0 |
| SimulationProperties.ExtractDistParamsIntended | bpdfr_simulation_engine/simulation_properties_parser.py:214-217 | UNIFORM gives `[arg1, arg2 - arg1]`, so location + scale is `arg2`; every other type is mapped as written |
| SimulationProperties.IntendedFailsAlike | bpdfr_simulation_engine/simulation_properties_parser.py:194-226 | the correction raises on the same inputs and returns `None` on the same inputs as the code as written; the two differ only for UNIFORM |
| SimulationProperties.GatewayChoice | bpdfr_simulation_engine/simulation_properties_parser.py:67-71 | the arc list and the probability list have the gateway's length and are paired position by position in iteration order |
| SimulationProperties.ParseSimulationParameters | bpdfr_simulation_engine/simulation_properties_parser.py:61-74 | the keys are `arrivalTime` and then the gateways, in order; `arrivalTime` holds the arrival record unless a gateway carries that name; each gateway holds the choice of its arcs and probabilities |
| SimulationProperties.TimetableId | bpdfr_simulation_engine/simulation_properties_parser.py:51 | the calendar id extends the resource id, by the 10 characters of `_timetable` |
| SimulationProperties.TimetableIdInjective | bpdfr_simulation_engine/simulation_properties_parser.py:51 | distinct resources get distinct calendar ids |
| SimulationProperties.AddCalendarItem | bpdfr_simulation_engine/simulation_properties_parser.py:55 | adding an item keeps the calendar id and appends the window |
| SimulationProperties.BuildCalendar | bpdfr_simulation_engine/simulation_properties_parser.py:53-55 | the calendar has the given id and holds the resource's windows in order |
| SimulationProperties.FreshTimetableId | bpdfr_simulation_engine/simulation_properties_parser.py:51-57 | the calendar id of a resource not seen yet is not among the calendars built so far |
| SimulationProperties.ParseCalendarFromJson | bpdfr_simulation_engine/simulation_properties_parser.py:47-58 | one profile per resource `r`, in order, with calendar id `r_timetable` and cost 1.0; one calendar per resource filed under that same id, holding its windows; each profile's calendar id finds its calendar |
| QbpProcess.MarkedMembers | bpdfr_simulation_engine/simulation_properties_parser.py:136 | the ids that contain a marker are exactly the timetable ids that contain it |
| QbpProcess.ArrivalChoiceStep | bpdfr_simulation_engine/simulation_properties_parser.py:136-137 | the loop's update rule computes the declarative choice (the last ARRIVAL_CALENDAR id, else the first DEFAULT_TIMETABLE id), one id at a time |
| QbpProcess.DefaultNeverOverridesArrival | bpdfr_simulation_engine/simulation_properties_parser.py:136-137 | once any id contains `ARRIVAL_CALENDAR`, the chosen id contains it too, so a `DEFAULT_TIMETABLE` never overrides it |
| QbpProcess.ArrivalChoiceIsAnId | bpdfr_simulation_engine/simulation_properties_parser.py:128-137 | a choice is one of the timetable ids; there is none iff no id contains either marker |
| QbpProcess.AppendPeriods | bpdfr_simulation_engine/simulation_properties_parser.py:138-142 | each rule is appended as a period with both times passed through `format_date`, in order |
| QbpProcess.ParseTimetables | bpdfr_simulation_engine/simulation_properties_parser.py:130-142 | one calendar per distinct timetable id, in first-seen order, holding the periods of all timetables with that id; the arrival id is the declarative choice |
| QbpProcess.DistinctTimetablePeriods | bpdfr_simulation_engine/simulation_properties_parser.py:132-142 | with distinct ids, a calendar holds exactly its own timetable's periods |
| QbpProcess.ArrivalCalendar | bpdfr_simulation_engine/simulation_properties_parser.py:185 | the lookup fails iff no id was chosen or the chosen id has no calendar; otherwise it gives that calendar |
| QbpProcess.ArrivalCalendarFound | bpdfr_simulation_engine/simulation_properties_parser.py:136-137 | the arrival calendar lookup fails exactly when no timetable id contains either marker |
| QbpProcess.ExpandedId | bpdfr_simulation_engine/simulation_properties_parser.py:158 | the `i`-th resource id is `base + "_" + decimal(i)` |
| QbpProcess.ExpandedIdInjective | bpdfr_simulation_engine/simulation_properties_parser.py:158 | distinct (pool, index) pairs give distinct resource ids |
| QbpProcess.ExpandedEntriesShape | bpdfr_simulation_engine/simulation_properties_parser.py:157-164 | a pool of total amount n (0 when not positive) gives n entries `pool_1` to `pool_n`, in order, named `name_i`, with amount 1 and the pool's cost |
| QbpProcess.ExpandedIdsDistinct | bpdfr_simulation_engine/simulation_properties_parser.py:157-158 | the resources of one pool have distinct ids |
| QbpProcess.ExpandedIdsDisjoint | bpdfr_simulation_engine/simulation_properties_parser.py:158 | pools with distinct ids expand to disjoint resource ids |
| QbpProcess.ExpandPool | bpdfr_simulation_engine/simulation_properties_parser.py:154-166 | `KeyError` for its timetable iff a non-empty pool names a missing one; otherwise the pool's entries and ids, with every one of its resources bound to the pool's periods, every other id unchanged, and the ids new to the calendars dictionary added at its end in binding order |
| QbpProcess.ExpandPools | bpdfr_simulation_engine/simulation_properties_parser.py:153-166 | `KeyError` iff some non-empty pool names a missing timetable, and then for the first; otherwise the profiles and pools are keyed by the distinct pool ids, the last pool of each id is recorded, `resource_pools` is `ResourcePools` of the pools; `resource_calendars` is keyed by every expanded resource id once, in first-binding order, each holding the periods of the timetable of the last pool that binds it (ids left over from an earlier pool with a repeated id keep that pool's periods) |
| QbpProcess.ResourcePools | bpdfr_simulation_engine/simulation_properties_parser.py:153-158 | the `resource_pools` dictionary of a pool list is keyed by the distinct pool ids in first-seen order |
| QbpProcess.ResourcePoolsLast | bpdfr_simulation_engine/simulation_properties_parser.py:153-158 | in it, the id of a pool not given again holds that pool's expanded resource ids |
| QbpProcess.LastOfIdBinds | bpdfr_simulation_engine/simulation_properties_parser.py:153-166 | a pool whose id is not given again is the last to bind each of its resources to a calendar |
| OrderedDict.DedupAppend | bpdfr_simulation_engine/simulation_properties_parser.py:156-166 | deduplicating before appending more ids and deduplicating again is deduplicating once, so the calendar keys of successive pools are the deduplicated concatenation of their ids |
| QbpProcess.AssignmentOfCases | bpdfr_simulation_engine/simulation_properties_parser.py:170-177 | one element's duration goes through `extract_dist_params` as written (so UNIFORM gets `[arg1, 0]`); the element fails first on that and then on an unknown pool (`KeyError`); otherwise it asks for its pool's resources with that distribution |
| QbpProcess.PlanValues | bpdfr_simulation_engine/simulation_properties_parser.py:169-178 | a successful reading holds one assignment per element, in order |
| QbpProcess.PlanSucceeds | bpdfr_simulation_engine/simulation_properties_parser.py:169-178 | reading all elements succeeds iff every element succeeds |
| QbpProcess.PlanFirstFailure | bpdfr_simulation_engine/simulation_properties_parser.py:169-178 | a failed reading raises the error of the first element that fails |
| QbpProcess.PlanPrefixFailure | bpdfr_simulation_engine/simulation_properties_parser.py:169-178 | once reading has failed, later elements change nothing |
| QbpProcess.PlanSucceedsOnPools | bpdfr_simulation_engine/simulation_properties_parser.py:170-177 | over the expanded pools, reading succeeds iff every duration is computable and every element names an existing pool |
| QbpProcess.LastElementDistribution | bpdfr_simulation_engine/simulation_properties_parser.py:169-178 | every resource of the pool named by a task's last element holds that element's as-written distribution |
| QbpProcess.PoolSharesDistribution | bpdfr_simulation_engine/simulation_properties_parser.py:174-178 | every resource expanded from the pool named by a task's last element gets that element's distribution |
| QbpProcess.LastAssignedNone | bpdfr_simulation_engine/simulation_properties_parser.py:175-178 | a (task, resource) pair has no distribution iff no element of the task names a pool containing the resource |
| QbpProcess.AssignResources | bpdfr_simulation_engine/simulation_properties_parser.py:177-178 | every resource of the pool maps to the distribution, and every other key keeps its value |
| QbpProcess.AssignToPool | bpdfr_simulation_engine/simulation_properties_parser.py:175-178 | the task's entry is created if missing, and its pool's resources get the distribution, with nothing else changed |
| QbpProcess.AssignElement | bpdfr_simulation_engine/simulation_properties_parser.py:170-178 | one element fails iff its as-written assignment does, with the same error; otherwise that assignment is applied |
| QbpProcess.AssignTaskDistributions | bpdfr_simulation_engine/simulation_properties_parser.py:168-178 | fails iff reading the elements fails, with the first error; otherwise keyed by the distinct element ids in first-seen order, each (task, resource) holding the as-written distribution of the last element of that task whose pool contains the resource |
| QbpProcess.PoolCalendarsRead | bpdfr_simulation_engine/simulation_properties_parser.py:153-166 | once every non-empty pool's timetable exists, each resource id is bound to the periods collected for the timetable of the last pool that binds it |
| QbpProcess.QbpReadableSteps | bpdfr_simulation_engine/simulation_properties_parser.py:124-189 | the success condition of the whole parse splits into the conditions of its steps in order: arrival distribution, every pool's timetable, every element read over the pools, arrival calendar |
| QbpProcess.TaskDistributionsRead | bpdfr_simulation_engine/simulation_properties_parser.py:169-178 | once the element loop succeeds, every resource of the pool named by a task's last element holds that element's distribution in the dictionary it builds |
| QbpProcess.ParseQbpSimulationProcess | bpdfr_simulation_engine/simulation_properties_parser.py:124-189 | both distributions go through `extract_dist_params` as written; succeeds iff the arrival distribution is computable, every non-empty pool's timetable and every element's pool exist, every duration is computable and some timetable carries a marker; then: the arrival distribution is that of the arrival element; the arrival calendar is the chosen timetable's periods; profiles and distributions are keyed by the distinct pool and element ids; the last pool of each id is written with entries `pool_1..pool_n`; the resource calendars are keyed by every expanded resource id once, in first-binding order, each bound to the periods of the timetable of the last pool that binds it; reading the elements over `ResourcePools` of the pools succeeds, and each (task, resource) pair holds the distribution of the last element of that task whose pool contains the resource, and nothing for a pair no such element reaches; in particular every resource of the pool named by a task's last element holds that element's distribution |
| Text.UpperIdempotent | bpdfr_simulation_engine/simulation_properties_parser.py:201 | upper-casing twice is upper-casing once |
| Text.LowerIdempotent | bpdfr_discovery/log_parser.py:32 | lower-casing twice is lower-casing once |
| Text.Split | bpdfr_simulation_engine/simulation_properties_parser.py:230 | `split` gives at least one piece, no piece holds the separator, and joining the pieces with it gives the string back |
| Text.SplitOnce | bpdfr_simulation_engine/simulation_properties_parser.py:230 | a string with one separator splits into the two parts around it |
| Text.NatToStringRoundTrip | bpdfr_simulation_engine/simulation_properties_parser.py:158 | `%d` formatting of a natural reads back to the same number |
| Text.NatToStringInjective | bpdfr_simulation_engine/simulation_properties_parser.py:158 | distinct indices give distinct decimal strings |
| OrderedDict.PutGet | bpdfr_discovery/log_parser.py:382 | after `d[k] = v`, `k` holds `v` and every other key keeps its value |
| OrderedDict.Put | bpdfr_discovery/log_parser.py:382 | a present key keeps its position and a new key goes last; keys stay distinct |
| OrderedDict.DedupFirstAppearance | bpdfr_discovery/log_parser.py:85-87 | deduplication keeps the order of first appearance |

## Left out

- These files are not part of this model: `bpdfr_simulation_engine/execution_info.py`,
  `batching_processing.py`, `control_flow_manager.py` and `resource_calendar.py`.
  - `TaskEvent` and `Trace` keep only the fields the modelled code touches.
  - `Trace.start_event` and `Trace.complete_event` are taken to build the event from the
    start's case, task, resource and time and the complete's time.
  - An `RCalendar` is the list of its windows. `compute_cumulative_durations` and the
    working-time tables are not modelled.
- File and format I/O is not modelled: `ET.parse`, the pm4py XES import, the CSV reader,
  `open`, and `json.dump`.
  - The inputs are already-read records and sequences.
  - An unreadable CSV file (`IOError`) is not modelled.
- EventListFromXesLog: every event is taken to carry `concept:name`, `lifecycle:transition`
  and `time:timestamp`, and every start or assign event `org:resource`. The source raises
  `KeyError` when one is missing (bpdfr_discovery/log_parser.py:31-36); the model has no such
  error path.
- `pd.to_datetime` is a function parameter from text to an integer instant. Time zones are
  not modelled.
- Floats are reals. `float(...)` conversion of XML attributes happens before the model.
- Case mapping (`upper`, `lower`) covers ASCII letters only.
- Step 1 of `parse_qbp_simulation_process`, the gateway branching probabilities, is not
  modelled. The gateways do not influence steps 2 to 5.
- The QBP model calls `extract_dist_params` as written, so UNIFORM durations and arrivals get
  scale 0, as the source does. The corrected ExtractDistParamsIntended fails on the same inputs
  (IntendedFailsAlike), so every success and failure statement of the QBP model holds
  unchanged with it.
- ParseQbpSimulationProcess: each element uses the first of its `resourceId`s, as the source
  does; the model receives that id directly.
- ParseQbpSimulationProcess: does not state which error comes first when several occur. The
  failing cases of each step are stated by ExpandPools, AssignTaskDistributions and
  ArrivalCalendar.
- ParseQbpSimulationProcess: a missing arrival calendar raises a `KeyError` with the key
  `"None"`, standing for Python's `None`.
- BuildTaskDistributions: the order of the resource keys inside each task is not stated
  beyond the round trip of the distribution maps.
- ParseQbpSimulationProcess: the order of the resource keys inside each task of
  `task_resource_distribution` is not stated; their set and values are. The same holds for
  AssignTaskDistributions.
- MaxDisjointIntervals: requires a non-empty input. The source fails on `interval_list[0]`
  for an empty list, and its only caller guards with `len(unfit_resource_events) > 0`
  (bpdfr_discovery/log_parser.py:427).
- FixEnablement: requires `from_i` to index both the trace and the enablement list. The
  source would raise `IndexError` otherwise; its caller reads both at that position
  before calling (bpdfr_discovery/log_parser.py:109-113).
- The following are not modelled:
  - the `discover_*` functions, distribution fitting and calendar discovery;
  - `preprocess_xes_log`, `transform_xes_to_csv` and `compute_kpi_times_from_csv_log`;
  - the print and report helpers.

  They are statistics and glue around collaborators this model does not include.
- `parse_json_sim_parameters` and `parse_simulation_model` (reading the BPMN graph) are not
  modelled. The first mostly delegates to the modelled loaders; the second is XML reading
  into a graph class that is not part of this model.

## Findings

| source | as written | input that shows it | evidently intended | confidence | as-written member | corrected member |
|---|---|---|---|---|---|---|
| bpdfr_simulation_engine/simulation_properties_parser.py:214-217 | UNIFORM's scale is `arg2 - arg2`, always 0 | a UNIFORM distribution with arg1 = 0 and arg2 = 10 gives `[0, 0]`, a point at 0 | scale `arg2 - arg1` (`to - from`, as the comment on line 215 says), giving `[0, 10]` | not executed | SimulationProperties.UniformCounterexample | SimulationProperties.ExtractDistParamsIntended |
