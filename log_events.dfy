/** The event-collecting parts of bpdfr_discovery/log_parser.py: the repair of a wrong
    enablement time (`fix_enablement_from_incorrect_models`), the pairing of `start` and
    `complete` lifecycle events of an XES log (`event_list_from_xes_log`), and the grouping of the rows of a CSV log into traces
    (`event_list_from_csv`). Reading the files and parsing timestamps are not modelled: a log
    arrives as records or as rows of fields, and `toInstant` stands for `pd.to_datetime`. */
module LogEvents {
  import opened Wrappers
  import opened OrderedDict
  import opened Text
  import opened Records

  // ---------------------------------------------------------------------------------------
  // fix_enablement_from_incorrect_models

  /** Some event before position `fromI` completed at `enabledAt`. */
  predicate CompletedEarlierAt(trace: seq<TaskEvent>, fromI: int, enabledAt: int)
    requires fromI <= |trace|
  {
    exists j :: 0 <= j < fromI && trace[j].completedAt == enabledAt
  }

  /** `fix_enablement_from_incorrect_models(from_i, task_enablement, trace)`: when an earlier
      event of the trace completed exactly at the recorded enablement of event `from_i`, that
      enablement is replaced by the event's start. The caller iterates `from_i` over the
      indices of `trace` and `task_enablement`, which have the same length. */
  method FixEnablement(fromI: int, taskEnablement: array<int>, trace: seq<TaskEvent>) returns (fixed: bool)
    requires 0 <= fromI < |trace| && fromI < taskEnablement.Length
    modifies taskEnablement
    ensures fixed <==> CompletedEarlierAt(trace, fromI, old(taskEnablement[fromI]))
    ensures fixed ==> taskEnablement[..] == old(taskEnablement[..])[fromI := trace[fromI].startedAt]
    ensures !fixed ==> taskEnablement[..] == old(taskEnablement[..])
  {
    var startedAt := trace[fromI].startedAt;
    var enabledAt := taskEnablement[fromI];
    var i := fromI;
    while i > 0
      invariant 0 <= i <= fromI
      invariant forall j :: i <= j < fromI ==> trace[j].completedAt != enabledAt
      invariant taskEnablement[..] == old(taskEnablement[..])
    {
      i := i - 1;
      if enabledAt == trace[i].completedAt {
        taskEnablement[fromI] := startedAt;
        return true;
      }
    }
    return false;
  }

  /** The first event can never be repaired: nothing precedes it. */
  lemma FirstEventNeverFixed(trace: seq<TaskEvent>, enabledAt: int)
    ensures !CompletedEarlierAt(trace, 0, enabledAt)
  {
  }

  // ---------------------------------------------------------------------------------------
  // Pairing start and complete events (event_list_from_xes_log)

  /** One XES event: `concept:name`, `lifecycle:transition`, `time:timestamp`, `org:resource`. */
  datatype XesEvent = XesEvent(taskName: string, transition: string, timestamp: int, resource: string)

  datatype XesTrace = XesTrace(caseId: string, events: seq<XesEvent>)

  predicate IsStart(e: XesEvent) {
    Lower(e.transition) == "start" || Lower(e.transition) == "assign"
  }

  predicate IsComplete(e: XesEvent) {
    Lower(e.transition) == "complete"
  }

  /** The start of task `name` still open after the first `n` events: the position of the
      last start or complete of `name` among them, when that event is a start. */
  function OpenStart(es: seq<XesEvent>, n: int, name: string): (r: Option<nat>)
    requires 0 <= n <= |es|
    ensures r.Some? ==> r.value < n && es[r.value].taskName == name && IsStart(es[r.value])
  {
    if n == 0 then None
    else if es[n - 1].taskName == name && IsStart(es[n - 1]) then Some(n - 1)
    else if es[n - 1].taskName == name && IsComplete(es[n - 1]) then None
    else OpenStart(es, n - 1, name)
  }

  /** The completed event made from the start at `s` and the complete at `c`. */
  function Completed(caseId: string, es: seq<XesEvent>, s: int, c: int): TaskEvent
    requires 0 <= s < |es| && 0 <= c < |es|
  {
    TaskEvent(caseId, es[s].taskName, es[s].resource, None, es[s].timestamp, es[c].timestamp)
  }

  /** The completed events the first `n` events of a trace give: one per complete event whose
      task has an open start, in the order of the complete events. */
  function PairedUpTo(caseId: string, es: seq<XesEvent>, n: int): seq<TaskEvent>
    requires 0 <= n <= |es|
  {
    if n == 0 then []
    else
      var c := n - 1;
      var s := OpenStart(es, c, es[c].taskName);
      PairedUpTo(caseId, es, c) + (if IsComplete(es[c]) && s.Some? then [Completed(caseId, es, s.value, c)] else [])
  }

  /** The completed events of every trace of a log, trace after trace. */
  function PairedLog(log: seq<XesTrace>): seq<TaskEvent> {
    if log == [] then []
    else
      var t := log[|log| - 1];
      PairedLog(log[..|log| - 1]) + PairedUpTo(t.caseId, t.events, |t.events|)
  }

  /** The loop over the events of one trace, with `started_events` as a map from task name
      to the open start event. */
  method PairTrace(caseId: string, es: seq<XesEvent>) returns (completed: seq<TaskEvent>)
    ensures completed == PairedUpTo(caseId, es, |es|)
  {
    completed := [];
    var startedEvents: map<string, XesEvent> := map[];
    for k := 0 to |es|
      invariant completed == PairedUpTo(caseId, es, k)
      invariant OpenStarts(es, k, startedEvents)
    {
      var event := es[k];
      var taskName := event.taskName;
      var state := Lower(event.transition);
      assert (state == "start" || state == "assign") == IsStart(event) && (state == "complete") == IsComplete(event);
      assert taskName in startedEvents <==> OpenStart(es, k, taskName).Some?;
      ghost var old_started := startedEvents;
      if state == "start" || state == "assign" {
        startedEvents := startedEvents[taskName := event];
      } else if state == "complete" {
        if taskName in startedEvents {
          var started := startedEvents[taskName];
          var cEvent := TaskEvent(caseId, started.taskName, started.resource, None, started.timestamp, event.timestamp);
          startedEvents := map name | name in startedEvents && name != taskName :: startedEvents[name];
          completed := completed + [cEvent];
        }
      }
      OpenStartsStep(es, k, old_started, startedEvents);
    }
  }

  /** `started_events` holds, per task, the event of its open start. */
  ghost predicate OpenStarts(es: seq<XesEvent>, k: int, startedEvents: map<string, XesEvent>)
    requires 0 <= k <= |es|
  {
    && (forall name :: name in startedEvents <==> OpenStart(es, k, name).Some?)
    && (forall name | name in startedEvents :: startedEvents[name] == es[OpenStart(es, k, name).value])
  }

  /** How one more event changes the open starts: only its own task's can change. */
  lemma OpenStartStep(es: seq<XesEvent>, k: int)
    requires 0 <= k < |es|
    ensures forall name | name != es[k].taskName :: OpenStart(es, k + 1, name) == OpenStart(es, k, name)
    ensures OpenStart(es, k + 1, es[k].taskName) ==
      if IsStart(es[k]) then Some(k) else if IsComplete(es[k]) then None else OpenStart(es, k, es[k].taskName)
  {
  }

  lemma OpenStartsStep(es: seq<XesEvent>, k: int, before: map<string, XesEvent>, after: map<string, XesEvent>)
    requires 0 <= k < |es| && OpenStarts(es, k, before)
    requires after == (if IsStart(es[k]) then before[es[k].taskName := es[k]]
                       else if IsComplete(es[k]) then map name | name in before && name != es[k].taskName :: before[name]
                       else before)
    ensures OpenStarts(es, k + 1, after)
  {
    OpenStartStep(es, k);
  }

  /** `event_list_from_xes_log`: the completed events of all traces. */
  method EventListFromXesLog(log: seq<XesTrace>) returns (traceList: seq<TaskEvent>)
    ensures traceList == PairedLog(log)
  {
    traceList := [];
    for t := 0 to |log|
      invariant traceList == PairedLog(log[..t])
    {
      var cEvents := PairTrace(log[t].caseId, log[t].events);
      assert log[..t + 1][..t] == log[..t];
      traceList := traceList + cEvents;
    }
    assert log[..|log|] == log;
  }

  /** The open start is the last start of the task with no start or complete of it after. */
  lemma {:induction false} OpenStartIsLatest(es: seq<XesEvent>, n: int, name: string)
    requires 0 <= n <= |es| && OpenStart(es, n, name).Some?
    ensures var s := OpenStart(es, n, name).value;
      forall j :: s < j < n && es[j].taskName == name ==> !IsStart(es[j]) && !IsComplete(es[j])
  {
    if !(es[n - 1].taskName == name && IsStart(es[n - 1])) {
      OpenStartIsLatest(es, n - 1, name);
    }
  }

  /** Conversely, a start with no later start or complete of its task is the open one. */
  lemma {:induction false} LatestStartIsOpen(es: seq<XesEvent>, n: int, s: int)
    requires 0 <= s < n <= |es| && IsStart(es[s])
    requires forall j :: s < j < n && es[j].taskName == es[s].taskName ==> !IsStart(es[j]) && !IsComplete(es[j])
    ensures OpenStart(es, n, es[s].taskName) == Some(s)
  {
    if n - 1 > s {
      LatestStartIsOpen(es, n - 1, s);
    }
  }

  /** The start at `s` and the complete at `c`, both before `n`, are of the same task with no
      start or complete of that task between them. */
  predicate PairOf(es: seq<XesEvent>, s: int, c: int, n: int)
    requires 0 <= n <= |es|
  {
    && 0 <= s < c < n && IsStart(es[s]) && IsComplete(es[c]) && es[s].taskName == es[c].taskName
    && forall j :: s < j < c && es[j].taskName == es[s].taskName ==> !IsStart(es[j]) && !IsComplete(es[j])
  }

  /** Every completed event pairs a start with a later complete of the same task, with no
      start or complete of that task between them, and carries the start's resource and both
      instants. A complete without an open start produces nothing. */
  lemma {:induction false} PairedSound(caseId: string, es: seq<XesEvent>, n: int, k: int)
    requires 0 <= n <= |es| && 0 <= k < |PairedUpTo(caseId, es, n)|
    ensures exists s, c :: PairOf(es, s, c, n) && PairedUpTo(caseId, es, n)[k] == Completed(caseId, es, s, c)
  {
    var c := n - 1;
    var prev := PairedUpTo(caseId, es, c);
    if k < |prev| {
      PairedSound(caseId, es, c, k);
    } else {
      var s := OpenStart(es, c, es[c].taskName).value;
      OpenStartIsLatest(es, c, es[c].taskName);
      assert PairedUpTo(caseId, es, n)[k] == Completed(caseId, es, s, c);
    }
  }

  // ---------------------------------------------------------------------------------------
  // Grouping the rows of a CSV log into traces (event_list_from_csv)

  const EnableHeader := "EnableTimestamp"

  /** The column offset the header selects: 2 when its third column is `EnableTimestamp`. */
  function Offset(header: seq<string>): (offset: int)
    requires |header| >= 3
    ensures offset == 1 || offset == 2
  {
    if header[2] == EnableHeader then 2 else 1
  }

  /** Every row the loop reads has the columns it indexes: the header a third column, each
      data row column `offset + 3`. */
  predicate RowsComplete(rows: seq<seq<string>>) {
    rows == [] || (|rows[0]| >= 3 && forall k :: 1 <= k < |rows| ==> |rows[k]| >= Offset(rows[0]) + 4)
  }

  /** The event a data row describes: case, task, resource at `offset + 3`, enabled at
      column 2 when the header names it, started and completed at `offset + 1`, `offset + 2`. */
  function RowEvent(row: seq<string>, offset: int, toInstant: string -> int): TaskEvent
    requires (offset == 1 || offset == 2) && |row| >= offset + 4
  {
    TaskEvent(row[0], row[1], row[offset + 3],
              if offset == 2 then Some(toInstant(row[2])) else None,
              toInstant(row[offset + 1]), toInstant(row[offset + 2]))
  }

  /** The data rows before `n` have the columns they are read at. */
  predicate RowsCompleteBefore(rows: seq<seq<string>>, n: int) {
    1 <= n <= |rows| && |rows[0]| >= 3 && forall k :: 1 <= k < n ==> |rows[k]| >= Offset(rows[0]) + 4
  }

  /** The events of the data rows `1 .. n - 1`, in file order. */
  function RowEvents(rows: seq<seq<string>>, n: int, toInstant: string -> int): (evs: seq<TaskEvent>)
    requires RowsCompleteBefore(rows, n)
    ensures |evs| == n - 1
  {
    if n == 1 then [] else RowEvents(rows, n - 1, toInstant) + [RowEvent(rows[n - 1], Offset(rows[0]), toInstant)]
  }

  /** The header row gives no event; data row `k` gives event `k - 1`. */
  lemma {:induction false} RowEventsAt(rows: seq<seq<string>>, n: int, toInstant: string -> int, k: int)
    requires RowsCompleteBefore(rows, n) && 1 <= k < n
    ensures RowEvents(rows, n, toInstant)[k - 1] == RowEvent(rows[k], Offset(rows[0]), toInstant)
  {
    if k < n - 1 {
      RowEventsAt(rows, n - 1, toInstant, k);
    }
  }

  function CaseIds(evs: seq<TaskEvent>): (ids: seq<string>)
    ensures |ids| == |evs| && forall i :: 0 <= i < |evs| ==> ids[i] == evs[i].caseId
  {
    seq(|evs|, i requires 0 <= i < |evs| => evs[i].caseId)
  }

  /** The events of case `c`, in order. */
  function EventsOf(evs: seq<TaskEvent>, c: string): seq<TaskEvent> {
    if evs == [] then []
    else EventsOf(evs[..|evs| - 1], c) + (if evs[|evs| - 1].caseId == c then [evs[|evs| - 1]] else [])
  }

  /** One trace per case, in the order the cases first appear, each with its events in order. */
  function TracesOf(evs: seq<TaskEvent>): (ts: seq<Trace>)
    ensures |ts| == |Dedup(CaseIds(evs))|
    ensures forall t :: 0 <= t < |ts| ==>
      ts[t] == Trace(Dedup(CaseIds(evs))[t], EventsOf(evs, Dedup(CaseIds(evs))[t]))
  {
    var ids := Dedup(CaseIds(evs));
    seq(|ids|, t requires 0 <= t < |ids| => Trace(ids[t], EventsOf(evs, ids[t])))
  }

  /** `event_list_from_csv` on the rows of the file. A row too short for the columns read
      raises IndexError; the failure to open the file is not modelled. */
  method EventListFromCsv(rows: seq<seq<string>>, toInstant: string -> int) returns (r: Result<seq<Trace>>)
    ensures r.Success? <==> RowsComplete(rows)
    ensures r.Failure? ==> r.error == IndexError
    ensures r.Success? && rows != [] ==> r.value == TracesOf(RowEvents(rows, |rows|, toInstant))
    ensures rows == [] ==> r == Success([])
  {
    if rows == [] {
      return Success([]);
    }
    if |rows[0]| < 3 {
      return Failure(IndexError);
    }
    var eIndex := if rows[0][2] == EnableHeader then 2 else 1;
    r := GroupRows(rows, eIndex, toInstant);
  }

  /** The loop of `event_list_from_csv` over the data rows, once the header has fixed the
      column offset `eIndex`. */
  method GroupRows(rows: seq<seq<string>>, eIndex: int, toInstant: string -> int) returns (r: Result<seq<Trace>>)
    requires |rows| >= 1 && |rows[0]| >= 3 && eIndex == Offset(rows[0])
    ensures r.Success? <==> RowsCompleteBefore(rows, |rows|)
    ensures r.Failure? ==> r.error == IndexError
    ensures r.Success? ==> r.value == TracesOf(RowEvents(rows, |rows|, toInstant))
  {
    var traceList: seq<Trace> := [];
    var traceMap: map<string, int> := map[];
    for rowCount := 1 to |rows|
      invariant RowsCompleteBefore(rows, rowCount)
      invariant Grouped(RowEvents(rows, rowCount, toInstant), traceList, traceMap)
    {
      var row := rows[rowCount];
      if |row| < eIndex + 4 {
        return Failure(IndexError);
      }
      var eventInfo := ReadRow(row, eIndex, toInstant);
      ghost var evs := RowEvents(rows, rowCount, toInstant);
      assert RowEvents(rows, rowCount + 1, toInstant) == evs + [eventInfo];
      traceList, traceMap := AddToTrace(evs, traceList, traceMap, eventInfo);
    }
    return Success(traceList);
  }

  /** The `TaskEvent` the loop builds from one data row. */
  method ReadRow(row: seq<string>, eIndex: int, toInstant: string -> int) returns (eventInfo: TaskEvent)
    requires (eIndex == 1 || eIndex == 2) && |row| >= eIndex + 4
    ensures eventInfo == RowEvent(row, eIndex, toInstant)
  {
    eventInfo := TaskEvent(row[0], row[1], row[eIndex + 3], None, toInstant(row[eIndex + 1]), toInstant(row[eIndex + 2]));
    if eIndex == 2 {
      eventInfo := eventInfo.(enabledAt := Some(toInstant(row[eIndex])));
    }
  }

  /** Files one event under its case, opening a new trace for a case not seen before. */
  method AddToTrace(ghost evs: seq<TaskEvent>, traceList: seq<Trace>, traceMap: map<string, int>, eventInfo: TaskEvent)
    returns (traceList': seq<Trace>, traceMap': map<string, int>)
    requires Grouped(evs, traceList, traceMap)
    ensures Grouped(evs + [eventInfo], traceList', traceMap')
  {
    var caseId := eventInfo.caseId;
    traceList', traceMap' := traceList, traceMap;
    if caseId !in traceMap' {
      traceMap' := traceMap'[caseId := |traceList'|];
      traceList' := traceList' + [Trace(caseId, [])];
    }
    var t := traceMap'[caseId];
    traceList' := traceList'[t := traceList'[t].(events := traceList'[t].events + [eventInfo])];
    if caseId !in traceMap {
      assert traceList'[..|traceList|] == traceList && traceList'[|traceList|] == Trace(caseId, [eventInfo]);
      assert traceList' == traceList + [Trace(caseId, [eventInfo])];
    }
    GroupedStep(evs, eventInfo, traceList, traceMap, traceMap', traceList');
  }

  /** `trace_list` holds the traces of `evs` and `trace_map` each case's position in it. */
  ghost predicate Grouped(evs: seq<TaskEvent>, traceList: seq<Trace>, traceMap: map<string, int>) {
    && traceList == TracesOf(evs)
    && (forall c :: c in traceMap <==> c in Dedup(CaseIds(evs)))
    && (forall c | c in traceMap :: 0 <= traceMap[c] < |traceList| && traceList[traceMap[c]].caseId == c)
  }

  /** Filing one more event keeps the grouping. */
  lemma GroupedStep(evs: seq<TaskEvent>, e: TaskEvent, before: seq<Trace>, beforeMap: map<string, int>,
                    traceMap: map<string, int>, traceList: seq<Trace>)
    requires Grouped(evs, before, beforeMap)
    requires traceMap == if e.caseId in beforeMap then beforeMap else beforeMap[e.caseId := |before|]
    requires e.caseId !in beforeMap ==> traceList == before + [Trace(e.caseId, [e])]
    requires e.caseId in beforeMap ==>
      traceList == before[beforeMap[e.caseId] := before[beforeMap[e.caseId]].(events := before[beforeMap[e.caseId]].events + [e])]
    ensures Grouped(evs + [e], traceList, traceMap)
  {
    CaseIdsSnoc(evs, e);
    DedupSnoc(CaseIds(evs), e.caseId);
    DedupMembers(CaseIds(evs));
    DedupMembers(CaseIds(evs + [e]));
    if e.caseId !in beforeMap {
      TracesOfNewCase(evs, e);
    } else {
      TracesOfKnownCase(evs, e, beforeMap[e.caseId]);
    }
  }

  lemma CaseIdsSnoc(evs: seq<TaskEvent>, e: TaskEvent)
    ensures CaseIds(evs + [e]) == CaseIds(evs) + [e.caseId]
  {
  }

  lemma EventsOfSnoc(evs: seq<TaskEvent>, e: TaskEvent, c: string)
    ensures EventsOf(evs + [e], c) == EventsOf(evs, c) + (if e.caseId == c then [e] else [])
  {
    assert (evs + [e])[..|evs|] == evs;
  }

  /** A case with no event has no events. */
  lemma {:induction false} EventsOfAbsent(evs: seq<TaskEvent>, c: string)
    requires c !in CaseIds(evs)
    ensures EventsOf(evs, c) == []
  {
    if evs != [] {
      var init := evs[..|evs| - 1];
      assert CaseIds(evs)[|evs| - 1] == evs[|evs| - 1].caseId;
      assert forall i :: 0 <= i < |init| ==> CaseIds(init)[i] == CaseIds(evs)[i];
      EventsOfAbsent(init, c);
    }
  }

  /** An event of a new case opens a trace at the end. */
  lemma TracesOfNewCase(evs: seq<TaskEvent>, e: TaskEvent)
    requires e.caseId !in Dedup(CaseIds(evs))
    ensures TracesOf(evs + [e]) == TracesOf(evs) + [Trace(e.caseId, [e])]
  {
    var ids := CaseIds(evs);
    CaseIdsSnoc(evs, e);
    DedupSnoc(ids, e.caseId);
    DedupMembers(ids);
    EventsOfAbsent(evs, e.caseId);
    var d := Dedup(ids);
    var lhs, rhs := TracesOf(evs + [e]), TracesOf(evs) + [Trace(e.caseId, [e])];
    assert Dedup(CaseIds(evs + [e])) == d + [e.caseId];
    forall t | 0 <= t < |lhs| ensures lhs[t] == rhs[t] {
      if t < |d| {
        assert d[t] != e.caseId;
        EventsOfSnoc(evs, e, d[t]);
      } else {
        EventsOfSnoc(evs, e, e.caseId);
      }
    }
  }

  /** An event of a known case goes at the end of that case's trace. */
  lemma TracesOfKnownCase(evs: seq<TaskEvent>, e: TaskEvent, t: int)
    requires 0 <= t < |TracesOf(evs)| && TracesOf(evs)[t].caseId == e.caseId
    ensures TracesOf(evs + [e]) == TracesOf(evs)[t := Trace(e.caseId, TracesOf(evs)[t].events + [e])]
  {
    var ids := CaseIds(evs);
    CaseIdsSnoc(evs, e);
    DedupSnoc(ids, e.caseId);
    var d := Dedup(ids);
    assert d[t] == e.caseId && Dedup(CaseIds(evs + [e])) == d;
    var lhs, rhs := TracesOf(evs + [e]), TracesOf(evs)[t := Trace(e.caseId, TracesOf(evs)[t].events + [e])];
    forall u | 0 <= u < |lhs| ensures lhs[u] == rhs[u] {
      EventsOfSnoc(evs, e, d[u]);
      if u != t { assert d[u] != d[t]; }
    }
  }

  /** Each trace holds exactly the events of its case. */
  lemma {:induction false} EventsOfMembers(evs: seq<TaskEvent>, c: string, e: TaskEvent)
    ensures e in EventsOf(evs, c) <==> e in evs && e.caseId == c
  {
    if evs != [] {
      var init := evs[..|evs| - 1];
      assert evs == init + [evs[|evs| - 1]];
      EventsOfMembers(init, c, e);
    }
  }

  /** Traces come in the order their case ids first appear in the file. */
  lemma TracesInFirstAppearanceOrder(evs: seq<TaskEvent>, a: int, b: int)
    requires 0 <= a < b < |TracesOf(evs)|
    ensures TracesOf(evs)[a].caseId in CaseIds(evs) && TracesOf(evs)[b].caseId in CaseIds(evs)
    ensures FirstIndex(CaseIds(evs), TracesOf(evs)[a].caseId) < FirstIndex(CaseIds(evs), TracesOf(evs)[b].caseId)
  {
    DedupFirstAppearance(CaseIds(evs), a, b);
  }
}
