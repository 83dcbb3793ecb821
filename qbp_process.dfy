/** The parts of `parse_qbp_simulation_process` (bpdfr_simulation_engine/simulation_properties_parser.py)
    that turn the `qbp:processSimulationInfo` block of a QBP (BIMP) model into Prosimos
    parameters: the timetables and the choice of the arrival calendar, the expansion of each
    resource pool into single resources, and the task-to-resource duration distributions.
    The XML elements arrive already read into records. */
module QbpProcess {
  import opened Wrappers
  import opened OrderedDict
  import opened Text
  import opened Records
  import opened SimulationProperties

  // ---------------------------------------------------------------------------------------
  // Timetables and the arrival calendar

  /** A `qbp:rule`: weekday range and time range. */
  datatype QbpRule = QbpRule(fromWeekDay: string, toWeekDay: string, fromTime: string, toTime: string)

  /** A `qbp:timetable` with its `id` and rules. */
  datatype QbpTimetable = QbpTimetable(id: string, rules: seq<QbpRule>)

  const ArrivalMarker := "ARRIVAL_CALENDAR"
  const DefaultMarker := "DEFAULT_TIMETABLE"

  /** The period a rule becomes, with both times cleaned by `format_date`. */
  function PeriodOf(rule: QbpRule): TimePeriod {
    TimePeriod(rule.fromWeekDay, rule.toWeekDay, FormatDate(rule.fromTime), FormatDate(rule.toTime))
  }

  function PeriodsOf(rules: seq<QbpRule>): (ps: seq<TimePeriod>)
    ensures |ps| == |rules|
    ensures forall k :: 0 <= k < |rules| ==> ps[k] == PeriodOf(rules[k])
  {
    seq(|rules|, k requires 0 <= k < |rules| => PeriodOf(rules[k]))
  }

  function TimetableIds(ts: seq<QbpTimetable>): (ids: seq<string>)
    ensures |ids| == |ts|
    ensures forall k :: 0 <= k < |ts| ==> ids[k] == ts[k].id
  {
    seq(|ts|, k requires 0 <= k < |ts| => ts[k].id)
  }

  /** Each timetable as the batch of periods it adds under its id. */
  function Batches(ts: seq<QbpTimetable>): (bs: seq<(string, seq<TimePeriod>)>)
    ensures |bs| == |ts|
    ensures forall k :: 0 <= k < |ts| ==> bs[k] == (ts[k].id, PeriodsOf(ts[k].rules))
  {
    seq(|ts|, k requires 0 <= k < |ts| => (ts[k].id, PeriodsOf(ts[k].rules)))
  }

  /** The ids, in order, that contain `marker`. */
  function Marked(ids: seq<string>, marker: string): (ms: seq<string>)
    ensures |ms| <= |ids|
  {
    if ids == [] then []
    else Marked(ids[..|ids| - 1], marker) + (if Contains(ids[|ids| - 1], marker) then [ids[|ids| - 1]] else [])
  }

  lemma {:induction false} MarkedMembers(ids: seq<string>, marker: string)
    ensures forall x | x in Marked(ids, marker) :: x in ids && Contains(x, marker)
    ensures forall x | x in ids && Contains(x, marker) :: x in Marked(ids, marker)
  {
    if ids != [] {
      MarkedMembers(ids[..|ids| - 1], marker);
      assert ids == ids[..|ids| - 1] + [ids[|ids| - 1]];
    }
  }

  /** The calendar the arrival process uses, stated without reference to the loop: the last
      id containing `ARRIVAL_CALENDAR`; failing that, the first id containing
      `DEFAULT_TIMETABLE`; failing that, none. */
  function ArrivalChoice(ids: seq<string>): Option<string> {
    var arrivals := Marked(ids, ArrivalMarker);
    var defaults := Marked(ids, DefaultMarker);
    if |arrivals| > 0 then Some(arrivals[|arrivals| - 1])
    else if |defaults| > 0 then Some(defaults[0])
    else None
  }

  /** One step of the selection loop on the current choice and the next id. */
  function ChooseArrival(current: Option<string>, id: string): Option<string> {
    if Contains(id, ArrivalMarker) || (current.None? && Contains(id, DefaultMarker)) then Some(id) else current
  }

  /** The step rule computes the declarative choice, one id at a time. */
  lemma ArrivalChoiceStep(ids: seq<string>, id: string)
    ensures ArrivalChoice(ids + [id]) == ChooseArrival(ArrivalChoice(ids), id)
  {
    assert (ids + [id])[..|ids|] == ids;
  }

  /** An id containing `DEFAULT_TIMETABLE` never displaces one containing `ARRIVAL_CALENDAR`:
      once any id carries the arrival marker, the choice carries it too. */
  lemma DefaultNeverOverridesArrival(ids: seq<string>, i: int)
    requires 0 <= i < |ids| && Contains(ids[i], ArrivalMarker)
    ensures ArrivalChoice(ids).Some? && Contains(ArrivalChoice(ids).value, ArrivalMarker)
  {
    MarkedMembers(ids, ArrivalMarker);
    var arrivals := Marked(ids, ArrivalMarker);
    assert arrivals[|arrivals| - 1] in arrivals;
  }

  /** A chosen calendar is always one of the timetables read. */
  lemma ArrivalChoiceIsAnId(ids: seq<string>)
    ensures ArrivalChoice(ids).Some? ==> ArrivalChoice(ids).value in ids
    ensures ArrivalChoice(ids).None? <==> forall x | x in ids :: !Contains(x, ArrivalMarker) && !Contains(x, DefaultMarker)
  {
    MarkedMembers(ids, ArrivalMarker);
    MarkedMembers(ids, DefaultMarker);
    var arrivals, defaults := Marked(ids, ArrivalMarker), Marked(ids, DefaultMarker);
    if |arrivals| > 0 {
      assert arrivals[|arrivals| - 1] in arrivals;
    } else if |defaults| > 0 {
      assert defaults[0] in defaults;
    }
  }

  /** What the timetable loop has built after the first `i` timetables. */
  ghost predicate TimetablesReadUpTo(calendars: Dict<string, seq<TimePeriod>>, arrivalId: Option<string>,
                                     ts: seq<QbpTimetable>, i: int)
    requires 0 <= i <= |ts|
  {
    && DistinctKeys(calendars)
    && Keys(calendars) == Dedup(TimetableIds(ts)[..i])
    && (forall k :: Get(calendars, k).GetOr([]) == Collect(Batches(ts)[..i], k))
    && arrivalId == ArrivalChoice(TimetableIds(ts)[..i])
  }

  lemma TimetablesReadStep(calendars: Dict<string, seq<TimePeriod>>, arrivalId: Option<string>,
                           ts: seq<QbpTimetable>, i: int)
    requires 0 <= i < |ts| && TimetablesReadUpTo(calendars, arrivalId, ts, i)
    ensures TimetablesReadUpTo(Put(calendars, ts[i].id, Get(calendars, ts[i].id).GetOr([]) + PeriodsOf(ts[i].rules)),
                               ChooseArrival(arrivalId, ts[i].id), ts, i + 1)
  {
    var id, ps := ts[i].id, PeriodsOf(ts[i].rules);
    var ids, bs := TimetableIds(ts), Batches(ts);
    assert ids[..i + 1] == ids[..i] + [id];
    assert bs[..i + 1] == bs[..i] + [(id, ps)];
    CalendarKeysStep(calendars, ids[..i], id, Get(calendars, id).GetOr([]) + ps);
    CalendarValuesStep(calendars, bs[..i], id, ps);
    ArrivalChoiceStep(ids[..i], id);
  }

  lemma CalendarKeysStep(calendars: Dict<string, seq<TimePeriod>>, ids: seq<string>, id: string, v: seq<TimePeriod>)
    requires DistinctKeys(calendars) && Keys(calendars) == Dedup(ids)
    ensures DistinctKeys(Put(calendars, id, v)) && Keys(Put(calendars, id, v)) == Dedup(ids + [id])
  {
    DedupSnoc(ids, id);
  }

  lemma CalendarValuesStep(calendars: Dict<string, seq<TimePeriod>>, bs: seq<(string, seq<TimePeriod>)>,
                           id: string, ps: seq<TimePeriod>)
    requires forall k :: Get(calendars, k).GetOr([]) == Collect(bs, k)
    ensures forall k :: Get(Put(calendars, id, Get(calendars, id).GetOr([]) + ps), k).GetOr([]) == Collect(bs + [(id, ps)], k)
  {
    assert (bs + [(id, ps)])[..|bs|] == bs;
    forall k ensures Get(Put(calendars, id, Get(calendars, id).GetOr([]) + ps), k).GetOr([]) == Collect(bs + [(id, ps)], k) {
      PutGet(calendars, id, Get(calendars, id).GetOr([]) + ps, k);
    }
  }

  /** The inner loop: one period appended per rule. */
  method AppendPeriods(periods: seq<TimePeriod>, rules: seq<QbpRule>) returns (r: seq<TimePeriod>)
    ensures r == periods + PeriodsOf(rules)
  {
    r := periods;
    for k := 0 to |rules|
      invariant |r| == |periods| + k && r[..|periods|] == periods
      invariant forall j :: 0 <= j < k ==> r[|periods| + j] == PeriodOf(rules[j])
    {
      r := r + [PeriodOf(rules[k])];
    }
    assert r == periods + PeriodsOf(rules);
  }

  /** The timetable loop of `parse_qbp_simulation_process`: each id gets the periods of all
      its timetables, in document order, and the arrival calendar id is chosen on the way. */
  method ParseTimetables(ts: seq<QbpTimetable>) returns (calendars: Dict<string, seq<TimePeriod>>, arrivalId: Option<string>)
    ensures DistinctKeys(calendars)
    ensures Keys(calendars) == Dedup(TimetableIds(ts))
    ensures forall k :: Get(calendars, k).GetOr([]) == Collect(Batches(ts), k)
    ensures arrivalId == ArrivalChoice(TimetableIds(ts))
  {
    calendars, arrivalId := [], None;
    for i := 0 to |ts|
      invariant TimetablesReadUpTo(calendars, arrivalId, ts, i)
    {
      var id := ts[i].id;
      var periods := Get(calendars, id).GetOr([]);
      TimetablesReadStep(calendars, arrivalId, ts, i);
      if Contains(id, ArrivalMarker) || (arrivalId.None? && Contains(id, DefaultMarker)) {
        arrivalId := Some(id);
      } else {
        assert ChooseArrival(arrivalId, id) == arrivalId;
      }
      periods := AppendPeriods(periods, ts[i].rules);
      calendars := Put(calendars, id, periods);
    }
    assert TimetableIds(ts)[..|ts|] == TimetableIds(ts);
    assert Batches(ts)[..|ts|] == Batches(ts);
  }

  /** Timetables with distinct ids each keep exactly their own periods. */
  lemma DistinctTimetablePeriods(ts: seq<QbpTimetable>, i: int)
    requires Distinct(TimetableIds(ts)) && 0 <= i < |ts|
    ensures Collect(Batches(ts), ts[i].id) == PeriodsOf(ts[i].rules)
  {
    var ids := TimetableIds(ts);
    assert forall j :: 0 <= j < |ts| && j != i ==> ids[j] != ids[i];
    CollectSingle(Batches(ts), i);
  }

  /** `calendars_map[arrival_calendar_id]`: a `KeyError` when no calendar was chosen. */
  function ArrivalCalendar(calendars: Dict<string, seq<TimePeriod>>, arrivalId: Option<string>): (r: Result<seq<TimePeriod>>)
    ensures r.Failure? <==> arrivalId.None? || arrivalId.value !in Keys(calendars)
    ensures r.Success? ==> Get(calendars, arrivalId.value) == Some(r.value)
  {
    if arrivalId.None? then Failure(KeyError("None"))
    else match Get(calendars, arrivalId.value)
      case None => Failure(KeyError(arrivalId.value))
      case Some(periods) => Success(periods)
  }

  /** Looking up the chosen calendar fails exactly when no timetable id contains either
      marker. */
  lemma ArrivalCalendarFound(ts: seq<QbpTimetable>, calendars: Dict<string, seq<TimePeriod>>, arrivalId: Option<string>)
    requires Keys(calendars) == Dedup(TimetableIds(ts)) && arrivalId == ArrivalChoice(TimetableIds(ts))
    ensures ArrivalCalendar(calendars, arrivalId).Failure? <==>
      forall x | x in TimetableIds(ts) :: !Contains(x, ArrivalMarker) && !Contains(x, DefaultMarker)
  {
    ArrivalChoiceIsAnId(TimetableIds(ts));
    DedupMembers(TimetableIds(ts));
  }

  // ---------------------------------------------------------------------------------------
  // Resource pools

  /** `"%s_%d" % (base, i)`: the id or name of the `i`-th resource of a pool. */
  function ExpandedId(base: string, i: nat): (r: string)
    ensures r == base + "_" + NatToString(i)
  {
    base + "_" + NatToString(i)
  }

  /** Of two ways to write one string as `prefix + "_" + suffix`, the longer suffix holds the
      other's separator. */
  lemma SeparatorInLongerSuffix(p: string, a: string, q: string, b: string)
    requires p + "_" + a == q + "_" + b && |a| < |b|
    ensures '_' in b
  {
    var w := p + "_" + a;
    assert w[|w| - |a| - 1] == '_';
    assert w[|w| - |a| - 1] == b[|b| - |a| - 1];
  }

  /** Distinct (pool, index) pairs give distinct resource ids: the text after the last `_`
      is the decimal index and the text before it is the pool id. */
  lemma ExpandedIdInjective(p: string, i: nat, q: string, j: nat)
    requires ExpandedId(p, i) == ExpandedId(q, j)
    ensures p == q && i == j
  {
    var a, b := NatToString(i), NatToString(j);
    var w := ExpandedId(p, i);
    assert w == p + "_" + a && w == q + "_" + b;
    if |a| < |b| {
      SeparatorInLongerSuffix(p, a, q, b);
      assert false;
    } else if |b| < |a| {
      SeparatorInLongerSuffix(q, b, p, a);
      assert false;
    } else {
      assert a == w[|w| - |a|..] == b;
      assert p == w[..|p|] == q;
      NatToStringInjective(i, j);
    }
  }

  /** A `qbp:resource`: a pool of `totalAmount` interchangeable resources. */
  datatype QbpResource = QbpResource(id: string, name: string, totalAmount: int, costPerHour: string, timetableId: string)

  /** One entry of a pool's `resource_list` in the JSON written. */
  datatype PoolEntry = PoolEntry(id: string, name: string, costPerHour: string, amount: int)

  /** A pool's record under `resource_profiles`: its name and its resource list. */
  datatype PoolJson = PoolJson(name: string, resourceList: seq<PoolEntry>)

  /** What the pool loop produces: the `resource_profiles` document, the single resources of
      each pool (`resource_pools`) and each single resource's periods (`resource_calendars`). */
  datatype Pools = Pools(poolsJson: Dict<string, PoolJson>, resourcePools: Dict<string, seq<string>>,
                         resourceCalendars: Dict<string, seq<TimePeriod>>)

  /** How many resources `range(1, totalAmount + 1)` produces. */
  function PoolSize(r: QbpResource): nat {
    if r.totalAmount > 0 then r.totalAmount else 0
  }

  /** The resources of a pool: `pool_1 .. pool_n`, one unit each, at the pool's cost. */
  function ExpandedEntries(r: QbpResource): (es: seq<PoolEntry>)
    ensures |es| == PoolSize(r)
  {
    seq(PoolSize(r), k requires 0 <= k < PoolSize(r) =>
      PoolEntry(ExpandedId(r.id, k + 1), ExpandedId(r.name, k + 1), r.costPerHour, 1))
  }

  function ExpandedIds(r: QbpResource): (ids: seq<string>)
    ensures |ids| == PoolSize(r)
    ensures forall k :: 0 <= k < |ids| ==> ids[k] == ExpandedId(r.id, k + 1)
  {
    seq(PoolSize(r), k requires 0 <= k < PoolSize(r) => ExpandedId(r.id, k + 1))
  }

  /** The expansion lists exactly `totalAmount` resources (none when it is not positive),
      numbered from 1 in order, each of amount 1 and at the pool's hourly cost, and the
      `resource_pools` list holds their ids in the same order. */
  lemma ExpandedEntriesShape(r: QbpResource)
    ensures |ExpandedEntries(r)| == if r.totalAmount > 0 then r.totalAmount else 0
    ensures forall k :: 0 <= k < |ExpandedEntries(r)| ==>
      ExpandedEntries(r)[k].id == ExpandedIds(r)[k] == r.id + "_" + NatToString(k + 1) &&
      ExpandedEntries(r)[k].name == r.name + "_" + NatToString(k + 1) &&
      ExpandedEntries(r)[k].amount == 1 && ExpandedEntries(r)[k].costPerHour == r.costPerHour
  {
    forall k | 0 <= k < |ExpandedEntries(r)|
      ensures ExpandedEntries(r)[k] == PoolEntry(ExpandedId(r.id, k + 1), ExpandedId(r.name, k + 1), r.costPerHour, 1)
    {
    }
  }

  /** No id repeats inside a pool. */
  lemma ExpandedIdsDistinct(r: QbpResource)
    ensures Distinct(ExpandedIds(r))
  {
    var ids := ExpandedIds(r);
    forall a, b | 0 <= a < b < |ids| ensures ids[a] != ids[b] {
      if ids[a] == ids[b] {
        ExpandedIdInjective(r.id, a + 1, r.id, b + 1);
      }
    }
  }

  /** Pools with different ids share no resource id. */
  lemma ExpandedIdsDisjoint(r: QbpResource, s: QbpResource, x: string)
    requires r.id != s.id && x in ExpandedIds(r)
    ensures x !in ExpandedIds(s)
  {
    var a :| 0 <= a < |ExpandedIds(r)| && ExpandedIds(r)[a] == x;
    if x in ExpandedIds(s) {
      var b :| 0 <= b < |ExpandedIds(s)| && ExpandedIds(s)[b] == x;
      ExpandedIdInjective(r.id, a + 1, s.id, b + 1);
    }
  }

  /** The pool's timetable is unknown while the pool has resources to bind to it. */
  predicate PoolFails(r: QbpResource, calendars: Dict<string, seq<TimePeriod>>) {
    PoolSize(r) > 0 && r.timetableId !in Keys(calendars)
  }

  /** After binding the first `n` resources of pool `r`, each of them maps to the pool's
      periods, every other id keeps what it had in `rc`, and the ids new to `rc` are added
      at the end in the order they are bound. */
  ghost predicate CalendarsBound(r: QbpResource, calendars: Dict<string, seq<TimePeriod>>,
                                 rc: Dict<string, seq<TimePeriod>>, rc': Dict<string, seq<TimePeriod>>, n: int)
    requires 0 <= n <= PoolSize(r)
  {
    && (DistinctKeys(rc) ==> DistinctKeys(rc') && Keys(rc') == Dedup(Keys(rc) + ExpandedIds(r)[..n]))
    && (forall k :: 0 <= k < n ==> Get(rc', ExpandedIds(r)[k]) == Get(calendars, r.timetableId))
    && (forall x :: x !in ExpandedIds(r)[..n] ==> Get(rc', x) == Get(rc, x))
  }

  lemma CalendarsBoundStep(r: QbpResource, calendars: Dict<string, seq<TimePeriod>>,
                           rc: Dict<string, seq<TimePeriod>>, rc': Dict<string, seq<TimePeriod>>, n: int,
                           periods: seq<TimePeriod>)
    requires 0 <= n < PoolSize(r) && CalendarsBound(r, calendars, rc, rc', n)
    requires Get(calendars, r.timetableId) == Some(periods)
    ensures CalendarsBound(r, calendars, rc, Put(rc', ExpandedIds(r)[n], periods), n + 1)
  {
    var ids := ExpandedIds(r);
    ExpandedIdsDistinct(r);
    BoundIdsStep(ids, Get(calendars, r.timetableId), rc', n, periods);
    BoundOthersStep(ids, rc, rc', n, periods);
    if DistinctKeys(rc) {
      BoundKeysStep(Keys(rc), ids, rc', n, periods);
    }
  }

  lemma CalendarsBoundStart(r: QbpResource, calendars: Dict<string, seq<TimePeriod>>, rc: Dict<string, seq<TimePeriod>>)
    ensures CalendarsBound(r, calendars, rc, rc, 0)
  {
    if DistinctKeys(rc) {
      assert Keys(rc) + ExpandedIds(r)[..0] == Keys(rc);
      DedupOfDistinct(Keys(rc));
    }
  }

  lemma BoundKeysStep(ks: seq<string>, ids: seq<string>, rc': Dict<string, seq<TimePeriod>>, n: int,
                      periods: seq<TimePeriod>)
    requires 0 <= n < |ids| && Keys(rc') == Dedup(ks + ids[..n])
    ensures Keys(Put(rc', ids[n], periods)) == Dedup(ks + ids[..n + 1])
  {
    assert ks + ids[..n + 1] == (ks + ids[..n]) + [ids[n]];
    DedupSnoc(ks + ids[..n], ids[n]);
  }

  lemma BoundIdsStep(ids: seq<string>, v: Option<seq<TimePeriod>>, rc': Dict<string, seq<TimePeriod>>, n: int,
                     periods: seq<TimePeriod>)
    requires 0 <= n < |ids| && Distinct(ids) && v == Some(periods)
    requires forall k :: 0 <= k < n ==> Get(rc', ids[k]) == v
    ensures forall k :: 0 <= k < n + 1 ==> Get(Put(rc', ids[n], periods), ids[k]) == v
  {
    forall k | 0 <= k < n + 1 ensures Get(Put(rc', ids[n], periods), ids[k]) == v {
      PutGet(rc', ids[n], periods, ids[k]);
    }
  }

  lemma BoundOthersStep(ids: seq<string>, rc: Dict<string, seq<TimePeriod>>, rc': Dict<string, seq<TimePeriod>>, n: int,
                        periods: seq<TimePeriod>)
    requires 0 <= n < |ids|
    requires forall x :: x !in ids[..n] ==> Get(rc', x) == Get(rc, x)
    ensures forall x :: x !in ids[..n + 1] ==> Get(Put(rc', ids[n], periods), x) == Get(rc, x)
  {
    assert ids[..n + 1] == ids[..n] + [ids[n]];
    forall x | x !in ids[..n + 1] ensures Get(Put(rc', ids[n], periods), x) == Get(rc, x) {
      PutGet(rc', ids[n], periods, x);
    }
  }

  /** The inner loop for one pool: list its resources and look up the pool's timetable for
      each (`calendars_map[calendar_id]`, a `KeyError` when absent). */
  method ExpandPool(r: QbpResource, calendars: Dict<string, seq<TimePeriod>>, rc: Dict<string, seq<TimePeriod>>)
    returns (result: Result<(seq<PoolEntry>, seq<string>, Dict<string, seq<TimePeriod>>)>)
    ensures result.Failure? <==> PoolFails(r, calendars)
    ensures result.Failure? ==> result.error == KeyError(r.timetableId)
    ensures result.Success? ==> result.value.0 == ExpandedEntries(r) && result.value.1 == ExpandedIds(r)
    ensures result.Success? ==> CalendarsBound(r, calendars, rc, result.value.2, PoolSize(r))
  {
    var entries, ids, rc' := [], [], rc;
    var i := 1;
    CalendarsBoundStart(r, calendars, rc);
    while i <= r.totalAmount
      invariant 1 <= i <= PoolSize(r) + 1
      invariant entries == ExpandedEntries(r)[..i - 1] && ids == ExpandedIds(r)[..i - 1]
      invariant i > 1 ==> r.timetableId in Keys(calendars)
      invariant CalendarsBound(r, calendars, rc, rc', i - 1)
    {
      var nrId := ExpandedId(r.id, i);
      assert ExpandedEntries(r)[..i] == ExpandedEntries(r)[..i - 1] + [PoolEntry(nrId, ExpandedId(r.name, i), r.costPerHour, 1)];
      assert ExpandedIds(r)[..i] == ExpandedIds(r)[..i - 1] + [nrId];
      entries := entries + [PoolEntry(nrId, ExpandedId(r.name, i), r.costPerHour, 1)];
      ids := ids + [nrId];
      var periods := Get(calendars, r.timetableId);
      if periods.None? {
        return Failure(KeyError(r.timetableId));
      }
      CalendarsBoundStep(r, calendars, rc, rc', i - 1, periods.value);
      rc' := Put(rc', nrId, periods.value);
      i := i + 1;
    }
    assert ExpandedEntries(r)[..i - 1] == ExpandedEntries(r);
    assert ExpandedIds(r)[..i - 1] == ExpandedIds(r);
    return Success((entries, ids, rc'));
  }

  function PoolIds(rs: seq<QbpResource>): (ids: seq<string>)
    ensures |ids| == |rs|
    ensures forall k :: 0 <= k < |rs| ==> ids[k] == rs[k].id
  {
    seq(|rs|, k requires 0 <= k < |rs| => rs[k].id)
  }

  /** No pool among the first `n` after position `i` shares its id: the one whose entries
      survive in the dictionaries. */
  predicate LastOfId(rs: seq<QbpResource>, n: int, i: int)
    requires 0 <= i < n <= |rs|
  {
    forall m :: i < m < n ==> rs[m].id != rs[i].id
  }

  /** Pool `i` is the first whose timetable lookup fails. */
  predicate FirstPoolFailure(rs: seq<QbpResource>, calendars: Dict<string, seq<TimePeriod>>, i: int) {
    0 <= i < |rs| && PoolFails(rs[i], calendars) && forall j :: 0 <= j < i ==> !PoolFails(rs[j], calendars)
  }

  /** The `pools_json` entry written for a pool. */
  function JsonOf(r: QbpResource): PoolJson {
    PoolJson(r.name, ExpandedEntries(r))
  }

  ghost predicate PoolsRecorded(out: Pools, rs: seq<QbpResource>, n: int)
    requires 0 <= n <= |rs|
  {
    LastRecorded(out.poolsJson, rs, n, JsonOf) && LastRecorded(out.resourcePools, rs, n, ExpandedIds)
  }

  /** Every pool among the first `n` whose id is not given again holds `f` of itself. */
  ghost predicate LastRecorded<V>(d: Dict<string, V>, rs: seq<QbpResource>, n: int, f: QbpResource -> V)
    requires 0 <= n <= |rs|
  {
    forall j :: 0 <= j < n && LastOfId(rs, n, j) ==> Get(d, rs[j].id) == Some(f(rs[j]))
  }

  /** No pool among the first `n` after position `j` expands to the resource id `x`: pool
      `j` is the last to bind `x` to a calendar. */
  predicate LastBinder(rs: seq<QbpResource>, n: int, j: int, x: string)
    requires 0 <= j < n <= |rs|
  {
    forall m :: j < m < n ==> x !in ExpandedIds(rs[m])
  }

  /** The resource ids of the first pools, pool by pool, each pool's in order. */
  function AllExpandedIds(rs: seq<QbpResource>): seq<string> {
    if rs == [] then [] else AllExpandedIds(rs[..|rs| - 1]) + ExpandedIds(rs[|rs| - 1])
  }

  /** The pools of `rs` as the `resource_pools` dictionary holds them: each id once, at its
      first position, with the resources of its last pool. */
  function ResourcePools(rs: seq<QbpResource>): (d: Dict<string, seq<string>>)
    ensures DistinctKeys(d) && Keys(d) == Dedup(PoolIds(rs))
  {
    if rs == [] then []
    else
      var n := |rs| - 1;
      assert PoolIds(rs) == PoolIds(rs[..n]) + [rs[n].id];
      DedupSnoc(PoolIds(rs[..n]), rs[n].id);
      Put(ResourcePools(rs[..n]), rs[n].id, ExpandedIds(rs[n]))
  }

  /** The last pool of each id is the one `resource_pools` keeps. */
  lemma {:induction false} ResourcePoolsLast(rs: seq<QbpResource>, j: int)
    requires 0 <= j < |rs| && LastOfId(rs, |rs|, j)
    ensures Get(ResourcePools(rs), rs[j].id) == Some(ExpandedIds(rs[j]))
  {
    var n := |rs| - 1;
    var front := rs[..n];
    PutGet(ResourcePools(front), rs[n].id, ExpandedIds(rs[n]), rs[j].id);
    if j < n {
      LastOfIdPrefix(rs, n, j);
      ResourcePoolsLast(front, j);
    }
  }

  lemma LastOfIdPrefix(rs: seq<QbpResource>, n: int, j: int)
    requires 0 <= j < n <= |rs| && LastOfId(rs, |rs|, j)
    ensures LastOfId(rs[..n], n, j) && rs[..n][j] == rs[j]
  {
    forall m | j < m < n ensures rs[..n][m].id != rs[..n][j].id {
      assert rs[..n][m] == rs[m];
    }
  }

  /** A pool whose id is not given again is the last to bind each of its resources: pools
      with other ids expand to other resource ids. */
  lemma LastOfIdBinds(rs: seq<QbpResource>, n: int, j: int, x: string)
    requires 0 <= j < n <= |rs| && LastOfId(rs, n, j) && x in ExpandedIds(rs[j])
    ensures LastBinder(rs, n, j, x)
  {
    forall m | j < m < n ensures x !in ExpandedIds(rs[m]) {
      ExpandedIdsDisjoint(rs[j], rs[m], x);
    }
  }

  /** Each resource id holds the periods of the timetable of the last pool that binds it. */
  ghost predicate CalendarsRecorded(out: Pools, rs: seq<QbpResource>, calendars: Dict<string, seq<TimePeriod>>, n: int)
    requires 0 <= n <= |rs|
  {
    forall j, k :: 0 <= j < n && 0 <= k < PoolSize(rs[j]) && LastBinder(rs, n, j, ExpandedIds(rs[j])[k]) ==>
      Get(out.resourceCalendars, ExpandedIds(rs[j])[k]) == Get(calendars, rs[j].timetableId)
  }

  /** What the pool loop has built after the first `n` pools. */
  ghost predicate PoolsBuiltUpTo(out: Pools, rs: seq<QbpResource>, calendars: Dict<string, seq<TimePeriod>>, n: int)
    requires 0 <= n <= |rs|
  {
    && (forall j :: 0 <= j < n ==> !PoolFails(rs[j], calendars))
    && DistinctKeys(out.poolsJson) && DistinctKeys(out.resourcePools) && DistinctKeys(out.resourceCalendars)
    && PoolKeysBuilt(out, rs, n)
    && PoolsRecorded(out, rs, n)
    && CalendarsRecorded(out, rs, calendars, n)
  }

  /** The keys of the three dictionaries after the first `n` pools. */
  ghost predicate PoolKeysBuilt(out: Pools, rs: seq<QbpResource>, n: int)
    requires 0 <= n <= |rs|
  {
    && Keys(out.poolsJson) == Dedup(PoolIds(rs)[..n]) && Keys(out.resourcePools) == Dedup(PoolIds(rs)[..n])
    && Keys(out.resourceCalendars) == Dedup(AllExpandedIds(rs[..n]))
    && out.resourcePools == ResourcePools(rs[..n])
  }

  lemma PoolsRecordedStep(out: Pools, rs: seq<QbpResource>, n: int)
    requires 0 <= n < |rs| && PoolsRecorded(out, rs, n)
    ensures PoolsRecorded(Pools(Put(out.poolsJson, rs[n].id, JsonOf(rs[n])),
                                Put(out.resourcePools, rs[n].id, ExpandedIds(rs[n])), out.resourceCalendars), rs, n + 1)
  {
    LastRecordedStep(out.poolsJson, rs, n, JsonOf);
    LastRecordedStep(out.resourcePools, rs, n, ExpandedIds);
  }

  lemma LastRecordedStep<V>(d: Dict<string, V>, rs: seq<QbpResource>, n: int, f: QbpResource -> V)
    requires 0 <= n < |rs| && LastRecorded(d, rs, n, f)
    ensures LastRecorded(Put(d, rs[n].id, f(rs[n])), rs, n + 1, f)
  {
    var d' := Put(d, rs[n].id, f(rs[n]));
    forall j | 0 <= j < n + 1 && LastOfId(rs, n + 1, j) ensures Get(d', rs[j].id) == Some(f(rs[j])) {
      PutGet(d, rs[n].id, f(rs[n]), rs[j].id);
      if j < n {
        assert rs[j].id != rs[n].id;
        assert LastOfId(rs, n, j);
        assert Get(d, rs[j].id) == Some(f(rs[j]));
      }
    }
  }

  lemma CalendarsRecordedStep(out: Pools, rs: seq<QbpResource>, calendars: Dict<string, seq<TimePeriod>>,
                              n: int, rc': Dict<string, seq<TimePeriod>>)
    requires 0 <= n < |rs| && CalendarsRecorded(out, rs, calendars, n)
    requires CalendarsBound(rs[n], calendars, out.resourceCalendars, rc', PoolSize(rs[n]))
    ensures CalendarsRecorded(Pools([], [], rc'), rs, calendars, n + 1)
  {
    assert ExpandedIds(rs[n])[..PoolSize(rs[n])] == ExpandedIds(rs[n]);
    forall j, k | 0 <= j < n + 1 && 0 <= k < PoolSize(rs[j]) && LastBinder(rs, n + 1, j, ExpandedIds(rs[j])[k])
      ensures Get(rc', ExpandedIds(rs[j])[k]) == Get(calendars, rs[j].timetableId)
    {
      if j < n {
        assert LastBinder(rs, n, j, ExpandedIds(rs[j])[k]);
        assert ExpandedIds(rs[j])[k] !in ExpandedIds(rs[n]);
      }
    }
  }

  lemma ResourceCalendarKeysStep(rs: seq<QbpResource>, n: int)
    requires 0 <= n < |rs|
    ensures Dedup(Dedup(AllExpandedIds(rs[..n])) + ExpandedIds(rs[n])) == Dedup(AllExpandedIds(rs[..n + 1]))
  {
    assert rs[..n + 1][..n] == rs[..n];
    assert AllExpandedIds(rs[..n + 1]) == AllExpandedIds(rs[..n]) + ExpandedIds(rs[n]);
    DedupAppend(AllExpandedIds(rs[..n]), ExpandedIds(rs[n]));
  }

  lemma ResourcePoolsStep(rs: seq<QbpResource>, n: int)
    requires 0 <= n < |rs|
    ensures ResourcePools(rs[..n + 1]) == Put(ResourcePools(rs[..n]), rs[n].id, ExpandedIds(rs[n]))
  {
    assert rs[..n + 1][..n] == rs[..n];
  }

  lemma PoolKeysStep(rs: seq<QbpResource>, n: int)
    requires 0 <= n < |rs|
    ensures Dedup(PoolIds(rs)[..n + 1]) == if rs[n].id in Dedup(PoolIds(rs)[..n]) then Dedup(PoolIds(rs)[..n])
                                           else Dedup(PoolIds(rs)[..n]) + [rs[n].id]
  {
    assert PoolIds(rs)[..n + 1] == PoolIds(rs)[..n] + [rs[n].id];
    DedupSnoc(PoolIds(rs)[..n], rs[n].id);
  }

  /** One turn of the pool loop keeps what the loop has built. */
  lemma PoolsBuiltStep(out: Pools, rs: seq<QbpResource>, calendars: Dict<string, seq<TimePeriod>>, n: int,
                       entries: seq<PoolEntry>, ids: seq<string>, rc': Dict<string, seq<TimePeriod>>)
    requires 0 <= n < |rs| && PoolsBuiltUpTo(out, rs, calendars, n) && !PoolFails(rs[n], calendars)
    requires entries == ExpandedEntries(rs[n]) && ids == ExpandedIds(rs[n])
    requires CalendarsBound(rs[n], calendars, out.resourceCalendars, rc', PoolSize(rs[n]))
    ensures PoolsBuiltUpTo(Pools(Put(out.poolsJson, rs[n].id, PoolJson(rs[n].name, entries)),
                                 Put(out.resourcePools, rs[n].id, ids), rc'), rs, calendars, n + 1)
  {
    PoolsRecordedStep(out, rs, n);
    CalendarsRecordedStep(out, rs, calendars, n, rc');
    PoolKeysBuiltStep(out, rs, n, entries, rc');
  }

  lemma PoolKeysBuiltStep(out: Pools, rs: seq<QbpResource>, n: int, entries: seq<PoolEntry>,
                          rc': Dict<string, seq<TimePeriod>>)
    requires 0 <= n < |rs| && PoolKeysBuilt(out, rs, n) && DistinctKeys(out.resourceCalendars)
    requires Keys(rc') == Dedup(Keys(out.resourceCalendars) + ExpandedIds(rs[n])[..PoolSize(rs[n])])
    ensures PoolKeysBuilt(Pools(Put(out.poolsJson, rs[n].id, PoolJson(rs[n].name, entries)),
                                Put(out.resourcePools, rs[n].id, ExpandedIds(rs[n])), rc'), rs, n + 1)
  {
    PoolKeysStep(rs, n);
    ResourceCalendarKeysStep(rs, n);
    ResourcePoolsStep(rs, n);
    assert ExpandedIds(rs[n])[..PoolSize(rs[n])] == ExpandedIds(rs[n]);
  }

  /** The pool loop of `parse_qbp_simulation_process`: every pool is listed under its id
      with its expanded resources, each expanded resource is bound to the periods of its
      pool's timetable, and the first pool whose timetable is unknown (and which has
      resources to bind) stops everything with a `KeyError`. A pool id given twice keeps the
      position of its first occurrence and the contents of its last. Each resource id is
      listed in `resource_calendars` once, at its first binding, with the periods of the
      last pool that binds it. */
  method ExpandPools(rs: seq<QbpResource>, calendars: Dict<string, seq<TimePeriod>>) returns (r: Result<Pools>)
    ensures r.Failure? <==> exists i :: 0 <= i < |rs| && PoolFails(rs[i], calendars)
    ensures r.Failure? ==> exists i :: FirstPoolFailure(rs, calendars, i) && r.error == KeyError(rs[i].timetableId)
    ensures r.Success? ==>
      DistinctKeys(r.value.poolsJson) && DistinctKeys(r.value.resourcePools) && DistinctKeys(r.value.resourceCalendars)
    ensures r.Success? ==>
      Keys(r.value.poolsJson) == Dedup(PoolIds(rs)) && Keys(r.value.resourcePools) == Dedup(PoolIds(rs))
    ensures r.Success? ==> forall j :: 0 <= j < |rs| && LastOfId(rs, |rs|, j) ==>
      Get(r.value.poolsJson, rs[j].id) == Some(PoolJson(rs[j].name, ExpandedEntries(rs[j]))) &&
      Get(r.value.resourcePools, rs[j].id) == Some(ExpandedIds(rs[j]))
    ensures r.Success? ==> r.value.resourcePools == ResourcePools(rs)
    ensures r.Success? ==> Keys(r.value.resourceCalendars) == Dedup(AllExpandedIds(rs))
    ensures r.Success? ==> forall j, k ::
      0 <= j < |rs| && 0 <= k < PoolSize(rs[j]) && LastBinder(rs, |rs|, j, ExpandedIds(rs[j])[k]) ==>
      Get(r.value.resourceCalendars, ExpandedIds(rs[j])[k]) == Get(calendars, rs[j].timetableId)
  {
    var out := Pools([], [], []);
    for n := 0 to |rs|
      invariant PoolsBuiltUpTo(out, rs, calendars, n)
    {
      var res := rs[n];
      var step := ExpandPool(res, calendars, out.resourceCalendars);
      if step.Failure? {
        assert FirstPoolFailure(rs, calendars, n);
        return Failure(step.error);
      }
      PoolsBuiltStep(out, rs, calendars, n, step.value.0, step.value.1, step.value.2);
      out := Pools(Put(out.poolsJson, res.id, PoolJson(res.name, step.value.0)),
                   Put(out.resourcePools, res.id, step.value.1),
                   step.value.2);
    }
    assert PoolIds(rs)[..|rs|] == PoolIds(rs);
    assert rs[..|rs|] == rs;
    return Success(out);
  }

  // ---------------------------------------------------------------------------------------
  // Task-resource distributions

  /** A `qbp:element`: a task, the first pool of its `qbp:resourceIds`, and its duration
      distribution. */
  datatype QbpElement = QbpElement(elementId: string, resourceId: string, duration: DistInfo)

  /** What one element asks for: give every resource of its pool this duration. */
  datatype Assignment = Assignment(task: string, resources: seq<string>, dist: Option<Distribution>)

  /** One element read against the pools: the distribution is computed first (a
      `ZeroDivisionError` for a degenerate gamma), then the pool is looked up (a `KeyError`
      for an unknown pool). */
  function AssignmentOf(e: QbpElement, pools: Dict<string, seq<string>>): Result<Assignment> {
    var d := ExtractDistParams(e.duration);
    if d.Failure? then Failure(d.error)
    else match Get(pools, e.resourceId)
      case None => Failure(KeyError(e.resourceId))
      case Some(ids) => Success(Assignment(e.elementId, ids, d.value))
  }

  /** The error cases of one element, in the order they are raised. */
  lemma AssignmentOfCases(e: QbpElement, pools: Dict<string, seq<string>>)
    ensures AssignmentOf(e, pools).Failure? <==> ExtractDistParams(e.duration).Failure? || e.resourceId !in Keys(pools)
    ensures ExtractDistParams(e.duration).Failure? ==>
      AssignmentOf(e, pools) == Failure(ExtractDistParams(e.duration).error)
    ensures ExtractDistParams(e.duration).Success? && e.resourceId !in Keys(pools) ==>
      AssignmentOf(e, pools) == Failure(KeyError(e.resourceId))
    ensures AssignmentOf(e, pools).Success? ==>
      AssignmentOf(e, pools).value == Assignment(e.elementId, Get(pools, e.resourceId).value, ExtractDistParams(e.duration).value)
  {
  }

  /** Element `i` is the first that cannot be read. */
  predicate FirstElementFailure(es: seq<QbpElement>, pools: Dict<string, seq<string>>, i: int) {
    0 <= i < |es| && AssignmentOf(es[i], pools).Failure? &&
    forall j :: 0 <= j < i ==> AssignmentOf(es[j], pools).Success?
  }

  /** All elements read in order, stopping at the first that fails. */
  function Plan(es: seq<QbpElement>, pools: Dict<string, seq<string>>): Result<seq<Assignment>> {
    if es == [] then Success([])
    else
      var n := |es| - 1;
      var p := Plan(es[..n], pools);
      if p.Failure? then p
      else
        var a := AssignmentOf(es[n], pools);
        if a.Failure? then Failure(a.error)
        else Success(p.value + [a.value])
  }

  /** A successful reading holds one assignment per element, in the elements' order. */
  lemma {:induction false} PlanValues(es: seq<QbpElement>, pools: Dict<string, seq<string>>)
    requires Plan(es, pools).Success?
    ensures |Plan(es, pools).value| == |es|
    ensures forall i :: 0 <= i < |es| ==> AssignmentOf(es[i], pools) == Success(Plan(es, pools).value[i])
  {
    if es != [] {
      var n := |es| - 1;
      PlanValues(es[..n], pools);
      assert forall i :: 0 <= i < n ==> es[..n][i] == es[i];
    }
  }

  /** Reading succeeds exactly when no element fails. */
  lemma {:induction false} PlanSucceeds(es: seq<QbpElement>, pools: Dict<string, seq<string>>)
    ensures Plan(es, pools).Success? <==> forall i :: 0 <= i < |es| ==> AssignmentOf(es[i], pools).Success?
  {
    if es != [] {
      var n := |es| - 1;
      PlanSucceeds(es[..n], pools);
      if Plan(es[..n], pools).Failure? {
        var i :| 0 <= i < n && AssignmentOf(es[..n][i], pools).Failure?;
        assert es[..n][i] == es[i];
      } else {
        assert forall i :: 0 <= i < n ==> es[..n][i] == es[i];
      }
    }
  }

  /** Reading stops at the first element that fails, with that element's error. */
  lemma {:induction false} PlanFirstFailure(es: seq<QbpElement>, pools: Dict<string, seq<string>>)
    requires Plan(es, pools).Failure?
    ensures exists i :: FirstElementFailure(es, pools, i) && Plan(es, pools).error == AssignmentOf(es[i], pools).error
  {
    var n := |es| - 1;
    if Plan(es[..n], pools).Failure? {
      PlanFirstFailure(es[..n], pools);
      var i :| FirstElementFailure(es[..n], pools, i) && Plan(es[..n], pools).error == AssignmentOf(es[..n][i], pools).error;
      assert forall j :: 0 <= j <= i ==> es[..n][j] == es[j];
      assert FirstElementFailure(es, pools, i);
    } else {
      PlanSucceeds(es[..n], pools);
      assert forall j :: 0 <= j < n ==> es[..n][j] == es[j];
      assert FirstElementFailure(es, pools, n);
    }
  }

  function ElementTaskIds(es: seq<QbpElement>): (ids: seq<string>)
    ensures |ids| == |es|
    ensures forall k :: 0 <= k < |es| ==> ids[k] == es[k].elementId
  {
    seq(|es|, k requires 0 <= k < |es| => es[k].elementId)
  }

  /** The distribution the resource `rp` ends up with for task `t`: that of the last
      assignment of `t` whose pool contains `rp`, if there is one. */
  function LastAssigned(plan: seq<Assignment>, t: string, rp: string): Option<Option<Distribution>> {
    if plan == [] then None
    else
      var a := plan[|plan| - 1];
      if a.task == t && rp in a.resources then Some(a.dist) else LastAssigned(plan[..|plan| - 1], t, rp)
  }

  /** Every resource of the pool named by the last element of a task gets that element's
      distribution, so all resources expanded from one pool share it. */
  lemma {:induction false} PoolSharesDistribution(plan: seq<Assignment>, j: int, rp: string)
    requires 0 <= j < |plan| && rp in plan[j].resources
    requires forall m :: j < m < |plan| ==> plan[m].task != plan[j].task
    ensures LastAssigned(plan, plan[j].task, rp) == Some(plan[j].dist)
  {
    if j < |plan| - 1 {
      PoolSharesDistribution(plan[..|plan| - 1], j, rp);
    }
  }

  /** A resource has a distribution for a task exactly when some assignment of that task
      lists it. */
  lemma {:induction false} LastAssignedNone(plan: seq<Assignment>, t: string, rp: string)
    ensures LastAssigned(plan, t, rp).None? <==> forall m :: 0 <= m < |plan| ==> !(plan[m].task == t && rp in plan[m].resources)
  {
    if plan != [] {
      LastAssignedNone(plan[..|plan| - 1], t, rp);
    }
  }

  /** The keys of `task_resource_dist` after the first `i` elements. */
  ghost predicate DistsKeysBuilt(dists: Dict<string, Dict<string, Option<Distribution>>>, es: seq<QbpElement>, i: int)
    requires 0 <= i <= |es|
  {
    DistinctKeys(dists) && Keys(dists) == Dedup(ElementTaskIds(es)[..i]) && InnerDistinct(dists)
  }

  /** The values of `task_resource_dist` after the assignments `plan`. */
  ghost predicate DistsValuesBuilt(dists: Dict<string, Dict<string, Option<Distribution>>>, plan: seq<Assignment>) {
    forall t, rp :: Get(Get(dists, t).GetOr([]), rp) == LastAssigned(plan, t, rp)
  }

  /** The inner loop for one element: `task_resource_dist[task_id][rp_id] = t_dist` for
      each resource of the pool. */
  method AssignResources(inner: Dict<string, Option<Distribution>>, rps: seq<string>, d: Option<Distribution>)
    returns (inner': Dict<string, Option<Distribution>>)
    ensures forall rp :: Get(inner', rp) == if rp in rps then Some(d) else Get(inner, rp)
    ensures DistinctKeys(inner) ==> DistinctKeys(inner')
  {
    inner' := inner;
    for k := 0 to |rps|
      invariant forall rp :: Get(inner', rp) == if rp in rps[..k] then Some(d) else Get(inner, rp)
      invariant DistinctKeys(inner) ==> DistinctKeys(inner')
    {
      assert rps[..k + 1] == rps[..k] + [rps[k]];
      forall rp ensures Get(Put(inner', rps[k], d), rp) == if rp in rps[..k + 1] then Some(d) else Get(inner, rp) {
        PutGet(inner', rps[k], d, rp);
      }
      inner' := Put(inner', rps[k], d);
    }
    assert rps[..|rps|] == rps;
  }

  /** One element's assignment, creating the task's map when the task is new. */
  method AssignToPool(dists: Dict<string, Dict<string, Option<Distribution>>>, a: Assignment)
    returns (dists': Dict<string, Dict<string, Option<Distribution>>>)
    ensures Assigned(dists, dists', a)
  {
    var before := Get(dists, a.task).GetOr([]);
    var inner := AssignResources(before, a.resources, a.dist);
    dists' := Put(dists, a.task, inner);
    forall t', rp ensures Get(Get(dists', t').GetOr([]), rp) ==
      if t' == a.task && rp in a.resources then Some(a.dist) else Get(Get(dists, t').GetOr([]), rp)
    {
      PutGet(dists, a.task, inner, t');
      if t' == a.task {
        assert Get(dists', t') == Some(inner);
        assert Get(inner, rp) == if rp in a.resources then Some(a.dist) else Get(before, rp);
      } else {
        assert Get(dists', t') == Get(dists, t');
      }
    }
    if InnerDistinct(dists) {
      forall t' | Get(dists', t').Some? ensures DistinctKeys(Get(dists', t').value) {
        PutGet(dists, a.task, inner, t');
        if t' == a.task {
          assert DistinctKeys(before);
        } else {
          assert Get(dists', t') == Get(dists, t');
        }
      }
    }
  }

  /** `dists'` is `dists` after assignment `a`: the task is added if new, each resource of
      the pool maps to the distribution for that task, and nothing else changes. */
  ghost predicate Assigned(dists: Dict<string, Dict<string, Option<Distribution>>>,
                           dists': Dict<string, Dict<string, Option<Distribution>>>, a: Assignment)
  {
    && Keys(dists') == (if a.task in Keys(dists) then Keys(dists) else Keys(dists) + [a.task])
    && AssignedValues(dists, dists', a)
    && (DistinctKeys(dists) ==> DistinctKeys(dists'))
    && (InnerDistinct(dists) ==> InnerDistinct(dists'))
  }

  /** Each resource of the pool maps to the distribution for that task; every other pair
      keeps its value. */
  ghost predicate AssignedValues(dists: Dict<string, Dict<string, Option<Distribution>>>,
                                 dists': Dict<string, Dict<string, Option<Distribution>>>, a: Assignment)
  {
    forall t', rp :: Get(Get(dists', t').GetOr([]), rp) ==
      if t' == a.task && rp in a.resources then Some(a.dist) else Get(Get(dists, t').GetOr([]), rp)
  }

  /** Each task's map has distinct keys. */
  ghost predicate InnerDistinct(dists: Dict<string, Dict<string, Option<Distribution>>>) {
    forall t :: Get(dists, t).Some? ==> DistinctKeys(Get(dists, t).value)
  }

  /** Once reading fails, later elements change nothing. */
  lemma {:induction false} PlanPrefixFailure(es: seq<QbpElement>, pools: Dict<string, seq<string>>, j: int)
    requires 0 <= j <= |es| && Plan(es[..j], pools).Failure?
    ensures Plan(es, pools) == Plan(es[..j], pools)
    decreases |es| - j
  {
    if j == |es| {
      assert es[..j] == es;
    } else {
      var n := |es| - 1;
      assert es[..n][..j] == es[..j];
      PlanPrefixFailure(es[..n], pools, j);
      assert Plan(es[..n], pools).Failure?;
      assert Plan(es, pools) == Plan(es[..n], pools);
    }
  }

  lemma LastAssignedSnoc(plan: seq<Assignment>, a: Assignment, t: string, rp: string)
    ensures LastAssigned(plan + [a], t, rp) == if a.task == t && rp in a.resources then Some(a.dist) else LastAssigned(plan, t, rp)
  {
    assert (plan + [a])[..|plan|] == plan;
  }

  lemma DistsKeysStep(dists: Dict<string, Dict<string, Option<Distribution>>>,
                      dists': Dict<string, Dict<string, Option<Distribution>>>, es: seq<QbpElement>, i: int, a: Assignment)
    requires 0 <= i < |es| && DistsKeysBuilt(dists, es, i)
    requires Assigned(dists, dists', a) && a.task == es[i].elementId
    ensures DistsKeysBuilt(dists', es, i + 1)
  {
    var ids := ElementTaskIds(es);
    assert ids[..i + 1] == ids[..i] + [es[i].elementId];
    DedupSnoc(ids[..i], es[i].elementId);
  }

  lemma DistsValuesStep(dists: Dict<string, Dict<string, Option<Distribution>>>,
                        dists': Dict<string, Dict<string, Option<Distribution>>>, plan: seq<Assignment>, a: Assignment)
    requires DistsValuesBuilt(dists, plan) && AssignedValues(dists, dists', a)
    ensures DistsValuesBuilt(dists', plan + [a])
  {
    forall t, rp ensures Get(Get(dists', t).GetOr([]), rp) == LastAssigned(plan + [a], t, rp) {
      LastAssignedSnoc(plan, a, t, rp);
      assert Get(Get(dists', t).GetOr([]), rp) ==
        if t == a.task && rp in a.resources then Some(a.dist) else Get(Get(dists, t).GetOr([]), rp);
      assert Get(Get(dists, t).GetOr([]), rp) == LastAssigned(plan, t, rp);
    }
  }

  /** The body of the element loop: compute the distribution, look up the pool, assign. */
  method AssignElement(dists: Dict<string, Dict<string, Option<Distribution>>>, e: QbpElement,
                       pools: Dict<string, seq<string>>)
    returns (r: Result<Dict<string, Dict<string, Option<Distribution>>>>)
    ensures r.Failure? <==> AssignmentOf(e, pools).Failure?
    ensures r.Failure? ==> r.error == AssignmentOf(e, pools).error
    ensures r.Success? ==> AssignmentOf(e, pools).Success? && Assigned(dists, r.value, AssignmentOf(e, pools).value)
  {
    var tDist := ExtractDistParams(e.duration);
    if tDist.Failure? {
      assert AssignmentOf(e, pools) == Failure(tDist.error);
      return Failure(tDist.error);
    }
    var rpIds := Get(pools, e.resourceId);
    if rpIds.None? {
      assert AssignmentOf(e, pools) == Failure(KeyError(e.resourceId));
      return Failure(KeyError(e.resourceId));
    }
    var a := Assignment(e.elementId, rpIds.value, tDist.value);
    assert AssignmentOf(e, pools) == Success(a);
    var dists' := AssignToPool(dists, a);
    return Success(dists');
  }

  /** The element loop of `parse_qbp_simulation_process`: for each task, every resource of
      an assigned pool maps to the task's duration distribution, with later elements of the
      same task overriding; the first element that cannot be read stops everything with its
      error. */
  method AssignTaskDistributions(es: seq<QbpElement>, pools: Dict<string, seq<string>>)
    returns (r: Result<Dict<string, Dict<string, Option<Distribution>>>>)
    ensures r.Failure? <==> Plan(es, pools).Failure?
    ensures r.Failure? ==> r.error == Plan(es, pools).error
    ensures r.Success? ==> DistinctKeys(r.value) && Keys(r.value) == Dedup(ElementTaskIds(es))
    ensures r.Success? ==> forall t :: Get(r.value, t).Some? ==> DistinctKeys(Get(r.value, t).value)
    ensures r.Success? ==> forall t, rp :: Get(Get(r.value, t).GetOr([]), rp) == LastAssigned(Plan(es, pools).value, t, rp)
  {
    var dists: Dict<string, Dict<string, Option<Distribution>>> := [];
    ghost var plan: seq<Assignment> := [];
    for i := 0 to |es|
      invariant Plan(es[..i], pools) == Success(plan)
      invariant DistsKeysBuilt(dists, es, i) && DistsValuesBuilt(dists, plan)
    {
      assert es[..i + 1][..i] == es[..i];
      var step := AssignElement(dists, es[i], pools);
      if step.Failure? {
        PlanPrefixFailure(es, pools, i + 1);
        return Failure(step.error);
      }
      AssignmentOfCases(es[i], pools);
      DistsKeysStep(dists, step.value, es, i, AssignmentOf(es[i], pools).value);
      DistsValuesStep(dists, step.value, plan, AssignmentOf(es[i], pools).value);
      dists, plan := step.value, plan + [AssignmentOf(es[i], pools).value];
    }
    assert es[..|es|] == es;
    assert ElementTaskIds(es)[..|es|] == ElementTaskIds(es);
    return Success(dists);
  }

  /** No later element names the same task as element `i`: its assignment is the one the
      dictionary keeps. */
  predicate LastOfTask(es: seq<QbpElement>, i: int) {
    0 <= i < |es| && forall m :: i < m < |es| ==> es[m].elementId != es[i].elementId
  }

  /** Every resource of the pool named by the last element of a task holds that element's
      distribution. */
  lemma LastElementDistribution(es: seq<QbpElement>, pools: Dict<string, seq<string>>, i: int, rp: string)
    requires Plan(es, pools).Success? && LastOfTask(es, i)
    requires Get(pools, es[i].resourceId).Some? && rp in Get(pools, es[i].resourceId).value
    ensures ExtractDistParams(es[i].duration).Success?
    ensures LastAssigned(Plan(es, pools).value, es[i].elementId, rp) == Some(ExtractDistParams(es[i].duration).value)
  {
    PlanValues(es, pools);
    var plan := Plan(es, pools).value;
    forall m | 0 <= m < |es| ensures plan[m].task == es[m].elementId {
      AssignmentOfCases(es[m], pools);
    }
    AssignmentOfCases(es[i], pools);
    PoolSharesDistribution(plan, i, rp);
  }

  /** Each resource id is bound to the periods of the timetable of the last pool that
      binds it. */
  lemma PoolCalendarsRead(ts: seq<QbpTimetable>, rs: seq<QbpResource>, calendars: Dict<string, seq<TimePeriod>>,
                          rc: Dict<string, seq<TimePeriod>>)
    requires forall k :: Get(calendars, k).GetOr([]) == Collect(Batches(ts), k)
    requires forall i :: 0 <= i < |rs| ==> !PoolFails(rs[i], calendars)
    requires forall j, k :: 0 <= j < |rs| && 0 <= k < PoolSize(rs[j]) && LastBinder(rs, |rs|, j, ExpandedIds(rs[j])[k]) ==>
      Get(rc, ExpandedIds(rs[j])[k]) == Get(calendars, rs[j].timetableId)
    ensures forall j, k :: 0 <= j < |rs| && 0 <= k < PoolSize(rs[j]) && LastBinder(rs, |rs|, j, ExpandedIds(rs[j])[k]) ==>
      Get(rc, ExpandedIds(rs[j])[k]) == Some(Collect(Batches(ts), rs[j].timetableId))
  {
    forall j, k | 0 <= j < |rs| && 0 <= k < PoolSize(rs[j]) && LastBinder(rs, |rs|, j, ExpandedIds(rs[j])[k])
      ensures Get(rc, ExpandedIds(rs[j])[k]) == Some(Collect(Batches(ts), rs[j].timetableId))
    {
      assert !PoolFails(rs[j], calendars);
      assert Get(calendars, rs[j].timetableId).GetOr([]) == Collect(Batches(ts), rs[j].timetableId);
    }
  }

  /** Each resource of the pool named by a task's last element holds that element's
      distribution in the dictionary the element loop builds. */
  lemma TaskDistributionsRead(es: seq<QbpElement>, rs: seq<QbpResource>, pools: Dict<string, seq<string>>,
                              dists: Dict<string, Dict<string, Option<Distribution>>>)
    requires Plan(es, pools).Success?
    requires forall m :: 0 <= m < |es| ==> ExtractDistParams(es[m].duration).Success?
    requires forall t, rp :: Get(Get(dists, t).GetOr([]), rp) == LastAssigned(Plan(es, pools).value, t, rp)
    requires forall j :: 0 <= j < |rs| && LastOfId(rs, |rs|, j) ==> Get(pools, rs[j].id) == Some(ExpandedIds(rs[j]))
    ensures forall i, j, k ::
      (LastOfTask(es, i) && 0 <= j < |rs| && LastOfId(rs, |rs|, j) &&
       rs[j].id == es[i].resourceId && 0 <= k < PoolSize(rs[j])) ==>
      Get(Get(dists, es[i].elementId).GetOr([]), ExpandedIds(rs[j])[k]) == Some(ExtractDistParams(es[i].duration).value)
  {
    forall i, j, k | LastOfTask(es, i) && 0 <= j < |rs| && LastOfId(rs, |rs|, j) &&
      rs[j].id == es[i].resourceId && 0 <= k < PoolSize(rs[j])
      ensures Get(Get(dists, es[i].elementId).GetOr([]), ExpandedIds(rs[j])[k]) == Some(ExtractDistParams(es[i].duration).value)
    {
      LastElementDistribution(es, pools, i, ExpandedIds(rs[j])[k]);
    }
  }

  // ---------------------------------------------------------------------------------------
  // The document written

  /** The JSON document `parse_qbp_simulation_process` writes, without the gateway
      branching probabilities. */
  datatype QbpParameters = QbpParameters(
    resourceProfiles: Dict<string, PoolJson>,
    arrivalTimeDistribution: Option<Distribution>,
    arrivalTimeCalendar: seq<TimePeriod>,
    taskResourceDistribution: Dict<string, Dict<string, Option<Distribution>>>,
    resourceCalendars: Dict<string, seq<TimePeriod>>)

  /** With the pools built from `rs`, reading the elements succeeds exactly when every
      duration is computable and every element names one of the pools. */
  lemma PlanSucceedsOnPools(es: seq<QbpElement>, pools: Dict<string, seq<string>>, rs: seq<QbpResource>)
    requires Keys(pools) == Dedup(PoolIds(rs))
    ensures Plan(es, pools).Success? <==>
      forall i :: 0 <= i < |es| ==> ExtractDistParams(es[i].duration).Success? && es[i].resourceId in PoolIds(rs)
  {
    PlanSucceeds(es, pools);
    DedupMembers(PoolIds(rs));
    forall i | 0 <= i < |es|
      ensures AssignmentOf(es[i], pools).Success? <==>
        ExtractDistParams(es[i].duration).Success? && es[i].resourceId in PoolIds(rs)
    {
      AssignmentOfCases(es[i], pools);
    }
  }

  /** When steps 2 to 5 raise nothing: the arrival distribution is computable, every
      non-empty pool names a timetable that exists, every element's duration is computable
      and names a pool that exists, and some timetable id carries one of the two markers. */
  predicate QbpReadable(ts: seq<QbpTimetable>, arrival: DistInfo, rs: seq<QbpResource>, es: seq<QbpElement>) {
    && ExtractDistParams(arrival).Success?
    && (forall i :: 0 <= i < |rs| && PoolSize(rs[i]) > 0 ==> rs[i].timetableId in TimetableIds(ts))
    && (forall i :: 0 <= i < |es| ==> ExtractDistParams(es[i].duration).Success? && es[i].resourceId in PoolIds(rs))
    && ArrivalChoice(TimetableIds(ts)).Some?
  }

  /** The conditions of `QbpReadable` in the order the steps meet them: the arrival
      distribution, every pool's timetable, every element, and the arrival calendar. */
  lemma QbpReadableSteps(ts: seq<QbpTimetable>, arrival: DistInfo, rs: seq<QbpResource>, es: seq<QbpElement>,
                         calendars: Dict<string, seq<TimePeriod>>, arrivalId: Option<string>)
    requires Keys(calendars) == Dedup(TimetableIds(ts)) && arrivalId == ArrivalChoice(TimetableIds(ts))
    ensures QbpReadable(ts, arrival, rs, es) <==>
      && ExtractDistParams(arrival).Success?
      && (forall i :: 0 <= i < |rs| ==> !PoolFails(rs[i], calendars))
      && Plan(es, ResourcePools(rs)).Success?
      && ArrivalCalendar(calendars, arrivalId).Success?
  {
    DedupMembers(TimetableIds(ts));
    PlanSucceedsOnPools(es, ResourcePools(rs), rs);
    ArrivalCalendarFound(ts, calendars, arrivalId);
    ArrivalChoiceIsAnId(TimetableIds(ts));
  }

  /** Steps 2 to 5 of `parse_qbp_simulation_process`, in their order: timetables, arrival
      distribution, pools, task distributions, and the arrival calendar looked up last. */
  method ParseQbpSimulationProcess(ts: seq<QbpTimetable>, arrival: DistInfo, rs: seq<QbpResource>, es: seq<QbpElement>)
    returns (r: Result<QbpParameters>)
    ensures r.Success? <==> QbpReadable(ts, arrival, rs, es)
    ensures ExtractDistParams(arrival).Failure? ==> r == Failure(ExtractDistParams(arrival).error)
    ensures r.Success? ==> ExtractDistParams(arrival) == Success(r.value.arrivalTimeDistribution)
    ensures r.Success? ==> forall i :: 0 <= i < |rs| && PoolSize(rs[i]) > 0 ==> rs[i].timetableId in TimetableIds(ts)
    ensures r.Success? ==> ArrivalChoice(TimetableIds(ts)).Some?
    ensures r.Success? ==> r.value.arrivalTimeCalendar == Collect(Batches(ts), ArrivalChoice(TimetableIds(ts)).value)
    ensures r.Success? ==> Keys(r.value.resourceProfiles) == Dedup(PoolIds(rs))
    ensures r.Success? ==> Keys(r.value.taskResourceDistribution) == Dedup(ElementTaskIds(es))
    ensures r.Success? ==> forall j :: 0 <= j < |rs| && LastOfId(rs, |rs|, j) ==>
      Get(r.value.resourceProfiles, rs[j].id) == Some(PoolJson(rs[j].name, ExpandedEntries(rs[j])))
    ensures r.Success? ==> Keys(r.value.resourceCalendars) == Dedup(AllExpandedIds(rs))
    ensures r.Success? ==> forall j, k ::
      0 <= j < |rs| && 0 <= k < PoolSize(rs[j]) && LastBinder(rs, |rs|, j, ExpandedIds(rs[j])[k]) ==>
      Get(r.value.resourceCalendars, ExpandedIds(rs[j])[k]) == Some(Collect(Batches(ts), rs[j].timetableId))
    ensures r.Success? ==> Plan(es, ResourcePools(rs)).Success?
    ensures r.Success? ==>
      forall t, rp :: Get(Get(r.value.taskResourceDistribution, t).GetOr([]), rp) ==
        LastAssigned(Plan(es, ResourcePools(rs)).value, t, rp)
    ensures r.Success? ==> forall i, j, k ::
      (LastOfTask(es, i) && 0 <= j < |rs| && LastOfId(rs, |rs|, j) &&
       rs[j].id == es[i].resourceId && 0 <= k < PoolSize(rs[j])) ==>
      Get(Get(r.value.taskResourceDistribution, es[i].elementId).GetOr([]), ExpandedIds(rs[j])[k]) ==
      Some(ExtractDistParams(es[i].duration).value)
  {
    var calendars, arrivalId := ParseTimetables(ts);
    var arrivalDist := ExtractDistParams(arrival);
    if arrivalDist.Failure? {
      return Failure(arrivalDist.error);
    }
    QbpReadableSteps(ts, arrival, rs, es, calendars, arrivalId);
    var pools := ExpandPools(rs, calendars);
    if pools.Failure? {
      return Failure(pools.error);
    }
    var dists := AssignTaskDistributions(es, pools.value.resourcePools);
    if dists.Failure? {
      return Failure(dists.error);
    }
    var arrivalCalendar := ArrivalCalendar(calendars, arrivalId);
    ArrivalChoiceIsAnId(TimetableIds(ts));
    PlanSucceedsOnPools(es, pools.value.resourcePools, rs);
    PoolCalendarsRead(ts, rs, calendars, pools.value.resourceCalendars);
    TaskDistributionsRead(es, rs, pools.value.resourcePools, dists.value);
    if arrivalCalendar.Failure? {
      return Failure(arrivalCalendar.error);
    }
    return Success(QbpParameters(pools.value.poolsJson, arrivalDist.value, arrivalCalendar.value,
                                 dists.value, pools.value.resourceCalendars));
  }
}

