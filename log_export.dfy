/** The in-memory half of `save_prosimos_json` (log_parser.py) and the helpers that build
    its input: `map_task_id_from_names` re-keys the discovered dictionaries from task names
    to task ids, `_create_resource_profile_entry` makes one pool member, and
    `save_prosimos_json` restructures the discovered parameters into the simulator's JSON
    document. Writing the document to a file is not part of this model. */
module LogExport {
  import opened Wrappers
  import opened OrderedDict
  import opened Records

  // ---------------------------------------------------------------------------------------
  // map_task_id_from_names

  /** Every key of `d` has an entry in `fromName`. */
  predicate AllNamed<V>(d: Dict<string, V>, fromName: map<string, string>) {
    forall i :: 0 <= i < |d| ==> d[i].0 in fromName
  }

  /** Entry `i` is the first whose name `fromName` does not know. */
  predicate FirstUnnamed<V>(d: Dict<string, V>, fromName: map<string, string>, i: int) {
    0 <= i < |d| && d[i].0 !in fromName && AllNamed(d[..i], fromName)
  }

  /** The new key of every entry, in order: `from_name[t_name]`. */
  function MappedKeys<V>(d: Dict<string, V>, fromName: map<string, string>): (ks: seq<string>)
    requires AllNamed(d, fromName)
    ensures |ks| == |d|
    ensures forall i :: 0 <= i < |d| ==> ks[i] == fromName[d[i].0]
  {
    seq(|d|, i requires 0 <= i < |d| => fromName[d[i].0])
  }

  /** No later entry among the first `n` is sent to the same new key as entry `i`: its
      value is the one that survives. */
  predicate LastOfImage<V>(d: Dict<string, V>, fromName: map<string, string>, n: int, i: int)
    requires 0 <= i < n <= |d| && AllNamed(d[..n], fromName)
  {
    forall m :: i < m < n ==> fromName[d[..n][m].0] != fromName[d[..n][i].0]
  }

  /** What the re-keying loop has built from the first `n` entries. */
  ghost predicate ImagesRecorded<V>(out: Dict<string, V>, d: Dict<string, V>, fromName: map<string, string>, n: int)
    requires 0 <= n <= |d| && AllNamed(d[..n], fromName)
  {
    forall i :: 0 <= i < n && LastOfImage(d, fromName, n, i) ==> Get(out, fromName[d[i].0]) == Some(d[i].1)
  }

  /** `map_task_id_from_names`: each entry is stored under `from_name` of its key, in the
      order of the input; an entry whose name `from_name` does not know raises `KeyError`. */
  method MapTaskIdFromNames<V>(taskResourceDist: Dict<string, V>, fromName: map<string, string>)
    returns (r: Result<Dict<string, V>>)
    ensures r.Failure? <==> !AllNamed(taskResourceDist, fromName)
    ensures r.Failure? ==> exists i :: FirstUnnamed(taskResourceDist, fromName, i) && r.error == KeyError(taskResourceDist[i].0)
    ensures r.Success? ==> DistinctKeys(r.value) && Keys(r.value) == Dedup(MappedKeys(taskResourceDist, fromName))
    ensures r.Success? ==> forall i :: 0 <= i < |taskResourceDist| && LastOfImage(taskResourceDist, fromName, |taskResourceDist|, i) ==>
      Get(r.value, fromName[taskResourceDist[i].0]) == Some(taskResourceDist[i].1)
  {
    var d := taskResourceDist;
    var out: Dict<string, V> := [];
    for n := 0 to |d|
      invariant AllNamed(d[..n], fromName)
      invariant DistinctKeys(out) && Keys(out) == Dedup(MappedKeys(d[..n], fromName))
      invariant ImagesRecorded(out, d, fromName, n)
    {
      var tName := d[n].0;
      if tName !in fromName {
        assert FirstUnnamed(d, fromName, n);
        assert d[n].0 !in fromName;
        return Failure(KeyError(tName));
      }
      RenamedStep(out, d, fromName, n);
      out := Put(out, fromName[tName], d[n].1);
    }
    assert d[..|d|] == d;
    return Success(out);
  }

  lemma RenamedStep<V>(out: Dict<string, V>, d: Dict<string, V>, fromName: map<string, string>, n: int)
    requires 0 <= n < |d| && AllNamed(d[..n], fromName) && d[n].0 in fromName
    requires DistinctKeys(out) && Keys(out) == Dedup(MappedKeys(d[..n], fromName))
    requires ImagesRecorded(out, d, fromName, n)
    ensures AllNamed(d[..n + 1], fromName)
    ensures Keys(Put(out, fromName[d[n].0], d[n].1)) == Dedup(MappedKeys(d[..n + 1], fromName))
    ensures ImagesRecorded(Put(out, fromName[d[n].0], d[n].1), d, fromName, n + 1)
  {
    assert d[..n + 1] == d[..n] + [d[n]];
    assert MappedKeys(d[..n + 1], fromName) == MappedKeys(d[..n], fromName) + [fromName[d[n].0]];
    DedupSnoc(MappedKeys(d[..n], fromName), fromName[d[n].0]);
    ImagesRecordedStep(out, d, fromName, n);
  }

  lemma ImagesRecordedStep<V>(out: Dict<string, V>, d: Dict<string, V>, fromName: map<string, string>, n: int)
    requires 0 <= n < |d| && AllNamed(d[..n + 1], fromName)
    requires AllNamed(d[..n], fromName) && ImagesRecorded(out, d, fromName, n)
    ensures ImagesRecorded(Put(out, fromName[d[n].0], d[n].1), d, fromName, n + 1)
  {
    var k := fromName[d[n].0];
    forall i | 0 <= i < n + 1 && LastOfImage(d, fromName, n + 1, i)
      ensures Get(Put(out, k, d[n].1), fromName[d[i].0]) == Some(d[i].1)
    {
      PutGet(out, k, d[n].1, fromName[d[i].0]);
      if i < n {
        LastOfImageShrink(d, fromName, n, i);
      } else {
        assert d[..n + 1][i] == d[i];
      }
    }
  }

  /** An entry last for its image among `n + 1` entries is last among `n`, and differs in
      image from entry `n`. */
  lemma LastOfImageShrink<V>(d: Dict<string, V>, fromName: map<string, string>, n: int, i: int)
    requires 0 <= i < n < |d| && AllNamed(d[..n + 1], fromName) && AllNamed(d[..n], fromName)
    requires LastOfImage(d, fromName, n + 1, i)
    ensures fromName[d[i].0] != fromName[d[n].0]
    ensures LastOfImage(d, fromName, n, i)
  {
    assert d[..n + 1][n] == d[n] && d[..n + 1][i] == d[i];
    forall m | i < m < n ensures fromName[d[..n][m].0] != fromName[d[..n][i].0] {
      assert d[..n][m] == d[..n + 1][m] && d[..n][i] == d[..n + 1][i];
    }
  }

  /** With distinct names sent to distinct ids, every entry survives under its new key and
      the keys keep the input's order. */
  lemma InjectiveRenaming<V>(d: Dict<string, V>, fromName: map<string, string>)
    requires AllNamed(d, fromName) && DistinctKeys(d)
    requires forall a, b :: a in fromName && b in fromName && a != b ==> fromName[a] != fromName[b]
    ensures Dedup(MappedKeys(d, fromName)) == MappedKeys(d, fromName)
    ensures forall i :: 0 <= i < |d| ==> LastOfImage(d, fromName, |d|, i)
  {
    assert d[..|d|] == d;
    DedupOfDistinct(MappedKeys(d, fromName));
  }

  // ---------------------------------------------------------------------------------------
  // _create_resource_profile_entry

  /** One member of a resource pool, as the discovery stores it. */
  datatype ResourceEntry = ResourceEntry(id: string, name: string, costPerHour: int, amount: int)

  /** `_create_resource_profile_entry(r_id, r_name, amount=1, cost_per_hour=1)`. */
  function CreateResourceProfileEntry(rId: string, rName: string, amount: int := 1, costPerHour: int := 1): ResourceEntry
  {
    ResourceEntry(rId, rName, costPerHour, amount)
  }

  // ---------------------------------------------------------------------------------------
  // save_prosimos_json: calendars and parameter records

  /** `r_id + "timetable"`: the id of a resource's calendar (no separator, unlike the
      `_timetable` ids the parser derives). */
  function CalendarIdOf(rId: string): (id: string)
    ensures |id| == |rId| + 9 && id[..|rId|] == rId && id[|rId|..] == CalendarSuffix
  {
    rId + CalendarSuffix
  }

  const CalendarSuffix: string := "timetable"

  /** Distinct resources get distinct calendar ids. */
  lemma CalendarIdInjective(a: string, b: string)
    requires CalendarIdOf(a) == CalendarIdOf(b)
    ensures a == b
  {
    assert a == CalendarIdOf(a)[..|a|];
  }

  /** `{"id": ..., "name": ..., "time_periods": ...}`. */
  datatype CalendarJson = CalendarJson(id: string, name: string, timePeriods: seq<TimePeriod>)

  /** The resource a calendar was written for, read back from its id. */
  function CalendarOwner(c: CalendarJson): string {
    if |c.id| >= |CalendarSuffix| then c.id[..|c.id| - |CalendarSuffix|] else c.id
  }

  /** The resource calendars read back from the written list. */
  function CalendarsOf(cs: seq<CalendarJson>): (d: Dict<string, seq<TimePeriod>>)
    ensures |d| == |cs| && forall i :: 0 <= i < |cs| ==> d[i] == (CalendarOwner(cs[i]), cs[i].timePeriods)
  {
    seq(|cs|, i requires 0 <= i < |cs| => (CalendarOwner(cs[i]), cs[i].timePeriods))
  }

  /** The first loop of `save_prosimos_json`: one calendar per resource, in the order of the
      resources, named and identified by `r_id + "timetable"`. Nothing is lost: reading the
      owners back gives the input. */
  method BuildResourceCalendars(resourceCalendars: Dict<string, seq<TimePeriod>>) returns (cs: seq<CalendarJson>)
    ensures |cs| == |resourceCalendars|
    ensures forall i :: 0 <= i < |cs| ==> cs[i].id == CalendarIdOf(resourceCalendars[i].0) && cs[i].name == cs[i].id
    ensures CalendarsOf(cs) == resourceCalendars
  {
    cs := [];
    for i := 0 to |resourceCalendars|
      invariant |cs| == i
      invariant forall j :: 0 <= j < i ==>
        cs[j] == CalendarJson(CalendarIdOf(resourceCalendars[j].0), CalendarIdOf(resourceCalendars[j].0), resourceCalendars[j].1)
    {
      var rId := resourceCalendars[i].0;
      cs := cs + [CalendarJson(rId + "timetable", rId + "timetable", resourceCalendars[i].1)];
    }
    forall i | 0 <= i < |cs| ensures CalendarsOf(cs)[i] == resourceCalendars[i] {
      var id := CalendarIdOf(resourceCalendars[i].0);
      assert id[..|id| - |CalendarSuffix|] == resourceCalendars[i].0;
    }
  }

  /** `{"value": d_param}`. */
  datatype ParamValue = ParamValue(value: real)

  function Unwrapped(vs: seq<ParamValue>): (ps: seq<real>)
    ensures |ps| == |vs| && forall i :: 0 <= i < |vs| ==> ps[i] == vs[i].value
  {
    seq(|vs|, i requires 0 <= i < |vs| => vs[i].value)
  }

  /** The loop over `distribution_params`: one `{"value": p}` record per parameter, in order. */
  method WrapParams(params: seq<real>) returns (vs: seq<ParamValue>)
    ensures Unwrapped(vs) == params
  {
    vs := [];
    for i := 0 to |params|
      invariant |vs| == i && forall j :: 0 <= j < i ==> vs[j].value == params[j]
    {
      vs := vs + [ParamValue(params[i])];
    }
    assert Unwrapped(vs) == params;
  }

  /** The parameters have exactly one record each: the wrapping is a bijection. */
  lemma UnwrappedInjective(vs: seq<ParamValue>, ws: seq<ParamValue>)
    requires Unwrapped(vs) == Unwrapped(ws)
    ensures vs == ws
  {
    assert |vs| == |Unwrapped(vs)| == |ws|;
    forall i | 0 <= i < |vs| ensures vs[i] == ws[i] {
      assert vs[i].value == Unwrapped(vs)[i] == ws[i].value;
    }
  }

  // ---------------------------------------------------------------------------------------
  // save_prosimos_json: task distributions and the tasks assigned to each resource

  /** `{"resource_id": ..., "distribution_name": ..., "distribution_params": [...]}`. */
  datatype ResourceDistJson = ResourceDistJson(resourceId: string, distributionName: string, distributionParams: seq<ParamValue>)

  /** `{"task_id": ..., "resources": [...]}`. */
  datatype TaskDistJson = TaskDistJson(taskId: string, resources: seq<ResourceDistJson>)

  /** A task's resource distributions read back from the written list. */
  function ResourcesOf(rs: seq<ResourceDistJson>): (d: Dict<string, Distribution>)
    ensures |d| == |rs|
    ensures forall j :: 0 <= j < |rs| ==>
      d[j] == (rs[j].resourceId, Distribution(rs[j].distributionName, Unwrapped(rs[j].distributionParams)))
  {
    seq(|rs|, j requires 0 <= j < |rs| =>
      (rs[j].resourceId, Distribution(rs[j].distributionName, Unwrapped(rs[j].distributionParams))))
  }

  /** The task distributions read back from the written list. */
  function DistributionsOf(ts: seq<TaskDistJson>): (d: Dict<string, Dict<string, Distribution>>)
    ensures |d| == |ts| && forall i :: 0 <= i < |ts| ==> d[i] == (ts[i].taskId, ResourcesOf(ts[i].resources))
  {
    seq(|ts|, i requires 0 <= i < |ts| => (ts[i].taskId, ResourcesOf(ts[i].resources)))
  }

  /** The (task, resource) pairs of one task's map, in its order. */
  function TaskPairs(t: string, inner: Dict<string, Distribution>): (ps: seq<(string, string)>)
    ensures |ps| == |inner| && forall j :: 0 <= j < |inner| ==> ps[j] == (t, inner[j].0)
  {
    seq(|inner|, j requires 0 <= j < |inner| => (t, inner[j].0))
  }

  /** All (task, resource) pairs in the order the nested loop visits them. */
  function AllPairs(trd: Dict<string, Dict<string, Distribution>>): seq<(string, string)> {
    if trd == [] then [] else AllPairs(trd[..|trd| - 1]) + TaskPairs(trd[|trd| - 1].0, trd[|trd| - 1].1)
  }

  /** The tasks paired with resource `r`, in visiting order. */
  function TasksOf(ps: seq<(string, string)>, r: string): seq<string> {
    if ps == [] then []
    else TasksOf(ps[..|ps| - 1], r) + (if ps[|ps| - 1].1 == r then [ps[|ps| - 1].0] else [])
  }

  /** What `assigned_tasks[r]` holds after visiting the pairs `ps`: nothing for a resource
      not yet seen, otherwise its tasks, each once, in the order first seen. */
  function AssignedSpec(ps: seq<(string, string)>, r: string): Option<seq<string>> {
    if TasksOf(ps, r) == [] then None else Some(Dedup(TasksOf(ps, r)))
  }

  function MapGet(m: map<string, seq<string>>, r: string): Option<seq<string>> {
    if r in m then Some(m[r]) else None
  }

  ghost predicate AssignedFrom(assignedTasks: map<string, seq<string>>, ps: seq<(string, string)>) {
    forall r :: MapGet(assignedTasks, r) == AssignedSpec(ps, r)
  }

  /** The body of the inner loop on `assigned_tasks`. */
  function AssignTask(assignedTasks: map<string, seq<string>>, t: string, r: string): map<string, seq<string>> {
    var a := if r !in assignedTasks then assignedTasks[r := []] else assignedTasks;
    if t !in a[r] then a[r := a[r] + [t]] else a
  }

  lemma TasksOfSnoc(ps: seq<(string, string)>, p: (string, string), r: string)
    ensures TasksOf(ps + [p], r) == TasksOf(ps, r) + (if p.1 == r then [p.0] else [])
  {
    assert (ps + [p])[..|ps|] == ps;
  }

  lemma AssignTaskStep(assignedTasks: map<string, seq<string>>, ps: seq<(string, string)>, t: string, r: string)
    requires AssignedFrom(assignedTasks, ps)
    ensures AssignedFrom(AssignTask(assignedTasks, t, r), ps + [(t, r)])
  {
    var a' := AssignTask(assignedTasks, t, r);
    forall r' ensures MapGet(a', r') == AssignedSpec(ps + [(t, r)], r') {
      TasksOfSnoc(ps, (t, r), r');
      assert MapGet(assignedTasks, r') == AssignedSpec(ps, r');
      if r' == r {
        AssignTaskHere(assignedTasks, ps, t, r);
      } else {
        assert TasksOf(ps + [(t, r)], r') == TasksOf(ps, r');
        assert MapGet(a', r') == MapGet(assignedTasks, r');
      }
    }
  }

  lemma AssignTaskHere(assignedTasks: map<string, seq<string>>, ps: seq<(string, string)>, t: string, r: string)
    requires MapGet(assignedTasks, r) == AssignedSpec(ps, r)
    ensures MapGet(AssignTask(assignedTasks, t, r), r) == AssignedSpec(ps + [(t, r)], r)
  {
    var ts := TasksOf(ps, r);
    TasksOfSnoc(ps, (t, r), r);
    assert TasksOf(ps + [(t, r)], r) == ts + [t];
    DedupSnoc(ts, t);
    if ts == [] {
      assert r !in assignedTasks;
      assert ts + [t] == [t];
      assert Dedup([t]) == [t] by { assert [t][..0] == []; }
      assert AssignTask(assignedTasks, t, r)[r] == [t];
    } else {
      assert assignedTasks[r] == Dedup(ts);
    }
  }

  /** The inner loop for one task: one record per resource, and `assigned_tasks` updated. */
  method ReadTask(t: string, inner: Dict<string, Distribution>, assignedTasks: map<string, seq<string>>,
                  ghost ps: seq<(string, string)>)
    returns (resources: seq<ResourceDistJson>, assignedTasks': map<string, seq<string>>)
    requires AssignedFrom(assignedTasks, ps)
    ensures ResourcesOf(resources) == inner
    ensures AssignedFrom(assignedTasks', ps + TaskPairs(t, inner))
  {
    resources, assignedTasks' := [], assignedTasks;
    assert ps + TaskPairs(t, inner)[..0] == ps;
    for j := 0 to |inner|
      invariant |resources| == j
      invariant forall k :: 0 <= k < j ==> ResourcesOf(resources)[k] == inner[k]
      invariant AssignedFrom(assignedTasks', ps + TaskPairs(t, inner)[..j])
    {
      var rId := inner[j].0;
      var distInfo := inner[j].1;
      AssignTaskStep(assignedTasks', ps + TaskPairs(t, inner)[..j], t, rId);
      assert ps + TaskPairs(t, inner)[..j + 1] == ps + TaskPairs(t, inner)[..j] + [(t, rId)];
      assignedTasks' := AssignTask(assignedTasks', t, rId);
      var distributionParams := WrapParams(distInfo.params);
      resources := resources + [ResourceDistJson(rId, distInfo.name, distributionParams)];
      assert ResourcesOf(resources)[j] == inner[j];
    }
    assert TaskPairs(t, inner)[..|inner|] == TaskPairs(t, inner);
  }

  /** The second loop of `save_prosimos_json`: the task distributions, written without loss,
      and `assigned_tasks`, which maps every resource some task's map mentions to those
      tasks, each once, in the order first seen. */
  method BuildTaskDistributions(trd: Dict<string, Dict<string, Distribution>>)
    returns (ts: seq<TaskDistJson>, assignedTasks: map<string, seq<string>>)
    ensures DistributionsOf(ts) == trd
    ensures AssignedFrom(assignedTasks, AllPairs(trd))
  {
    ts, assignedTasks := [], map[];
    for i := 0 to |trd|
      invariant |ts| == i
      invariant forall k :: 0 <= k < i ==> DistributionsOf(ts)[k] == trd[k]
      invariant AssignedFrom(assignedTasks, AllPairs(trd[..i]))
    {
      assert trd[..i + 1][..i] == trd[..i];
      var tId := trd[i].0;
      var resources;
      resources, assignedTasks := ReadTask(tId, trd[i].1, assignedTasks, AllPairs(trd[..i]));
      ts := ts + [TaskDistJson(tId, resources)];
      assert DistributionsOf(ts)[i] == trd[i];
    }
    assert trd[..|trd|] == trd;
  }

  /** A task is assigned to a resource exactly when its map mentions the resource. */
  lemma {:induction false} TasksOfMembers(ps: seq<(string, string)>, r: string, t: string)
    ensures t in TasksOf(ps, r) <==> (t, r) in ps
  {
    if ps != [] {
      var n := |ps| - 1;
      TasksOfMembers(ps[..n], r, t);
      assert ps == ps[..n] + [ps[n]];
    }
  }

  lemma {:induction false} AllPairsMembers(trd: Dict<string, Dict<string, Distribution>>, t: string, r: string)
    ensures (t, r) in AllPairs(trd) <==> exists i :: 0 <= i < |trd| && trd[i].0 == t && r in Keys(trd[i].1)
  {
    if trd != [] {
      var n := |trd| - 1;
      AllPairsMembers(trd[..n], t, r);
      var tp := TaskPairs(trd[n].0, trd[n].1);
      if (t, r) in tp {
        var j :| 0 <= j < |tp| && tp[j] == (t, r);
        assert Keys(trd[n].1)[j] == r;
      }
      if trd[n].0 == t && r in Keys(trd[n].1) {
        var j :| 0 <= j < |trd[n].1| && Keys(trd[n].1)[j] == r;
        assert tp[j] == (t, r);
      }
      assert forall i :: 0 <= i < n ==> trd[..n][i] == trd[i];
    }
  }

  /** Task `t`'s distribution map mentions resource `r`. */
  predicate Mentions(trd: Dict<string, Dict<string, Distribution>>, t: string, r: string) {
    exists i :: 0 <= i < |trd| && trd[i].0 == t && r in Keys(trd[i].1)
  }

  /** The tasks paired with `r` are exactly those whose distribution map mentions `r`. */
  lemma TasksOfAllPairs(trd: Dict<string, Dict<string, Distribution>>, r: string, t: string)
    ensures t in TasksOf(AllPairs(trd), r) <==> Mentions(trd, t, r)
  {
    TasksOfMembers(AllPairs(trd), r, t);
    AllPairsMembers(trd, t, r);
  }

  /** `assigned_tasks[r]` holds exactly the tasks whose distribution map mentions `r` (each
      once, as `Dedup` keeps its elements distinct). */
  lemma AssignedTasksExactly(trd: Dict<string, Dict<string, Distribution>>, r: string)
    ensures forall t :: t in Dedup(TasksOf(AllPairs(trd), r)) <==> Mentions(trd, t, r)
  {
    var ts := TasksOf(AllPairs(trd), r);
    DedupMembers(ts);
    forall t ensures t in Dedup(ts) <==> Mentions(trd, t, r) {
      TasksOfAllPairs(trd, r, t);
    }
  }

  /** Some task's distribution map mentions resource `r`. */
  predicate Mentioned(trd: Dict<string, Dict<string, Distribution>>, r: string) {
    exists i :: 0 <= i < |trd| && r in Keys(trd[i].1)
  }

  /** `assigned_tasks` has an entry for `r` exactly when some task's map mentions `r`. */
  lemma AssignedTasksPresent(trd: Dict<string, Dict<string, Distribution>>, r: string)
    ensures AssignedSpec(AllPairs(trd), r).Some? <==> Mentioned(trd, r)
  {
    var ts := TasksOf(AllPairs(trd), r);
    if ts != [] {
      TasksOfAllPairs(trd, r, ts[0]);
    }
    if Mentioned(trd, r) {
      var i :| 0 <= i < |trd| && r in Keys(trd[i].1);
      TasksOfAllPairs(trd, r, trd[i].0);
    }
  }

  // ---------------------------------------------------------------------------------------
  // save_prosimos_json: resource profiles

  /** A discovered pool: `{"name": ..., "resource_list": [...]}`. */
  datatype ProfileInfo = ProfileInfo(name: string, resourceList: seq<ResourceEntry>)

  /** A written pool member, with its calendar id and the tasks assigned to it. */
  datatype ResourceJson = ResourceJson(id: string, name: string, costPerHour: int, amount: int,
                                       calendar: string, assignedTasks: seq<string>)

  datatype ProfileJson = ProfileJson(id: string, name: string, resourceList: seq<ResourceJson>)

  /** Every member of `list` has an entry in `assigned_tasks`. */
  predicate AllAssigned(list: seq<ResourceEntry>, assignedTasks: map<string, seq<string>>) {
    forall j :: 0 <= j < |list| ==> list[j].id in assignedTasks
  }

  /** Member `j` is the first whose `assigned_tasks[resource["id"]]` raises `KeyError`. */
  predicate FirstUnassigned(list: seq<ResourceEntry>, assignedTasks: map<string, seq<string>>, j: int) {
    0 <= j < |list| && list[j].id !in assignedTasks && AllAssigned(list[..j], assignedTasks)
  }

  /** Pool `i` is the first with a member that has no assigned tasks. */
  predicate FirstUnassignedProfile(profiles: Dict<string, ProfileInfo>, assignedTasks: map<string, seq<string>>, i: int) {
    0 <= i < |profiles| && !AllAssigned(profiles[i].1.resourceList, assignedTasks) &&
    forall k :: 0 <= k < i ==> AllAssigned(profiles[k].1.resourceList, assignedTasks)
  }

  /** The written form of one member: its fields, `id + "timetable"` as its calendar, and
      the tasks assigned to it. */
  function ResourceJsonOf(e: ResourceEntry, tasks: seq<string>): (j: ResourceJson)
    ensures j.id == e.id && j.name == e.name && j.costPerHour == e.costPerHour && j.amount == e.amount
    ensures j.calendar == CalendarIdOf(e.id) && j.assignedTasks == tasks
  {
    ResourceJson(e.id, e.name, e.costPerHour, e.amount, CalendarIdOf(e.id), tasks)
  }

  function ResourcesJsonOf(list: seq<ResourceEntry>, assignedTasks: map<string, seq<string>>): (rs: seq<ResourceJson>)
    requires AllAssigned(list, assignedTasks)
    ensures |rs| == |list| && forall j :: 0 <= j < |list| ==> rs[j] == ResourceJsonOf(list[j], assignedTasks[list[j].id])
  {
    seq(|list|, j requires 0 <= j < |list| => ResourceJsonOf(list[j], assignedTasks[list[j].id]))
  }

  /** The inner loop over one pool's `resource_list`. */
  method BuildResourceList(list: seq<ResourceEntry>, assignedTasks: map<string, seq<string>>)
    returns (r: Result<seq<ResourceJson>>)
    ensures r.Failure? <==> !AllAssigned(list, assignedTasks)
    ensures r.Failure? ==> exists j :: FirstUnassigned(list, assignedTasks, j) && r.error == KeyError(list[j].id)
    ensures r.Success? ==> r.value == ResourcesJsonOf(list, assignedTasks)
  {
    var resourceList: seq<ResourceJson> := [];
    for j := 0 to |list|
      invariant AllAssigned(list[..j], assignedTasks)
      invariant |resourceList| == j
      invariant forall k :: 0 <= k < j ==> resourceList[k] == ResourceJsonOf(list[k], assignedTasks[list[k].id])
    {
      var resource := list[j];
      if resource.id !in assignedTasks {
        assert FirstUnassigned(list, assignedTasks, j);
        return Failure(KeyError(resource.id));
      }
      resourceList := resourceList + [ResourceJson(resource.id, resource.name, resource.costPerHour, resource.amount,
                                                   resource.id + "timetable", assignedTasks[resource.id])];
      assert list[..j + 1] == list[..j] + [list[j]];
    }
    assert list[..|list|] == list;
    return Success(resourceList);
  }

  /** The written form of one pool. */
  function ProfileJsonOf(id: string, info: ProfileInfo, assignedTasks: map<string, seq<string>>): (p: ProfileJson)
    requires AllAssigned(info.resourceList, assignedTasks)
    ensures p.id == id && p.name == info.name && p.resourceList == ResourcesJsonOf(info.resourceList, assignedTasks)
  {
    ProfileJson(id, info.name, ResourcesJsonOf(info.resourceList, assignedTasks))
  }

  /** The third loop of `save_prosimos_json`: one written pool per discovered pool, in order;
      the first member without assigned tasks raises `KeyError`. */
  method BuildResourceProfiles(profiles: Dict<string, ProfileInfo>, assignedTasks: map<string, seq<string>>)
    returns (r: Result<seq<ProfileJson>>)
    ensures r.Failure? <==> exists i :: 0 <= i < |profiles| && !AllAssigned(profiles[i].1.resourceList, assignedTasks)
    ensures r.Failure? ==> exists i, j :: (FirstUnassignedProfile(profiles, assignedTasks, i) &&
      FirstUnassigned(profiles[i].1.resourceList, assignedTasks, j) && r.error == KeyError(profiles[i].1.resourceList[j].id))
    ensures r.Success? ==> |r.value| == |profiles|
    ensures r.Success? ==> forall i :: 0 <= i < |profiles| ==> (AllAssigned(profiles[i].1.resourceList, assignedTasks) &&
      r.value[i] == ProfileJsonOf(profiles[i].0, profiles[i].1, assignedTasks))
  {
    var resourceProfiles: seq<ProfileJson> := [];
    for i := 0 to |profiles|
      invariant |resourceProfiles| == i
      invariant forall k :: 0 <= k < i ==> (AllAssigned(profiles[k].1.resourceList, assignedTasks) &&
        resourceProfiles[k] == ProfileJsonOf(profiles[k].0, profiles[k].1, assignedTasks))
    {
      var rpInfo := profiles[i].1;
      var resourceList := BuildResourceList(rpInfo.resourceList, assignedTasks);
      if resourceList.Failure? {
        assert FirstUnassignedProfile(profiles, assignedTasks, i);
        return Failure(resourceList.error);
      }
      resourceProfiles := resourceProfiles + [ProfileJson(profiles[i].0, rpInfo.name, resourceList.value)];
    }
    return Success(resourceProfiles);
  }

  // ---------------------------------------------------------------------------------------
  // save_prosimos_json: gateway branching and the arrival distribution

  /** `{"path_id": flow_arc, "value": probability}`. */
  datatype ProbabilityJson = ProbabilityJson(pathId: string, value: real)

  datatype GatewayJson = GatewayJson(gatewayId: string, probabilities: seq<ProbabilityJson>)

  /** A gateway's arc probabilities read back from the written list. */
  function ProbabilitiesOf(ps: seq<ProbabilityJson>): (d: Dict<string, real>)
    ensures |d| == |ps| && forall j :: 0 <= j < |ps| ==> d[j] == (ps[j].pathId, ps[j].value)
  {
    seq(|ps|, j requires 0 <= j < |ps| => (ps[j].pathId, ps[j].value))
  }

  /** The branching probabilities read back from the written list. */
  function BranchingOf(gs: seq<GatewayJson>): (d: Dict<string, Dict<string, real>>)
    ensures |d| == |gs| && forall i :: 0 <= i < |gs| ==> d[i] == (gs[i].gatewayId, ProbabilitiesOf(gs[i].probabilities))
  {
    seq(|gs|, i requires 0 <= i < |gs| => (gs[i].gatewayId, ProbabilitiesOf(gs[i].probabilities)))
  }

  /** The inner loop over one gateway's arcs. */
  method BuildProbabilities(gInfo: Dict<string, real>) returns (probabilities: seq<ProbabilityJson>)
    ensures ProbabilitiesOf(probabilities) == gInfo
  {
    probabilities := [];
    for j := 0 to |gInfo|
      invariant |probabilities| == j && forall k :: 0 <= k < j ==> ProbabilitiesOf(probabilities)[k] == gInfo[k]
    {
      probabilities := probabilities + [ProbabilityJson(gInfo[j].0, gInfo[j].1)];
      assert ProbabilitiesOf(probabilities)[j] == gInfo[j];
    }
  }

  /** The fourth loop of `save_prosimos_json`: one record per gateway and per arc, in order,
      written without loss. */
  method BuildGatewayBranching(gateways: Dict<string, Dict<string, real>>) returns (gs: seq<GatewayJson>)
    ensures BranchingOf(gs) == gateways
  {
    gs := [];
    for i := 0 to |gateways|
      invariant |gs| == i && forall k :: 0 <= k < i ==> BranchingOf(gs)[k] == gateways[k]
    {
      var probabilities := BuildProbabilities(gateways[i].1);
      gs := gs + [GatewayJson(gateways[i].0, probabilities)];
      assert BranchingOf(gs)[i] == gateways[i];
    }
  }

  /** `{"distribution_name": ..., "distribution_params": [{"value": p}, ...]}`. */
  datatype ArrivalJson = ArrivalJson(distributionName: string, distributionParams: seq<ParamValue>)

  // ---------------------------------------------------------------------------------------
  // save_prosimos_json

  /** The dictionary `to_save` the discovery hands over. */
  datatype ToSave = ToSave(
    resourceProfiles: Dict<string, ProfileInfo>,
    arrivalTimeDistribution: Distribution,
    arrivalTimeCalendar: seq<TimePeriod>,
    gatewayBranchingProbabilities: Dict<string, Dict<string, real>>,
    taskResourceDistribution: Dict<string, Dict<string, Distribution>>,
    resourceCalendars: Dict<string, seq<TimePeriod>>)

  /** The document passed to `json.dump`. */
  datatype ProsimosJson = ProsimosJson(
    resourceProfiles: seq<ProfileJson>,
    arrivalTimeDistribution: ArrivalJson,
    arrivalTimeCalendar: seq<TimePeriod>,
    gatewayBranchingProbabilities: seq<GatewayJson>,
    taskResourceDistribution: seq<TaskDistJson>,
    resourceCalendars: seq<CalendarJson>)

  /** Some member of some pool has no task whose distribution map mentions it. */
  predicate HasIdleResource(toSave: ToSave) {
    exists i, j :: 0 <= i < |toSave.resourceProfiles| && 0 <= j < |toSave.resourceProfiles[i].1.resourceList| &&
      !Mentioned(toSave.taskResourceDistribution, toSave.resourceProfiles[i].1.resourceList[j].id)
  }

  /** Member `j` of pool `i` is the first, in the order the pools are written, that no
      task mentions. */
  predicate FirstIdle(toSave: ToSave, i: int, j: int) {
    var trd, ps := toSave.taskResourceDistribution, toSave.resourceProfiles;
    && 0 <= i < |ps| && 0 <= j < |ps[i].1.resourceList|
    && !Mentioned(trd, ps[i].1.resourceList[j].id)
    && (forall m :: 0 <= m < j ==> Mentioned(trd, ps[i].1.resourceList[m].id))
    && (forall k, m :: 0 <= k < i && 0 <= m < |ps[k].1.resourceList| ==> Mentioned(trd, ps[k].1.resourceList[m].id))
  }

  /** What the written document says about the discovered parameters. */
  ghost predicate Written(toSave: ToSave, doc: ProsimosJson) {
    && CalendarsOf(doc.resourceCalendars) == toSave.resourceCalendars
    && (forall k :: 0 <= k < |doc.resourceCalendars| ==>
          doc.resourceCalendars[k].id == CalendarIdOf(toSave.resourceCalendars[k].0) &&
          doc.resourceCalendars[k].name == doc.resourceCalendars[k].id)
    && DistributionsOf(doc.taskResourceDistribution) == toSave.taskResourceDistribution
    && BranchingOf(doc.gatewayBranchingProbabilities) == toSave.gatewayBranchingProbabilities
    && doc.arrivalTimeDistribution.distributionName == toSave.arrivalTimeDistribution.name
    && Unwrapped(doc.arrivalTimeDistribution.distributionParams) == toSave.arrivalTimeDistribution.params
    && doc.arrivalTimeCalendar == toSave.arrivalTimeCalendar
    && |doc.resourceProfiles| == |toSave.resourceProfiles|
    && forall i :: 0 <= i < |toSave.resourceProfiles| ==> ProfileWritten(toSave, doc.resourceProfiles[i], i)
  }

  /** Pool `i` is written with its id, its name and one record per member, each with the
      member's fields, the calendar id `id + "timetable"` and the tasks assigned to it. */
  ghost predicate ProfileWritten(toSave: ToSave, p: ProfileJson, i: int)
    requires 0 <= i < |toSave.resourceProfiles|
  {
    var (id, info) := toSave.resourceProfiles[i];
    && p.id == id && p.name == info.name && |p.resourceList| == |info.resourceList|
    && forall j :: 0 <= j < |info.resourceList| ==>
         AssignedSpec(AllPairs(toSave.taskResourceDistribution), info.resourceList[j].id).Some? &&
         p.resourceList[j] ==
           ResourceJsonOf(info.resourceList[j], AssignedSpec(AllPairs(toSave.taskResourceDistribution), info.resourceList[j].id).value)
  }

  /** `save_prosimos_json` up to the `json.dump`: the document, or the `KeyError` of the
      first pool member that no task is assigned to. */
  method SaveProsimosJson(toSave: ToSave) returns (r: Result<ProsimosJson>)
    ensures r.Failure? <==> HasIdleResource(toSave)
    ensures r.Failure? ==> exists i, j :: (FirstIdle(toSave, i, j) &&
      r.error == KeyError(toSave.resourceProfiles[i].1.resourceList[j].id))
    ensures r.Success? ==> Written(toSave, r.value)
  {
    var resourceCalendars := BuildResourceCalendars(toSave.resourceCalendars);
    var taskResourceDistribution, assignedTasks := BuildTaskDistributions(toSave.taskResourceDistribution);
    AssignedIffMentioned(toSave.taskResourceDistribution, assignedTasks);
    var resourceProfiles := BuildResourceProfiles(toSave.resourceProfiles, assignedTasks);
    if resourceProfiles.Failure? {
      var i, j :| FirstUnassignedProfile(toSave.resourceProfiles, assignedTasks, i) &&
        FirstUnassigned(toSave.resourceProfiles[i].1.resourceList, assignedTasks, j) &&
        resourceProfiles.error == KeyError(toSave.resourceProfiles[i].1.resourceList[j].id);
      FirstIdleFrom(toSave, assignedTasks, i, j);
      return Failure(resourceProfiles.error);
    }
    NoIdleFrom(toSave, assignedTasks);
    var gatewayBranching := BuildGatewayBranching(toSave.gatewayBranchingProbabilities);
    var arrivalDistParams := WrapParams(toSave.arrivalTimeDistribution.params);
    var arrivalTimeDistribution := ArrivalJson(toSave.arrivalTimeDistribution.name, arrivalDistParams);
    var doc := ProsimosJson(resourceProfiles.value, arrivalTimeDistribution, toSave.arrivalTimeCalendar,
                            gatewayBranching, taskResourceDistribution, resourceCalendars);
    forall i | 0 <= i < |toSave.resourceProfiles| ensures ProfileWritten(toSave, doc.resourceProfiles[i], i) {
      ProfileWrittenFrom(toSave, assignedTasks, resourceProfiles.value[i], i);
    }
    return Success(doc);
  }

  /** `assigned_tasks` has an entry exactly for the resources some task mentions. */
  lemma AssignedIffMentioned(trd: Dict<string, Dict<string, Distribution>>, assignedTasks: map<string, seq<string>>)
    requires AssignedFrom(assignedTasks, AllPairs(trd))
    ensures forall r :: r in assignedTasks <==> Mentioned(trd, r)
  {
    forall r ensures r in assignedTasks <==> Mentioned(trd, r) {
      AssignedTasksPresent(trd, r);
      assert MapGet(assignedTasks, r) == AssignedSpec(AllPairs(trd), r);
    }
  }

  lemma FirstIdleFrom(toSave: ToSave, assignedTasks: map<string, seq<string>>, i: int, j: int)
    requires forall r :: r in assignedTasks <==> Mentioned(toSave.taskResourceDistribution, r)
    requires FirstUnassignedProfile(toSave.resourceProfiles, assignedTasks, i)
    requires FirstUnassigned(toSave.resourceProfiles[i].1.resourceList, assignedTasks, j)
    ensures FirstIdle(toSave, i, j)
  {
    var list := toSave.resourceProfiles[i].1.resourceList;
    assert forall m :: 0 <= m < j ==> list[..j][m] == list[m];
  }

  lemma NoIdleFrom(toSave: ToSave, assignedTasks: map<string, seq<string>>)
    requires forall r :: r in assignedTasks <==> Mentioned(toSave.taskResourceDistribution, r)
    requires forall i :: 0 <= i < |toSave.resourceProfiles| ==> AllAssigned(toSave.resourceProfiles[i].1.resourceList, assignedTasks)
    ensures !HasIdleResource(toSave)
  {
  }

  lemma ProfileWrittenFrom(toSave: ToSave, assignedTasks: map<string, seq<string>>, p: ProfileJson, i: int)
    requires 0 <= i < |toSave.resourceProfiles|
    requires AssignedFrom(assignedTasks, AllPairs(toSave.taskResourceDistribution))
    requires AllAssigned(toSave.resourceProfiles[i].1.resourceList, assignedTasks)
    requires p == ProfileJsonOf(toSave.resourceProfiles[i].0, toSave.resourceProfiles[i].1, assignedTasks)
    ensures ProfileWritten(toSave, p, i)
  {
    var list := toSave.resourceProfiles[i].1.resourceList;
    forall j | 0 <= j < |list|
      ensures AssignedSpec(AllPairs(toSave.taskResourceDistribution), list[j].id) == Some(assignedTasks[list[j].id])
    {
      assert MapGet(assignedTasks, list[j].id) == AssignedSpec(AllPairs(toSave.taskResourceDistribution), list[j].id);
    }
  }

  /** A pool member made by `_create_resource_profile_entry(r, r)`, as the discovery makes
      them, is written with id and name `r`, one unit at cost 1, the calendar `r + "timetable"`
      and exactly the tasks whose distribution map mentions `r`. */
  lemma CreatedMemberWritten(toSave: ToSave, doc: ProsimosJson, i: int, j: int, r: string)
    requires Written(toSave, doc)
    requires 0 <= i < |toSave.resourceProfiles| && 0 <= j < |toSave.resourceProfiles[i].1.resourceList|
    requires toSave.resourceProfiles[i].1.resourceList[j] == CreateResourceProfileEntry(r, r)
    ensures var m := doc.resourceProfiles[i].resourceList[j];
      && m.id == r && m.name == r && m.amount == 1 && m.costPerHour == 1
      && m.calendar == r + CalendarSuffix
      && (forall t :: t in m.assignedTasks <==> Mentions(toSave.taskResourceDistribution, t, r))
  {
    assert ProfileWritten(toSave, doc.resourceProfiles[i], i);
    AssignedTasksExactly(toSave.taskResourceDistribution, r);
  }

  /** In a written document every member's calendar id is the id of the calendar written
      for it, whenever a calendar was discovered for that member. */
  lemma CalendarsConsistent(toSave: ToSave, doc: ProsimosJson, i: int, j: int)
    requires Written(toSave, doc)
    requires 0 <= i < |doc.resourceProfiles| && 0 <= j < |doc.resourceProfiles[i].resourceList|
    requires doc.resourceProfiles[i].resourceList[j].id in Keys(toSave.resourceCalendars)
    ensures exists k :: 0 <= k < |doc.resourceCalendars| && doc.resourceCalendars[k].id == doc.resourceProfiles[i].resourceList[j].calendar
  {
    assert ProfileWritten(toSave, doc.resourceProfiles[i], i);
    var id := doc.resourceProfiles[i].resourceList[j].id;
    var k :| 0 <= k < |toSave.resourceCalendars| && Keys(toSave.resourceCalendars)[k] == id;
    assert |doc.resourceCalendars| == |CalendarsOf(doc.resourceCalendars)|;
    assert doc.resourceCalendars[k].id == CalendarIdOf(id);
  }
}
