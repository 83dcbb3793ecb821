/** The configuration normalisation in bpdfr_simulation_engine/simulation_properties_parser.py:
    the date clean-up `format_date`, the distribution mapping `extract_dist_params`, and the
    two loaders of the JSON parameter document, `parse_simulation_parameters` and
    `parse_calendar_from_json`. */
module SimulationProperties {
  import opened Wrappers
  import opened OrderedDict
  import opened Text
  import opened Records

  // ---------------------------------------------------------------------------------------
  // format_date

  /** The offset `format_date` removes, without its `+`. */
  const UtcOffset: string := "00:00"

  /** `s` is some text without `+`, then `+`, then the UTC offset `00:00`. */
  predicate HasUtcSuffix(s: string) {
    |s| >= 6 && s[|s| - 6] == '+' && s[|s| - 5..] == UtcOffset && '+' !in s[..|s| - 6]
  }

  /** `format_date`: drop a `+00:00` suffix when it is the only `+` of the string. */
  function FormatDate(dateStr: string): (r: string)
    ensures |r| <= |dateStr|
    ensures r <= dateStr
  {
    var parts := Split(dateStr, '+');
    if |parts| == 2 && parts[1] == UtcOffset then
      assert Join(parts, '+') == parts[0] + "+" + parts[1];
      parts[0]
    else dateStr
  }

  lemma UtcSuffixOfSplit(s: string)
    requires |Split(s, '+')| == 2 && Split(s, '+')[1] == UtcOffset
    ensures HasUtcSuffix(s) && s[..|s| - 6] == Split(s, '+')[0]
  {
    var parts := Split(s, '+');
    assert Join(parts, '+') == parts[0] + "+" + parts[1];
    assert s == parts[0] + ['+'] + UtcOffset;
    assert s[..|s| - 6] == parts[0] && s[|s| - 5..] == UtcOffset;
  }

  /** The text before `+` is returned exactly when the string splits into that text and
      `00:00`; otherwise the string comes back unchanged. */
  lemma FormatDateStripsUtcSuffix(s: string)
    ensures FormatDate(s) == if HasUtcSuffix(s) then s[..|s| - 6] else s
  {
    if HasUtcSuffix(s) {
      assert s == s[..|s| - 6] + ['+'] + s[|s| - 5..];
      SplitOnce(s, s[..|s| - 6], '+', s[|s| - 5..]);
    } else if |Split(s, '+')| == 2 && Split(s, '+')[1] == UtcOffset {
      UtcSuffixOfSplit(s);
    }
  }

  lemma FormatDateIdempotent(s: string)
    ensures FormatDate(FormatDate(s)) == FormatDate(s)
  {
    FormatDateStripsUtcSuffix(s);
    var r := FormatDate(s);
    if HasUtcSuffix(s) {
      assert '+' !in r;
      assert Split(r, '+') == [r];
    }
  }

  // ---------------------------------------------------------------------------------------
  // extract_dist_params

  /** The attributes of a `qbp:...Distribution` element, already converted to numbers. */
  datatype DistInfo = DistInfo(kind: string, mean: real, arg1: real, arg2: real)

  const KnownKinds: set<string> := {"EXPONENTIAL", "NORMAL", "FIXED", "UNIFORM", "GAMMA", "TRIANGULAR"}

  /** `extract_dist_params` as written: the type is compared in upper case; an unknown type
      gives `None`; GAMMA divides by its mean and its variance. */
  function ExtractDistParams(info: DistInfo): (r: Result<Option<Distribution>>)
    ensures r.Failure? <==> Upper(info.kind) == "GAMMA" && (info.mean == 0.0 || info.arg1 == 0.0)
    ensures r.Failure? ==> r.error == ZeroDivisionError
    ensures r.Success? ==> (r.value.Some? <==> Upper(info.kind) in KnownKinds)
  {
    DistributionOf(Upper(info.kind), info.mean, info.arg1, info.arg2)
  }

  /** The body of `extract_dist_params` once the type is in upper case. */
  function DistributionOf(name: string, mean: real, arg1: real, arg2: real): (r: Result<Option<Distribution>>)
    ensures r.Failure? <==> name == "GAMMA" && (mean == 0.0 || arg1 == 0.0)
    ensures r.Failure? ==> r.error == ZeroDivisionError
    ensures r.Success? ==> (r.value.Some? <==> name in KnownKinds)
  {
    if name == "EXPONENTIAL" then
      // loc = 0, scale = mean
      Success(Some(Distribution("expon", [0.0, arg1])))
    else if name == "NORMAL" then
      Success(Some(Distribution("norm", [mean, arg1])))
    else if name == "FIXED" then
      Success(Some(Distribution("fix", [mean, 0.0, 1.0])))
    else if name == "UNIFORM" then
      Success(Some(Distribution("uniform", [arg1, arg2 - arg2])))
    else if name == "GAMMA" then
      // mean is `mean`, variance is `arg1`
      if arg1 == 0.0 || mean == 0.0 then Failure(ZeroDivisionError)
      else Success(Some(Distribution("gamma", GammaParams(mean, arg1))))
    else if name == "TRIANGULAR" then
      Success(Some(Distribution("triang", [mean, arg1, arg2 - arg1])))
    else
      Success(None)
  }

  /** scipy's `gamma(a, loc, scale)` parameters for a given mean and variance. */
  function GammaParams(mean: real, variance: real): (p: seq<real>)
    requires mean != 0.0 && variance != 0.0
  {
    [mean * mean / variance, 0.0, variance / mean]
  }

  /** The GAMMA parameters reproduce the mean (`a * scale`) and the variance (`a * scale^2`)
      they were computed from. */
  lemma GammaParamsMoments(mean: real, variance: real)
    requires mean != 0.0 && variance != 0.0
    ensures var p := GammaParams(mean, variance);
      |p| == 3 && p[1] == 0.0 && p[0] * p[2] == mean && p[0] * p[2] * p[2] == variance
  {
    var p := GammaParams(mean, variance);
    assert p[0] * p[2] == (mean * mean / variance) * (variance / mean);
  }

  /** The type is matched without regard to the case of its ASCII letters. */
  lemma ExtractDistParamsIgnoresCase(a: DistInfo, b: DistInfo)
    requires Upper(a.kind) == Upper(b.kind)
    requires a.mean == b.mean && a.arg1 == b.arg1 && a.arg2 == b.arg2
    ensures ExtractDistParams(a) == ExtractDistParams(b)
  {
  }

  /** The mapping of each known type to a scipy name and its parameter list. */
  lemma ExtractDistParamsMapping(info: DistInfo)
    ensures Upper(info.kind) == "EXPONENTIAL" ==>
      ExtractDistParams(info) == Success(Some(Distribution("expon", [0.0, info.arg1])))
    ensures Upper(info.kind) == "NORMAL" ==>
      ExtractDistParams(info) == Success(Some(Distribution("norm", [info.mean, info.arg1])))
    ensures Upper(info.kind) == "FIXED" ==>
      ExtractDistParams(info) == Success(Some(Distribution("fix", [info.mean, 0.0, 1.0])))
    ensures Upper(info.kind) == "TRIANGULAR" ==>
      ExtractDistParams(info) == Success(Some(Distribution("triang", [info.mean, info.arg1, info.arg2 - info.arg1])))
    ensures Upper(info.kind) == "GAMMA" && info.mean != 0.0 && info.arg1 != 0.0 ==>
      ExtractDistParams(info) == Success(Some(Distribution("gamma", GammaParams(info.mean, info.arg1))))
    ensures Upper(info.kind) !in KnownKinds ==> ExtractDistParams(info) == Success(None)
  {
  }

  /** As written, UNIFORM always gets scale 0, whatever its bounds, so the distribution
      collapses onto its lower bound `arg1`. */
  lemma UniformScaleAlwaysZero(info: DistInfo)
    requires Upper(info.kind) == "UNIFORM"
    ensures ExtractDistParams(info) == Success(Some(Distribution("uniform", [info.arg1, 0.0])))
  {
  }

  /** A uniform distribution over [0, 10] comes out as one over [0, 0]. */
  lemma UniformCounterexample()
    ensures var d := ExtractDistParams(DistInfo("uniform", 0.0, 0.0, 10.0)).value.value;
      d.params[0] + d.params[1] == 0.0
  {
    assert Upper("uniform") == "UNIFORM";
    UniformScaleAlwaysZero(DistInfo("uniform", 0.0, 0.0, 10.0));
  }

  /** `extract_dist_params` with the UNIFORM scale written as the comment beside it says,
      `to - from`; every other type is mapped as written. It fails on the same inputs as
      `ExtractDistParams` and knows the same types, so it can replace it at every caller. */
  function ExtractDistParamsIntended(info: DistInfo): (r: Result<Option<Distribution>>)
    ensures Upper(info.kind) != "UNIFORM" ==> r == ExtractDistParams(info)
    ensures Upper(info.kind) == "UNIFORM" ==>
      r.Success? && r.value.Some? && r.value.value.name == "uniform" && |r.value.value.params| == 2 &&
      r.value.value.params[0] == info.arg1 &&
      r.value.value.params[0] + r.value.value.params[1] == info.arg2
  {
    if Upper(info.kind) == "UNIFORM" then
      Success(Some(Distribution("uniform", [info.arg1, info.arg2 - info.arg1])))
    else
      ExtractDistParams(info)
  }

  /** The correction changes no error and no `None`: only the UNIFORM parameters differ. */
  lemma IntendedFailsAlike(info: DistInfo)
    ensures ExtractDistParamsIntended(info).Failure? <==> ExtractDistParams(info).Failure?
    ensures ExtractDistParamsIntended(info).Success? ==>
      (ExtractDistParamsIntended(info).value.Some? <==> ExtractDistParams(info).value.Some?)
    ensures ExtractDistParamsIntended(info) != ExtractDistParams(info) ==> Upper(info.kind) == "UNIFORM"
  {
  }

  // ---------------------------------------------------------------------------------------
  // parse_simulation_parameters

  /** The value `parse_simulation_parameters` files under an element id: the arrival
      distribution record as given, or a gateway's `Choice` of outgoing arcs. */
  datatype ElementDistribution<A> =
    | ArrivalTime(arrival: A)
    | Choice(candidates: seq<string>, probabilities: seq<real>)

  const ArrivalKey := "arrivalTime"

  /** The arc list and probability list of one gateway, paired position by position. */
  method GatewayChoice(arcs: Dict<string, real>) returns (outArc: seq<string>, probabilityList: seq<real>)
    ensures |outArc| == |arcs| && |probabilityList| == |arcs|
    ensures forall i :: 0 <= i < |arcs| ==> (outArc[i], probabilityList[i]) == arcs[i]
  {
    outArc, probabilityList := [], [];
    for i := 0 to |arcs|
      invariant |outArc| == i && |probabilityList| == i
      invariant forall j :: 0 <= j < i ==> (outArc[j], probabilityList[j]) == arcs[j]
    {
      outArc := outArc + [arcs[i].0];
      probabilityList := probabilityList + [arcs[i].1];
    }
  }

  /** The element distributions after the arrival entry and the first `i` gateways. */
  ghost predicate ParsedUpTo<A>(ed: Dict<string, ElementDistribution<A>>, arrival: A,
                                gateways: Dict<string, Dict<string, real>>, i: int)
    requires 0 <= i <= |gateways|
  {
    && DistinctKeys(ed)
    && Keys(ed) == Dedup(([ArrivalKey] + Keys(gateways))[..i + 1])
    && ArrivalParsed(ed, arrival, gateways, i)
    && GatewaysParsed(ed, gateways, i)
  }

  ghost predicate ArrivalParsed<A>(ed: Dict<string, ElementDistribution<A>>, arrival: A,
                                   gateways: Dict<string, Dict<string, real>>, i: int)
    requires 0 <= i <= |gateways|
  {
    (forall j :: 0 <= j < i ==> gateways[j].0 != ArrivalKey) ==>
      Get(ed, ArrivalKey) == Some(ArrivalTime(arrival))
  }

  ghost predicate GatewaysParsed<A>(ed: Dict<string, ElementDistribution<A>>,
                                    gateways: Dict<string, Dict<string, real>>, i: int)
    requires 0 <= i <= |gateways|
  {
    forall j :: 0 <= j < i ==> Get(ed, gateways[j].0) == Some(ChoiceOf(gateways[j].1))
  }

  /** The choice a gateway's arcs describe. */
  function ChoiceOf<A>(arcs: Dict<string, real>): ElementDistribution<A> {
    Choice(Keys(arcs), Values(arcs))
  }

  /** Filing gateway `i` extends what has been parsed by one gateway. */
  lemma ParsedStep<A>(ed: Dict<string, ElementDistribution<A>>, arrival: A,
                      gateways: Dict<string, Dict<string, real>>, i: int)
    requires DistinctKeys(gateways) && 0 <= i < |gateways| && ParsedUpTo(ed, arrival, gateways, i)
    ensures ParsedUpTo(Put(ed, gateways[i].0, ChoiceOf(gateways[i].1)), arrival, gateways, i + 1)
  {
    ParsedStepKeys(Keys(ed), gateways, i);
    ParsedStepArrival(ed, arrival, gateways, i);
    ParsedStepGateways(ed, gateways, i);
  }

  lemma ParsedStepArrival<A>(ed: Dict<string, ElementDistribution<A>>, arrival: A,
                             gateways: Dict<string, Dict<string, real>>, i: int)
    requires 0 <= i < |gateways| && ArrivalParsed(ed, arrival, gateways, i)
    ensures ArrivalParsed(Put(ed, gateways[i].0, ChoiceOf(gateways[i].1)), arrival, gateways, i + 1)
  {
    PutGet(ed, gateways[i].0, ChoiceOf(gateways[i].1), ArrivalKey);
  }

  lemma ParsedStepGateways<A>(ed: Dict<string, ElementDistribution<A>>,
                              gateways: Dict<string, Dict<string, real>>, i: int)
    requires DistinctKeys(gateways) && 0 <= i < |gateways| && GatewaysParsed(ed, gateways, i)
    ensures GatewaysParsed(Put(ed, gateways[i].0, ChoiceOf(gateways[i].1)), gateways, i + 1)
  {
    var gatewayId := gateways[i].0;
    var choice: ElementDistribution<A> := ChoiceOf(gateways[i].1);
    forall j | 0 <= j < i + 1
      ensures Get(Put(ed, gatewayId, choice), gateways[j].0) == Some(ChoiceOf(gateways[j].1))
    {
      PutGet(ed, gatewayId, choice, gateways[j].0);
      if j < i {
        assert gateways[j].0 != gatewayId;
        assert Get(ed, gateways[j].0) == Some(ChoiceOf(gateways[j].1));
      }
    }
  }

  lemma ParsedStepKeys(keys: seq<string>, gateways: Dict<string, Dict<string, real>>, i: int)
    requires 0 <= i < |gateways| && keys == Dedup(([ArrivalKey] + Keys(gateways))[..i + 1])
    ensures (if gateways[i].0 in keys then keys else keys + [gateways[i].0])
         == Dedup(([ArrivalKey] + Keys(gateways))[..i + 2])
  {
    var ids := [ArrivalKey] + Keys(gateways);
    assert ids[..i + 2] == ids[..i + 1] + [gateways[i].0];
    DedupSnoc(ids[..i + 1], gateways[i].0);
  }

  /** What has been parsed after the last gateway is what the method promises. */
  lemma ParsedAll<A>(ed: Dict<string, ElementDistribution<A>>, arrival: A,
                     gateways: Dict<string, Dict<string, real>>)
    requires DistinctKeys(gateways) && ParsedUpTo(ed, arrival, gateways, |gateways|)
    ensures Keys(ed) == Dedup([ArrivalKey] + Keys(gateways))
    ensures ArrivalKey !in Keys(gateways) ==> Keys(ed) == [ArrivalKey] + Keys(gateways)
    ensures ArrivalKey !in Keys(gateways) ==> Get(ed, ArrivalKey) == Some(ArrivalTime(arrival))
    ensures forall i :: 0 <= i < |gateways| ==>
      Get(ed, gateways[i].0) == Some(Choice(Keys(gateways[i].1), Values(gateways[i].1)))
  {
    ParsedAllKeys(Keys(ed), gateways);
    ParsedAllValues(ed, arrival, gateways);
  }

  lemma ParsedAllKeys(keys: seq<string>, gateways: Dict<string, Dict<string, real>>)
    requires DistinctKeys(gateways) && keys == Dedup(([ArrivalKey] + Keys(gateways))[..|gateways| + 1])
    ensures keys == Dedup([ArrivalKey] + Keys(gateways))
    ensures ArrivalKey !in Keys(gateways) ==> keys == [ArrivalKey] + Keys(gateways)
  {
    var ids := [ArrivalKey] + Keys(gateways);
    assert ids[..|gateways| + 1] == ids;
    if ArrivalKey !in Keys(gateways) {
      ElementIdsDistinct(gateways);
      DedupOfDistinct(ids);
    }
  }

  lemma ParsedAllValues<A>(ed: Dict<string, ElementDistribution<A>>, arrival: A,
                           gateways: Dict<string, Dict<string, real>>)
    requires ArrivalParsed(ed, arrival, gateways, |gateways|) && GatewaysParsed(ed, gateways, |gateways|)
    ensures ArrivalKey !in Keys(gateways) ==> Get(ed, ArrivalKey) == Some(ArrivalTime(arrival))
    ensures forall i :: 0 <= i < |gateways| ==>
      Get(ed, gateways[i].0) == Some(Choice(Keys(gateways[i].1), Values(gateways[i].1)))
  {
    if ArrivalKey !in Keys(gateways) {
      assert forall j :: 0 <= j < |gateways| ==> gateways[j].0 == Keys(gateways)[j];
    }
  }

  /** With no gateway named `arrivalTime`, the ids are all distinct. */
  lemma ElementIdsDistinct(gateways: Dict<string, Dict<string, real>>)
    requires DistinctKeys(gateways) && ArrivalKey !in Keys(gateways)
    ensures Distinct([ArrivalKey] + Keys(gateways))
  {
    var ids := [ArrivalKey] + Keys(gateways);
    forall a, b | 0 <= a < b < |ids| ensures ids[a] != ids[b] {
      assert ids[b] == gateways[b - 1].0;
      if a > 0 { assert ids[a] == gateways[a - 1].0; }
    }
  }

  /** `parse_simulation_parameters`: `arrivalTime` maps to the arrival record, then each
      gateway in order maps to its choice (a gateway named `arrivalTime` would replace it). */
  method ParseSimulationParameters<A>(arrival: A, gateways: Dict<string, Dict<string, real>>)
    returns (ed: Dict<string, ElementDistribution<A>>)
    requires DistinctKeys(gateways)
    ensures DistinctKeys(ed)
    ensures Keys(ed) == Dedup([ArrivalKey] + Keys(gateways))
    ensures ArrivalKey !in Keys(gateways) ==> Keys(ed) == [ArrivalKey] + Keys(gateways)
    ensures ArrivalKey !in Keys(gateways) ==> Get(ed, ArrivalKey) == Some(ArrivalTime(arrival))
    ensures forall i :: 0 <= i < |gateways| ==>
      Get(ed, gateways[i].0) == Some(Choice(Keys(gateways[i].1), Values(gateways[i].1)))
  {
    ghost var ids := [ArrivalKey] + Keys(gateways);
    ed := [(ArrivalKey, ArrivalTime(arrival))];
    assert ids[..1] == [ArrivalKey];
    assert Dedup(ids[..1]) == [ArrivalKey];
    for i := 0 to |gateways|
      invariant ParsedUpTo(ed, arrival, gateways, i)
    {
      var gatewayId := gateways[i].0;
      var outArc, probabilityList := GatewayChoice(gateways[i].1);
      assert outArc == Keys(gateways[i].1) && probabilityList == Values(gateways[i].1);
      ParsedStep(ed, arrival, gateways, i);
      ed := Put(ed, gatewayId, Choice(outArc, probabilityList));
    }
    ParsedAll(ed, arrival, gateways);
  }

  // ---------------------------------------------------------------------------------------
  // parse_calendar_from_json

  /** The parts of `ResourceProfile` that `parse_calendar_from_json` sets. */
  datatype ResourceProfile = ResourceProfile(
    resourceId: string, resourceName: string, calendarId: string, costPerHour: real)

  /** An `RCalendar` as the list of its windows; the working-time tables it derives from them
      are not part of this model. */
  datatype RCalendar = RCalendar(calendarId: string, items: seq<TimePeriod>)

  /** `"%s_timetable" % r`. */
  function TimetableId(r: string): (id: string)
    ensures |id| == |r| + 10 && id[..|r|] == r
  {
    r + "_timetable"
  }

  lemma TimetableIdInjective(a: string, b: string)
    requires TimetableId(a) == TimetableId(b)
    ensures a == b
  {
    assert a == TimetableId(a)[..|a|];
  }

  /** `add_calendar_item`, as far as this model sees it: the window is recorded. */
  function AddCalendarItem(c: RCalendar, item: TimePeriod): (r: RCalendar)
    ensures r.calendarId == c.calendarId && r.items == c.items + [item]
  {
    c.(items := c.items + [item])
  }

  /** The calendar `parse_calendar_from_json` builds from one resource's windows, one
      `add_calendar_item` per window, in order. */
  method BuildCalendar(calendarId: string, items: seq<TimePeriod>) returns (c: RCalendar)
    ensures c.calendarId == calendarId && c.items == items
  {
    c := RCalendar(calendarId, []);
    for k := 0 to |items|
      invariant c == RCalendar(calendarId, items[..k])
    {
      assert items[..k + 1] == items[..k] + [items[k]];
      c := AddCalendarItem(c, items[k]);
    }
    assert items[..|items|] == items;
  }

  /** The timetable id of a resource not seen yet is not among the calendars built so far. */
  lemma FreshTimetableId(json: Dict<string, seq<TimePeriod>>, calendars: Dict<string, RCalendar>, i: int)
    requires DistinctKeys(json) && 0 <= i < |json| && |calendars| == i
    requires forall j :: 0 <= j < i ==> calendars[j].0 == TimetableId(json[j].0)
    ensures TimetableId(json[i].0) !in Keys(calendars)
  {
    forall j | 0 <= j < i ensures calendars[j].0 != TimetableId(json[i].0) {
      if calendars[j].0 == TimetableId(json[i].0) { TimetableIdInjective(json[j].0, json[i].0); }
    }
  }

  /** `parse_calendar_from_json`: one profile per resource id `r`, bound to calendar
      `r_timetable`, and one calendar per resource filed under that same id. */
  method ParseCalendarFromJson(json: Dict<string, seq<TimePeriod>>)
    returns (resources: Dict<string, ResourceProfile>, calendars: Dict<string, RCalendar>)
    requires DistinctKeys(json)
    ensures DistinctKeys(resources) && DistinctKeys(calendars)
    ensures |resources| == |json| && |calendars| == |json|
    ensures forall i :: 0 <= i < |json| ==>
      resources[i] == (json[i].0, ResourceProfile(json[i].0, json[i].0, TimetableId(json[i].0), 1.0))
    ensures forall i :: 0 <= i < |json| ==>
      calendars[i] == (TimetableId(json[i].0), RCalendar(TimetableId(json[i].0), json[i].1))
    ensures forall i :: 0 <= i < |resources| ==>
      Get(calendars, resources[i].1.calendarId) == Some(RCalendar(resources[i].1.calendarId, json[i].1))
  {
    resources, calendars := [], [];
    for i := 0 to |json|
      invariant |resources| == i && |calendars| == i
      invariant forall j :: 0 <= j < i ==>
        resources[j] == (json[j].0, ResourceProfile(json[j].0, json[j].0, TimetableId(json[j].0), 1.0))
      invariant forall j :: 0 <= j < i ==>
        calendars[j] == (TimetableId(json[j].0), RCalendar(TimetableId(json[j].0), json[j].1))
    {
      var rId := json[i].0;
      var calendarId := TimetableId(rId);
      assert rId !in Keys(resources);
      PutAppends(resources, rId, ResourceProfile(rId, rId, calendarId, 1.0));
      resources := Put(resources, rId, ResourceProfile(rId, rId, calendarId, 1.0));
      var rCalendar := BuildCalendar(calendarId, json[i].1);
      FreshTimetableId(json, calendars, i);
      PutAppends(calendars, rCalendar.calendarId, rCalendar);
      calendars := Put(calendars, rCalendar.calendarId, rCalendar);
    }
    assert DistinctKeys(calendars) by {
      forall i, j | 0 <= i < j < |calendars| ensures calendars[i].0 != calendars[j].0 {
        if calendars[i].0 == calendars[j].0 { TimetableIdInjective(json[i].0, json[j].0); }
      }
    }
    forall i | 0 <= i < |resources|
      ensures Get(calendars, resources[i].1.calendarId) == Some(RCalendar(resources[i].1.calendarId, json[i].1))
    {
      GetAt(calendars, i);
    }
  }
}
