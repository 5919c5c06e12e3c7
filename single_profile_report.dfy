/**
 * SingleProfileReport: the data side of the single profile.json HTML report.
 *
 * getText flattens the profile into one PhaseThread per thread (minor
 * fragment) of every phase, fills four index-aligned arrays from them for the
 * phase and timeline plots, collects one Operator per operator of every thread
 * for the duration and records plots, and keeps a list of section ids and a
 * list of titles in lockstep for the navigation links.
 *
 * The page is modelled as the values getText computes, not as HTML text. The
 * summary report, the plan and convert-to-rel parsers and the plots are
 * foreign calls: the summary's section ids and titles, and whether the
 * convert-to-rel parser found a graph, are parameters.
 */
module SingleProfileReport {
  import opened Wrappers
  import opened JavaText
  import opened Sorting
  import opened ProfileDto
  import opened ProfileSimplified

  /** The timing of one thread of one phase. */
  datatype PhaseThread = PhaseThread(
    phaseId: int,
    threadId: int,
    runDuration: int,
    blockedDuration: int,
    blockedOnUpstreamDuration: int,
    blockedOnDownstreamDuration: int,
    blockedOnSharedResourceDuration: int,
    sleepingDuration: int,
    totalTimeMillis: int,
    endTime: int,
    startTime: int)

  /** A freshly constructed PhaseThread: every long field is 0. */
  const NewPhaseThread := PhaseThread(0, 0, 0, 0, 0, 0, 0, 0, 0, 0, 0)

  // ---------------------------------------------------------------------------
  // getPhaseThread
  // ---------------------------------------------------------------------------

  /**
   * The specification of getPhaseThread: ids and durations are copied, the
   * process time is the thread's wall time, and the bar ends at the thread's
   * end time and starts one run duration earlier.
   */
  function PhaseThreadOf(m: MinorFragmentProfile, phaseId: int, threadId: int): (pt: PhaseThread)
    ensures pt.phaseId == phaseId && pt.threadId == threadId
    ensures pt.runDuration == m.runDuration && pt.sleepingDuration == m.sleepingDuration
    ensures pt.blockedDuration == m.blockedDuration
    ensures pt.blockedOnUpstreamDuration == m.blockedOnUpstreamDuration
    ensures pt.blockedOnDownstreamDuration == m.blockedOnDownstreamDuration
    ensures pt.blockedOnSharedResourceDuration == m.blockedOnSharedResourceDuration
    ensures pt.totalTimeMillis == m.endTime - m.startTime
    ensures pt.endTime == m.endTime && pt.endTime - pt.startTime == pt.runDuration
  {
    PhaseThread(phaseId, threadId, m.runDuration, m.blockedDuration, m.blockedOnUpstreamDuration,
                m.blockedOnDownstreamDuration, m.blockedOnSharedResourceDuration, m.sleepingDuration,
                m.endTime - m.startTime, m.endTime, m.endTime - m.runDuration)
  }

  /** The setter sequence; the start time is computed from the run duration already set. */
  method GetPhaseThread(m: MinorFragmentProfile, phaseId: int, threadId: int) returns (pt: PhaseThread)
    ensures pt == PhaseThreadOf(m, phaseId, threadId)
  {
    pt := NewPhaseThread;
    pt := pt.(phaseId := phaseId);
    pt := pt.(threadId := threadId);
    pt := pt.(runDuration := m.runDuration);
    pt := pt.(blockedDuration := m.blockedDuration);
    pt := pt.(blockedOnUpstreamDuration := m.blockedOnUpstreamDuration);
    pt := pt.(blockedOnDownstreamDuration := m.blockedOnDownstreamDuration);
    pt := pt.(blockedOnSharedResourceDuration := m.blockedOnSharedResourceDuration);
    pt := pt.(sleepingDuration := m.sleepingDuration);
    pt := pt.(totalTimeMillis := m.endTime - m.startTime);
    pt := pt.(endTime := m.endTime);
    pt := pt.(startTime := m.endTime - pt.runDuration);
  }

  // ---------------------------------------------------------------------------
  // getPhaseThreads
  // ---------------------------------------------------------------------------

  /** A phase that is walked: non-null, with a non-null thread list. */
  predicate Kept(f: Option<FragmentProfile>) {
    f.Some? && f.value.minorFragmentProfile.Some?
  }

  function Minors(f: Option<FragmentProfile>): seq<Option<MinorFragmentProfile>>
    requires Kept(f)
  {
    f.value.minorFragmentProfile.value
  }

  /** The threads of one phase, in order; a null thread is dereferenced and throws. */
  function MinorThreads(minors: seq<Option<MinorFragmentProfile>>, phaseId: int): (r: Result<seq<PhaseThread>, Fault>)
    ensures r.Ok? <==> forall j :: 0 <= j < |minors| ==> minors[j].Some?
    ensures r.Ok? ==> |r.value| == |minors|
    ensures r.Ok? ==> forall j :: 0 <= j < |minors| ==>
              r.value[j] == PhaseThreadOf(minors[j].value, phaseId, minors[j].value.minorFragmentId)
  {
    if minors == [] then Ok([])
    else if minors[0].None? then Err(NullPointer)
    else
      var rest :- MinorThreads(minors[1..], phaseId);
      assert forall j :: 1 <= j < |minors| ==> minors[j] == minors[1..][j - 1];
      Ok([PhaseThreadOf(minors[0].value, phaseId, minors[0].value.minorFragmentId)] + rest)
  }

  /** The phases' threads, phase by phase; phases that are null or have a null thread list are skipped. */
  function FragmentThreads(frags: seq<Option<FragmentProfile>>): Result<seq<PhaseThread>, Fault> {
    if frags == [] then Ok([])
    else if !Kept(frags[0]) then FragmentThreads(frags[1..])
    else
      var head :- MinorThreads(Minors(frags[0]), frags[0].value.majorFragmentId);
      var rest :- FragmentThreads(frags[1..]);
      Ok(head + rest)
  }

  /** The specification of getPhaseThreads: nothing without a profile or without a fragment list. */
  function PhaseThreadsOf(parsed: Option<ProfileJSON>): Result<seq<PhaseThread>, Fault> {
    if parsed.None? || parsed.value.fragmentProfile.None? then Ok([])
    else FragmentThreads(parsed.value.fragmentProfile.value)
  }

  /** Number of threads over the walked phases (independent of the walk). */
  function ThreadCount(frags: seq<Option<FragmentProfile>>): nat {
    if frags == [] then 0 else (if Kept(frags[0]) then |Minors(frags[0])| else 0) + ThreadCount(frags[1..])
  }

  /** No walked phase has a null thread. */
  predicate NoNullThread(frags: seq<Option<FragmentProfile>>) {
    forall k, j :: 0 <= k < |frags| && Kept(frags[k]) && 0 <= j < |Minors(frags[k])| ==> Minors(frags[k])[j].Some?
  }

  /**
   * getPhaseThreads succeeds exactly when no walked phase has a null thread,
   * and then yields one PhaseThread per thread of the walked phases.
   */
  lemma {:induction false} FragmentThreadsShape(frags: seq<Option<FragmentProfile>>)
    ensures FragmentThreads(frags).Ok? <==> NoNullThread(frags)
    ensures FragmentThreads(frags).Ok? ==> |FragmentThreads(frags).value| == ThreadCount(frags)
  {
    if frags != [] {
      FragmentThreadsShape(frags[1..]);
      assert forall k :: 1 <= k < |frags| ==> frags[k] == frags[1..][k - 1];
      if NoNullThread(frags) {
        assert NoNullThread(frags[1..]) by {
          forall k, j | 0 <= k < |frags[1..]| && Kept(frags[1..][k]) && 0 <= j < |Minors(frags[1..][k])|
            ensures Minors(frags[1..][k])[j].Some?
          {
            assert frags[1..][k] == frags[k + 1];
          }
        }
      }
      if NoNullThread(frags[1..]) && (Kept(frags[0]) ==> forall j :: 0 <= j < |Minors(frags[0])| ==> Minors(frags[0])[j].Some?) {
        forall k, j | 0 <= k < |frags| && Kept(frags[k]) && 0 <= j < |Minors(frags[k])|
          ensures Minors(frags[k])[j].Some?
        {
          if k > 0 {
            assert frags[k] == frags[1..][k - 1];
          }
        }
      }
    }
  }

  /** t is what getPhaseThread makes of thread j of the walked phase f. */
  predicate IsThreadOf(f: Option<FragmentProfile>, j: int, t: PhaseThread) {
    Kept(f) && 0 <= j < |Minors(f)| && Minors(f)[j].Some? &&
    t == PhaseThreadOf(Minors(f)[j].value, f.value.majorFragmentId, Minors(f)[j].value.minorFragmentId)
  }

  /**
   * A thread is in getPhaseThreads' result exactly when it is what
   * getPhaseThread makes of some thread of some walked phase: no thread is
   * lost, none is invented.
   */
  lemma {:induction false} FragmentThreadsMembers(frags: seq<Option<FragmentProfile>>, t: PhaseThread)
    requires FragmentThreads(frags).Ok?
    ensures t in FragmentThreads(frags).value <==> exists k, j :: 0 <= k < |frags| && IsThreadOf(frags[k], j, t)
  {
    if frags != [] {
      FragmentThreadsMembers(frags[1..], t);
      if exists k, j :: 0 <= k < |frags[1..]| && IsThreadOf(frags[1..][k], j, t) {
        var k, j :| 0 <= k < |frags[1..]| && IsThreadOf(frags[1..][k], j, t);
        assert IsThreadOf(frags[k + 1], j, t);
      }
      if exists k, j :: 0 <= k < |frags| && IsThreadOf(frags[k], j, t) {
        var k, j :| 0 <= k < |frags| && IsThreadOf(frags[k], j, t);
        if k > 0 {
          assert IsThreadOf(frags[1..][k - 1], j, t);
        } else {
          assert MinorThreads(Minors(frags[0]), frags[0].value.majorFragmentId).value[j] == t;
        }
      }
      if Kept(frags[0]) {
        var head := MinorThreads(Minors(frags[0]), frags[0].value.majorFragmentId).value;
        if t in head {
          var j :| 0 <= j < |head| && head[j] == t;
          assert IsThreadOf(frags[0], j, t);
        }
      }
    }
  }

  /**
   * Traversal order: the threads of a list of phases split anywhere are the
   * threads of the first part followed by the threads of the rest.
   */
  lemma {:induction false} FragmentThreadsAppend(a: seq<Option<FragmentProfile>>, b: seq<Option<FragmentProfile>>)
    ensures FragmentThreads(a + b) ==
            (if FragmentThreads(a).Err? then FragmentThreads(a) else Prepend(FragmentThreads(a).value, FragmentThreads(b)))
  {
    if a == [] {
      assert a + b == b;
      if FragmentThreads(b).Ok? {
        assert [] + FragmentThreads(b).value == FragmentThreads(b).value;
      }
    } else {
      assert (a + b)[1..] == a[1..] + b;
      FragmentThreadsAppend(a[1..], b);
      if Kept(a[0]) && FragmentThreads(a).Ok? && FragmentThreads(b).Ok? {
        var head := MinorThreads(Minors(a[0]), a[0].value.majorFragmentId).value;
        AppendAssoc(head, FragmentThreads(a[1..]).value, FragmentThreads(b).value);
      }
    }
  }

  /** The inner loop: the threads of one phase appended to the list built so far. */
  method AppendMinorThreads(acc: seq<PhaseThread>, minors: seq<Option<MinorFragmentProfile>>, phaseId: int)
    returns (r: Result<seq<PhaseThread>, Fault>)
    ensures r == Prepend(acc, MinorThreads(minors, phaseId))
  {
    var phaseThreads := acc;
    assert minors[0..] == minors;
    for i := 0 to |minors|
      invariant Prepend(acc, MinorThreads(minors, phaseId)) == Prepend(phaseThreads, MinorThreads(minors[i..], phaseId))
    {
      assert minors[i..][1..] == minors[i + 1..];
      if minors[i].None? {
        return Err(NullPointer);
      }
      var phaseThread := minors[i].value;
      var threadId := phaseThread.minorFragmentId;
      var pt := GetPhaseThread(phaseThread, phaseId, threadId);
      ghost var rest := MinorThreads(minors[i + 1..], phaseId);
      if rest.Ok? {
        AppendAssoc(phaseThreads, [pt], rest.value);
      }
      phaseThreads := phaseThreads + [pt];
    }
    assert minors[|minors|..] == [];
    assert phaseThreads + [] == phaseThreads;
    r := Ok(phaseThreads);
  }

  /** getPhaseThreads: the loop over the phases. */
  method GetPhaseThreads(parsed: Option<ProfileJSON>) returns (r: Result<seq<PhaseThread>, Fault>)
    ensures r == PhaseThreadsOf(parsed)
  {
    var phaseThreads: seq<PhaseThread> := [];
    if parsed.Some? && parsed.value.fragmentProfile.Some? {
      var frags := parsed.value.fragmentProfile.value;
      assert frags[0..] == frags;
      assert FragmentThreads(frags).Ok? ==> [] + FragmentThreads(frags).value == FragmentThreads(frags).value;
      for i := 0 to |frags|
        invariant FragmentThreads(frags) == Prepend(phaseThreads, FragmentThreads(frags[i..]))
      {
        assert frags[i..][1..] == frags[i + 1..];
        var phase := frags[i];
        if phase.Some? && phase.value.minorFragmentProfile.Some? {
          var phaseId := phase.value.majorFragmentId;
          var before := phaseThreads;
          var next := AppendMinorThreads(phaseThreads, phase.value.minorFragmentProfile.value, phaseId);
          if next.Err? {
            return Err(next.error);
          }
          ghost var head := MinorThreads(Minors(phase), phaseId).value;
          ghost var rest := FragmentThreads(frags[i + 1..]);
          if rest.Ok? {
            AppendAssoc(before, head, rest.value);
          }
          phaseThreads := next.value;
        }
      }
      assert frags[|frags|..] == [];
      assert phaseThreads + [] == phaseThreads;
    }
    r := Ok(phaseThreads);
  }

  // ---------------------------------------------------------------------------
  // The phase arrays
  // ---------------------------------------------------------------------------

  function StartTimes(pts: seq<PhaseThread>): seq<int> {
    seq(|pts|, i requires 0 <= i < |pts| => pts[i].startTime)
  }

  function EndTimes(pts: seq<PhaseThread>): seq<int> {
    seq(|pts|, i requires 0 <= i < |pts| => pts[i].endTime)
  }

  /** The plot labels: the phase id as "%02d". */
  function PhaseNames(pts: seq<PhaseThread>): seq<string> {
    seq(|pts|, i requires 0 <= i < |pts| => TwoDigits(pts[i].phaseId))
  }

  function ProcessTimes(pts: seq<PhaseThread>): seq<int> {
    seq(|pts|, i requires 0 <= i < |pts| => pts[i].totalTimeMillis)
  }

  /** The loop filling the four arrays by index, one slot per phase thread. */
  method FillPhaseArrays(pts: seq<PhaseThread>)
    returns (startTimes: array<int>, endTimes: array<int>, names: array<string>, processTimes: array<int>)
    ensures fresh(startTimes) && fresh(endTimes) && fresh(names) && fresh(processTimes)
    ensures startTimes[..] == StartTimes(pts) && endTimes[..] == EndTimes(pts)
    ensures names[..] == PhaseNames(pts) && processTimes[..] == ProcessTimes(pts)
  {
    startTimes := new int[|pts|];
    endTimes := new int[|pts|];
    names := new string[|pts|](_ => "");
    processTimes := new int[|pts|];
    for i := 0 to |pts|
      invariant startTimes[..i] == StartTimes(pts)[..i] && endTimes[..i] == EndTimes(pts)[..i]
      invariant names[..i] == PhaseNames(pts)[..i] && processTimes[..i] == ProcessTimes(pts)[..i]
    {
      var phaseThread := pts[i];
      startTimes[i] := phaseThread.startTime;
      endTimes[i] := phaseThread.endTime;
      names[i] := TwoDigits(phaseThread.phaseId);
      processTimes[i] := phaseThread.totalTimeMillis;
      SnocPrefix(startTimes[..], StartTimes(pts), i);
      SnocPrefix(endTimes[..], EndTimes(pts), i);
      SnocPrefix(names[..], PhaseNames(pts), i);
      SnocPrefix(processTimes[..], ProcessTimes(pts), i);
    }
    assert startTimes[..] == startTimes[..|pts|] && endTimes[..] == endTimes[..|pts|];
    assert names[..] == names[..|pts|] && processTimes[..] == processTimes[..|pts|];
  }

  /** Agreeing on a prefix and on the next element is agreeing on the longer prefix. */
  lemma SnocPrefix<T>(a: seq<T>, b: seq<T>, i: nat)
    requires i < |a| && i < |b| && a[..i] == b[..i] && a[i] == b[i]
    ensures a[..i + 1] == b[..i + 1]
  {
    assert a[..i + 1] == a[..i] + [a[i]];
    assert b[..i + 1] == b[..i] + [b[i]];
  }

  /** The plot values of one phase thread, against the thread they come from. */
  predicate Spans(m: MinorFragmentProfile, start: int, end: int, process: int) {
    end == m.endTime && end - start == m.runDuration && process == m.endTime - m.startTime
  }

  /**
   * The timeline of getPhaseThreads' result: slot i of the arrays belongs to
   * a thread of a walked phase; its bar ends at the thread's end time and
   * spans exactly the thread's run duration, and its phase bar is the
   * thread's wall time.
   */
  lemma PhaseArraysAligned(frags: seq<Option<FragmentProfile>>, i: nat)
    requires FragmentThreads(frags).Ok? && i < |FragmentThreads(frags).value|
    ensures var pts := FragmentThreads(frags).value;
            |StartTimes(pts)| == |EndTimes(pts)| == |PhaseNames(pts)| == |ProcessTimes(pts)| == |pts| &&
            exists k, j :: 0 <= k < |frags| && IsThreadOf(frags[k], j, pts[i]) &&
              Spans(Minors(frags[k])[j].value, StartTimes(pts)[i], EndTimes(pts)[i], ProcessTimes(pts)[i])
  {
    var pts := FragmentThreads(frags).value;
    FragmentThreadsMembers(frags, pts[i]);
  }

  /** The phase labels read back as the phase ids. */
  lemma PhaseNameReadsBack(pts: seq<PhaseThread>, i: nat)
    requires i < |pts| && MinInt <= pts[i].phaseId <= MaxInt
    ensures |PhaseNames(pts)| == |pts| && ParseInt(PhaseNames(pts)[i]) == Some(pts[i].phaseId)
  {
    TwoDigitsReadsBack(pts[i].phaseId);
  }

  // ---------------------------------------------------------------------------
  // The operators
  // ---------------------------------------------------------------------------

  /**
   * An operator of the plots: built by a foreign factory from its profile and
   * the profile's metric definitions, then given its phase and thread ids.
   */
  datatype Operator = Operator(profile: Option<OperatorProfile>, metricsDef: seq<string>, parentPhaseId: int,
                               threadId: int)

  /**
   * The operators of one thread. The metric definitions are read through the
   * profile's metrics map for every operator, so a null map throws as soon as
   * there is one operator.
   */
  function ThreadOperators(ops: seq<Option<OperatorProfile>>, metrics: Option<OperatorTypeMetricsMap>, phaseId: int,
                           threadId: int): (r: Result<seq<Operator>, Fault>)
    ensures r.Ok? <==> ops == [] || metrics.Some?
    ensures r.Ok? ==> |r.value| == |ops|
    ensures r.Ok? ==> forall k :: 0 <= k < |ops| ==>
              r.value[k] == Operator(ops[k], metrics.value.metricsDef, phaseId, threadId)
  {
    if ops == [] then Ok([])
    else if metrics.None? then Err(NullPointer)
    else Ok(seq(|ops|, k requires 0 <= k < |ops| => Operator(ops[k], metrics.value.metricsDef, phaseId, threadId)))
  }

  /** The operators of a phase's threads; null threads and threads with a null operator list are skipped. */
  function PhaseOperators(minors: seq<Option<MinorFragmentProfile>>, metrics: Option<OperatorTypeMetricsMap>,
                          phaseId: int): Result<seq<Operator>, Fault>
  {
    if minors == [] then Ok([])
    else if minors[0].None? || minors[0].value.operatorProfile.None? then PhaseOperators(minors[1..], metrics, phaseId)
    else
      var head :- ThreadOperators(minors[0].value.operatorProfile.value, metrics, phaseId, minors[0].value.minorFragmentId);
      var rest :- PhaseOperators(minors[1..], metrics, phaseId);
      Ok(head + rest)
  }

  /** The operators of the walked phases, in traversal order. */
  function FragmentOperators(frags: seq<Option<FragmentProfile>>, metrics: Option<OperatorTypeMetricsMap>)
    : Result<seq<Operator>, Fault>
  {
    if frags == [] then Ok([])
    else if !Kept(frags[0]) then FragmentOperators(frags[1..], metrics)
    else
      var head :- PhaseOperators(Minors(frags[0]), metrics, frags[0].value.majorFragmentId);
      var rest :- FragmentOperators(frags[1..], metrics);
      Ok(head + rest)
  }

  /** The specification of the operator loop nest: nothing without a fragment list. */
  function OperatorsOf(p: ProfileJSON): Result<seq<Operator>, Fault> {
    if p.fragmentProfile.None? then Ok([]) else FragmentOperators(p.fragmentProfile.value, p.operatorTypeMetricsMap)
  }

  lemma {:induction false} PhaseOperatorsShape(minors: seq<Option<MinorFragmentProfile>>,
                                               metrics: Option<OperatorTypeMetricsMap>, phaseId: int)
    ensures PhaseOperators(minors, metrics, phaseId).Ok? <==> metrics.Some? || ThreadOperatorCount(minors) == 0
    ensures PhaseOperators(minors, metrics, phaseId).Ok? ==>
            |PhaseOperators(minors, metrics, phaseId).value| == ThreadOperatorCount(minors)
  {
    if minors != [] {
      PhaseOperatorsShape(minors[1..], metrics, phaseId);
    }
  }

  /**
   * The operator loop nest succeeds exactly when the metrics map is non-null or
   * there is no operator to build, and then yields one operator per operator of
   * every non-null thread with a non-null operator list of every walked phase:
   * the same operators the summary report makes rows of.
   */
  lemma {:induction false} FragmentOperatorsShape(frags: seq<Option<FragmentProfile>>, metrics: Option<OperatorTypeMetricsMap>)
    ensures FragmentOperators(frags, metrics).Ok? <==> metrics.Some? || OperatorCount(frags) == 0
    ensures FragmentOperators(frags, metrics).Ok? ==> |FragmentOperators(frags, metrics).value| == OperatorCount(frags)
  {
    if frags != [] {
      FragmentOperatorsShape(frags[1..], metrics);
      if Kept(frags[0]) {
        PhaseOperatorsShape(Minors(frags[0]), metrics, frags[0].value.majorFragmentId);
      }
    }
  }

  /** The duration and records plots show one operator per row of the summary's operator table. */
  lemma OperatorsMatchSummary(p: ProfileJSON, findings: seq<string>, queryStates: seq<string>, typeCount: nat)
    requires p.fragmentProfile.Some?
    requires Summarize(Some(p), findings, queryStates, typeCount).Ok? && OperatorsOf(p).Ok?
    ensures |OperatorsOf(p).value| == Summarize(Some(p), findings, queryStates, typeCount).value.totalOperators
  {
    SummarizeFields(p, findings, queryStates, typeCount);
    FragmentOperatorsShape(p.fragmentProfile.value, p.operatorTypeMetricsMap);
  }

  /** o was built from an operator of a non-null thread, with a non-null operator list, of a phase with id phaseId. */
  predicate OperatorOf(minors: seq<Option<MinorFragmentProfile>>, phaseId: int, o: Operator) {
    o.parentPhaseId == phaseId &&
    exists j :: 0 <= j < |minors| && minors[j].Some? && minors[j].value.operatorProfile.Some? &&
      o.threadId == minors[j].value.minorFragmentId && o.profile in minors[j].value.operatorProfile.value
  }

  /**
   * Every collected operator is an operator of a thread of a walked phase and
   * carries that phase's id and that thread's id, and the metric definitions
   * of the profile's map.
   */
  lemma {:induction false} FragmentOperatorsPhases(frags: seq<Option<FragmentProfile>>,
                                                   metrics: Option<OperatorTypeMetricsMap>, o: Operator)
    requires FragmentOperators(frags, metrics).Ok? && o in FragmentOperators(frags, metrics).value
    ensures metrics.Some? && o.metricsDef == metrics.value.metricsDef
    ensures exists k :: 0 <= k < |frags| && Kept(frags[k]) &&
              OperatorOf(Minors(frags[k]), frags[k].value.majorFragmentId, o)
  {
    if Kept(frags[0]) && o in PhaseOperators(Minors(frags[0]), metrics, frags[0].value.majorFragmentId).value {
      PhaseOperatorsPhase(Minors(frags[0]), metrics, frags[0].value.majorFragmentId, o);
    } else {
      FragmentOperatorsPhases(frags[1..], metrics, o);
      var k :| 0 <= k < |frags[1..]| && Kept(frags[1..][k]) &&
               OperatorOf(Minors(frags[1..][k]), frags[1..][k].value.majorFragmentId, o);
      assert frags[1..][k] == frags[k + 1];
    }
  }

  lemma {:induction false} PhaseOperatorsPhase(minors: seq<Option<MinorFragmentProfile>>,
                                               metrics: Option<OperatorTypeMetricsMap>, phaseId: int, o: Operator)
    requires PhaseOperators(minors, metrics, phaseId).Ok? && o in PhaseOperators(minors, metrics, phaseId).value
    ensures metrics.Some? && o.metricsDef == metrics.value.metricsDef && OperatorOf(minors, phaseId, o)
  {
    if minors[0].None? || minors[0].value.operatorProfile.None? {
      PhaseOperatorsPhase(minors[1..], metrics, phaseId, o);
      var j :| 0 <= j < |minors[1..]| && minors[1..][j].Some? && minors[1..][j].value.operatorProfile.Some? &&
               o.threadId == minors[1..][j].value.minorFragmentId && o.profile in minors[1..][j].value.operatorProfile.value;
      assert minors[1..][j] == minors[j + 1];
    } else {
      var ops := minors[0].value.operatorProfile.value;
      var head := ThreadOperators(ops, metrics, phaseId, minors[0].value.minorFragmentId).value;
      if o in head {
        var k :| 0 <= k < |head| && head[k] == o;
        assert ops[k] in ops;
      } else {
        PhaseOperatorsPhase(minors[1..], metrics, phaseId, o);
        var j :| 0 <= j < |minors[1..]| && minors[1..][j].Some? && minors[1..][j].value.operatorProfile.Some? &&
                 o.threadId == minors[1..][j].value.minorFragmentId && o.profile in minors[1..][j].value.operatorProfile.value;
        assert minors[1..][j] == minors[j + 1];
      }
    }
  }

  /** The innermost loop: one operator per operator profile. */
  method AppendThreadOperators(acc: seq<Operator>, ops: seq<Option<OperatorProfile>>, p: ProfileJSON, phaseId: int,
                               threadId: int) returns (r: Result<seq<Operator>, Fault>)
    ensures r == Prepend(acc, ThreadOperators(ops, p.operatorTypeMetricsMap, phaseId, threadId))
  {
    var operators := acc;
    for i := 0 to |ops|
      invariant |operators| == |acc| + i
      invariant operators[..|acc|] == acc
      invariant i > 0 ==> p.operatorTypeMetricsMap.Some?
      invariant forall k :: 0 <= k < i ==>
                  operators[|acc| + k] == Operator(ops[k], p.operatorTypeMetricsMap.value.metricsDef, phaseId, threadId)
    {
      if p.operatorTypeMetricsMap.None? {
        return Err(NullPointer);
      }
      var operator := Operator(ops[i], p.operatorTypeMetricsMap.value.metricsDef, phaseId, threadId);
      operators := operators + [operator];
    }
    r := Ok(operators);
    if ops == [] {
      assert operators == operators[..|acc|];
      assert acc + [] == acc;
    } else {
      var expected := ThreadOperators(ops, p.operatorTypeMetricsMap, phaseId, threadId).value;
      assert forall k :: 0 <= k < |operators| ==> operators[k] == (acc + expected)[k] by {
        forall k | 0 <= k < |operators| ensures operators[k] == (acc + expected)[k] {
          if k < |acc| {
            assert operators[k] == operators[..|acc|][k];
          }
        }
      }
      assert operators == acc + expected;
    }
  }

  /** The loop over a phase's threads. */
  method AppendPhaseOperators(acc: seq<Operator>, minors: seq<Option<MinorFragmentProfile>>, p: ProfileJSON,
                              phaseId: int) returns (r: Result<seq<Operator>, Fault>)
    ensures r == Prepend(acc, PhaseOperators(minors, p.operatorTypeMetricsMap, phaseId))
  {
    var operators := acc;
    var metrics := p.operatorTypeMetricsMap;
    assert minors[0..] == minors;
    for i := 0 to |minors|
      invariant Prepend(acc, PhaseOperators(minors, metrics, phaseId)) ==
                Prepend(operators, PhaseOperators(minors[i..], metrics, phaseId))
    {
      assert minors[i..][1..] == minors[i + 1..];
      var minorProfile := minors[i];
      if minorProfile.Some? && minorProfile.value.operatorProfile.Some? {
        var before := operators;
        var next := AppendThreadOperators(operators, minorProfile.value.operatorProfile.value, p, phaseId,
                                          minorProfile.value.minorFragmentId);
        if next.Err? {
          return Err(next.error);
        }
        ghost var head := ThreadOperators(minorProfile.value.operatorProfile.value, metrics, phaseId,
                                          minorProfile.value.minorFragmentId).value;
        ghost var rest := PhaseOperators(minors[i + 1..], metrics, phaseId);
        if rest.Ok? {
          AppendAssoc(before, head, rest.value);
        }
        operators := next.value;
      }
    }
    assert minors[|minors|..] == [];
    assert operators + [] == operators;
    r := Ok(operators);
  }

  /** The loop nest collecting the operators of the plots. */
  method CollectOperators(p: ProfileJSON) returns (r: Result<seq<Operator>, Fault>)
    ensures r == OperatorsOf(p)
  {
    var operators: seq<Operator> := [];
    if p.fragmentProfile.Some? {
      var frags := p.fragmentProfile.value;
      var metrics := p.operatorTypeMetricsMap;
      assert frags[0..] == frags;
      assert FragmentOperators(frags, metrics).Ok? ==>
             [] + FragmentOperators(frags, metrics).value == FragmentOperators(frags, metrics).value;
      for i := 0 to |frags|
        invariant FragmentOperators(frags, metrics) == Prepend(operators, FragmentOperators(frags[i..], metrics))
      {
        assert frags[i..][1..] == frags[i + 1..];
        var fragmentProfile := frags[i];
        if fragmentProfile.Some? && fragmentProfile.value.minorFragmentProfile.Some? {
          var phaseId := fragmentProfile.value.majorFragmentId;
          var before := operators;
          var next := AppendPhaseOperators(operators, fragmentProfile.value.minorFragmentProfile.value, p, phaseId);
          if next.Err? {
            return Err(next.error);
          }
          ghost var head := PhaseOperators(Minors(fragmentProfile), metrics, phaseId).value;
          ghost var rest := FragmentOperators(frags[i + 1..], metrics);
          if rest.Ok? {
            AppendAssoc(before, head, rest.value);
          }
          operators := next.value;
        }
      }
      assert frags[|frags|..] == [];
      assert operators + [] == operators;
    }
    r := Ok(operators);
  }

  /** The operator labels: the parent phase id as "%02d". */
  function OperatorNames(ops: seq<Operator>): seq<string> {
    seq(|ops|, i requires 0 <= i < |ops| => TwoDigits(ops[i].parentPhaseId))
  }

  /** The loop filling the operator-name array by index. */
  method FillOperatorNames(ops: seq<Operator>) returns (names: array<string>)
    ensures fresh(names) && names[..] == OperatorNames(ops)
  {
    names := new string[|ops|](_ => "");
    for i := 0 to |ops|
      invariant names[..i] == OperatorNames(ops)[..i]
    {
      var operator := ops[i];
      names[i] := TwoDigits(operator.parentPhaseId);
      SnocPrefix(names[..], OperatorNames(ops), i);
    }
    assert names[..] == names[..|ops|];
  }

  /** Operator labels read back as the operator's phase id. */
  lemma OperatorNameReadsBack(ops: seq<Operator>, i: nat)
    requires i < |ops| && MinInt <= ops[i].parentPhaseId <= MaxInt
    ensures |OperatorNames(ops)| == |ops|
    ensures ParseInt(OperatorNames(ops)[i]) == Some(ops[i].parentPhaseId)
  {
    TwoDigitsReadsBack(ops[i].parentPhaseId);
  }

  // ---------------------------------------------------------------------------
  // Sections, titles and navigation links
  // ---------------------------------------------------------------------------

  /** The section ids and titles the summary report contributes (a foreign call). */
  datatype SummaryOut = SummaryOut(sections: seq<string>, titles: seq<string>)

  /** The HTML fragments of the page, in order. */
  datatype Fragment =
    | SummaryFragment      // the summary report's HTML, restyled
    | PhasesFragment
    | TimelineFragment
    | DurationFragment
    | RecordsFragment
    | ConvertToRelFragment
    | EmptyFragment        // the convert-to-rel slot when it is not shown
    | DisabledFragment     // the notice shown when there is no profile

  datatype Script = PlotlyScript | MermaidScript

  /** One navigation link: href="#section", labelled with the title. */
  datatype NavLink = NavLink(section: string, title: string)

  /**
   * The section-link loop: one link per title, pairing title j with section j.
   * A section list shorter than the title list throws at its first missing index.
   */
  function NavLinksOf(titles: seq<string>, sections: seq<string>): (r: Result<seq<NavLink>, Fault>)
    ensures r.Ok? <==> |titles| <= |sections|
    ensures r.Ok? ==> |r.value| == |titles| &&
                      forall j :: 0 <= j < |titles| ==> r.value[j] == NavLink(sections[j], titles[j])
  {
    if |sections| < |titles| then Err(IndexOutOfBounds(|sections|, |sections|))
    else Ok(seq(|titles|, j requires 0 <= j < |titles| => NavLink(sections[j], titles[j])))
  }

  method BuildNavLinks(titles: seq<string>, sections: seq<string>) returns (r: Result<seq<NavLink>, Fault>)
    ensures r == NavLinksOf(titles, sections)
  {
    var links: seq<NavLink> := [];
    for j := 0 to |titles|
      invariant |links| == j && j <= |sections|
      invariant forall k :: 0 <= k < j ==> links[k] == NavLink(sections[k], titles[k])
    {
      var title := titles[j];
      if j >= |sections| {
        return Err(IndexOutOfBounds(j, |sections|));
      }
      var sectionName := sections[j];
      links := links + [NavLink(sectionName, title)];
    }
    r := Ok(links);
    assert links == NavLinksOf(titles, sections).value;
  }

  /** The sections getText adds after the summary's, with their titles. */
  function AddedSections(convertToRel: bool): seq<string> {
    ["phases-section", "timeline-section", "op-duration-section", "op-records-section"]
    + (if convertToRel then ["convert-to-rel-section"] else [])
  }

  function AddedTitles(convertToRel: bool): seq<string> {
    ["Phases", "Timeline", "Duration Graph", "Records Graph"] + (if convertToRel then ["Convert To Rel"] else [])
  }

  /** What getText computes before it fills the HTML template. */
  datatype Page = Page(
    phaseThreads: seq<PhaseThread>,
    startTimes: seq<int>,
    endTimes: seq<int>,
    phaseNames: seq<string>,
    processTimes: seq<int>,
    scripts: seq<Script>,
    fragments: seq<Fragment>,
    sections: seq<string>,
    titles: seq<string>,
    operators: seq<Operator>,
    operatorNames: seq<string>,
    navLinks: seq<NavLink>)

  /**
   * The specification of getText. convertToRelFound is whether the
   * convert-to-rel parser returns a graph; it is consulted only when the graph
   * is enabled.
   */
  function ReportOf(parsed: Option<ProfileJSON>, showConvertToRel: bool, summary: SummaryOut, convertToRelFound: bool)
    : Result<Page, Fault>
  {
    var pts :- PhaseThreadsOf(parsed);
    if parsed.None? then
      Ok(Page(pts, StartTimes(pts), EndTimes(pts), PhaseNames(pts), ProcessTimes(pts), [], [DisabledFragment], [], [],
              [], [], []))
    else
      var ops :- OperatorsOf(parsed.value);
      var convert := showConvertToRel && convertToRelFound;
      var sections := summary.sections + AddedSections(convert);
      var titles := summary.titles + AddedTitles(convert);
      var links :- NavLinksOf(titles, sections);
      Ok(Page(pts, StartTimes(pts), EndTimes(pts), PhaseNames(pts), ProcessTimes(pts), [PlotlyScript, MermaidScript],
              [SummaryFragment, PhasesFragment, TimelineFragment, DurationFragment, RecordsFragment,
               if convert then ConvertToRelFragment else EmptyFragment],
              sections, titles, ops, OperatorNames(ops), links))
  }

  /** getText: the lists are appended to step by step, in the order the page is assembled. */
  method GetText(parsed: Option<ProfileJSON>, showConvertToRel: bool, summary: SummaryOut, convertToRelFound: bool)
    returns (r: Result<Page, Fault>)
    ensures r == ReportOf(parsed, showConvertToRel, summary, convertToRelFound)
  {
    var phaseThreads := GetPhaseThreads(parsed);
    if phaseThreads.Err? {
      return Err(phaseThreads.error);
    }
    var pts := phaseThreads.value;
    var startTimes, endTimes, phaseThreadNames, phaseProcessTimes := FillPhaseArrays(pts);
    var scripts: seq<Script> := [];
    var htmlFragments: seq<Fragment> := [];
    var sections: seq<string> := [];
    var titles: seq<string> := [];
    var operators: seq<Operator> := [];
    var operatorNames: seq<string> := [];
    if parsed.Some? {
      sections := sections + summary.sections;
      titles := titles + summary.titles;
      htmlFragments := htmlFragments + [SummaryFragment];
      scripts := scripts + [PlotlyScript];
      scripts := scripts + [MermaidScript];
      htmlFragments := htmlFragments + [PhasesFragment];
      sections := sections + ["phases-section"];
      titles := titles + ["Phases"];
      htmlFragments := htmlFragments + [TimelineFragment];
      sections := sections + ["timeline-section"];
      titles := titles + ["Timeline"];
      var collected := CollectOperators(parsed.value);
      if collected.Err? {
        return Err(collected.error);
      }
      operators := collected.value;
      var names := FillOperatorNames(operators);
      operatorNames := names[..];
      htmlFragments := htmlFragments + [DurationFragment];
      sections := sections + ["op-duration-section"];
      titles := titles + ["Duration Graph"];
      htmlFragments := htmlFragments + [RecordsFragment];
      sections := sections + ["op-records-section"];
      titles := titles + ["Records Graph"];
      var convertToRel := EmptyFragment;
      if showConvertToRel && convertToRelFound {
        sections := sections + ["convert-to-rel-section"];
        titles := titles + ["Convert To Rel"];
        convertToRel := ConvertToRelFragment;
      }
      htmlFragments := htmlFragments + [convertToRel];
      assert htmlFragments == [SummaryFragment, PhasesFragment, TimelineFragment, DurationFragment, RecordsFragment,
                               convertToRel];
      assert scripts == [PlotlyScript, MermaidScript];
      assert sections == summary.sections + AddedSections(showConvertToRel && convertToRelFound);
      assert titles == summary.titles + AddedTitles(showConvertToRel && convertToRelFound);
    } else {
      htmlFragments := htmlFragments + [DisabledFragment];
      assert htmlFragments == [DisabledFragment];
    }
    var links := BuildNavLinks(titles, sections);
    if links.Err? {
      return Err(links.error);
    }
    if parsed.None? {
      assert links.value == [];
    }
    r := Ok(Page(pts, startTimes[..], endTimes[..], phaseThreadNames[..], phaseProcessTimes[..], scripts,
                 htmlFragments, sections, titles, operators, operatorNames, links.value));
  }

  // ---------------------------------------------------------------------------
  // Properties of the page
  // ---------------------------------------------------------------------------

  /** Without a profile: no thread, no section, no title, no link, only the notice fragment. */
  lemma ReportWithoutProfile(showConvertToRel: bool, summary: SummaryOut, convertToRelFound: bool)
    ensures var r := ReportOf(None, showConvertToRel, summary, convertToRelFound);
            r.Ok? && r.value.phaseThreads == [] && r.value.fragments == [DisabledFragment] &&
            r.value.sections == [] && r.value.titles == [] && r.value.navLinks == [] &&
            r.value.scripts == [] && r.value.operators == []
  {
  }

  /** Links of two lockstep pairs of lists, one after the other, are the links of the joined lists. */
  lemma NavLinksAppend(t1: seq<string>, s1: seq<string>, t2: seq<string>, s2: seq<string>)
    requires |t1| == |s1| && |t2| == |s2|
    ensures NavLinksOf(t1 + t2, s1 + s2) == Ok(NavLinksOf(t1, s1).value + NavLinksOf(t2, s2).value)
  {
    var whole := NavLinksOf(t1 + t2, s1 + s2).value;
    var parts := NavLinksOf(t1, s1).value + NavLinksOf(t2, s2).value;
    assert forall j :: 0 <= j < |whole| ==> whole[j] == parts[j] by {
      forall j | 0 <= j < |whole| ensures whole[j] == parts[j] {
        if j < |t1| {
          assert (t1 + t2)[j] == t1[j] && (s1 + s2)[j] == s1[j];
        } else {
          assert (t1 + t2)[j] == t2[j - |t1|] && (s1 + s2)[j] == s2[j - |t1|];
        }
      }
    }
    assert whole == parts;
  }

  /** The links getText adds after the summary's. */
  function AddedLinks(convertToRel: bool): (r: seq<NavLink>)
    ensures r == NavLinksOf(AddedTitles(convertToRel), AddedSections(convertToRel)).value
  {
    var links := [NavLink("phases-section", "Phases"), NavLink("timeline-section", "Timeline"),
                  NavLink("op-duration-section", "Duration Graph"), NavLink("op-records-section", "Records Graph")] +
                 (if convertToRel then [NavLink("convert-to-rel-section", "Convert To Rel")] else []);
    assert |AddedTitles(convertToRel)| == |AddedSections(convertToRel)| == |links|;
    assert forall j :: 0 <= j < |links| ==>
             links[j] == NavLink(AddedSections(convertToRel)[j], AddedTitles(convertToRel)[j]);
    links
  }

  /**
   * With a profile, the sections and titles stay in lockstep: as long as the
   * summary gives a section per title, each of its titles links to the section
   * at its own position, and the links after the summary's are phases,
   * timeline, duration, records and, only when enabled and found,
   * convert-to-rel.
   */
  lemma ReportLinks(p: ProfileJSON, showConvertToRel: bool, summary: SummaryOut, convertToRelFound: bool)
    requires |summary.sections| == |summary.titles|
    requires PhaseThreadsOf(Some(p)).Ok? && OperatorsOf(p).Ok?
    ensures var r := ReportOf(Some(p), showConvertToRel, summary, convertToRelFound);
            r.Ok? && |r.value.sections| == |r.value.titles| == |r.value.navLinks| &&
            r.value.navLinks ==
              seq(|summary.titles|, j requires 0 <= j < |summary.titles| => NavLink(summary.sections[j], summary.titles[j]))
              + AddedLinks(showConvertToRel && convertToRelFound)
  {
    var convert := showConvertToRel && convertToRelFound;
    NavLinksAppend(summary.titles, summary.sections, AddedTitles(convert), AddedSections(convert));
  }

  /** A summary with fewer sections than titles makes the link loop throw. */
  lemma ReportSectionsShort(p: ProfileJSON, showConvertToRel: bool, summary: SummaryOut, convertToRelFound: bool)
    requires |summary.sections| < |summary.titles|
    requires PhaseThreadsOf(Some(p)).Ok? && OperatorsOf(p).Ok?
    ensures var sections := |summary.sections| + |AddedSections(showConvertToRel && convertToRelFound)|;
            ReportOf(Some(p), showConvertToRel, summary, convertToRelFound) == Err(IndexOutOfBounds(sections, sections))
  {
  }

  /**
   * With a profile: the two libraries are loaded, six fragments are added, and
   * the convert-to-rel fragment is among them exactly when it is enabled and
   * the parser found a graph; the phase arrays and operator labels are aligned
   * with the threads and operators.
   */
  lemma ReportFragments(p: ProfileJSON, showConvertToRel: bool, summary: SummaryOut, convertToRelFound: bool)
    requires ReportOf(Some(p), showConvertToRel, summary, convertToRelFound).Ok?
    ensures var page := ReportOf(Some(p), showConvertToRel, summary, convertToRelFound).value;
            page.scripts == [PlotlyScript, MermaidScript] && |page.fragments| == 6 &&
            (ConvertToRelFragment in page.fragments <==> showConvertToRel && convertToRelFound) &&
            |page.startTimes| == |page.endTimes| == |page.phaseNames| == |page.processTimes| == |page.phaseThreads| &&
            |page.operatorNames| == |page.operators|
  {
  }

  /**
   * getText fails exactly when the thread walk meets a null thread, or the
   * operator walk needs the null metrics map, or the summary's sections run
   * out before its titles.
   */
  lemma ReportFails(p: ProfileJSON, showConvertToRel: bool, summary: SummaryOut, convertToRelFound: bool)
    ensures ReportOf(Some(p), showConvertToRel, summary, convertToRelFound).Err? <==>
            (p.fragmentProfile.Some? && !NoNullThread(p.fragmentProfile.value)) ||
            (p.fragmentProfile.Some? && p.operatorTypeMetricsMap.None? && OperatorCount(p.fragmentProfile.value) > 0) ||
            |summary.sections| < |summary.titles|
  {
    if p.fragmentProfile.Some? {
      FragmentThreadsShape(p.fragmentProfile.value);
      FragmentOperatorsShape(p.fragmentProfile.value, p.operatorTypeMetricsMap);
    }
  }
}
