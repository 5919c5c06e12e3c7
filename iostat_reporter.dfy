/**
 * IOStatReporter: the summary statistics computed from an iostat/top capture
 * and the recommendations derived from them. The HTML around them is not modelled.
 */
module IOStatReporter {
  import opened Wrappers
  import opened Sorting

  /** One %Cpu(s) sample, in the field order of the CPUStats record. */
  datatype CpuStats = CpuStats(user: real, nice: real, system: real, iowait: real, steal: real, idle: real)

  /**
   * The parts of a ReportStats record that summaryStats reads: the CPU samples,
   * three threshold counters and, per device, how often its queue depth was over 1.
   */
  datatype ReportStats = ReportStats(
    cpuStats: seq<CpuStats>,
    numberOfTimesOver50PerCpu: int,
    numberOfTimesOver90PerCpu: int,
    ioBottleneckCount: int,
    queueMap: map<string, int>)

  /** The Summary record; percentages are exact reals (double rounding is not modelled). */
  datatype Summary = Summary(
    percOver50: real,
    percOver90: real,
    percIOWaitOver5: real,
    diskNames: seq<string>,
    queuePerc: map<string, real>,
    totalRecords: nat)

  // ---------------------------------------------------------------------------
  // Percentages
  // ---------------------------------------------------------------------------

  /**
   * (count / totalRecords) * 100 when the guarding counter is positive, else 0.
   * A positive guard with no records would divide by zero (Infinity in Java);
   * callers must rule that out.
   */
  function Percentage(guard: int, count: int, totalRecords: nat): (p: real)
    requires guard > 0 ==> totalRecords > 0
    ensures guard <= 0 ==> p == 0.0
    ensures guard > 0 ==> p * totalRecords as real == 100.0 * count as real
  {
    if guard > 0 then (count as real / totalRecords as real) * 100.0 else 0.0
  }

  /** A count that occurred at least once and at most once per record is a share in (0, 100]. */
  lemma PercentageBounds(guard: int, count: int, totalRecords: nat)
    requires guard > 0 && 0 < count <= totalRecords
    ensures 0.0 < Percentage(guard, count, totalRecords) <= 100.0
  {
    var t := totalRecords as real;
    var q := count as real / t;
    assert q * t == count as real;
    assert 0.0 < q <= 1.0;
  }

  /** What summaryStats needs of its input: no positive counter over an empty sample list. */
  predicate Countable(rs: ReportStats) {
    (rs.numberOfTimesOver50PerCpu > 0 ==> |rs.cpuStats| > 0) &&
    (rs.numberOfTimesOver90PerCpu > 0 ==> |rs.cpuStats| > 0) &&
    (rs.ioBottleneckCount > 0 ==> |rs.cpuStats| > 0)
  }

  // ---------------------------------------------------------------------------
  // summaryStats
  // ---------------------------------------------------------------------------

  /**
   * summaryStats. The device names are taken from the key set of queueMap (the
   * HashMap enumeration order is left open: any order may be picked), sorted,
   * and every device's queue percentage is gated by ioBottleneckCount.
   */
  method SummaryStats(rs: ReportStats) returns (s: Summary)
    requires Countable(rs)
    ensures s.totalRecords == |rs.cpuStats|
    ensures s.percOver50 == Percentage(rs.numberOfTimesOver50PerCpu, rs.numberOfTimesOver50PerCpu, s.totalRecords)
    ensures s.percOver90 == Percentage(rs.numberOfTimesOver90PerCpu, rs.numberOfTimesOver90PerCpu, s.totalRecords)
    ensures s.percIOWaitOver5 == Percentage(rs.ioBottleneckCount, rs.ioBottleneckCount, s.totalRecords)
    ensures StrictlySorted(s.diskNames)
    ensures forall d :: d in s.diskNames <==> d in rs.queueMap
    ensures s.queuePerc.Keys == rs.queueMap.Keys
    ensures forall d :: d in s.queuePerc ==>
              s.queuePerc[d] == Percentage(rs.ioBottleneckCount, rs.queueMap[d], s.totalRecords)
  {
    var totalRecords := |rs.cpuStats|;
    var percentageTimeOver50 := Percentage(rs.numberOfTimesOver50PerCpu, rs.numberOfTimesOver50PerCpu, totalRecords);
    var percentageTimeOver90 := Percentage(rs.numberOfTimesOver90PerCpu, rs.numberOfTimesOver90PerCpu, totalRecords);
    var percentageIOWaitTimeOver5 := Percentage(rs.ioBottleneckCount, rs.ioBottleneckCount, totalRecords);

    var disks := KeyList(rs.queueMap);
    SortStringsSorted(disks);
    var sorted := SortStrings(disks);
    forall d ensures d in sorted <==> d in disks {
      assert d in sorted <==> d in multiset(sorted);
    }
    var diskPer := QueuePercentages(sorted, rs);
    s := Summary(percentageTimeOver50, percentageTimeOver90, percentageIOWaitTimeOver5, sorted, diskPer, totalRecords);
  }

  /** The keys of a HashMap in its (unspecified) enumeration order: each key exactly once. */
  method KeyList(m: map<string, int>) returns (disks: seq<string>)
    ensures forall d :: d in disks <==> d in m
    ensures forall i, j :: 0 <= i < j < |disks| ==> disks[i] != disks[j]
  {
    disks := [];
    var rest := m.Keys;
    while rest != {}
      invariant rest <= m.Keys
      invariant forall d :: d in disks <==> d in m && d !in rest
      invariant forall i, j :: 0 <= i < j < |disks| ==> disks[i] != disks[j]
      decreases |rest|
    {
      var key :| key in rest;
      disks := disks + [key];
      rest := rest - {key};
    }
  }

  /** The diskPer map: one entry per listed device, its queue share gated by ioBottleneckCount. */
  method QueuePercentages(disks: seq<string>, rs: ReportStats) returns (diskPer: map<string, real>)
    requires Countable(rs) && forall d :: d in disks ==> d in rs.queueMap
    ensures forall d :: d in diskPer <==> d in disks
    ensures forall d :: d in diskPer ==>
              diskPer[d] == Percentage(rs.ioBottleneckCount, rs.queueMap[d], |rs.cpuStats|)
  {
    diskPer := map[];
    for i := 0 to |disks|
      invariant forall d :: d in diskPer <==> d in disks[..i]
      invariant forall d :: d in diskPer ==>
                  d in rs.queueMap && diskPer[d] == Percentage(rs.ioBottleneckCount, rs.queueMap[d], |rs.cpuStats|)
    {
      var deviceName := disks[i];
      var timesQueued := rs.queueMap[deviceName];
      diskPer := diskPer[deviceName := Percentage(rs.ioBottleneckCount, timesQueued, |rs.cpuStats|)];
      assert disks[..i + 1] == disks[..i] + [deviceName];
    }
    assert disks[..|disks|] == disks;
  }

  /** With ioBottleneckCount zero every device shows 0%, however often it was queued. */
  lemma QueueGatedByBottleneck(rs: ReportStats, d: string)
    requires Countable(rs) && rs.ioBottleneckCount <= 0 && d in rs.queueMap
    ensures Percentage(rs.ioBottleneckCount, rs.queueMap[d], |rs.cpuStats|) == 0.0
  {
  }

  // ---------------------------------------------------------------------------
  // summaryText: the rows of the summary table
  // ---------------------------------------------------------------------------

  /** One row of the summary table, before formatting. */
  datatype SummaryRow =
    | Measurements(count: nat)
    | TimeOver50(perc: real)
    | TimeOver90(perc: real)
    | TimeIOWaitOver5(perc: real)
    | DiskQueued(device: string, queued: Option<real>)  // None: Map.get found no entry (printed as "null")

  /** The rows summaryText hands to the table builder: four fixed rows, then one per device. */
  method SummaryTable(s: Summary) returns (rows: seq<SummaryRow>)
    ensures |rows| == 4 + |s.diskNames|
    ensures rows[..4] == [Measurements(s.totalRecords), TimeOver50(s.percOver50),
                          TimeOver90(s.percOver90), TimeIOWaitOver5(s.percIOWaitOver5)]
    ensures forall i :: 0 <= i < |s.diskNames| ==>
              rows[4 + i] == DiskQueued(s.diskNames[i],
                                        if s.diskNames[i] in s.queuePerc then Some(s.queuePerc[s.diskNames[i]]) else None)
  {
    rows := [Measurements(s.totalRecords), TimeOver50(s.percOver50),
             TimeOver90(s.percOver90), TimeIOWaitOver5(s.percIOWaitOver5)];
    for i := 0 to |s.diskNames|
      invariant |rows| == 4 + i
      invariant rows[..4] == [Measurements(s.totalRecords), TimeOver50(s.percOver50),
                              TimeOver90(s.percOver90), TimeIOWaitOver5(s.percIOWaitOver5)]
      invariant forall k :: 0 <= k < i ==>
                  rows[4 + k] == DiskQueued(s.diskNames[k],
                                            if s.diskNames[k] in s.queuePerc then Some(s.queuePerc[s.diskNames[k]]) else None)
    {
      var deviceName := s.diskNames[i];
      var percentageQueued := if deviceName in s.queuePerc then Some(s.queuePerc[deviceName]) else None;
      rows := rows + [DiskQueued(deviceName, percentageQueued)];
    }
  }

  // ---------------------------------------------------------------------------
  // recommendations
  // ---------------------------------------------------------------------------

  datatype Advice =
    | IncreaseDiskCapacity(disks: seq<string>)  // the disks joined by "," in the text
    | NetworkBound                              // iowait high, no disk saturated
    | CpuHighTwoThreadsPerCore                  // percOver50 > 10
    | CpuHighOneThreadPerCore                   // percOver90 > 10
  {
    predicate IsAboutIO() { IncreaseDiskCapacity? || NetworkBound? }
  }

  /** One table row: the counter value and the advice. */
  datatype Recommendation = Recommendation(number: nat, advice: Advice)

  /**
   * The disks, in the given order, whose queue percentage is over 10; None when
   * a disk has no entry (the null Double is unboxed: NullPointerException).
   */
  function ProblemDisks(names: seq<string>, perc: map<string, real>): (r: Option<seq<string>>)
    ensures r.Some? <==> forall d :: d in names ==> d in perc
    ensures r.Some? ==> forall d :: d in r.value <==> d in names && perc[d] > 10.0
  {
    if names == [] then Some([])
    else if names[0] !in perc then None
    else
      var rest :- ProblemDisks(names[1..], perc);
      assert forall d :: d in names <==> d == names[0] || d in names[1..];
      Some(if perc[names[0]] > 10.0 then [names[0]] + rest else rest)
  }

  /** The problem disks keep the order of the names, so sorted names give sorted problem disks. */
  lemma {:induction false} ProblemDisksSorted(names: seq<string>, perc: map<string, real>)
    requires StrictlySorted(names) && ProblemDisks(names, perc).Some?
    ensures StrictlySorted(ProblemDisks(names, perc).value)
  {
    if names != [] {
      StrictlySortedTail(names);
      ProblemDisksSorted(names[1..], perc);
      var rest := ProblemDisks(names[1..], perc).value;
      if perc[names[0]] > 10.0 {
        forall j | 0 <= j < |rest| ensures StrLe(names[0], rest[j]) && names[0] != rest[j] {
          assert rest[j] in names[1..];
          var k :| 0 <= k < |names[1..]| && names[1..][k] == rest[j];
          assert names[k + 1] == rest[j];
        }
        ConsSorted(names[0], rest);
      }
    }
  }

  /** A list put in front of an optional list. */
  function Prefixed(p: seq<string>, r: Option<seq<string>>): Option<seq<string>> {
    if r.None? then None else Some(p + r.value)
  }

  /** The loop over diskNames collecting the disks whose queue percentage is over 10. */
  method FindProblemDisks(names: seq<string>, perc: map<string, real>) returns (r: Option<seq<string>>)
    ensures r == ProblemDisks(names, perc)
  {
    var problemDisks: seq<string> := [];
    assert names[0..] == names;
    assert ProblemDisks(names, perc).Some? ==> [] + ProblemDisks(names, perc).value == ProblemDisks(names, perc).value;
    for i := 0 to |names|
      invariant ProblemDisks(names, perc) == Prefixed(problemDisks, ProblemDisks(names[i..], perc))
    {
      var disk := names[i];
      ghost var tail := ProblemDisks(names[i + 1..], perc);
      assert names[i..][1..] == names[i + 1..];
      assert ProblemDisks(names[i..], perc) ==
             if disk !in perc then None
             else if tail.None? then None
             else Some(if perc[disk] > 10.0 then [disk] + tail.value else tail.value);
      if disk !in perc {
        return None;
      }
      var per := perc[disk];
      if per > 10.0 {
        if tail.Some? {
          AppendAssoc(problemDisks, [disk], tail.value);
        }
        problemDisks := problemDisks + [disk];
      }
    }
    assert names[|names|..] == [];
    assert problemDisks + [] == problemDisks;
    r := Some(problemDisks);
  }

  /** The advice recommendations lists, in its order: iowait first, then the two CPU rules. */
  function Advices(s: Summary): (r: Option<seq<Advice>>)
    ensures r.Some? ==> |r.value| <= 3
    ensures r.None? ==> s.percIOWaitOver5 > 10.0
  {
    var io :- if s.percIOWaitOver5 > 10.0 then
                var problemDisks :- ProblemDisks(s.diskNames, s.queuePerc);
                Some([if |problemDisks| > 0 then IncreaseDiskCapacity(problemDisks) else NetworkBound])
              else Some([]);
    Some(io + (if s.percOver50 > 10.0 then [CpuHighTwoThreadsPerCore] else [])
            + (if s.percOver90 > 10.0 then [CpuHighOneThreadPerCore] else []))
  }

  /**
   * recommendations: each rule that fires increments the counter and adds a row
   * numbered with it. None: a device name without a queue percentage.
   */
  method Recommendations(s: Summary) returns (r: Option<seq<Recommendation>>)
    ensures r.Some? <==> Advices(s).Some?
    ensures r.Some? ==> |r.value| == |Advices(s).value|
    ensures r.Some? ==> forall i :: 0 <= i < |r.value| ==> r.value[i] == Recommendation(i + 1, Advices(s).value[i])
  {
    var rows: seq<Recommendation> := [];
    var counter := 0;
    if s.percIOWaitOver5 > 10.0 {
      var found := FindProblemDisks(s.diskNames, s.queuePerc);
      if found.None? {
        return None;
      }
      var problemDisks := found.value;
      counter := counter + 1;
      if |problemDisks| > 0 {
        rows := rows + [Recommendation(counter, IncreaseDiskCapacity(problemDisks))];
      } else {
        rows := rows + [Recommendation(counter, NetworkBound)];
      }
    }
    if s.percOver50 > 10.0 {
      counter := counter + 1;
      rows := rows + [Recommendation(counter, CpuHighTwoThreadsPerCore)];
    }
    if s.percOver90 > 10.0 {
      counter := counter + 1;
      rows := rows + [Recommendation(counter, CpuHighOneThreadPerCore)];
    }
    r := Some(rows);
  }

  /** The iowait recommendation is present exactly when percIOWaitOver5 is over 10, and then it leads. */
  lemma IOAdviceIff(s: Summary)
    requires Advices(s).Some?
    ensures (|Advices(s).value| > 0 && Advices(s).value[0].IsAboutIO()) <==> s.percIOWaitOver5 > 10.0
  {
  }

  /**
   * When iowait is high, the leading advice names exactly the problem disks, or
   * gives the network message when there are none.
   */
  lemma IOAdviceNamesProblemDisks(s: Summary)
    requires s.percIOWaitOver5 > 10.0 && Advices(s).Some?
    ensures ProblemDisks(s.diskNames, s.queuePerc).Some?
    ensures Advices(s).value[0] ==
              (var p := ProblemDisks(s.diskNames, s.queuePerc).value;
               if p == [] then NetworkBound else IncreaseDiskCapacity(p))
  {
  }

  /** The number of recommendations: one per rule that fires. */
  lemma AdviceCount(s: Summary)
    requires Advices(s).Some?
    ensures |Advices(s).value| ==
              (if s.percIOWaitOver5 > 10.0 then 1 else 0) +
              (if s.percOver50 > 10.0 then 1 else 0) +
              (if s.percOver90 > 10.0 then 1 else 0)
  {
  }

  /** A summary whose every device has a percentage (as summaryStats builds it) never fails. */
  lemma AdvicesDefined(s: Summary)
    requires forall d :: d in s.diskNames ==> d in s.queuePerc
    ensures Advices(s).Some?
  {
  }
}
