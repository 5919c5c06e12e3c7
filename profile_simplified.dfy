/**
 * ProfileSimplified: the profile summariser of the simplified profile.json report.
 *
 * singleProfile walks phases, their threads (minor fragments) and each thread's
 * operators, and emits one OperatorRow per operator, sorted by total duration,
 * longest first. Summarize is the specification of that walk; SingleProfile is
 * the loop nest, proved to compute exactly Summarize.
 *
 * The QueryState and CoreOperatorType enums are not part of this model: the
 * names of the query states (in ordinal order) and the number of operator
 * types are parameters. The findings search is a foreign call whose result is
 * a parameter.
 */
module ProfileSimplified {
  import opened Wrappers
  import opened Sorting
  import opened ProfileDto

  datatype OperatorRow = OperatorRow(
    hostName: string,
    batches: int,
    records: int,
    sizeBytes: int,
    operatorId: int,
    phaseId: int,
    threadId: int,
    processNanos: int,
    setupNanos: int,
    waitNanos: int,
    totalDurationNanos: int,
    peakMemoryAllocatedBytes: int,
    coreOperatorType: Option<nat>,   // the ordinal; None for Java's null
    hostname: string)

  datatype Summary = Summary(
    dremioVersion: string,
    startEpochMillis: int,
    endEpochMillis: int,
    totalPhases: nat,
    totalOperators: nat,
    user: string,
    queryPhase: string,
    findings: seq<string>,
    operatorRows: seq<OperatorRow>)

  datatype SummaryCompare = SummaryCompare(summary1: Summary, summary2: Summary)

  /** The summary of a null profile, and the defaults every summary starts from. */
  const UnknownVersion := "unknown"
  const UnknownUser := "unknown user"
  const UnknownPhase := "UNKNOWN PHASE"

  // ---------------------------------------------------------------------------
  // Enum lookup by ordinal
  // ---------------------------------------------------------------------------

  /**
   * `if (id < values().length) x = values()[id]`: an ordinal at or past the end
   * leaves x null; a negative ordinal passes the test and the array access throws.
   */
  function EnumLookup(id: int, size: nat): (r: Result<Option<nat>, Fault>)
    ensures r.Err? <==> id < 0
    ensures r == Ok(None) <==> id >= size
    ensures r.Ok? && r.value.Some? ==> r.value.value == id && id < size
  {
    if id >= size then Ok(None)
    else if id < 0 then Err(IndexOutOfBounds(id, size))
    else Ok(Some(id))
  }

  // ---------------------------------------------------------------------------
  // One operator
  // ---------------------------------------------------------------------------

  datatype Totals = Totals(batches: int, records: int, size: int)

  /** The input-profile counters summed; a null input profile is dereferenced and throws. */
  function InputTotals(ins: seq<Option<InputProfile>>): (r: Result<Totals, Fault>)
    ensures r.Ok? <==> forall k :: 0 <= k < |ins| ==> ins[k].Some?
  {
    if ins == [] then Ok(Totals(0, 0, 0))
    else if ins[0].None? then Err(NullPointer)
    else
      var rest :- InputTotals(ins[1..]);
      assert forall k :: 1 <= k < |ins| ==> ins[k] == ins[1..][k - 1];
      var i := ins[0].value;
      Ok(Totals(i.batches + rest.batches, i.records + rest.records, i.size + rest.size))
  }

  /** The counters of an operator: 0 when its input-profile list is null. */
  function OperatorTotals(o: OperatorProfile): Result<Totals, Fault> {
    if o.inputProfile.None? then Ok(Totals(0, 0, 0)) else InputTotals(o.inputProfile.value)
  }

  /** The row of one operator of thread threadId of phase phaseId. */
  function OperatorRowOf(op: Option<OperatorProfile>, phaseId: int, threadId: int, hostName: string,
                         typeCount: nat): (r: Result<OperatorRow, Fault>)
  {
    if op.None? then Err(NullPointer)
    else
      var o := op.value;
      var t :- OperatorTotals(o);
      var operatorType :- EnumLookup(o.operatorType, typeCount);
      Ok(OperatorRow(hostName, t.batches, t.records, t.size, o.operatorId, phaseId, threadId,
                     o.processNanos, o.setupNanos, o.waitNanos,
                     o.processNanos + o.setupNanos + o.waitNanos,
                     o.peakLocalMemoryAllocated, operatorType, hostName))
  }

  /**
   * What a row carries: the enclosing phase and thread, the host, the summed
   * counters, the three durations and their sum, and the operator type whenever
   * the ordinal is within the enum.
   */
  lemma OperatorRowFields(op: Option<OperatorProfile>, phaseId: int, threadId: int, hostName: string, typeCount: nat)
    requires OperatorRowOf(op, phaseId, threadId, hostName, typeCount).Ok?
    ensures op.Some? && OperatorTotals(op.value).Ok?
    ensures var row := OperatorRowOf(op, phaseId, threadId, hostName, typeCount).value;
            var t := OperatorTotals(op.value).value;
            row.phaseId == phaseId && row.threadId == threadId &&
            row.hostName == hostName && row.hostname == hostName &&
            row.operatorId == op.value.operatorId &&
            row.batches == t.batches && row.records == t.records && row.sizeBytes == t.size &&
            row.totalDurationNanos == row.processNanos + row.setupNanos + row.waitNanos &&
            row.processNanos == op.value.processNanos && row.setupNanos == op.value.setupNanos &&
            row.waitNanos == op.value.waitNanos &&
            (row.coreOperatorType.None? <==> op.value.operatorType >= typeCount) &&
            (row.coreOperatorType.Some? ==> row.coreOperatorType.value == op.value.operatorType)
  {
  }

  /** An operator's row is built unless the operator, or one of its input profiles, is null, or its type ordinal is negative. */
  lemma OperatorRowFails(op: Option<OperatorProfile>, phaseId: int, threadId: int, hostName: string, typeCount: nat)
    ensures OperatorRowOf(op, phaseId, threadId, hostName, typeCount).Err? <==>
            op.None? || OperatorTotals(op.value).Err? || op.value.operatorType < 0
  {
  }

  // ---------------------------------------------------------------------------
  // Threads and phases
  // ---------------------------------------------------------------------------

  /** A list put in front of a list result. */
  function Prepend<T>(acc: seq<T>, r: Result<seq<T>, Fault>): Result<seq<T>, Fault> {
    if r.Err? then r else Ok(acc + r.value)
  }

  /** The rows of a thread's operators, one per operator, in order. */
  function OperatorRows(ops: seq<Option<OperatorProfile>>, phaseId: int, threadId: int, hostName: string,
                        typeCount: nat): (r: Result<seq<OperatorRow>, Fault>)
    ensures r.Ok? ==> |r.value| == |ops|
    ensures r.Ok? ==> forall k :: 0 <= k < |ops| ==>
              OperatorRowOf(ops[k], phaseId, threadId, hostName, typeCount) == Ok(r.value[k])
  {
    if ops == [] then Ok([])
    else
      var row :- OperatorRowOf(ops[0], phaseId, threadId, hostName, typeCount);
      var rest :- OperatorRows(ops[1..], phaseId, threadId, hostName, typeCount);
      assert forall k :: 1 <= k < |ops| ==> ops[k] == ops[1..][k - 1];
      Ok([row] + rest)
  }

  /** The host of a thread: the endpoint address, or "" when the endpoint or its address is null. */
  function HostNameOf(m: MinorFragmentProfile): string {
    if m.endpoint.Some? && m.endpoint.value.address.Some? then m.endpoint.value.address.value else ""
  }

  /** The rows of one thread: none when the thread or its operator list is null. */
  function MinorRows(m: Option<MinorFragmentProfile>, phaseId: int, typeCount: nat): Result<seq<OperatorRow>, Fault> {
    if m.None? || m.value.operatorProfile.None? then Ok([])
    else OperatorRows(m.value.operatorProfile.value, phaseId, m.value.minorFragmentId, HostNameOf(m.value), typeCount)
  }

  /** Number of operators of a phase's threads that produce rows (independent of the walk). */
  function ThreadOperatorCount(minors: seq<Option<MinorFragmentProfile>>): nat {
    if minors == [] then 0
    else
      (if minors[0].Some? && minors[0].value.operatorProfile.Some? then |minors[0].value.operatorProfile.value| else 0)
      + ThreadOperatorCount(minors[1..])
  }

  /** The rows of a phase's threads, in thread order. */
  function PhaseRows(minors: seq<Option<MinorFragmentProfile>>, phaseId: int, typeCount: nat): (r: Result<seq<OperatorRow>, Fault>)
    ensures r.Ok? ==> |r.value| == ThreadOperatorCount(minors)
  {
    if minors == [] then Ok([])
    else
      var head :- MinorRows(minors[0], phaseId, typeCount);
      var rest :- PhaseRows(minors[1..], phaseId, typeCount);
      Ok(head + rest)
  }

  /** The rows of a phase; its thread list is iterated without a null check. */
  function FragmentRows(f: FragmentProfile, typeCount: nat): Result<seq<OperatorRow>, Fault> {
    if f.minorFragmentProfile.None? then Err(NullPointer)
    else PhaseRows(f.minorFragmentProfile.value, f.majorFragmentId, typeCount)
  }

  /** Number of non-null elements. */
  function PresentCount<T>(xs: seq<Option<T>>): nat {
    if xs == [] then 0 else (if xs[0].Some? then 1 else 0) + PresentCount(xs[1..])
  }

  /** Number of operators that produce rows, over all non-null phases. */
  function OperatorCount(frags: seq<Option<FragmentProfile>>): nat {
    if frags == [] then 0
    else
      (if frags[0].Some? && frags[0].value.minorFragmentProfile.Some?
       then ThreadOperatorCount(frags[0].value.minorFragmentProfile.value) else 0)
      + OperatorCount(frags[1..])
  }

  /** What the fragment loop leaves behind: the phase counter and the collected rows. */
  datatype Walked = Walked(phases: nat, rows: seq<OperatorRow>)

  /** The fragment loop: null phases are skipped, every other one is counted and contributes its rows. */
  function Walk(frags: seq<Option<FragmentProfile>>, typeCount: nat): (r: Result<Walked, Fault>)
    ensures r.Ok? ==> r.value.phases == PresentCount(frags)
    ensures r.Ok? ==> |r.value.rows| == OperatorCount(frags)
  {
    if frags == [] then Ok(Walked(0, []))
    else if frags[0].None? then Walk(frags[1..], typeCount)
    else
      var head :- FragmentRows(frags[0].value, typeCount);
      var rest :- Walk(frags[1..], typeCount);
      Ok(Walked(rest.phases + 1, head + rest.rows))
  }

  /** r is the row of operator c of the non-null thread m, whose operator list is non-null, of phase phaseId. */
  predicate IsRowOf(m: Option<MinorFragmentProfile>, phaseId: int, typeCount: nat, c: int, r: OperatorRow) {
    m.Some? && m.value.operatorProfile.Some? && 0 <= c < |m.value.operatorProfile.value| &&
    OperatorRowOf(m.value.operatorProfile.value[c], phaseId, m.value.minorFragmentId, HostNameOf(m.value), typeCount) == Ok(r)
  }

  /** The rows of one thread are exactly the rows of its operators. */
  lemma MinorRowsMembers(m: Option<MinorFragmentProfile>, phaseId: int, typeCount: nat, r: OperatorRow)
    requires MinorRows(m, phaseId, typeCount).Ok?
    ensures r in MinorRows(m, phaseId, typeCount).value <==> exists c :: IsRowOf(m, phaseId, typeCount, c, r)
  {
    var rows := MinorRows(m, phaseId, typeCount).value;
    if r in rows {
      var c :| 0 <= c < |rows| && rows[c] == r;
      assert IsRowOf(m, phaseId, typeCount, c, r);
    }
    if exists c :: IsRowOf(m, phaseId, typeCount, c, r) {
      var c :| IsRowOf(m, phaseId, typeCount, c, r);
      assert rows[c] == r;
    }
  }

  /**
   * A row is in a phase's rows exactly when it is the row of an operator of a
   * non-null thread, with a non-null operator list, of that phase: no operator
   * is lost and no row is invented.
   */
  lemma {:induction false} PhaseRowsMembers(minors: seq<Option<MinorFragmentProfile>>, phaseId: int, typeCount: nat,
                                            r: OperatorRow)
    requires PhaseRows(minors, phaseId, typeCount).Ok?
    ensures r in PhaseRows(minors, phaseId, typeCount).value <==>
            exists j, c :: 0 <= j < |minors| && IsRowOf(minors[j], phaseId, typeCount, c, r)
  {
    if minors != [] {
      MinorRowsMembers(minors[0], phaseId, typeCount, r);
      PhaseRowsMembers(minors[1..], phaseId, typeCount, r);
      if exists j, c :: 0 <= j < |minors[1..]| && IsRowOf(minors[1..][j], phaseId, typeCount, c, r) {
        var j, c :| 0 <= j < |minors[1..]| && IsRowOf(minors[1..][j], phaseId, typeCount, c, r);
        assert IsRowOf(minors[j + 1], phaseId, typeCount, c, r);
      }
      if exists j, c :: 0 <= j < |minors| && IsRowOf(minors[j], phaseId, typeCount, c, r) {
        var j, c :| 0 <= j < |minors| && IsRowOf(minors[j], phaseId, typeCount, c, r);
        if j > 0 {
          assert IsRowOf(minors[1..][j - 1], phaseId, typeCount, c, r);
        }
      }
    }
  }

  /** r is the row of operator c of thread j of the non-null phase f. */
  predicate IsWalkedRow(f: Option<FragmentProfile>, j: int, c: int, typeCount: nat, r: OperatorRow) {
    f.Some? && f.value.minorFragmentProfile.Some? && 0 <= j < |f.value.minorFragmentProfile.value| &&
    IsRowOf(f.value.minorFragmentProfile.value[j], f.value.majorFragmentId, typeCount, c, r)
  }

  /**
   * A row is collected by the walk exactly when it is the row of an operator of
   * a non-null thread, with a non-null operator list, of a non-null phase, and
   * it carries that phase's id, that thread's id and host.
   */
  lemma {:induction false} WalkMembers(frags: seq<Option<FragmentProfile>>, typeCount: nat, r: OperatorRow)
    requires Walk(frags, typeCount).Ok?
    ensures r in Walk(frags, typeCount).value.rows <==>
            exists k, j, c :: 0 <= k < |frags| && IsWalkedRow(frags[k], j, c, typeCount, r)
  {
    if frags != [] {
      WalkMembers(frags[1..], typeCount, r);
      if exists k, j, c :: 0 <= k < |frags[1..]| && IsWalkedRow(frags[1..][k], j, c, typeCount, r) {
        var k, j, c :| 0 <= k < |frags[1..]| && IsWalkedRow(frags[1..][k], j, c, typeCount, r);
        assert IsWalkedRow(frags[k + 1], j, c, typeCount, r);
      }
      if frags[0].Some? {
        var f := frags[0].value;
        PhaseRowsMembers(f.minorFragmentProfile.value, f.majorFragmentId, typeCount, r);
        if r in FragmentRows(f, typeCount).value {
          var j, c :| 0 <= j < |f.minorFragmentProfile.value| &&
                      IsRowOf(f.minorFragmentProfile.value[j], f.majorFragmentId, typeCount, c, r);
          assert IsWalkedRow(frags[0], j, c, typeCount, r);
        }
      }
      if exists k, j, c :: 0 <= k < |frags| && IsWalkedRow(frags[k], j, c, typeCount, r) {
        var k, j, c :| 0 <= k < |frags| && IsWalkedRow(frags[k], j, c, typeCount, r);
        if k > 0 {
          assert IsWalkedRow(frags[1..][k - 1], j, c, typeCount, r);
        }
      }
    }
  }

  /**
   * Traversal order: the walk of a phase list split anywhere is the walk of the
   * first part followed by the walk of the rest, and the first failure wins.
   */
  lemma {:induction false} WalkAppend(a: seq<Option<FragmentProfile>>, b: seq<Option<FragmentProfile>>, typeCount: nat)
    ensures Walk(a + b, typeCount) ==
            (if Walk(a, typeCount).Err? then Walk(a, typeCount)
             else Ahead(Walk(a, typeCount).value.phases, Walk(a, typeCount).value.rows, Walk(b, typeCount)))
  {
    if a == [] {
      assert a + b == b;
      if Walk(b, typeCount).Ok? {
        assert [] + Walk(b, typeCount).value.rows == Walk(b, typeCount).value.rows;
      }
    } else {
      assert (a + b)[1..] == a[1..] + b;
      WalkAppend(a[1..], b, typeCount);
      if a[0].Some? && Walk(a, typeCount).Ok? && Walk(b, typeCount).Ok? {
        var head := FragmentRows(a[0].value, typeCount).value;
        AppendAssoc(head, Walk(a[1..], typeCount).value.rows, Walk(b, typeCount).value.rows);
      }
    }
  }

  /** The same split for the threads of one phase: thread order is kept. */
  lemma {:induction false} PhaseRowsAppend(a: seq<Option<MinorFragmentProfile>>, b: seq<Option<MinorFragmentProfile>>,
                                           phaseId: int, typeCount: nat)
    ensures PhaseRows(a + b, phaseId, typeCount) ==
            (if PhaseRows(a, phaseId, typeCount).Err? then PhaseRows(a, phaseId, typeCount)
             else Prepend(PhaseRows(a, phaseId, typeCount).value, PhaseRows(b, phaseId, typeCount)))
  {
    if a == [] {
      assert a + b == b;
      if PhaseRows(b, phaseId, typeCount).Ok? {
        assert [] + PhaseRows(b, phaseId, typeCount).value == PhaseRows(b, phaseId, typeCount).value;
      }
    } else {
      assert (a + b)[1..] == a[1..] + b;
      PhaseRowsAppend(a[1..], b, phaseId, typeCount);
      if PhaseRows(a, phaseId, typeCount).Ok? && PhaseRows(b, phaseId, typeCount).Ok? {
        var head := MinorRows(a[0], phaseId, typeCount).value;
        AppendAssoc(head, PhaseRows(a[1..], phaseId, typeCount).value, PhaseRows(b, phaseId, typeCount).value);
      }
    }
  }

  // ---------------------------------------------------------------------------
  // singleProfile
  // ---------------------------------------------------------------------------

  /** A user or version string replaces the default only when it is non-null and non-empty. */
  function NonEmptyOr(s: Option<string>, default: string): string {
    if s.Some? && s.value != "" then s.value else default
  }

  /** The sort key of the operator rows. */
  function Duration(row: OperatorRow): real {
    row.totalDurationNanos as real
  }

  /** The specification of singleProfile. */
  function Summarize(p: Option<ProfileJSON>, findings: seq<string>, queryStates: seq<string>, typeCount: nat): Result<Summary, Fault> {
    if p.None? then
      Ok(Summary(UnknownVersion, 0, 0, 0, 0, UnknownUser, UnknownPhase, [], []))
    else if p.value.fragmentProfile.None? then
      Ok(Summary(UnknownVersion, 0, 0, 0, 0, UnknownUser, UnknownPhase, findings, []))
    else
      var prof := p.value;
      var state :- EnumLookup(prof.state, |queryStates|);
      var walked :- Walk(prof.fragmentProfile.value, typeCount);
      Ok(Summary(NonEmptyOr(prof.dremioVersion, UnknownVersion), prof.start, prof.end,
                 walked.phases, |walked.rows|, NonEmptyOr(prof.user, UnknownUser),
                 if state.Some? then queryStates[state.value] else UnknownPhase,
                 findings, SortDesc(walked.rows, Duration)))
  }

  /** A null profile gives the default summary, without findings. */
  lemma SummarizeNull(findings: seq<string>, queryStates: seq<string>, typeCount: nat)
    ensures Summarize(None, findings, queryStates, typeCount) ==
            Ok(Summary("unknown", 0, 0, 0, 0, "unknown user", "UNKNOWN PHASE", [], []))
  {
  }

  /** Without a fragment list nothing is replaced: only the findings are kept. */
  lemma SummarizeWithoutFragments(p: ProfileJSON, findings: seq<string>, queryStates: seq<string>, typeCount: nat)
    requires p.fragmentProfile.None?
    ensures Summarize(Some(p), findings, queryStates, typeCount) ==
            Ok(Summary("unknown", 0, 0, 0, 0, "unknown user", "UNKNOWN PHASE", findings, []))
  {
  }

  /**
   * With a fragment list: start and end are copied; user and version replace the
   * defaults only when non-null and non-empty; the phase is the state's name
   * while the state is in range and stays "UNKNOWN PHASE" past it; totalPhases
   * counts the non-null phases and totalOperators the rows, one per operator of
   * every non-null thread whose operator list is non-null.
   */
  lemma SummarizeFields(p: ProfileJSON, findings: seq<string>, queryStates: seq<string>, typeCount: nat)
    requires p.fragmentProfile.Some?
    requires Summarize(Some(p), findings, queryStates, typeCount).Ok?
    ensures var s := Summarize(Some(p), findings, queryStates, typeCount).value;
            s.startEpochMillis == p.start && s.endEpochMillis == p.end &&
            (s.user == if p.user.Some? && p.user.value != "" then p.user.value else "unknown user") &&
            (s.dremioVersion == if p.dremioVersion.Some? && p.dremioVersion.value != "" then p.dremioVersion.value else "unknown") &&
            0 <= p.state &&
            (s.queryPhase == if p.state < |queryStates| then queryStates[p.state] else "UNKNOWN PHASE") &&
            s.totalPhases == PresentCount(p.fragmentProfile.value) &&
            s.totalOperators == |s.operatorRows| == OperatorCount(p.fragmentProfile.value) &&
            s.findings == findings
  {
    var walked := Walk(p.fragmentProfile.value, typeCount).value;
    assert |SortDesc(walked.rows, Duration)| == |walked.rows|;
  }

  /** A negative state ordinal aborts the summary before any phase is read. */
  lemma SummarizeNegativeState(p: ProfileJSON, findings: seq<string>, queryStates: seq<string>, typeCount: nat)
    requires p.fragmentProfile.Some? && p.state < 0
    ensures Summarize(Some(p), findings, queryStates, typeCount) == Err(IndexOutOfBounds(p.state, |queryStates|))
  {
  }

  /**
   * operatorRows is the collected rows sorted by total duration, longest first:
   * a permutation, non-increasing, and rows of equal duration keep the order
   * in which they were collected.
   */
  lemma OperatorRowsOrdered(p: ProfileJSON, findings: seq<string>, queryStates: seq<string>, typeCount: nat, d: real)
    requires p.fragmentProfile.Some?
    requires Summarize(Some(p), findings, queryStates, typeCount).Ok?
    ensures Walk(p.fragmentProfile.value, typeCount).Ok?
    ensures var rows := Summarize(Some(p), findings, queryStates, typeCount).value.operatorRows;
            var collected := Walk(p.fragmentProfile.value, typeCount).value.rows;
            multiset(rows) == multiset(collected) &&
            NonIncreasing(rows, Duration) &&
            WithKey(rows, Duration, d) == WithKey(collected, Duration, d)
  {
    var collected := Walk(p.fragmentProfile.value, typeCount).value.rows;
    SortDescPermutation(collected, Duration);
    SortDescSorted(collected, Duration);
    SortDescStable(collected, Duration, d);
  }

  // ---------------------------------------------------------------------------
  // The loop nest
  // ---------------------------------------------------------------------------

  /** Counters put in front of a counter result. */
  function AddTotals(t: Totals, r: Result<Totals, Fault>): Result<Totals, Fault> {
    if r.Err? then r else Ok(Totals(t.batches + r.value.batches, t.records + r.value.records, t.size + r.value.size))
  }

  /** The loop over an operator's input profiles. */
  method SumInputs(ins: seq<Option<InputProfile>>) returns (r: Result<Totals, Fault>)
    ensures r == InputTotals(ins)
  {
    var batches, records, size := 0, 0, 0;
    assert ins[0..] == ins;
    for i := 0 to |ins|
      invariant InputTotals(ins) == AddTotals(Totals(batches, records, size), InputTotals(ins[i..]))
    {
      assert ins[i..][1..] == ins[i + 1..];
      if ins[i].None? {
        return Err(NullPointer);
      }
      var inputProfile := ins[i].value;
      batches := batches + inputProfile.batches;
      records := records + inputProfile.records;
      size := size + inputProfile.size;
    }
    assert ins[|ins|..] == [];
    r := Ok(Totals(batches, records, size));
  }

  /** The body of the operator loop. */
  method ReadOperatorRow(op: Option<OperatorProfile>, phaseId: int, threadId: int, hostName: string,
                         typeCount: nat) returns (r: Result<OperatorRow, Fault>)
    ensures r == OperatorRowOf(op, phaseId, threadId, hostName, typeCount)
  {
    if op.None? {
      return Err(NullPointer);
    }
    var operatorProfile := op.value;
    var totals := Ok(Totals(0, 0, 0));
    if operatorProfile.inputProfile.Some? {
      totals := SumInputs(operatorProfile.inputProfile.value);
      if totals.Err? {
        return Err(totals.error);
      }
    }
    var t := totals.value;
    var totalDurationNanos := operatorProfile.processNanos + operatorProfile.setupNanos + operatorProfile.waitNanos;
    var operatorType: Option<nat> := None;
    if operatorProfile.operatorType < typeCount {
      if operatorProfile.operatorType < 0 {
        return Err(IndexOutOfBounds(operatorProfile.operatorType, typeCount));
      }
      operatorType := Some(operatorProfile.operatorType);
    }
    r := Ok(OperatorRow(hostName, t.batches, t.records, t.size, operatorProfile.operatorId, phaseId, threadId,
                        operatorProfile.processNanos, operatorProfile.setupNanos, operatorProfile.waitNanos,
                        totalDurationNanos, operatorProfile.peakLocalMemoryAllocated, operatorType, hostName));
  }

  /** The loop over a thread's operators. */
  method CollectOperatorRows(ops: seq<Option<OperatorProfile>>, phaseId: int, threadId: int, hostName: string,
                             typeCount: nat) returns (r: Result<seq<OperatorRow>, Fault>)
    ensures r == OperatorRows(ops, phaseId, threadId, hostName, typeCount)
  {
    var rows: seq<OperatorRow> := [];
    assert ops[0..] == ops;
    assert OperatorRows(ops, phaseId, threadId, hostName, typeCount).Ok? ==>
           [] + OperatorRows(ops, phaseId, threadId, hostName, typeCount).value == OperatorRows(ops, phaseId, threadId, hostName, typeCount).value;
    for i := 0 to |ops|
      invariant OperatorRows(ops, phaseId, threadId, hostName, typeCount) ==
                Prepend(rows, OperatorRows(ops[i..], phaseId, threadId, hostName, typeCount))
    {
      assert ops[i..][1..] == ops[i + 1..];
      var row := ReadOperatorRow(ops[i], phaseId, threadId, hostName, typeCount);
      if row.Err? {
        return Err(row.error);
      }
      ghost var rest := OperatorRows(ops[i + 1..], phaseId, threadId, hostName, typeCount);
      if rest.Ok? {
        AppendAssoc(rows, [row.value], rest.value);
      }
      rows := rows + [row.value];
    }
    assert ops[|ops|..] == [];
    assert rows + [] == rows;
    r := Ok(rows);
  }

  /** The loop over a phase's threads. */
  method CollectPhaseRows(minors: seq<Option<MinorFragmentProfile>>, phaseId: int, typeCount: nat)
    returns (r: Result<seq<OperatorRow>, Fault>)
    ensures r == PhaseRows(minors, phaseId, typeCount)
  {
    var rows: seq<OperatorRow> := [];
    assert minors[0..] == minors;
    assert PhaseRows(minors, phaseId, typeCount).Ok? ==>
           [] + PhaseRows(minors, phaseId, typeCount).value == PhaseRows(minors, phaseId, typeCount).value;
    for i := 0 to |minors|
      invariant PhaseRows(minors, phaseId, typeCount) == Prepend(rows, PhaseRows(minors[i..], phaseId, typeCount))
    {
      assert minors[i..][1..] == minors[i + 1..];
      var more: seq<OperatorRow> := [];
      if minors[i].Some? && minors[i].value.operatorProfile.Some? {
        var m := minors[i].value;
        var threadId := m.minorFragmentId;
        var hostName := "";
        if m.endpoint.Some? && m.endpoint.value.address.Some? {
          hostName := m.endpoint.value.address.value;
        }
        var found := CollectOperatorRows(m.operatorProfile.value, phaseId, threadId, hostName, typeCount);
        if found.Err? {
          return Err(found.error);
        }
        more := found.value;
      }
      ghost var rest := PhaseRows(minors[i + 1..], phaseId, typeCount);
      if rest.Ok? {
        AppendAssoc(rows, more, rest.value);
      }
      rows := rows + more;
    }
    assert minors[|minors|..] == [];
    assert rows + [] == rows;
    r := Ok(rows);
  }

  /** The walk so far put in front of the walk of the remaining phases. */
  function Ahead(phases: nat, rows: seq<OperatorRow>, r: Result<Walked, Fault>): Result<Walked, Fault> {
    if r.Err? then r else Ok(Walked(phases + r.value.phases, rows + r.value.rows))
  }

  /** One non-null phase of the walk: its rows are collected, or its failure ends the walk. */
  lemma WalkPresent(xs: seq<Option<FragmentProfile>>, typeCount: nat, phases: nat, rows: seq<OperatorRow>)
    requires xs != [] && xs[0].Some?
    ensures FragmentRows(xs[0].value, typeCount).Err? ==>
              Walk(xs, typeCount) == Err(FragmentRows(xs[0].value, typeCount).error)
    ensures FragmentRows(xs[0].value, typeCount).Ok? ==>
              Ahead(phases, rows, Walk(xs, typeCount)) ==
              Ahead(phases + 1, rows + FragmentRows(xs[0].value, typeCount).value, Walk(xs[1..], typeCount))
  {
    var more := FragmentRows(xs[0].value, typeCount);
    var rest := Walk(xs[1..], typeCount);
    if more.Ok? && rest.Ok? {
      AppendAssoc(rows, more.value, rest.value.rows);
    }
  }

  /** The loop over the phases: counts the non-null ones and collects their rows. */
  method WalkFragments(frags: seq<Option<FragmentProfile>>, typeCount: nat) returns (r: Result<Walked, Fault>)
    ensures r == Walk(frags, typeCount)
  {
    var totalPhases := 0;
    var rows: seq<OperatorRow> := [];
    assert frags[0..] == frags;
    assert Walk(frags, typeCount).Ok? ==> [] + Walk(frags, typeCount).value.rows == Walk(frags, typeCount).value.rows;
    for i := 0 to |frags|
      invariant Walk(frags, typeCount) == Ahead(totalPhases, rows, Walk(frags[i..], typeCount))
    {
      assert frags[i..][1..] == frags[i + 1..];
      if frags[i].Some? {
        var fragmentProfile := frags[i].value;
        var phaseId := fragmentProfile.majorFragmentId;
        WalkPresent(frags[i..], typeCount, totalPhases, rows);
        totalPhases := totalPhases + 1;
        if fragmentProfile.minorFragmentProfile.None? {
          return Err(NullPointer);
        }
        var more := CollectPhaseRows(fragmentProfile.minorFragmentProfile.value, phaseId, typeCount);
        if more.Err? {
          return Err(more.error);
        }
        rows := rows + more.value;
      }
    }
    assert frags[|frags|..] == [];
    assert rows + [] == rows;
    r := Ok(Walked(totalPhases, rows));
  }

  /** singleProfile. */
  method SingleProfile(p: Option<ProfileJSON>, findings: seq<string>, queryStates: seq<string>, typeCount: nat)
    returns (r: Result<Summary, Fault>)
    ensures r == Summarize(p, findings, queryStates, typeCount)
  {
    var dremioVersion := UnknownVersion;
    var user := UnknownUser;
    var queryPhase := UnknownPhase;
    var start := 0;
    var end := 0;
    if p.None? {
      return Ok(Summary(dremioVersion, start, end, 0, 0, user, queryPhase, [], []));
    }
    var profile := p.value;
    if profile.fragmentProfile.None? {
      return Ok(Summary(dremioVersion, start, end, 0, 0, user, queryPhase, findings, []));
    }
    start := profile.start;
    end := profile.end;
    if profile.user.Some? && profile.user.value != "" {
      user := profile.user.value;
    }
    if profile.state < |queryStates| {
      if profile.state < 0 {
        return Err(IndexOutOfBounds(profile.state, |queryStates|));
      }
      queryPhase := queryStates[profile.state];
    }
    if profile.dremioVersion.Some? && profile.dremioVersion.value != "" {
      dremioVersion := profile.dremioVersion.value;
    }
    var walked := WalkFragments(profile.fragmentProfile.value, typeCount);
    if walked.Err? {
      return Err(walked.error);
    }
    var rows := walked.value.rows;
    r := Ok(Summary(dremioVersion, start, end, walked.value.phases, |rows|, user, queryPhase, findings,
                    SortDesc(rows, Duration)));
  }

  /** compareProfiles: both profiles summarised independently, the first failure aborting. */
  method CompareProfiles(p1: Option<ProfileJSON>, p2: Option<ProfileJSON>, findings1: seq<string>, findings2: seq<string>,
                         queryStates: seq<string>, typeCount: nat) returns (r: Result<SummaryCompare, Fault>)
    ensures Summarize(p1, findings1, queryStates, typeCount).Err? ==> r == Err(Summarize(p1, findings1, queryStates, typeCount).error)
    ensures Summarize(p1, findings1, queryStates, typeCount).Ok? && Summarize(p2, findings2, queryStates, typeCount).Err? ==>
              r == Err(Summarize(p2, findings2, queryStates, typeCount).error)
    ensures r.Ok? <==> Summarize(p1, findings1, queryStates, typeCount).Ok? && Summarize(p2, findings2, queryStates, typeCount).Ok?
    ensures r.Ok? ==> r.value.summary1 == Summarize(p1, findings1, queryStates, typeCount).value &&
                      r.value.summary2 == Summarize(p2, findings2, queryStates, typeCount).value
  {
    var summary1 := SingleProfile(p1, findings1, queryStates, typeCount);
    if summary1.Err? {
      return Err(summary1.error);
    }
    var summary2 := SingleProfile(p2, findings2, queryStates, typeCount);
    if summary2.Err? {
      return Err(summary2.error);
    }
    r := Ok(SummaryCompare(summary1.value, summary2.value));
  }

  // ---------------------------------------------------------------------------
  // summaryFragment: the operator table limit, and getPhaseColorClass
  // ---------------------------------------------------------------------------

  /** The rows the operator table shows: the first limit rows when limit > 0, otherwise all. */
  function ShownRows(rows: seq<OperatorRow>, limit: int): (r: seq<OperatorRow>)
    ensures |r| == if 0 < limit < |rows| then limit else |rows|
    ensures r == rows[..|r|]
  {
    if limit > 0 && limit < |rows| then rows[..limit] else rows
  }

  const Completed := "bg-green-100 text-green-800"
  const Failed := "bg-red-100 text-red-800"
  const Cancelled := "bg-yellow-100 text-yellow-800"
  const Running := "bg-blue-100 text-blue-800"
  const Grey := "bg-gray-100 text-gray-800"

  /** getPhaseColorClass. */
  function PhaseColorClass(phase: string): string {
    match phase
    case "COMPLETED" => Completed
    case "FAILED" => Failed
    case "CANCELLED" => Cancelled
    case "RUNNING" => Running
    case _ => Grey
  }

  /** The four known phases get four different colours, none of them grey; any other phase is grey. */
  lemma PhaseColorsDistinct(phase: string)
    ensures |{PhaseColorClass("COMPLETED"), PhaseColorClass("FAILED"), PhaseColorClass("CANCELLED"),
              PhaseColorClass("RUNNING"), Grey}| == 5
    ensures phase !in {"COMPLETED", "FAILED", "CANCELLED", "RUNNING"} ==> PhaseColorClass(phase) == Grey
  {
    assert Completed[3] != Failed[3] && Completed[3] != Cancelled[3] && Completed[3] != Running[3] && Completed[5] != Grey[5];
    assert Failed[3] != Cancelled[3] && Failed[3] != Running[3] && Failed[3] != Grey[3];
    assert Cancelled[3] != Running[3] && Cancelled[3] != Grey[3] && Running[3] != Grey[3];
  }
}
