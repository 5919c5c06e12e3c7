/**
 * TopExec: the parser for a capture of `top -H -b` output.
 *
 * The capture is read line by line. Line prefixes pick a branch (thread counts,
 * memory, swap, the header timestamp, the CPU line, the process-table header);
 * inside the process table every non-empty line is one thread sample, grouped by
 * the composite key (pid, command) so that a recycled pid with another command
 * is kept apart. Failures in the thread-count, memory and swap branches are
 * recorded as ParseErrors and scanning goes on; any other failure aborts.
 *
 * Step/Run are the specification; TopCapture.ParseLine and Exec are the
 * imperative parser, proved to compute exactly Step and Run.
 */
module TopExec {
  import opened Wrappers
  import opened JavaText
  import opened Sorting
  import opened IOStatReporter

  // ---------------------------------------------------------------------------
  // Records
  // ---------------------------------------------------------------------------

  /** The Java exception that a parse step raised (its getMessage text is not modelled). */
  datatype Failure =
    | IndexOutOfBounds(index: int, length: nat)  // ArrayIndexOutOfBoundsException
    | BadInt(text: string)                       // NumberFormatException from Integer.parseInt
    | BadFloat(text: string)                     // NumberFormatException from Float.parseFloat / Double.parseDouble
    | BadTime(text: string)                      // DateTimeParseException from LocalTime.parse

  /** A recovered failure and the branch it came from. */
  datatype ParseError = ParseError(cause: Failure, category: string)

  datatype ThreadStats = ThreadStats(total: int, running: int, sleeping: int, stopped: int, zombie: int)

  datatype MemStats = MemStats(total: real, free: real, used: real, buffCache: real)

  datatype SwapStats = SwapStats(total: real, free: real, used: real, avail: real)

  datatype ThreadUsage = ThreadUsage(pid: string, cpuUsage: real, command: string)

  /** The composite map key: two samples belong to one thread when pid and command both agree. */
  datatype ThreadKey = ThreadKey(pid: string, command: string)

  function KeyOf(u: ThreadUsage): ThreadKey {
    ThreadKey(u.pid, u.command)
  }

  // ---------------------------------------------------------------------------
  // ThreadKey.equals and ThreadKey.hashCode
  // ---------------------------------------------------------------------------

  /** ThreadKey.equals on two keys: field-wise String.equals. */
  predicate KeyEquals(a: ThreadKey, b: ThreadKey) {
    a.pid == b.pid && a.command == b.command
  }

  /** Reduces an integer to the 32-bit two's-complement value Java's int arithmetic keeps. */
  function Wrap32(x: int): (r: int)
    ensures MinInt <= r <= MaxInt
    ensures (r - x) % 0x1_0000_0000 == 0
  {
    (x - MinInt) % 0x1_0000_0000 + MinInt
  }

  /**
   * The UTF-16 code units Java stores for one character: the character itself
   * below U+10000, otherwise its high and low surrogate.
   */
  function CharUnits(c: char): (u: seq<int>)
    ensures 1 <= |u| <= 2
    ensures |u| == 1 <==> c as int < 0x10000
    ensures |u| == 1 ==> u[0] == c as int
    ensures |u| == 2 ==> 0xD800 <= u[0] < 0xDC00 <= u[1] < 0xE000
    ensures |u| == 2 ==> 0x10000 + (u[0] - 0xD800) * 0x400 + (u[1] - 0xDC00) == c as int
  {
    var v := c as int;
    if v < 0x10000 then [v]
    else [0xD800 + (v - 0x10000) / 0x400, 0xDC00 + (v - 0x10000) % 0x400]
  }

  /** The UTF-16 code units of a string, which are the chars a Java String holds. */
  function Utf16(s: string): (u: seq<int>)
    ensures |s| <= |u| <= 2 * |s|
  {
    if s == [] then [] else Utf16(s[..|s| - 1]) + CharUnits(s[|s| - 1])
  }

  /** The hashCode loop h = 31 * h + unit over code units, in int arithmetic. */
  function UnitsHash(u: seq<int>): (h: int)
    ensures MinInt <= h <= MaxInt
  {
    if u == [] then 0 else Wrap32(31 * UnitsHash(u[..|u| - 1]) + u[|u| - 1])
  }

  /** String.hashCode: the hash loop over the string's UTF-16 code units. */
  function StringHash(s: string): (h: int)
    ensures MinInt <= h <= MaxInt
  {
    UnitsHash(Utf16(s))
  }

  /** Objects.hash(pid, command) = 31 * (31 * 1 + pid.hashCode()) + command.hashCode(). */
  function KeyHash(k: ThreadKey): (h: int)
    ensures MinInt <= h <= MaxInt
  {
    Wrap32(31 * Wrap32(31 + StringHash(k.pid)) + StringHash(k.command))
  }

  function Pow31(n: nat): (r: int)
    ensures r >= 1
  {
    if n == 0 then 1 else 31 * Pow31(n - 1)
  }

  /** The documented value of String.hashCode before the int wrap: the sum of u[i] * 31^(n-1-i). */
  function HashPolynomial(u: seq<int>): int {
    if u == [] then 0 else u[0] * Pow31(|u| - 1) + HashPolynomial(u[1..])
  }

  /** Values that differ by a multiple of 2^32 wrap to the same int. */
  lemma Wrap32Congruent(x: int, y: int)
    requires (x - y) % 0x1_0000_0000 == 0
    ensures Wrap32(x) == Wrap32(y)
  {
    var q := (x - y) / 0x1_0000_0000;
    assert x - MinInt == (y - MinInt) + 0x1_0000_0000 * q;
    var a, b := x - MinInt, y - MinInt;
    assert a == 0x1_0000_0000 * (a / 0x1_0000_0000) + a % 0x1_0000_0000;
    assert b == 0x1_0000_0000 * (b / 0x1_0000_0000) + b % 0x1_0000_0000;
    var d := q + b / 0x1_0000_0000 - a / 0x1_0000_0000;
    assert a % 0x1_0000_0000 - b % 0x1_0000_0000 == 0x1_0000_0000 * d;
    assert d == 0;
  }

  /** Appending one unit to the polynomial is one Horner step. */
  lemma {:induction false} HashPolynomialSnoc(u: seq<int>, x: int)
    ensures HashPolynomial(u + [x]) == 31 * HashPolynomial(u) + x
    decreases |u|
  {
    if u == [] {
      assert (u + [x])[1..] == [];
    } else {
      assert (u + [x])[0] == u[0];
      assert (u + [x])[1..] == u[1..] + [x];
      HashPolynomialSnoc(u[1..], x);
      assert u[0] * Pow31(|u|) == 31 * (u[0] * Pow31(|u| - 1));
    }
  }

  /** The hash loop computes the documented polynomial, reduced to 32 bits. */
  lemma {:induction false} UnitsHashPolynomial(u: seq<int>)
    ensures UnitsHash(u) == Wrap32(HashPolynomial(u))
    decreases |u|
  {
    if u != [] {
      var init, last := u[..|u| - 1], u[|u| - 1];
      assert u == init + [last];
      UnitsHashPolynomial(init);
      HashPolynomialSnoc(init, last);
      HornerWrap(HashPolynomial(init), last);
    }
  }

  /** Wrapping the hash before a Horner step does not change the wrapped result. */
  lemma HornerWrap(p: int, x: int)
    ensures Wrap32(31 * Wrap32(p) + x) == Wrap32(31 * p + x)
  {
    var q := Wrap32Shift(p);
    assert (31 * Wrap32(p) + x) - (31 * p + x) == 0x1_0000_0000 * (31 * q);
    Wrap32Congruent(31 * Wrap32(p) + x, 31 * p + x);
  }

  /** String.hashCode is s[0]*31^(n-1) + ... + s[n-1] over the code units, wrapped to an int. */
  lemma StringHashPolynomial(s: string)
    ensures StringHash(s) == Wrap32(HashPolynomial(Utf16(s)))
  {
    UnitsHashPolynomial(Utf16(s));
  }

  /** A string without supplementary characters hashes its characters one for one. */
  lemma {:induction false} Utf16Bmp(s: string)
    requires forall i :: 0 <= i < |s| ==> s[i] as int < 0x10000
    ensures |Utf16(s)| == |s|
    ensures forall i :: 0 <= i < |s| ==> Utf16(s)[i] == s[i] as int
    decreases |s|
  {
    if s != [] {
      Utf16Bmp(s[..|s| - 1]);
    }
  }

  /** Wrapping moves a value by a whole number of 2^32 steps. */
  lemma Wrap32Shift(x: int) returns (q: int)
    ensures Wrap32(x) == x + 0x1_0000_0000 * q
  {
    q := (Wrap32(x) - x) / 0x1_0000_0000;
  }

  /** The inner wraps of Objects.hash do not change the final int. */
  lemma ObjectsHashWrap(p: int, c: int)
    ensures Wrap32(31 * Wrap32(31 + Wrap32(p)) + Wrap32(c)) == Wrap32(961 + 31 * p + c)
  {
    var wp, wc := Wrap32(p), Wrap32(c);
    var w1 := Wrap32(31 + wp);
    var qp := Wrap32Shift(p);
    var qc := Wrap32Shift(c);
    var q1 := Wrap32Shift(31 + wp);
    assert (31 * w1 + wc) - (961 + 31 * p + c) == 0x1_0000_0000 * (31 * q1 + 31 * qp + qc);
    Wrap32Congruent(31 * w1 + wc, 961 + 31 * p + c);
  }

  /** Objects.hash(pid, command) is 961 + 31 * pid's polynomial + command's polynomial, wrapped to an int. */
  lemma KeyHashPolynomial(k: ThreadKey)
    ensures KeyHash(k) == Wrap32(961 + 31 * HashPolynomial(Utf16(k.pid)) + HashPolynomial(Utf16(k.command)))
  {
    StringHashPolynomial(k.pid);
    StringHashPolynomial(k.command);
    ObjectsHashWrap(HashPolynomial(Utf16(k.pid)), HashPolynomial(Utf16(k.command)));
  }

  /** equals is exactly value equality of the pair, so a map keyed by ThreadKey groups by (pid, command). */
  lemma KeyEqualsIff(a: ThreadKey, b: ThreadKey)
    ensures KeyEquals(a, b) <==> a == b
  {
  }

  /** hashCode agrees with equals: equal keys hash alike. */
  lemma KeyHashConsistent(a: ThreadKey, b: ThreadKey)
    requires KeyEquals(a, b)
    ensures KeyHash(a) == KeyHash(b)
  {
  }

  /**
   * The converse does not hold: "Aa" and "BB" have the same String.hashCode, so
   * two threads with those pids collide in the hash yet stay separate keys.
   */
  lemma KeyHashCollision()
    ensures KeyHash(ThreadKey("Aa", "java")) == KeyHash(ThreadKey("BB", "java"))
    ensures !KeyEquals(ThreadKey("Aa", "java"), ThreadKey("BB", "java"))
  {
    Utf16Pair('A', 'a');
    Utf16Pair('B', 'B');
    StringHashPolynomial("Aa");
    StringHashPolynomial("BB");
    assert HashPolynomial([65, 97]) == 2112 == HashPolynomial([66, 66]);
    SamePidHash(ThreadKey("Aa", "java"), ThreadKey("BB", "java"));
  }

  /** Keys whose pids hash alike and whose commands agree hash alike. */
  lemma SamePidHash(a: ThreadKey, b: ThreadKey)
    requires StringHash(a.pid) == StringHash(b.pid) && a.command == b.command
    ensures KeyHash(a) == KeyHash(b)
  {
  }

  /** The code units of a two-character string without supplementary characters. */
  lemma Utf16Pair(a: char, b: char)
    requires a as int < 0x10000 && b as int < 0x10000
    ensures Utf16([a, b]) == [a as int, b as int]
  {
    assert [a, b][..1] == [a] && [a][..0] == [];
  }

  // ---------------------------------------------------------------------------
  // Field extraction helpers: array indexing and the parse calls, with their exceptions
  // ---------------------------------------------------------------------------

  /** a[i] on a Java array: ArrayIndexOutOfBoundsException outside 0 <= i < |a|. */
  function At(a: seq<string>, i: int): Result<string, Failure> {
    if 0 <= i < |a| then Ok(a[i]) else Err(IndexOutOfBounds(i, |a|))
  }

  /** The text before the first single space (the whole text when there is none). */
  function FirstWord(s: string): Result<string, Failure> {
    At(Split(s, Literal(' ')), 0)
  }

  function IntOf(s: string): Result<int, Failure> {
    match ParseInt(s)
    case None => Err(BadInt(s))
    case Some(v) => Ok(v)
  }

  function FloatOf(s: string): Result<real, Failure> {
    match ParseFloat(s)
    case None => Err(BadFloat(s))
    case Some(v) => Ok(v)
  }

  function TimeOf(s: string): Result<LocalTime, Failure> {
    match ParseLocalTime(s)
    case None => Err(BadTime(s))
    case Some(t) => Ok(t)
  }

  /** The blank-separated tokens of a line, ignoring leading and trailing blanks. */
  function Tokens(line: string): seq<string> {
    Split(Trim(line), Spaces)
  }

  // ---------------------------------------------------------------------------
  // The branch parsers
  // ---------------------------------------------------------------------------

  /** Part i read as an int: the number that starts it. */
  function CountField(parts: seq<string>, i: nat): Result<int, Failure> {
    var p :- At(parts, i);
    var w :- FirstWord(p);
    IntOf(w)
  }

  /** The first word after the colon of part 0, which holds the first number of the line. */
  function AfterColon(parts: seq<string>): Result<string, Failure> {
    var p :- At(parts, 0);
    var c :- At(Split(p, Literal(':')), 1);
    FirstWord(Trim(c))
  }

  /**
   * The thread-count line: the counts of all, running, sleeping, stopped and
   * zombie threads, one per comma-separated part. ThreadStatsLine shows a line
   * built from five counts reading them back.
   */
  function ParseThreadStats(line: string): Result<ThreadStats, Failure> {
    var parts := Split(line, CommaSpaces);
    var totalText :- AfterColon(parts);
    var total :- IntOf(totalText);
    var running :- CountField(parts, 1);
    var sleeping :- CountField(parts, 2);
    var stopped :- CountField(parts, 3);
    var zombie :- CountField(parts, 4);
    Ok(ThreadStats(total, running, sleeping, stopped, zombie))
  }

  /** The memory line: total (after the colon), free, used and buffer/cache amounts, one per comma-separated part. */
  function ParseMemStats(line: string): Result<MemStats, Failure> {
    var parts := Split(line, CommaSpaces);
    var total :- AfterColon(parts);
    var p1 :- At(parts, 1);
    var free :- FirstWord(p1);
    var p2 :- At(parts, 2);
    var used :- FirstWord(p2);
    var p3 :- At(parts, 3);
    var buffCache :- FirstWord(p3);
    var t :- FloatOf(total);
    var f :- FloatOf(free);
    var u :- FloatOf(used);
    var b :- FloatOf(buffCache);
    Ok(MemStats(t, f, u, b))
  }

  /** A token that trims to the word avail. */
  predicate IsAvail(t: string) {
    Trim(t) == "avail"
  }

  /**
   * The swap line's `avail` scan from index i on, availMem being acc: every token
   * that trims to "avail" sets availMem to the token before it; at index 0 there
   * is no token before it, which throws.
   */
  function AvailScan(tokens: seq<string>, i: nat, acc: string): Result<string, Failure>
    requires i <= |tokens|
    decreases |tokens| - i
  {
    if i == |tokens| then Ok(acc)
    else if !IsAvail(tokens[i]) then AvailScan(tokens, i + 1, acc)
    else if i == 0 then Err(IndexOutOfBounds(-1, |tokens|))
    else AvailScan(tokens, i + 1, tokens[i - 1])
  }

  /** The swap line's total and free fields and its used/avail tokens, before the `avail` scan. */
  datatype SwapParts = SwapParts(total: string, free: string, tokens: seq<string>)

  function SwapPartsOf(line: string): Result<SwapParts, Failure> {
    var parts := Split(line, CommaSpaces);
    var p0 :- At(parts, 0);
    var p1 :- At(parts, 1);
    var p2 :- At(parts, 2);
    var totalPart, freePart, usedAvailPart := Trim(p0), Trim(p1), Trim(p2);
    var totalWords := Split(totalPart, Literal(' '));
    var total :- At(totalWords, |totalWords| - 2);
    var free :- FirstWord(freePart);
    Ok(SwapParts(total, free, Split(usedAvailPart, Literal(' '))))
  }

  /** The swap line: total and free amounts, the used amount, and the available amount found by the avail scan. */
  function ParseSwapStats(line: string): Result<SwapStats, Failure> {
    var fields :- SwapPartsOf(line);
    var used :- At(fields.tokens, 0);
    var avail :- AvailScan(fields.tokens, 0, "0.0");
    var t :- FloatOf(fields.total);
    var f :- FloatOf(fields.free);
    var u :- FloatOf(used);
    var a :- FloatOf(avail);
    Ok(SwapStats(t, f, u, a))
  }

  /** The header line of a sample: its third token is the clock time. */
  function ParseTopTime(line: string): Result<LocalTime, Failure> {
    var text :- At(Tokens(line), 2);
    TimeOf(text)
  }

  function FloatAt(tokens: seq<string>, i: nat): Result<real, Failure> {
    var t :- At(tokens, i);
    FloatOf(t)
  }

  /**
   * The CPU line: user, system, nice, idle, iowait and steal percentages at tokens
   * 1, 3, 5, 7, 9 and 15 (CpuLineFields states when it succeeds).
   */
  function ParseCpuStats(line: string): Result<CpuStats, Failure> {
    var tokens := Tokens(line);
    var user :- FloatAt(tokens, 1);
    var sys :- FloatAt(tokens, 3);
    var nice :- FloatAt(tokens, 5);
    var idle :- FloatAt(tokens, 7);
    var iowait :- FloatAt(tokens, 9);
    var steal :- FloatAt(tokens, 15);
    Ok(CpuStats(user, nice, sys, iowait, steal, idle))
  }

  /** Every token followed by one space, as the command StringBuilder accumulates it. */
  function SpaceTerminated(ts: seq<string>): string {
    if ts == [] then "" else SpaceTerminated(ts[..|ts| - 1]) + ts[|ts| - 1] + " "
  }

  /** The tokens from index 11 on: the command column, which may itself contain spaces. */
  function CommandTokens(tokens: seq<string>): seq<string> {
    if |tokens| <= 11 then [] else tokens[11..]
  }

  /**
   * A process-table row: the pid is token 0, the CPU share token 8, and the
   * command the tokens from 11 on, joined by single spaces (ProcessRowOfWords).
   */
  function ParseProcessRow(line: string): Result<ThreadUsage, Failure> {
    var tokens := Tokens(line);
    var pid :- At(tokens, 0);
    var cpu :- FloatAt(tokens, 8);
    Ok(ThreadUsage(pid, cpu, Trim(SpaceTerminated(CommandTokens(tokens)))))
  }

  // ---------------------------------------------------------------------------
  // The line-driven state machine
  // ---------------------------------------------------------------------------

  /** Everything the loop accumulates, plus the startParsingThreads flag. */
  datatype Capture = Capture(
    times: seq<LocalTime>,
    cpuStats: seq<CpuStats>,
    memStats: seq<MemStats>,
    swapStats: seq<SwapStats>,
    threadStats: seq<ThreadStats>,
    parseErrors: seq<ParseError>,
    threads: map<ThreadKey, seq<ThreadUsage>>,
    inTable: bool)

  function Empty(): Capture {
    Capture([], [], [], [], [], [], map[], false)
  }

  /** Which branch after the thread-count one handles a line, in the order the loop tests them. */
  datatype LineKind = MemLine | SwapLine | TimeLine | CpuLine | TableHeader | Outside | TableEnd | ProcessRow

  function Classify(inTable: bool, line: string): LineKind {
    if StartsWith(line, "MiB Mem ") then MemLine
    else if StartsWith(line, "MiB Swap:") then SwapLine
    else if StartsWith(line, "top - ") then TimeLine
    else if StartsWith(line, "%Cpu(s):") then CpuLine
    else if Contains(line, "PID USER") then TableHeader
    else if !inTable then Outside
    else if |line| == 0 then TableEnd
    else ProcessRow
  }

  /** The thread-count branch, which has no `continue`: it runs first and the line then falls through. */
  function ThreadsBranch(c: Capture, line: string): Capture {
    if !StartsWith(line, "Threads") then c
    else
      match ParseThreadStats(line)
      case Ok(t) => c.(threadStats := c.threadStats + [t])
      case Err(f) => c.(parseErrors := c.parseErrors + [ParseError(f, "Thread Stats")])
  }

  /** maps.get(key).add(u), or a new one-element list when the key is absent. */
  function AddUsage(m: map<ThreadKey, seq<ThreadUsage>>, u: ThreadUsage): map<ThreadKey, seq<ThreadUsage>> {
    var k := KeyOf(u);
    if k in m then m[k := m[k] + [u]] else m[k := [u]]
  }

  /** "MiB Mem " lines: a sample, or a recovered "Memory" ParseError. */
  function MemBranch(c: Capture, line: string): Capture {
    match ParseMemStats(line)
    case Ok(s) => c.(memStats := c.memStats + [s])
    case Err(f) => c.(parseErrors := c.parseErrors + [ParseError(f, "Memory")])
  }

  /** "MiB Swap:" lines: a sample, or a recovered "Swap" ParseError. */
  function SwapBranch(c: Capture, line: string): Capture {
    match ParseSwapStats(line)
    case Ok(s) => c.(swapStats := c.swapStats + [s])
    case Err(f) => c.(parseErrors := c.parseErrors + [ParseError(f, "Swap")])
  }

  /** "top - " lines: the sample time; a bad time escapes. */
  function TimeBranch(c: Capture, line: string): Result<Capture, Failure> {
    var t :- ParseTopTime(line);
    Ok(c.(times := c.times + [t]))
  }

  /** "%Cpu(s):" lines: a CPU sample; a bad field escapes. */
  function CpuBranch(c: Capture, line: string): Result<Capture, Failure> {
    var s :- ParseCpuStats(line);
    Ok(c.(cpuStats := c.cpuStats + [s]))
  }

  /** A process-table row: added to its key's list; a bad row escapes. */
  function RowBranch(c: Capture, line: string): Result<Capture, Failure> {
    var u :- ParseProcessRow(line);
    Ok(c.(threads := AddUsage(c.threads, u)))
  }

  /** The branches after the thread-count one, applied to its result c1. */
  function Branch(c1: Capture, line: string): Result<Capture, Failure> {
    match Classify(c1.inTable, line)
    case MemLine => Ok(MemBranch(c1, line))
    case SwapLine => Ok(SwapBranch(c1, line))
    case TimeLine => TimeBranch(c1, line)
    case CpuLine => CpuBranch(c1, line)
    case TableHeader => Ok(c1.(inTable := true))
    case Outside => Ok(c1)
    case TableEnd => Ok(c1.(inTable := false))
    case ProcessRow => RowBranch(c1, line)
  }

  /** One loop iteration; Err is an exception that escapes exec. */
  function Step(c: Capture, line: string): Result<Capture, Failure> {
    Branch(ThreadsBranch(c, line), line)
  }

  /** The whole loop, from state c over the remaining lines. */
  function Run(c: Capture, lines: seq<string>): Result<Capture, Failure>
    decreases |lines|
  {
    if lines == [] then Ok(c)
    else
      var c' :- Step(c, lines[0]);
      Run(c', lines[1..])
  }

  // ---------------------------------------------------------------------------
  // The imperative parser
  // ---------------------------------------------------------------------------

  /** The `avail` scan over the used/avail tokens, as the loop it is. */
  method ScanAvail(tokens: seq<string>) returns (r: Result<string, Failure>)
    ensures r == AvailScan(tokens, 0, "0.0")
  {
    var availMem := "0.0";
    for i := 0 to |tokens|
      invariant AvailScan(tokens, 0, "0.0") == AvailScan(tokens, i, availMem)
    {
      if IsAvail(tokens[i]) {
        if i == 0 {
          return Err(IndexOutOfBounds(-1, |tokens|));
        }
        availMem := tokens[i - 1];
      }
    }
    return Ok(availMem);
  }

  method ReadSwapStats(line: string) returns (r: Result<SwapStats, Failure>)
    ensures r == ParseSwapStats(line)
  {
    var fields := SwapPartsOf(line);
    if fields.Err? {
      return Err(fields.error);
    }
    var tokens := fields.value.tokens;
    if |tokens| == 0 {
      return Err(IndexOutOfBounds(0, 0));
    }
    var avail := ScanAvail(tokens);
    if avail.Err? {
      return Err(avail.error);
    }
    var t := FloatOf(fields.value.total);
    var f := FloatOf(fields.value.free);
    var u := FloatOf(tokens[0]);
    var a := FloatOf(avail.value);
    if t.Err? { return Err(t.error); }
    if f.Err? { return Err(f.error); }
    if u.Err? { return Err(u.error); }
    if a.Err? { return Err(a.error); }
    return Ok(SwapStats(t.value, f.value, u.value, a.value));
  }

  /** The command column, assembled token by token with a space after each. */
  method BuildCommand(tokens: seq<string>, start: nat) returns (command: string)
    requires start <= |tokens|
    ensures command == SpaceTerminated(tokens[start..])
  {
    command := "";
    for i := start to |tokens|
      invariant command == SpaceTerminated(tokens[start..i])
    {
      assert tokens[start..i + 1][..i - start] == tokens[start..i];
      command := command + tokens[i] + " ";
    }
    assert tokens[start..|tokens|] == tokens[start..];
  }

  /** A process-table row: pid, %CPU and the trimmed command. */
  method ReadProcessRow(line: string) returns (r: Result<ThreadUsage, Failure>)
    ensures r == ParseProcessRow(line)
  {
    var tokens := Tokens(line);
    if |tokens| == 0 {
      return Err(IndexOutOfBounds(0, 0));
    }
    var cpu := FloatAt(tokens, 8);
    if cpu.Err? {
      return Err(cpu.error);
    }
    var start := if |tokens| <= 11 then |tokens| else 11;
    var command := BuildCommand(tokens, start);
    assert tokens[start..] == CommandTokens(tokens);
    return Ok(ThreadUsage(tokens[0], cpu.value, Trim(command)));
  }

  /** The lists and the flag that exec keeps while it reads the capture. */
  class TopCapture {
    var times: seq<LocalTime>
    var cpuStats: seq<CpuStats>
    var memStats: seq<MemStats>
    var swapStats: seq<SwapStats>
    var threadStats: seq<ThreadStats>
    var parseErrors: seq<ParseError>
    var maps: map<ThreadKey, seq<ThreadUsage>>
    var startParsingThreads: bool

    function Snapshot(): Capture
      reads this
    {
      Capture(times, cpuStats, memStats, swapStats, threadStats, parseErrors, maps, startParsingThreads)
    }

    constructor ()
      ensures Snapshot() == Empty()
    {
      times, cpuStats, memStats, swapStats := [], [], [], [];
      threadStats, parseErrors, maps, startParsingThreads := [], [], map[], false;
    }

    /** The body of the read loop for one line; Some(f) is an exception that ends the parse. */
    method ParseLine(line: string) returns (failure: Option<Failure>)
      modifies this
      ensures Step(old(Snapshot()), line).Ok? ==> failure == None && Snapshot() == Step(old(Snapshot()), line).value
      ensures Step(old(Snapshot()), line).Err? ==> failure == Some(Step(old(Snapshot()), line).error)
    {
      CountThreads(line);
      failure := Dispatch(line);
    }

    /** The thread-count branch, which every line passes through. */
    method CountThreads(line: string)
      modifies this
      ensures Snapshot() == ThreadsBranch(old(Snapshot()), line)
    {
      if StartsWith(line, "Threads") {
        var stats := ParseThreadStats(line);
        if stats.Ok? {
          threadStats := threadStats + [stats.value];
        } else {
          parseErrors := parseErrors + [ParseError(stats.error, "Thread Stats")];
        }
      }
    }

    /** The remaining branches, tried in the order Classify gives; each but the last ends with `continue`. */
    method Dispatch(line: string) returns (failure: Option<Failure>)
      modifies this
      ensures Branch(old(Snapshot()), line).Ok? ==> failure == None && Snapshot() == Branch(old(Snapshot()), line).value
      ensures Branch(old(Snapshot()), line).Err? ==> failure == Some(Branch(old(Snapshot()), line).error)
    {
      match Classify(startParsingThreads, line)
      case MemLine => AddMem(line); return None;
      case SwapLine => AddSwap(line); return None;
      case TimeLine => failure := AddTime(line);
      case CpuLine => failure := AddCpu(line);
      case TableHeader => startParsingThreads := true; return None;
      case Outside => return None;
      case TableEnd => startParsingThreads := false; return None;
      case ProcessRow => failure := AddRow(line);
    }

    method AddMem(line: string)
      modifies this
      ensures Snapshot() == MemBranch(old(Snapshot()), line)
    {
      var stats := ParseMemStats(line);
      if stats.Ok? {
        memStats := memStats + [stats.value];
      } else {
        parseErrors := parseErrors + [ParseError(stats.error, "Memory")];
      }
    }

    method AddSwap(line: string)
      modifies this
      ensures Snapshot() == SwapBranch(old(Snapshot()), line)
    {
      var stats := ReadSwapStats(line);
      if stats.Ok? {
        swapStats := swapStats + [stats.value];
      } else {
        parseErrors := parseErrors + [ParseError(stats.error, "Swap")];
      }
    }

    method AddTime(line: string) returns (failure: Option<Failure>)
      modifies this
      ensures TimeBranch(old(Snapshot()), line).Ok? ==> failure == None && Snapshot() == TimeBranch(old(Snapshot()), line).value
      ensures TimeBranch(old(Snapshot()), line).Err? ==> failure == Some(TimeBranch(old(Snapshot()), line).error)
    {
      var time := ParseTopTime(line);
      if time.Err? {
        return Some(time.error);
      }
      times := times + [time.value];
      return None;
    }

    method AddCpu(line: string) returns (failure: Option<Failure>)
      modifies this
      ensures CpuBranch(old(Snapshot()), line).Ok? ==> failure == None && Snapshot() == CpuBranch(old(Snapshot()), line).value
      ensures CpuBranch(old(Snapshot()), line).Err? ==> failure == Some(CpuBranch(old(Snapshot()), line).error)
    {
      var stats := ParseCpuStats(line);
      if stats.Err? {
        return Some(stats.error);
      }
      cpuStats := cpuStats + [stats.value];
      return None;
    }

    /** A process-table row: parsed, then filed under its key. */
    method AddRow(line: string) returns (failure: Option<Failure>)
      modifies this
      ensures RowBranch(old(Snapshot()), line).Ok? ==> failure == None && Snapshot() == RowBranch(old(Snapshot()), line).value
      ensures RowBranch(old(Snapshot()), line).Err? ==> failure == Some(RowBranch(old(Snapshot()), line).error)
    {
      var usage := ReadProcessRow(line);
      if usage.Err? {
        return Some(usage.error);
      }
      Record(usage.value);
      return None;
    }

    /** Appends u to the list of its (pid, command) key, creating the list on first use. */
    method Record(u: ThreadUsage)
      modifies this
      ensures Snapshot() == old(Snapshot()).(threads := AddUsage(old(maps), u))
    {
      var key := ThreadKey(u.pid, u.command);
      if key in maps {
        maps := maps[key := maps[key] + [u]];
      } else {
        maps := maps[key := [u]];
      }
    }
  }

  /** The read loop of exec over the capture's lines; Err is the exception that escapes it. */
  method Exec(lines: seq<string>) returns (r: Result<Capture, Failure>)
    ensures r == Run(Empty(), lines)
  {
    var capture := new TopCapture();
    var i := 0;
    while i < |lines|
      invariant 0 <= i <= |lines|
      invariant Run(Empty(), lines) == Run(capture.Snapshot(), lines[i..])
    {
      assert lines[i..][1..] == lines[i + 1..];
      var failure := capture.ParseLine(lines[i]);
      if failure.Some? {
        return Err(failure.value);
      }
      i := i + 1;
    }
    return Ok(capture.Snapshot());
  }

  // ---------------------------------------------------------------------------
  // Grouping of process rows by (pid, command)
  // ---------------------------------------------------------------------------

  /** maps.get(k), an absent key reading as an empty list. */
  function Lookup(m: map<ThreadKey, seq<ThreadUsage>>, k: ThreadKey): seq<ThreadUsage> {
    if k in m then m[k] else []
  }

  /** The rows whose key is k, in their order in rows. */
  function Filter(rows: seq<ThreadUsage>, k: ThreadKey): (r: seq<ThreadUsage>)
    ensures |r| <= |rows|
    ensures forall i :: 0 <= i < |r| ==> KeyOf(r[i]) == k
  {
    if rows == [] then [] else (if KeyOf(rows[0]) == k then [rows[0]] else []) + Filter(rows[1..], k)
  }

  lemma {:induction false} FilterAppend(a: seq<ThreadUsage>, b: seq<ThreadUsage>, k: ThreadKey)
    ensures Filter(a + b, k) == Filter(a, k) + Filter(b, k)
  {
    if a == [] {
      assert a + b == b;
    } else {
      assert (a + b)[0] == a[0];
      assert (a + b)[1..] == a[1..] + b;
      FilterAppend(a[1..], b, k);
      var h := if KeyOf(a[0]) == k then [a[0]] else [];
      assert Filter(a + b, k) == h + (Filter(a[1..], k) + Filter(b, k));
      AppendAssoc(h, Filter(a[1..], k), Filter(b, k));
    }
  }

  /** Every list in the map is non-empty and holds only rows of its own key. */
  ghost predicate Grouped(m: map<ThreadKey, seq<ThreadUsage>>) {
    forall k :: k in m ==> m[k] != [] && forall i :: 0 <= i < |m[k]| ==> KeyOf(m[k][i]) == k
  }

  ghost function SomeKey(m: map<ThreadKey, seq<ThreadUsage>>): (k: ThreadKey)
    requires m != map[]
    ensures k in m
  {
    var k :| k in m; k
  }

  /** The number of rows over all the lists of the map. */
  ghost function RowTotal(m: map<ThreadKey, seq<ThreadUsage>>): nat
    decreases |m.Keys|
  {
    if m == map[] then 0
    else
      var k := SomeKey(m);
      assert |(m - {k}).Keys| < |m.Keys| by {
        assert (m - {k}).Keys == m.Keys - {k};
      }
      |m[k]| + RowTotal(m - {k})
  }

  /** RowTotal may take the keys in any order: any one key's list can be counted first. */
  lemma {:induction false} RowTotalRemove(m: map<ThreadKey, seq<ThreadUsage>>, k: ThreadKey)
    requires k in m
    ensures RowTotal(m) == |m[k]| + RowTotal(m - {k})
    decreases |m.Keys|
  {
    var j := SomeKey(m);
    assert (m - {j}).Keys == m.Keys - {j};
    if j != k {
      assert (m - {k}).Keys == m.Keys - {k};
      RowTotalRemove(m - {j}, k);
      RowTotalRemove(m - {k}, j);
      assert m - {j} - {k} == m - {k} - {j};
    }
  }

  /** Adding one row adds it to the end of its own key's list and to no other. */
  lemma AddUsageLookup(m: map<ThreadKey, seq<ThreadUsage>>, u: ThreadUsage, k: ThreadKey)
    ensures Lookup(AddUsage(m, u), k) == Lookup(m, k) + Filter([u], k)
  {
    assert [u][1..] == [];
  }

  lemma AddUsageTotal(m: map<ThreadKey, seq<ThreadUsage>>, u: ThreadUsage)
    ensures RowTotal(AddUsage(m, u)) == RowTotal(m) + 1
  {
    var k := KeyOf(u);
    var m' := AddUsage(m, u);
    RowTotalRemove(m', k);
    assert m' - {k} == m - {k};
    if k in m {
      RowTotalRemove(m, k);
    } else {
      assert m - {k} == m;
    }
  }

  lemma AddUsageGrouped(m: map<ThreadKey, seq<ThreadUsage>>, u: ThreadUsage)
    requires Grouped(m)
    ensures Grouped(AddUsage(m, u))
  {
  }

  /** The flag after a line that did not abort. */
  function NextFlag(inTable: bool, line: string): bool {
    match Classify(inTable, line)
    case TableHeader => true
    case TableEnd => false
    case _ => inTable
  }

  /** The rows parsed from the process-table lines among lines, in input order, the flag starting at inTable. */
  function TableRows(inTable: bool, lines: seq<string>): seq<ThreadUsage>
    decreases |lines|
  {
    if lines == [] then []
    else
      var here := if Classify(inTable, lines[0]) == ProcessRow && ParseProcessRow(lines[0]).Ok?
        then [ParseProcessRow(lines[0]).value] else [];
      here + TableRows(NextFlag(inTable, lines[0]), lines[1..])
  }

  /** One line moves the flag as NextFlag says and touches the map only when it is a process row. */
  lemma StepTable(c: Capture, line: string)
    requires Step(c, line).Ok?
    ensures Step(c, line).value.inTable == NextFlag(c.inTable, line)
    ensures Classify(c.inTable, line) == ProcessRow ==> ParseProcessRow(line).Ok?
    ensures Step(c, line).value.threads ==
            if Classify(c.inTable, line) == ProcessRow then AddUsage(c.threads, ParseProcessRow(line).value) else c.threads
  {
    var c1 := ThreadsBranch(c, line);
    assert c1.inTable == c.inTable && c1.threads == c.threads;
    var r := Branch(c1, line);
    assert Step(c, line) == r;
    match Classify(c.inTable, line)
    case MemLine =>
      assert r.value.threads == c1.threads && r.value.inTable == c1.inTable;
    case SwapLine =>
      assert r.value.threads == c1.threads && r.value.inTable == c1.inTable;
    case TimeLine =>
      assert r.value.threads == c1.threads && r.value.inTable == c1.inTable;
    case CpuLine =>
      assert r.value.threads == c1.threads && r.value.inTable == c1.inTable;
    case TableHeader =>
    case Outside =>
    case TableEnd =>
    case ProcessRow =>
      assert r == RowBranch(c1, line);
  }

  /**
   * A run that does not abort appends every process row, in input order, to the
   * list of its own (pid, command) key, and to no other.
   */
  lemma {:induction false} RunGroups(c: Capture, lines: seq<string>, k: ThreadKey)
    requires Run(c, lines).Ok?
    ensures Lookup(Run(c, lines).value.threads, k) == Lookup(c.threads, k) + Filter(TableRows(c.inTable, lines), k)
    decreases |lines|
  {
    if lines != [] {
      var c' := Step(c, lines[0]).value;
      StepTable(c, lines[0]);
      RunGroups(c', lines[1..], k);
      var here := if Classify(c.inTable, lines[0]) == ProcessRow && ParseProcessRow(lines[0]).Ok?
        then [ParseProcessRow(lines[0]).value] else [];
      var rest := TableRows(NextFlag(c.inTable, lines[0]), lines[1..]);
      assert Lookup(c'.threads, k) == Lookup(c.threads, k) + Filter(here, k) by {
        if here != [] {
          AddUsageLookup(c.threads, here[0], k);
        }
      }
      FilterAppend(here, rest, k);
      AppendAssoc(Lookup(c.threads, k), Filter(here, k), Filter(rest, k));
    }
  }

  /** The lists of a run that does not abort hold as many rows as were parsed, and stay grouped. */
  lemma {:induction false} RunTotal(c: Capture, lines: seq<string>)
    requires Run(c, lines).Ok? && Grouped(c.threads)
    ensures RowTotal(Run(c, lines).value.threads) == RowTotal(c.threads) + |TableRows(c.inTable, lines)|
    ensures Grouped(Run(c, lines).value.threads)
    decreases |lines|
  {
    if lines != [] {
      var c' := Step(c, lines[0]).value;
      StepTable(c, lines[0]);
      if Classify(c.inTable, lines[0]) == ProcessRow {
        AddUsageTotal(c.threads, ParseProcessRow(lines[0]).value);
        AddUsageGrouped(c.threads, ParseProcessRow(lines[0]).value);
      }
      RunTotal(c', lines[1..]);
    }
  }

  /**
   * From the empty capture: each key's list is exactly the parsed process rows
   * with that key, in input order; the lists together hold every parsed row.
   */
  lemma ExecGroups(lines: seq<string>, k: ThreadKey)
    requires Run(Empty(), lines).Ok?
    ensures Lookup(Run(Empty(), lines).value.threads, k) == Filter(TableRows(false, lines), k)
    ensures RowTotal(Run(Empty(), lines).value.threads) == |TableRows(false, lines)|
    ensures Grouped(Run(Empty(), lines).value.threads)
  {
    RunGroups(Empty(), lines, k);
    RunTotal(Empty(), lines);
    assert RowTotal(map[]) == 0;
  }

  /** A recycled pid with another command is another thread: no list holds both rows. */
  lemma RecycledPidKeptApart(m: map<ThreadKey, seq<ThreadUsage>>, u: ThreadUsage, v: ThreadUsage, k: ThreadKey)
    requires Grouped(m) && k in m
    requires u.pid == v.pid && u.command != v.command
    ensures u in m[k] ==> v !in m[k]
  {
    if u in m[k] {
      var i :| 0 <= i < |m[k]| && m[k][i] == u;
      assert KeyOf(u) == k && KeyOf(v) != k;
      forall j | 0 <= j < |m[k]|
        ensures m[k][j] != v
      {
        assert KeyOf(m[k][j]) == k;
      }
    }
  }

  // ---------------------------------------------------------------------------
  // threadGraph's key order
  // ---------------------------------------------------------------------------

  /** The sum of a thread's cpuUsage samples, as the reduce(0.0, +) computes it. */
  function CpuSum(rows: seq<ThreadUsage>): real {
    if rows == [] then 0.0 else rows[0].cpuUsage + CpuSum(rows[1..])
  }

  function Load(m: map<ThreadKey, seq<ThreadUsage>>): ThreadKey -> real {
    k => CpuSum(Lookup(m, k))
  }

  /**
   * The keys in the order threadGraph draws them: the map's entries, in the order
   * the map enumerates them, stably sorted by descending summed cpuUsage.
   */
  function OrderedKeys(m: map<ThreadKey, seq<ThreadUsage>>, entries: seq<ThreadKey>): seq<ThreadKey> {
    SortDesc(entries, Load(m))
  }

  lemma OrderedKeysSorted(m: map<ThreadKey, seq<ThreadUsage>>, entries: seq<ThreadKey>)
    ensures multiset(OrderedKeys(m, entries)) == multiset(entries)
    ensures forall i, j :: 0 <= i < j < |OrderedKeys(m, entries)| ==>
              CpuSum(Lookup(m, OrderedKeys(m, entries)[i])) >= CpuSum(Lookup(m, OrderedKeys(m, entries)[j]))
  {
    SortDescSorted(entries, Load(m));
    SortDescPermutation(entries, Load(m));
    var r := OrderedKeys(m, entries);
    forall i, j | 0 <= i < j < |r|
      ensures CpuSum(Lookup(m, r[i])) >= CpuSum(Lookup(m, r[j]))
    {
      assert Load(m)(r[i]) >= Load(m)(r[j]);
    }
  }

  /** In a grouped map every ordered key has samples, so the loop's empty-list skip never fires. */
  lemma OrderedKeysHaveSamples(m: map<ThreadKey, seq<ThreadUsage>>, entries: seq<ThreadKey>, k: ThreadKey)
    requires Grouped(m) && forall e :: e in entries ==> e in m
    requires k in OrderedKeys(m, entries)
    ensures Lookup(m, k) != []
  {
    SortDescPermutation(entries, Load(m));
    assert k in multiset(OrderedKeys(m, entries));
    assert k in entries;
  }

  // ---------------------------------------------------------------------------
  // What each branch does with a line
  // ---------------------------------------------------------------------------

  /** The prefix markers exclude one another: a line carries at most one of them. */
  lemma MarkersExclusive(line: string)
    ensures StartsWith(line, "Threads") ==> line[0] == 'T'
    ensures StartsWith(line, "MiB Mem ") || StartsWith(line, "MiB Swap:") ==> line[0] == 'M'
    ensures StartsWith(line, "MiB Mem ") ==> !StartsWith(line, "MiB Swap:")
    ensures StartsWith(line, "top - ") ==> line[0] == 't'
    ensures StartsWith(line, "%Cpu(s):") ==> line[0] == '%'
  {
    if StartsWith(line, "MiB Mem ") {
      assert line[4] == "MiB Mem "[4] == 'M' != "MiB Swap:"[4];
    }
  }

  /** A Threads line is not one of the markers that `continue`, so after its own branch it reaches the later ones. */
  lemma ThreadsLineFallsThrough(inTable: bool, line: string)
    requires StartsWith(line, "Threads")
    ensures Classify(inTable, line) in {TableHeader, Outside, TableEnd, ProcessRow}
  {
    MarkersExclusive(line);
  }

  /**
   * Outside the table, a Threads line yields one ThreadStats sample or, failing
   * that, exactly one "Thread Stats" ParseError and no sample; nothing else changes
   * and scanning goes on.
   */
  lemma ThreadsLineRecovered(c: Capture, line: string)
    requires StartsWith(line, "Threads") && !c.inTable && !Contains(line, "PID USER")
    ensures Step(c, line) == Ok(match ParseThreadStats(line)
                                case Ok(t) => c.(threadStats := c.threadStats + [t])
                                case Err(f) => c.(parseErrors := c.parseErrors + [ParseError(f, "Thread Stats")]))
  {
    ThreadsLineFallsThrough(c.inTable, line);
  }

  /** A memory line never aborts: it yields one sample or exactly one "Memory" ParseError, and nothing else changes. */
  lemma MemLineRecovered(c: Capture, line: string)
    requires StartsWith(line, "MiB Mem ")
    ensures Step(c, line) == Ok(match ParseMemStats(line)
                                case Ok(m) => c.(memStats := c.memStats + [m])
                                case Err(f) => c.(parseErrors := c.parseErrors + [ParseError(f, "Memory")]))
  {
    MarkersExclusive(line);
    assert Step(c, line) == Ok(MemBranch(c, line));
  }

  /** A swap line never aborts: it yields one sample or exactly one "Swap" ParseError, and nothing else changes. */
  lemma SwapLineRecovered(c: Capture, line: string)
    requires StartsWith(line, "MiB Swap:")
    ensures Step(c, line) == Ok(match ParseSwapStats(line)
                                case Ok(m) => c.(swapStats := c.swapStats + [m])
                                case Err(f) => c.(parseErrors := c.parseErrors + [ParseError(f, "Swap")]))
  {
    MarkersExclusive(line);
    assert Step(c, line) == Ok(SwapBranch(c, line));
  }

  /**
   * The only failures that escape are a bad time on a "top - " line, a bad
   * "%Cpu(s):" line and a bad process row; everything else steps on.
   */
  lemma AbortsExactly(c: Capture, line: string)
    ensures Step(c, line).Err? <==>
              (Classify(c.inTable, line) == TimeLine && ParseTopTime(line).Err?) ||
              (Classify(c.inTable, line) == CpuLine && ParseCpuStats(line).Err?) ||
              (Classify(c.inTable, line) == ProcessRow && ParseProcessRow(line).Err?)
  {
    var c1 := ThreadsBranch(c, line);
    assert c1.inTable == c.inTable;
    assert Step(c, line) == Branch(c1, line);
    BranchAborts(c1, line);
  }

  lemma BranchAborts(c1: Capture, line: string)
    ensures Branch(c1, line).Err? <==>
              (Classify(c1.inTable, line) == TimeLine && ParseTopTime(line).Err?) ||
              (Classify(c1.inTable, line) == CpuLine && ParseCpuStats(line).Err?) ||
              (Classify(c1.inTable, line) == ProcessRow && ParseProcessRow(line).Err?)
  {
  }

  /** A line of blanks is not a marker, does not contain "PID USER", and trims to "". */
  lemma BlankLineShape(line: string)
    requires line != "" && forall k :: 0 <= k < |line| ==> IsTrimChar(line[k])
    ensures !StartsWith(line, "Threads") && !StartsWith(line, "MiB Mem ") && !StartsWith(line, "MiB Swap:")
    ensures !StartsWith(line, "top - ") && !StartsWith(line, "%Cpu(s):") && !Contains(line, "PID USER")
    ensures Tokens(line) == [""]
  {
    MarkersExclusive(line);
    ContainsIff(line, "PID USER");
    forall i | 0 <= i
      ensures !OccursAt(line, "PID USER", i)
    {
      if i + 8 <= |line| {
        assert line[i..i + 8][0] == line[i];
      }
    }
    TrimStartAllTrim(line, |line|);
  }

  /**
   * Inside the table only a zero-length line ends it: a line of blanks is taken
   * as a process row, has no token 8, and aborts the parse.
   */
  lemma BlankLineInTableAborts(c: Capture, line: string)
    requires c.inTable && line != "" && forall k :: 0 <= k < |line| ==> IsTrimChar(line[k])
    ensures Step(c, line) == Err(IndexOutOfBounds(8, 1))
  {
    BlankLineShape(line);
    assert Step(c, line) == RowBranch(c, line);
  }

  /** The swap line's availMem keeps its "0.0" default when no token reads "avail". */
  lemma {:induction false} AvailDefault(tokens: seq<string>, i: nat, acc: string)
    requires i <= |tokens| && forall j :: i <= j < |tokens| ==> !IsAvail(tokens[j])
    ensures AvailScan(tokens, i, acc) == Ok(acc)
    decreases |tokens| - i
  {
    if i < |tokens| {
      AvailDefault(tokens, i + 1, acc);
    }
  }

  /** One step of the scan past the first token. */
  lemma AvailScanStep(tokens: seq<string>, i: nat, acc: string)
    requires 1 <= i < |tokens|
    ensures AvailScan(tokens, i, acc) == AvailScan(tokens, i + 1, if IsAvail(tokens[i]) then tokens[i - 1] else acc)
  {
  }

  /** After the first token, the token before the last "avail" is what availMem ends up holding. */
  lemma {:induction false} AvailLastWins(tokens: seq<string>, i: nat, acc: string, last: nat)
    requires 1 <= i <= last < |tokens| && IsAvail(tokens[last])
    requires forall j :: last < j < |tokens| ==> !IsAvail(tokens[j])
    ensures AvailScan(tokens, i, acc) == Ok(tokens[last - 1])
    decreases last - i
  {
    AvailScanStep(tokens, i, acc);
    if i == last {
      AvailDefault(tokens, last + 1, tokens[last - 1]);
    } else {
      AvailLastWins(tokens, i + 1, if IsAvail(tokens[i]) then tokens[i - 1] else acc, last);
    }
  }

  /** An "avail" first token makes availMem = tokens[-1]; the swap branch records that as a ParseError. */
  lemma AvailFirstFails(tokens: seq<string>)
    requires tokens != [] && IsAvail(tokens[0])
    ensures AvailScan(tokens, 0, "0.0") == Err(IndexOutOfBounds(-1, |tokens|))
  {
  }

  // ---------------------------------------------------------------------------
  // Field mapping of the CPU line and the process rows, and the thread-count example
  // ---------------------------------------------------------------------------

  /** The tokens the %Cpu(s) line reads, at 1, 3, 5, 7, 9 and 15, are there and parse. */
  predicate CpuTokensParse(tokens: seq<string>) {
    |tokens| > 15 && ParseFloat(tokens[1]).Some? && ParseFloat(tokens[3]).Some? && ParseFloat(tokens[5]).Some?
    && ParseFloat(tokens[7]).Some? && ParseFloat(tokens[9]).Some? && ParseFloat(tokens[15]).Some?
  }

  /**
   * The %Cpu(s) line succeeds exactly when its six value tokens exist and parse, and
   * then token 1 is user, 3 sys, 5 nice, 7 idle, 9 iowait and 15 steal.
   */
  lemma CpuLineFields(line: string)
    ensures ParseCpuStats(line).Ok? <==> CpuTokensParse(Tokens(line))
    ensures ParseCpuStats(line).Ok? ==>
      var t := Tokens(line);
      ParseCpuStats(line).value == CpuStats(ParseFloat(t[1]).value, ParseFloat(t[5]).value, ParseFloat(t[3]).value,
                                            ParseFloat(t[9]).value, ParseFloat(t[15]).value, ParseFloat(t[7]).value)
  {
    var t := Tokens(line);
    FloatAtOk(t, 1);
    FloatAtOk(t, 3);
    FloatAtOk(t, 5);
    FloatAtOk(t, 7);
    FloatAtOk(t, 9);
    FloatAtOk(t, 15);
  }

  lemma FloatAtOk(tokens: seq<string>, i: nat)
    ensures FloatAt(tokens, i).Ok? <==> i < |tokens| && ParseFloat(tokens[i]).Some?
    ensures FloatAt(tokens, i).Ok? ==> FloatAt(tokens, i).value == ParseFloat(tokens[i]).value
  {
  }

  /** Every token appended to the StringBuilder with one blank after it: the single-blank join plus a blank. */
  lemma {:induction false} SpaceTerminatedJoin(ts: seq<string>)
    requires ts != []
    ensures SpaceTerminated(ts) == JoinWith(ts, " ") + " "
    decreases |ts|
  {
    var init, last := ts[..|ts| - 1], ts[|ts| - 1];
    if init == [] {
      assert ts == [last];
    } else {
      SpaceTerminatedJoin(init);
      assert init + [last] == ts;
      JoinWithSnoc(init, last, " ");
    }
  }

  /** The command column read back from its words: trim drops the last blank, leaving the words joined by single blanks. */
  lemma CommandOfWords(ts: seq<string>)
    requires forall i :: 0 <= i < |ts| ==> IsWord(ts[i])
    ensures Trim(SpaceTerminated(ts)) == JoinWith(ts, " ")
  {
    if ts != [] {
      var joined := JoinWith(ts, " ");
      SpaceTerminatedJoin(ts);
      TrimDropsTrailingSpace(joined);
      JoinWordsEnds(ts);
      TrimBlanksBefore(0, joined);
      assert Blanks(0) + joined == joined;
    }
  }

  /**
   * A process row as top prints it (words separated by blank runs, leading blanks):
   * it is read exactly when it has a ninth word that parses as a float, and then pid
   * is word 0, cpu is word 8 and the command is words 11 onward joined by single blanks.
   */
  lemma ProcessRowOfWords(line: string, lead: nat, words: seq<string>, seps: seq<string>)
    requires |words| == |seps| + 1 && line == Blanks(lead) + Glue(words, seps)
    requires forall i :: 0 <= i < |words| ==> IsWord(words[i])
    requires forall i :: 0 <= i < |seps| ==> IsSeparator(seps[i], Spaces)
    ensures ParseProcessRow(line).Ok? <==> |words| > 8 && ParseFloat(words[8]).Some?
    ensures ParseProcessRow(line).Ok? ==>
      ParseProcessRow(line).value == ThreadUsage(words[0], ParseFloat(words[8]).value, JoinWith(CommandTokens(words), " "))
  {
    TokensOfGlue(lead, words, seps);
    assert Tokens(line) == words;
    var command := CommandTokens(words);
    forall i | 0 <= i < |command|
      ensures IsWord(command[i])
    {
      assert command[i] == words[11 + i];
    }
    CommandOfWords(command);
  }

  /** The first word of a word, a blank and more text is that word. */
  lemma FirstWordOf(word: string, rest: string)
    requires IsField(word, Literal(' ')) && IsField(rest, Literal(' '))
    ensures FirstWord(word + " " + rest) == Ok(word)
  {
    SplitGlue([word, rest], [" "], Literal(' '));
    assert Glue([word, rest], [" "]) == word + " " + rest;
  }

  /** Decimal digits contain no comma, colon or blank. */
  lemma DigitsMatchFree(s: string)
    requires AllDigits(s)
    ensures MatchFree(s, CommaSpaces) && MatchFree(s, Literal(':')) && MatchFree(s, Literal(' '))
  {
  }

  /** A word of the thread-count line: visible characters only, and no comma or colon. */
  predicate PlainWord(word: string) {
    IsWord(word) && MatchFree(word, CommaSpaces) && MatchFree(word, Literal(':'))
  }

  lemma CountWordsPlain()
    ensures PlainWord("Threads") && PlainWord("total") && PlainWord("running")
    ensures PlainWord("sleeping") && PlainWord("stopped") && PlainWord("zombie")
  {
  }

  /** "<n> <word>", one count of the thread-count line. */
  function CountPart(n: nat, word: string): string {
    IntToString(n) + " " + word
  }

  /** The five comma-separated parts of "Threads: <t> total, <r> running, <s> sleeping, <p> stopped, <z> zombie". */
  function ThreadCountParts(t: nat, r: nat, sl: nat, st: nat, z: nat): seq<string> {
    ["Threads" + ":" + " " + CountPart(t, "total"), CountPart(r, "running"), CountPart(sl, "sleeping"),
     CountPart(st, "stopped"), CountPart(z, "zombie")]
  }

  /** A count part is one field of the comma split, and CountField reads its number back. */
  lemma CountPartField(n: nat, word: string, parts: seq<string>, i: nat)
    requires n <= MaxInt && PlainWord(word)
    requires i < |parts| && parts[i] == CountPart(n, word)
    ensures IsField(parts[i], CommaSpaces) && MatchFree(parts[i], Literal(':'))
    ensures CountField(parts, i) == Ok(n)
  {
    var digits := IntToString(n);
    DigitsMatchFree(digits);
    MatchFreeAppend(digits, " ", CommaSpaces);
    MatchFreeAppend(digits + " ", word, CommaSpaces);
    MatchFreeAppend(digits, " ", Literal(':'));
    MatchFreeAppend(digits + " ", word, Literal(':'));
    assert (digits + " " + word)[0] == digits[0];
    FirstWordOf(digits, word);
    ParseIntOfIntToString(n);
  }

  /** "<name>:" followed by a blank and a count part is one field of the comma split. */
  lemma HeadIsField(name: string, count: string)
    requires PlainWord(name) && IsField(count, CommaSpaces) && MatchFree(count, Literal(':'))
    ensures IsField(name + ":" + " " + count, CommaSpaces)
  {
    MatchFreeAppend(name, ":", CommaSpaces);
    MatchFreeAppend(name + ":", " ", CommaSpaces);
    MatchFreeAppend(name + ":" + " ", count, CommaSpaces);
    assert (name + ":" + " " + count)[0] == name[0];
  }

  /** split(":") of "<name>:" followed by text without a colon: the name and that text. */
  lemma HeadSplit(name: string, rest: string)
    requires PlainWord(name) && rest != "" && MatchFree(rest, Literal(':'))
    ensures Split(name + ":" + rest, Literal(':')) == [name, rest]
  {
    SplitGlue([name, rest], [":"], Literal(':'));
    assert Glue([name, rest], [":"]) == name + ":" + rest;
  }

  /** The head part "<name>: <n> <word>": one field of the comma split, whose number after the colon is n. */
  lemma HeadPartField(name: string, n: nat, word: string, parts: seq<string>)
    requires n <= MaxInt && PlainWord(name) && PlainWord(word)
    requires parts != [] && parts[0] == name + ":" + " " + CountPart(n, word)
    ensures IsField(parts[0], CommaSpaces)
    ensures AfterColon(parts) == Ok(IntToString(n))
  {
    var count := CountPart(n, word);
    CountPartField(n, word, [count], 0);
    HeadIsField(name, count);
    var afterColon := " " + count;
    MatchFreeAppend(" ", count, Literal(':'));
    assert parts[0] == name + ":" + afterColon;
    HeadSplit(name, afterColon);
    assert count[0] == IntToString(n)[0] && count[|count| - 1] == word[|word| - 1];
    TrimBlanksBefore(1, count);
    assert Blanks(1) + count == afterColon;
    DigitsMatchFree(IntToString(n));
    FirstWordOf(IntToString(n), word);
  }

  /** Each of the five parts is a field of the comma split, and each reads back its count. */
  lemma ThreadPartsFields(t: nat, r: nat, sl: nat, st: nat, z: nat)
    requires t <= MaxInt && r <= MaxInt && sl <= MaxInt && st <= MaxInt && z <= MaxInt
    ensures var parts := ThreadCountParts(t, r, sl, st, z);
      && (forall i :: 0 <= i < |parts| ==> IsField(parts[i], CommaSpaces))
      && AfterColon(parts) == Ok(IntToString(t))
      && CountField(parts, 1) == Ok(r) && CountField(parts, 2) == Ok(sl)
      && CountField(parts, 3) == Ok(st) && CountField(parts, 4) == Ok(z)
  {
    var parts := ThreadCountParts(t, r, sl, st, z);
    CountWordsPlain();
    HeadPartField("Threads", t, "total", parts);
    CountPartField(r, "running", parts, 1);
    CountPartField(sl, "sleeping", parts, 2);
    CountPartField(st, "stopped", parts, 3);
    CountPartField(z, "zombie", parts, 4);
    forall i | 0 <= i < |parts|
      ensures IsField(parts[i], CommaSpaces)
    {
      assert i == 0 || i == 1 || i == 2 || i == 3 || i == 4;
    }
  }

  /**
   * A thread-count line "Threads: <t> total, <r> running, <s> sleeping, <p> stopped,
   * <z> zombie", with any comma-and-blanks run between the parts, reads back the five
   * counts.
   */
  lemma ThreadStatsLine(t: nat, r: nat, sl: nat, st: nat, z: nat, seps: seq<string>)
    requires t <= MaxInt && r <= MaxInt && sl <= MaxInt && st <= MaxInt && z <= MaxInt
    requires |seps| == 4 && forall i :: 0 <= i < 4 ==> IsSeparator(seps[i], CommaSpaces)
    ensures ParseThreadStats(Glue(ThreadCountParts(t, r, sl, st, z), seps)) == Ok(ThreadStats(t, r, sl, st, z))
  {
    ThreadPartsFields(t, r, sl, st, z);
    SplitGlue(ThreadCountParts(t, r, sl, st, z), seps, CommaSpaces);
    ParseIntOfIntToString(t);
  }
}
