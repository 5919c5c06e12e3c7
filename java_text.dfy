/**
 * The parts of java.lang.String, Integer, Float and java.time.LocalTime that the
 * core parsers rely on, written out so that the parsers' token positions and
 * failure cases can be reasoned about: String.trim, String.split for the three
 * delimiter patterns the parsers use, startsWith/contains, Integer.parseInt,
 * Float.parseFloat (decimal forms), LocalTime.parse (ISO local time) and the
 * decimal rendering of an int.
 */
module JavaText {
  import opened Wrappers

  const MinInt: int := -0x8000_0000
  const MaxInt: int := 0x7FFF_FFFF

  // ---------------------------------------------------------------------------
  // Prefixes and substrings
  // ---------------------------------------------------------------------------

  predicate StartsWith(s: string, prefix: string) {
    |prefix| <= |s| && s[..|prefix|] == prefix
  }

  /** `needle` occurs in `s` starting at position i. */
  predicate OccursAt(s: string, needle: string, i: nat) {
    i + |needle| <= |s| && s[i..i + |needle|] == needle
  }

  /** String.contains, scanning from position `from` onwards. */
  predicate ContainsFrom(s: string, needle: string, from: nat)
    decreases |s| - from
  {
    from + |needle| <= |s| && (OccursAt(s, needle, from) || ContainsFrom(s, needle, from + 1))
  }

  predicate Contains(s: string, needle: string) {
    ContainsFrom(s, needle, 0)
  }

  lemma {:induction false} ContainsFromAt(s: string, needle: string, from: nat, i: nat)
    requires from <= i && OccursAt(s, needle, i)
    ensures ContainsFrom(s, needle, from)
    decreases i - from
  {
    if from < i {
      ContainsFromAt(s, needle, from + 1, i);
    }
  }

  lemma {:induction false} ContainsFromWitness(s: string, needle: string, from: nat)
    requires ContainsFrom(s, needle, from)
    ensures exists i :: from <= i && OccursAt(s, needle, i)
    decreases |s| - from
  {
    if !OccursAt(s, needle, from) {
      ContainsFromWitness(s, needle, from + 1);
    }
  }

  /** Contains means what String.contains means: the needle occurs at some position. */
  lemma ContainsIff(s: string, needle: string)
    ensures Contains(s, needle) <==> exists i :: 0 <= i && OccursAt(s, needle, i)
  {
    if Contains(s, needle) {
      ContainsFromWitness(s, needle, 0);
    } else if i :| 0 <= i && OccursAt(s, needle, i) {
      ContainsFromAt(s, needle, 0, i);
    }
  }

  // ---------------------------------------------------------------------------
  // String.trim
  // ---------------------------------------------------------------------------

  /** String.trim removes every character whose code is at most U+0020 from both ends. */
  predicate IsTrimChar(c: char) { c <= ' ' }

  function TrimStart(s: string): string {
    if s == [] || !IsTrimChar(s[0]) then s else TrimStart(s[1..])
  }

  function TrimEnd(s: string): string {
    if s == [] || !IsTrimChar(s[|s| - 1]) then s else TrimEnd(s[..|s| - 1])
  }

  function Trim(s: string): string {
    TrimEnd(TrimStart(s))
  }

  lemma {:induction false} TrimStartShape(s: string)
    ensures |TrimStart(s)| <= |s| && TrimStart(s) == s[|s| - |TrimStart(s)|..]
    ensures forall k :: 0 <= k < |s| - |TrimStart(s)| ==> IsTrimChar(s[k])
    ensures TrimStart(s) == [] || !IsTrimChar(TrimStart(s)[0])
  {
    if s != [] && IsTrimChar(s[0]) {
      var t := s[1..];
      TrimStartShape(t);
      var r := TrimStart(t);
      assert TrimStart(s) == r;
      assert t[|t| - |r|..] == s[|s| - |r|..];
      forall k | 0 <= k < |s| - |r|
        ensures IsTrimChar(s[k])
      {
        if k > 0 {
          assert s[k] == t[k - 1];
        }
      }
    }
  }

  lemma {:induction false} TrimEndShape(s: string)
    ensures |TrimEnd(s)| <= |s| && TrimEnd(s) == s[..|TrimEnd(s)|]
    ensures forall k :: |TrimEnd(s)| <= k < |s| ==> IsTrimChar(s[k])
    ensures TrimEnd(s) == [] || !IsTrimChar(TrimEnd(s)[|TrimEnd(s)| - 1])
  {
    if s != [] && IsTrimChar(s[|s| - 1]) {
      TrimEndShape(s[..|s| - 1]);
    }
  }

  /**
   * String.trim removes exactly the characters at most U+0020 at both ends: the
   * result is a slice of s, everything cut off is such a character, and the
   * result neither starts nor ends with one.
   */
  lemma TrimShape(s: string)
    ensures var i := |s| - |TrimStart(s)|;
            && 0 <= i && i + |Trim(s)| <= |s| && Trim(s) == s[i..i + |Trim(s)|]
            && (forall k :: 0 <= k < i ==> IsTrimChar(s[k]))
            && (forall k :: i + |Trim(s)| <= k < |s| ==> IsTrimChar(s[k]))
    ensures Trim(s) == [] || (!IsTrimChar(Trim(s)[0]) && !IsTrimChar(Trim(s)[|Trim(s)| - 1]))
  {
    var a := TrimStart(s);
    TrimStartShape(s);
    TrimEndShape(a);
    var r := TrimEnd(a);
    var i := |s| - |a|;
    var j := i + |r|;
    assert a == s[i..];
    assert r == s[i..j] by {
      assert r == a[..|r|];
      forall k | 0 <= k < |r|
        ensures r[k] == s[i + k]
      {
        assert r[k] == a[k] == s[i + k];
      }
    }
    forall k | j <= k < |s|
      ensures IsTrimChar(s[k])
    {
      assert IsTrimChar(a[k - i]);
      assert a[k - i] == s[k];
    }
    assert r != [] ==> r[0] == a[0];
  }

  /** Trimming a string that ends with a space is trimming the string without it. */
  lemma TrimDropsTrailingSpace(s: string)
    ensures Trim(s + " ") == Trim(s)
  {
    var t := s + " ";
    TrimStartShape(s);
    if TrimStart(s) == [] {
      TrimStartAllTrim(t, |s| + 1);
      assert TrimStart(t) == [];
    } else {
      TrimStartAppend(s, " ");
      assert TrimStart(t) == TrimStart(s) + " ";
      assert TrimEnd(TrimStart(s) + " ") == TrimEnd(TrimStart(s)) by {
        var u := TrimStart(s) + " ";
        assert u[..|u| - 1] == TrimStart(s);
      }
    }
  }

  lemma {:induction false} TrimStartAllTrim(s: string, n: nat)
    requires n == |s| && forall k :: 0 <= k < |s| ==> IsTrimChar(s[k])
    ensures TrimStart(s) == []
    decreases n
  {
    if s != [] {
      TrimStartAllTrim(s[1..], n - 1);
    }
  }

  lemma {:induction false} TrimStartAppend(s: string, t: string)
    requires TrimStart(s) != []
    ensures TrimStart(s + t) == TrimStart(s) + t
    decreases |s|
  {
    if !IsTrimChar(s[0]) {
    } else {
      assert (s + t)[1..] == s[1..] + t;
      TrimStartAppend(s[1..], t);
    }
  }

  // ---------------------------------------------------------------------------
  // String.split for the three patterns the parsers use
  // ---------------------------------------------------------------------------

  /** A character matched by the regular-expression class \s. */
  predicate IsRegexSpace(c: char) {
    c == ' ' || c == '\t' || c == '\n' || c == '\U{B}' || c == '\U{C}' || c == '\r'
  }

  /** The patterns passed to String.split: one literal character, ",\\s*" and "\\s+". */
  datatype Delimiter = Literal(c: char) | CommaSpaces | Spaces

  /** Length of the (greedy) run of \s characters starting at i. */
  function SpaceRun(s: string, i: nat): (n: nat)
    requires i <= |s|
    ensures i + n <= |s|
    ensures forall k :: i <= k < i + n ==> IsRegexSpace(s[k])
    ensures i + n == |s| || !IsRegexSpace(s[i + n])
    decreases |s| - i
  {
    if i == |s| || !IsRegexSpace(s[i]) then 0 else 1 + SpaceRun(s, i + 1)
  }

  /** Length of the delimiter match starting at i (0: no match there). */
  function MatchLength(s: string, i: nat, d: Delimiter): (n: nat)
    requires i < |s|
    ensures i + n <= |s|
  {
    match d
    case Literal(c) => if s[i] == c then 1 else 0
    case CommaSpaces => if s[i] == ',' then 1 + SpaceRun(s, i + 1) else 0
    case Spaces => SpaceRun(s, i)
  }

  /** The substrings between successive leftmost delimiter matches, trailing empties included. */
  function Pieces(s: string, d: Delimiter, start: nat, i: nat): (ps: seq<string>)
    requires start <= i <= |s|
    ensures |ps| > 0
    decreases |s| - i
  {
    if i == |s| then [s[start..]]
    else
      var n := MatchLength(s, i, d);
      if n == 0 then Pieces(s, d, start, i + 1)
      else [s[start..i]] + Pieces(s, d, i + n, i + n)
  }

  function DropTrailingEmpty(ps: seq<string>): (r: seq<string>)
    ensures |r| <= |ps| && r == ps[..|r|]
    ensures r == [] || r[|r| - 1] != ""
    ensures forall k :: |r| <= k < |ps| ==> ps[k] == ""
  {
    if ps == [] || ps[|ps| - 1] != "" then ps else DropTrailingEmpty(ps[..|ps| - 1])
  }

  /**
   * String.split(pattern) with limit 0: the pieces between matches with trailing
   * empty strings removed; an empty input gives the one-element array [""].
   */
  function Split(s: string, d: Delimiter): seq<string> {
    if s == "" then [""] else DropTrailingEmpty(Pieces(s, d, 0, 0))
  }

  /** String.join-style concatenation: the pieces with `sep` between consecutive ones. */
  function JoinWith(ps: seq<string>, sep: string): string {
    if ps == [] then "" else if |ps| == 1 then ps[0] else ps[0] + sep + JoinWith(ps[1..], sep)
  }

  lemma {:induction false} PiecesRebuild(s: string, c: char, start: nat, i: nat)
    requires start <= i <= |s|
    requires forall k :: start <= k < i ==> s[k] != c
    ensures JoinWith(Pieces(s, Literal(c), start, i), [c]) == s[start..]
    decreases |s| - i
  {
    if i == |s| {
    } else if s[i] != c {
      PiecesRebuild(s, c, start, i + 1);
    } else {
      PiecesRebuild(s, c, i + 1, i + 1);
      var rest := Pieces(s, Literal(c), i + 1, i + 1);
      assert Pieces(s, Literal(c), start, i) == [s[start..i]] + rest;
      assert s[start..] == s[start..i] + [c] + s[i + 1..];
    }
  }

  lemma {:induction false} PiecesWithout(s: string, c: char, start: nat, i: nat)
    requires start <= i <= |s|
    requires forall k :: start <= k < i ==> s[k] != c
    ensures forall p, k :: p in Pieces(s, Literal(c), start, i) && 0 <= k < |p| ==> p[k] != c
    decreases |s| - i
  {
    if i == |s| {
      assert Pieces(s, Literal(c), start, i) == [s[start..]];
    } else if s[i] != c {
      PiecesWithout(s, c, start, i + 1);
    } else {
      PiecesWithout(s, c, i + 1, i + 1);
      var rest := Pieces(s, Literal(c), i + 1, i + 1);
      assert Pieces(s, Literal(c), start, i) == [s[start..i]] + rest;
    }
  }

  /**
   * Splitting on one character loses nothing but the separators: joining the pieces
   * with that character gives the input back, and no piece contains it (before
   * trailing empty pieces are dropped).
   */
  lemma SplitLiteralRoundTrip(s: string, c: char)
    ensures JoinWith(Pieces(s, Literal(c), 0, 0), [c]) == s
    ensures forall p, k :: p in Pieces(s, Literal(c), 0, 0) && 0 <= k < |p| ==> p[k] != c
  {
    PiecesRebuild(s, c, 0, 0);
    PiecesWithout(s, c, 0, 0);
  }

  /** A character at which a match of d can begin. */
  predicate MatchStart(c: char, d: Delimiter) {
    match d
    case Literal(x) => c == x
    case CommaSpaces => c == ','
    case Spaces => IsRegexSpace(c)
  }

  /** Text that lies wholly between two matches of d: non-empty, no match begins in it, and it does not extend the match before it. */
  predicate IsField(p: string, d: Delimiter) {
    p != "" && (forall k :: 0 <= k < |p| ==> !MatchStart(p[k], d)) && (d.CommaSpaces? ==> !IsRegexSpace(p[0]))
  }

  /** One complete match of d. */
  predicate IsSeparator(sep: string, d: Delimiter) {
    match d
    case Literal(x) => sep == [x]
    case CommaSpaces => sep != "" && sep[0] == ',' && forall k :: 1 <= k < |sep| ==> IsRegexSpace(sep[k])
    case Spaces => sep != "" && forall k :: 0 <= k < |sep| ==> IsRegexSpace(sep[k])
  }

  /** fields[0] + seps[0] + fields[1] + ... + fields[|fields| - 1]. */
  function Glue(fields: seq<string>, seps: seq<string>): string
    requires |fields| == |seps| + 1
  {
    if seps == [] then fields[0] else fields[0] + seps[0] + Glue(fields[1..], seps[1..])
  }

  lemma {:induction false} PiecesSkip(s: string, d: Delimiter, start: nat, i: nat, j: nat)
    requires start <= i <= j <= |s|
    requires forall k :: i <= k < j ==> !MatchStart(s[k], d)
    ensures Pieces(s, d, start, i) == Pieces(s, d, start, j)
    decreases j - i
  {
    if i < j {
      PiecesSkip(s, d, start, i + 1, j);
    }
  }

  lemma {:induction false} SpaceRunExact(s: string, i: nat, n: nat)
    requires i + n <= |s|
    requires forall k :: i <= k < i + n ==> IsRegexSpace(s[k])
    requires i + n == |s| || !IsRegexSpace(s[i + n])
    ensures SpaceRun(s, i) == n
    decreases n
  {
    if n > 0 {
      SpaceRunExact(s, i + 1, n - 1);
    }
  }

  lemma MatchAtSeparator(s: string, p: nat, sep: string, d: Delimiter)
    requires p + |sep| < |s| && s[p..p + |sep|] == sep && IsSeparator(sep, d)
    requires !MatchStart(s[p + |sep|], d) && (d.CommaSpaces? ==> !IsRegexSpace(s[p + |sep|]))
    ensures MatchLength(s, p, d) == |sep|
  {
    assert forall k :: p <= k < p + |sep| ==> s[k] == sep[k - p];
    match d
    case Literal(c) =>
    case CommaSpaces =>
      SpaceRunExact(s, p + 1, |sep| - 1);
    case Spaces =>
      SpaceRunExact(s, p, |sep|);
  }

  lemma GlueHead(fields: seq<string>, seps: seq<string>, d: Delimiter)
    requires |fields| == |seps| + 1 && IsField(fields[0], d)
    ensures Glue(fields, seps) != "" && Glue(fields, seps)[0] == fields[0][0]
  {
  }

  lemma PiecesLastField(s: string, d: Delimiter, start: nat, f: string)
    requires start <= |s| && s[start..] == f && IsField(f, d)
    ensures Pieces(s, d, start, start) == [f]
  {
    assert forall k :: start <= k < |s| ==> s[k] == f[k - start];
    PiecesSkip(s, d, start, start, |s|);
  }

  /** The three consecutive slices of s that a suffix f + sep + rest consists of. */
  lemma SliceThree(s: string, start: nat, f: string, sep: string, rest: string)
    requires start <= |s| && s[start..] == f + sep + rest
    ensures start + |f| + |sep| <= |s|
    ensures s[start..start + |f|] == f
    ensures s[start + |f|..start + |f| + |sep|] == sep
    ensures s[start + |f| + |sep|..] == rest
    ensures forall k :: start <= k < start + |f| ==> s[k] == f[k - start]
  {
    var t := s[start..];
    assert forall k :: 0 <= k < |t| ==> t[k] == s[start + k];
    assert forall k :: 0 <= k < |f| ==> t[k] == f[k];
    assert forall k :: 0 <= k < |sep| ==> t[|f| + k] == sep[k];
    assert forall k :: 0 <= k < |rest| ==> t[|f| + |sep| + k] == rest[k];
  }

  lemma PiecesFieldThenSeparator(s: string, d: Delimiter, start: nat, f: string, sep: string, rest: string)
    requires start <= |s| && s[start..] == f + sep + rest
    requires IsField(f, d) && IsSeparator(sep, d)
    requires rest != "" && !MatchStart(rest[0], d) && (d.CommaSpaces? ==> !IsRegexSpace(rest[0]))
    ensures start + |f| + |sep| <= |s|
    ensures Pieces(s, d, start, start) == [f] + Pieces(s, d, start + |f| + |sep|, start + |f| + |sep|)
    ensures s[start + |f| + |sep|..] == rest
  {
    var p := start + |f|;
    SliceThree(s, start, f, sep, rest);
    assert s[p + |sep|] == rest[0];
    forall k | start <= k < p ensures !MatchStart(s[k], d) {
      assert s[k] == f[k - start];
    }
    PiecesSkip(s, d, start, start, p);
    MatchAtSeparator(s, p, sep, d);
    PiecesAtMatch(s, d, start, p, |sep|);
  }

  /** A delimiter match at i closes the current piece; the next one starts after the match. */
  lemma PiecesAtMatch(s: string, d: Delimiter, start: nat, i: nat, n: nat)
    requires start <= i < |s| && n > 0 && MatchLength(s, i, d) == n
    ensures Pieces(s, d, start, i) == [s[start..i]] + Pieces(s, d, i + n, i + n)
  {
  }

  lemma {:induction false} PiecesGlue(s: string, d: Delimiter, start: nat, fields: seq<string>, seps: seq<string>)
    requires start <= |s| && |fields| == |seps| + 1
    requires forall i :: 0 <= i < |fields| ==> IsField(fields[i], d)
    requires forall i :: 0 <= i < |seps| ==> IsSeparator(seps[i], d)
    requires s[start..] == Glue(fields, seps)
    ensures Pieces(s, d, start, start) == fields
    decreases |seps|
  {
    assert IsField(fields[0], d);
    if seps == [] {
      PiecesLastField(s, d, start, fields[0]);
      assert fields == [fields[0]];
    } else {
      var fs, ss := fields[1..], seps[1..];
      var rest := Glue(fs, ss);
      assert Glue(fields, seps) == fields[0] + seps[0] + rest;
      assert IsField(fs[0], d) && IsSeparator(seps[0], d);
      GlueHead(fs, ss, d);
      PiecesFieldThenSeparator(s, d, start, fields[0], seps[0], rest);
      var next := start + |fields[0]| + |seps[0]|;
      assert forall i :: 0 <= i < |fs| ==> fs[i] == fields[i + 1];
      assert forall i :: 0 <= i < |ss| ==> ss[i] == seps[i + 1];
      var head := Pieces(s, d, start, start);
      var tail := Pieces(s, d, next, next);
      assert head == [fields[0]] + tail;
      PiecesGlue(s, d, next, fs, ss);
      assert fields == [fields[0]] + fs;
    }
  }

  /** Splitting text made of fields joined by separators of the same pattern gives the fields back. */
  lemma SplitGlue(fields: seq<string>, seps: seq<string>, d: Delimiter)
    requires |fields| == |seps| + 1
    requires forall i :: 0 <= i < |fields| ==> IsField(fields[i], d)
    requires forall i :: 0 <= i < |seps| ==> IsSeparator(seps[i], d)
    ensures Split(Glue(fields, seps), d) == fields
  {
    var s := Glue(fields, seps);
    assert s[0..] == s;
    PiecesGlue(s, d, 0, fields, seps);
    GlueHead(fields, seps, d);
    assert IsField(fields[|fields| - 1], d);
    assert DropTrailingEmpty(fields) == fields;
  }

  // ---------------------------------------------------------------------------
  // Text built from fields and separators, and what trim and split make of it
  // ---------------------------------------------------------------------------

  /** No match of d begins anywhere in s. */
  predicate MatchFree(s: string, d: Delimiter) {
    forall k :: 0 <= k < |s| ==> !MatchStart(s[k], d)
  }

  lemma MatchFreeAppend(a: string, b: string, d: Delimiter)
    requires MatchFree(a, d) && MatchFree(b, d)
    ensures MatchFree(a + b, d)
  {
    forall k | 0 <= k < |a + b|
      ensures !MatchStart((a + b)[k], d)
    {
      if k < |a| {
        assert (a + b)[k] == a[k];
      } else {
        assert (a + b)[k] == b[k - |a|];
      }
    }
  }

  /** A run of n blanks, as top pads its columns. */
  function Blanks(n: nat): (s: string)
    ensures |s| == n && forall k :: 0 <= k < n ==> s[k] == ' '
  {
    if n == 0 then "" else " " + Blanks(n - 1)
  }

  /** A token that neither trim nor a whitespace split can cut into. */
  predicate IsWord(t: string) {
    t != "" && forall k :: 0 <= k < |t| ==> !IsTrimChar(t[k])
  }

  lemma {:induction false} TrimStartBlanks(n: nat, s: string)
    requires s == "" || !IsTrimChar(s[0])
    ensures TrimStart(Blanks(n) + s) == s
    decreases n
  {
    if n > 0 {
      var t := Blanks(n - 1) + s;
      assert Blanks(n) + s == [' '] + t;
      assert ([' '] + t)[1..] == t;
      TrimStartBlanks(n - 1, s);
    }
  }

  /** Leading blanks are what trim removes from text that starts and ends with a visible character. */
  lemma TrimBlanksBefore(n: nat, s: string)
    requires s != "" && !IsTrimChar(s[0]) && !IsTrimChar(s[|s| - 1])
    ensures Trim(Blanks(n) + s) == s
  {
    TrimStartBlanks(n, s);
  }

  lemma {:induction false} GlueEnds(fields: seq<string>, seps: seq<string>)
    requires |fields| == |seps| + 1
    requires forall i :: 0 <= i < |fields| ==> fields[i] != ""
    ensures Glue(fields, seps) != ""
    ensures Glue(fields, seps)[0] == fields[0][0]
    ensures Glue(fields, seps)[|Glue(fields, seps)| - 1] == fields[|fields| - 1][|fields[|fields| - 1]| - 1]
    decreases |seps|
  {
    if seps != [] {
      GlueEnds(fields[1..], seps[1..]);
      var rest := Glue(fields[1..], seps[1..]);
      assert Glue(fields, seps) == (fields[0] + seps[0]) + rest;
    }
  }

  /**
   * Words separated by whitespace runs, with leading blanks: trim and split("\\s+")
   * give the words back, however wide each run is.
   */
  lemma TokensOfGlue(lead: nat, words: seq<string>, seps: seq<string>)
    requires |words| == |seps| + 1
    requires forall i :: 0 <= i < |words| ==> IsWord(words[i])
    requires forall i :: 0 <= i < |seps| ==> IsSeparator(seps[i], Spaces)
    ensures Split(Trim(Blanks(lead) + Glue(words, seps)), Spaces) == words
  {
    GlueEnds(words, seps);
    var last := words[|words| - 1];
    assert IsWord(words[0]) && IsWord(last);
    TrimBlanksBefore(lead, Glue(words, seps));
    forall i | 0 <= i < |words|
      ensures IsField(words[i], Spaces)
    {
      assert IsWord(words[i]);
    }
    SplitGlue(words, seps, Spaces);
  }

  /** Joining a list that grows at the end adds one separator and the new piece. */
  lemma {:induction false} JoinWithSnoc(ps: seq<string>, p: string, sep: string)
    requires ps != []
    ensures JoinWith(ps + [p], sep) == JoinWith(ps, sep) + sep + p
    decreases |ps|
  {
    if |ps| == 1 {
      assert ps + [p] == [ps[0], p];
    } else {
      assert (ps + [p])[1..] == ps[1..] + [p];
      JoinWithSnoc(ps[1..], p, sep);
      AppendAssoc3(ps[0] + sep, JoinWith(ps[1..], sep), sep + p);
    }
  }

  lemma AppendAssoc3(a: string, b: string, c: string)
    ensures a + (b + c) == (a + b) + c
  {
  }

  /** Words joined by single blanks start and end with a visible character. */
  lemma {:induction false} JoinWordsEnds(ps: seq<string>)
    requires ps != [] && forall i :: 0 <= i < |ps| ==> IsWord(ps[i])
    ensures JoinWith(ps, " ") != ""
    ensures !IsTrimChar(JoinWith(ps, " ")[0]) && !IsTrimChar(JoinWith(ps, " ")[|JoinWith(ps, " ")| - 1])
    decreases |ps|
  {
    assert IsWord(ps[0]);
    if |ps| > 1 {
      JoinWordsEnds(ps[1..]);
      var rest := JoinWith(ps[1..], " ");
      assert JoinWith(ps, " ") == (ps[0] + " ") + rest;
    }
  }

  // ---------------------------------------------------------------------------
  // Digits, Integer.parseInt and the decimal rendering of an int
  // ---------------------------------------------------------------------------

  predicate IsDigit(c: char) { '0' <= c <= '9' }

  predicate AllDigits(s: string) { forall k :: 0 <= k < |s| ==> IsDigit(s[k]) }

  function DigitValue(c: char): nat
    requires IsDigit(c)
  {
    (c as int) - ('0' as int)
  }

  /** The value of a run of decimal digits, most significant first. */
  function DigitsValue(s: string): nat
    requires AllDigits(s)
  {
    if s == [] then 0 else 10 * DigitsValue(s[..|s| - 1]) + DigitValue(s[|s| - 1])
  }

  /** Length of the run of decimal digits starting at i. */
  function DigitRun(s: string, i: nat): (n: nat)
    requires i <= |s|
    ensures i + n <= |s| && AllDigits(s[i..i + n])
    ensures i + n == |s| || !IsDigit(s[i + n])
    decreases |s| - i
  {
    if i == |s| || !IsDigit(s[i]) then 0
    else
      var n := 1 + DigitRun(s, i + 1);
      assert s[i..i + n] == [s[i]] + s[i + 1..i + n];
      n
  }

  /** Integer.parseInt: an optional sign and one or more digits, within 32 bits; None is NumberFormatException. */
  function ParseInt(s: string): (r: Option<int>)
    ensures r.Some? ==> MinInt <= r.value <= MaxInt
  {
    if s == "" then None
    else
      var neg := s[0] == '-';
      var digits := if s[0] == '-' || s[0] == '+' then s[1..] else s;
      if digits == "" || !AllDigits(digits) then None
      else
        var v := if neg then -(DigitsValue(digits) as int) else DigitsValue(digits) as int;
        if MinInt <= v <= MaxInt then Some(v) else None
  }

  function DigitChar(d: nat): (c: char)
    requires d < 10
    ensures IsDigit(c) && DigitValue(c) == d
  {
    (('0' as int) + d) as char
  }

  function NatToString(n: nat): (s: string)
    ensures s != "" && AllDigits(s)
  {
    if n < 10 then [DigitChar(n)] else NatToString(n / 10) + [DigitChar(n % 10)]
  }

  /** The decimal text of an int, as String.valueOf and %d produce it. */
  function IntToString(n: int): string {
    if n < 0 then "-" + NatToString(-n) else NatToString(n)
  }

  lemma {:induction false} DigitsOfNat(n: nat)
    ensures DigitsValue(NatToString(n)) == n
  {
    if n >= 10 {
      DigitsOfNat(n / 10);
      var s := NatToString(n);
      assert s[..|s| - 1] == NatToString(n / 10);
    }
  }

  /** Integer.parseInt reads back every 32-bit int that String.valueOf writes. */
  lemma ParseIntOfIntToString(n: int)
    requires MinInt <= n <= MaxInt
    ensures ParseInt(IntToString(n)) == Some(n)
  {
    DigitsOfNat(if n < 0 then -n else n);
    if n < 0 {
      assert IntToString(n)[1..] == NatToString(-n);
    } else {
      assert NatToString(n)[0] != '-';
    }
  }

  /** String.format("%02d", n): at least two characters, zero-padded after the sign. */
  function TwoDigits(n: int): (s: string)
    ensures |s| >= 2
  {
    if n < 0 then "-" + NatToString(-n)
    else if n < 10 then "0" + NatToString(n)
    else NatToString(n)
  }

  /** Integer.parseInt reads back every 32-bit int that "%02d" writes: the zero padding is harmless. */
  lemma TwoDigitsReadsBack(n: int)
    requires MinInt <= n <= MaxInt
    ensures ParseInt(TwoDigits(n)) == Some(n)
  {
    if n < 0 || n >= 10 {
      ParseIntOfIntToString(n);
    } else {
      var s := TwoDigits(n);
      assert s == ['0', DigitChar(n)];
      assert s[..1] == "0";
      assert DigitsValue(s) == 10 * DigitsValue("0") + n;
    }
  }

  // ---------------------------------------------------------------------------
  // Float.parseFloat / Double.parseDouble on decimal text
  // ---------------------------------------------------------------------------

  function Pow10(e: nat): (p: nat)
    ensures p >= 1
  {
    if e == 0 then 1 else 10 * Pow10(e - 1)
  }

  /** v * 10^e, one decimal place at a time. */
  function Shift(v: real, e: int): real
    decreases if e >= 0 then e else -e
  {
    if e == 0 then v else if e > 0 then Shift(10.0 * v, e - 1) else Shift(v / 10.0, e + 1)
  }

  /** v * 10^e on naturals, one decimal place at a time. */
  function ShiftNat(v: nat, e: nat): nat
    decreases e
  {
    if e == 0 then v else ShiftNat(10 * v, e - 1)
  }

  lemma {:induction false} ShiftNatValue(v: nat, e: nat)
    ensures ShiftNat(v, e) == v * Pow10(e)
    decreases e
  {
    if e > 0 {
      ShiftNatValue(10 * v, e - 1);
      assert (10 * v) * Pow10(e - 1) == v * (10 * Pow10(e - 1));
    }
  }

  predicate IsSuffixChar(c: char) { c == 'f' || c == 'F' || c == 'd' || c == 'D' }

  /**
   * The exponent part after the mantissa: "" or [eE][+-]?digits, then an optional
   * f/F/d/D suffix; None when the remainder is anything else.
   */
  function ParseExponent(t: string): Option<int> {
    if t == "" || (|t| == 1 && IsSuffixChar(t[0])) then Some(0)
    else if t[0] != 'e' && t[0] != 'E' then None
    else
      var u := t[1..];
      var neg := u != "" && u[0] == '-';
      var v := if u != "" && (u[0] == '-' || u[0] == '+') then u[1..] else u;
      var n := DigitRun(v, 0);
      var rest := v[n..];
      if n == 0 || !(rest == "" || (|rest| == 1 && IsSuffixChar(rest[0]))) then None
      else Some(if neg then -(DigitsValue(v[..n]) as int) else DigitsValue(v[..n]) as int)
  }

  /** The mantissa's digits (integer and fraction part run together), the fraction length and what follows. */
  datatype Mantissa = Mantissa(digits: string, fractionLength: nat, rest: string)

  function ParseMantissa(u: string): (m: Mantissa)
    ensures AllDigits(m.digits) && m.fractionLength <= |m.digits|
  {
    var i := DigitRun(u, 0);
    if i < |u| && u[i] == '.' then
      var f := DigitRun(u, i + 1);
      Mantissa(u[..i] + u[i + 1..i + 1 + f], f, u[i + 1 + f..])
    else
      Mantissa(u[..i], 0, u[i..])
  }

  /**
   * Float.parseFloat on the trimmed text: optional sign, digits with an optional
   * fraction (at least one digit in all), optional exponent, optional type suffix.
   * The value is the exact decimal value. None is NumberFormatException.
   */
  function ParseFloat(s: string): (r: Option<real>) {
    var t := Trim(s);
    var neg := t != "" && t[0] == '-';
    var u := if t != "" && (t[0] == '-' || t[0] == '+') then t[1..] else t;
    var m := ParseMantissa(u);
    if m.digits == "" then None
    else
      match ParseExponent(m.rest)
      case None => None
      case Some(e) =>
        var magnitude := Shift(DigitsValue(m.digits) as real, e - m.fractionLength);
        Some(if neg then -magnitude else magnitude)
  }

  // ---------------------------------------------------------------------------
  // LocalTime.parse (ISO_LOCAL_TIME)
  // ---------------------------------------------------------------------------

  datatype LocalTime = LocalTime(hour: nat, minute: nat, second: nat, nano: nat)

  predicate ValidTime(t: LocalTime) {
    t.hour < 24 && t.minute < 60 && t.second < 60 && t.nano < 1_000_000_000
  }

  function TwoDigitField(s: string, i: nat): Option<nat>
    requires i <= |s|
  {
    if i + 2 <= |s| && IsDigit(s[i]) && IsDigit(s[i + 1])
    then Some(10 * DigitValue(s[i]) + DigitValue(s[i + 1])) else None
  }

  /**
   * LocalTime.parse: HH:mm, HH:mm:ss or HH:mm:ss.f with up to nine fraction
   * digits (a bare "." reads as zero nanoseconds, as the fraction field has
   * minimum width 0); None is DateTimeParseException.
   */
  function ParseLocalTime(s: string): (r: Option<LocalTime>)
    ensures r.Some? ==> ValidTime(r.value)
  {
    var h := TwoDigitField(s, 0);
    var m := if |s| >= 3 && s[2] == ':' then TwoDigitField(s, 3) else None;
    if h.None? || m.None? || h.value >= 24 || m.value >= 60 then None
    else if |s| == 5 then Some(LocalTime(h.value, m.value, 0, 0))
    else
      var sec := if s[5] == ':' then TwoDigitField(s, 6) else None;
      if sec.None? || sec.value >= 60 then None
      else if |s| == 8 then Some(LocalTime(h.value, m.value, sec.value, 0))
      else
        var frac := s[9..];
        if s[8] != '.' || |frac| > 9 || !AllDigits(frac) then None
        else
          var nano := ShiftNat(DigitsValue(frac), 9 - |frac|);
          ShiftNatValue(DigitsValue(frac), 9 - |frac|);
          DigitsBoundScaled(frac, 9 - |frac|);
          Some(LocalTime(h.value, m.value, sec.value, nano))
  }

  /** A field printed as two digits, as LocalTime.toString writes hours, minutes and seconds. */
  function TimeField(n: nat): (r: string)
    requires n < 100
    ensures |r| == 2 && AllDigits(r)
  {
    [DigitChar(n / 10), DigitChar(n % 10)]
  }

  /** Each accepted form reads back the fields it was written from; a one-digit hour is rejected. */
  lemma ParseLocalTimeForms(h: nat, m: nat, sec: nat)
    requires h < 24 && m < 60 && sec < 60
    ensures ParseLocalTime(TimeField(h) + ":" + TimeField(m)) == Some(LocalTime(h, m, 0, 0))
    ensures ParseLocalTime(TimeField(h) + ":" + TimeField(m) + ":" + TimeField(sec)) == Some(LocalTime(h, m, sec, 0))
    ensures ParseLocalTime(TimeField(h) + ":" + TimeField(m) + ":" + TimeField(sec) + ".") == Some(LocalTime(h, m, sec, 0))
    ensures ParseLocalTime([DigitChar(h % 10)] + ":" + TimeField(m)) == None
  {
    var hh, mm, ss := TimeField(h), TimeField(m), TimeField(sec);
    assert TwoDigitField(hh + ":" + mm, 0) == Some(h);
    assert TwoDigitField(hh + ":" + mm, 3) == Some(m);
    var full := hh + ":" + mm + ":" + ss;
    assert TwoDigitField(full, 0) == Some(h);
    assert TwoDigitField(full, 3) == Some(m);
    assert TwoDigitField(full, 6) == Some(sec);
    var dotted := full + ".";
    assert TwoDigitField(dotted, 0) == Some(h);
    assert TwoDigitField(dotted, 3) == Some(m);
    assert TwoDigitField(dotted, 6) == Some(sec);
    assert dotted[9..] == "";
    var short := [DigitChar(h % 10)] + ":" + mm;
    assert !IsDigit(short[1]);
  }

  lemma {:induction false} DigitsBound(s: string)
    requires AllDigits(s)
    ensures DigitsValue(s) < Pow10(|s|)
  {
    if s != [] {
      DigitsBound(s[..|s| - 1]);
    }
  }

  lemma {:induction false} DigitsBoundScaled(s: string, e: nat)
    requires AllDigits(s)
    ensures DigitsValue(s) * Pow10(e) < Pow10(|s| + e)
  {
    DigitsBound(s);
    Pow10Add(|s|, e);
    MulLess(DigitsValue(s), Pow10(|s|), Pow10(e));
  }

  lemma MulLess(a: nat, b: nat, c: nat)
    requires a < b && c > 0
    ensures a * c < b * c
  {
    assert b * c == a * c + (b - a) * c;
  }

  lemma {:induction false} Pow10Add(a: nat, b: nat)
    ensures Pow10(a) * Pow10(b) == Pow10(a + b)
  {
    if a > 0 {
      Pow10Add(a - 1, b);
    }
  }
}
