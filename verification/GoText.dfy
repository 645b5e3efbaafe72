/** The parts of Go's `strings` package that the SDP rewriters rely on, over `seq<char>`. */
module GoText {
  datatype Option<+T> = None | Some(value: T)

  const LF := "\n"
  const CRLF := "\r\n"

  predicate HasPrefix(s: string, prefix: string)
    ensures HasPrefix(s, prefix) ==> |prefix| <= |s|
  {
    prefix == [] || (s != [] && s[0] == prefix[0] && HasPrefix(s[1..], prefix[1..]))
  }

  function TrimPrefix(s: string, prefix: string): string {
    if HasPrefix(s, prefix) then s[|prefix|..] else s
  }

  predicate Contains(s: string, sub: string) {
    sub <= s || (s != [] && Contains(s[1..], sub))
  }

  /** Leftmost, non-overlapping split. */
  function Split(s: string, sep: string): (lines: seq<string>)
    requires sep != []
    ensures lines != []
    decreases |s|
  {
    if s == [] then [[]]
    else if sep <= s then [[]] + Split(s[|sep|..], sep)
    else
      var rest := Split(s[1..], sep);
      [[s[0]] + rest[0]] + rest[1..]
  }

  function Join(lines: seq<string>, sep: string): string {
    if lines == [] then []
    else if |lines| == 1 then lines[0]
    else lines[0] + sep + Join(lines[1..], sep)
  }

  /** `strings.ReplaceAll(s, "\r\n", "\n")`. */
  function ReplaceCRLF(s: string): string
    decreases |s|
  {
    if s == [] then []
    else if CRLF <= s then LF + ReplaceCRLF(s[2..])
    else [s[0]] + ReplaceCRLF(s[1..])
  }

  /** The separator every rewriter picks for the text it edits. */
  function LineSeparator(s: string): string {
    if Contains(s, CRLF) then CRLF else LF
  }

  function Lines(s: string): (lines: seq<string>)
    ensures lines != []
  {
    Split(s, LineSeparator(s))
  }

  predicate IsSeparator(sep: string) {
    sep == LF || sep == CRLF
  }

  predicate Clean(line: string) {
    '\r' !in line && '\n' !in line
  }

  predicate AllClean(lines: seq<string>) {
    forall i :: 0 <= i < |lines| ==> Clean(lines[i])
  }

  /** Every CR and LF belongs to a line separator: CRLF throughout, or LF with no CR. */
  predicate WellFramed(s: string) {
    AllClean(Lines(s))
  }

  /** Lines that survive being joined, having their separator detected again, and being split again. */
  predicate Stable(lines: seq<string>, sep: string)
    requires IsSeparator(sep)
  {
    && lines != []
    && (forall i :: 0 <= i < |lines| ==> !Contains(lines[i], sep))
    && (sep == CRLF ==> |lines| >= 2)
    && (sep == LF ==> forall i :: 0 <= i < |lines| - 1 ==> lines[i] == [] || lines[i][|lines[i]| - 1] != '\r')
  }

  lemma JoinCons(head: string, tail: seq<string>, sep: string)
    ensures Join([head] + tail, sep) == if tail == [] then head else head + sep + Join(tail, sep)
  {
    assert ([head] + tail)[1..] == tail;
  }

  lemma JoinPrepend(c: char, lines: seq<string>, sep: string)
    requires lines != []
    ensures Join([[c] + lines[0]] + lines[1..], sep) == [c] + Join(lines, sep)
  {
    JoinCons([c] + lines[0], lines[1..], sep);
    if |lines| > 1 {
      var tail := Join(lines[1..], sep);
      assert [c] + lines[0] + sep + tail == [c] + (lines[0] + sep + tail);
    }
  }

  lemma JoinEmptyFirst(tail: seq<string>, sep: string)
    requires tail != []
    ensures Join([[]] + tail, sep) == sep + Join(tail, sep)
  {
    JoinCons([], tail, sep);
  }

  lemma {:induction false} JoinSplit(s: string, sep: string)
    requires sep != []
    ensures Join(Split(s, sep), sep) == s
    decreases |s|
  {
    if s == [] {
    } else if sep <= s {
      var rest := s[|sep|..];
      JoinSplit(rest, sep);
      JoinEmptyFirst(Split(rest, sep), sep);
      assert s == sep + rest;
    } else {
      var rest := s[1..];
      JoinSplit(rest, sep);
      JoinPrepend(s[0], Split(rest, sep), sep);
      assert s == [s[0]] + rest;
    }
  }

  lemma {:induction false} SplitHead(s: string, sep: string)
    requires sep != []
    ensures Split(s, sep)[0] <= s
    decreases |s|
  {
    if s != [] && !(sep <= s) {
      SplitHead(s[1..], sep);
    }
  }

  /** No piece of a split contains the separator. */
  lemma {:induction false} SplitPieces(s: string, sep: string)
    requires sep != []
    ensures forall i :: 0 <= i < |Split(s, sep)| ==> !Contains(Split(s, sep)[i], sep)
    decreases |s|
  {
    if s == [] {
    } else if sep <= s {
      SplitPieces(s[|sep|..], sep);
    } else {
      var rest := Split(s[1..], sep);
      SplitPieces(s[1..], sep);
      SplitHead(s[1..], sep);
      var head := [s[0]] + rest[0];
      assert head[1..] == rest[0];
      assert head <= s;
      assert !Contains(head, sep);
    }
  }

  /** Splitting after a separator-free line starts afresh: `\r\n` and `\n` cannot straddle a boundary. */
  lemma {:induction false} SplitAppend(line: string, sep: string, rest: string)
    requires (IsSeparator(sep) || |sep| == 1) && !Contains(line, sep)
    ensures Split(line, sep) == [line]
    ensures Split(line + sep + rest, sep) == [line] + Split(rest, sep)
    decreases |line|
  {
    var s := line + sep + rest;
    if line == [] {
      assert s[|sep|..] == rest;
      assert sep <= s;
    } else {
      SplitAppend(line[1..], sep, rest);
      assert s[1..] == line[1..] + sep + rest;
      assert s[0] == line[0];
      assert |line| >= 2 ==> s[1] == line[1];
      assert |line| == 1 ==> s[1] == sep[0];
      assert !(sep <= line);
      assert !(sep <= s);
      assert [line[0]] + line[1..] == line;
    }
  }

  /** Joining separator-free lines loses nothing. */
  lemma {:induction false} SplitJoin(lines: seq<string>, sep: string)
    requires (IsSeparator(sep) || |sep| == 1) && lines != []
    requires forall i :: 0 <= i < |lines| ==> !Contains(lines[i], sep)
    ensures Split(Join(lines, sep), sep) == lines
  {
    if |lines| == 1 {
      SplitAppend(lines[0], sep, []);
    } else {
      SplitJoin(lines[1..], sep);
      SplitAppend(lines[0], sep, Join(lines[1..], sep));
    }
  }

  lemma {:induction false} ContainsAppend(a: string, b: string, sub: string)
    requires sub != []
    ensures Contains(b, sub) ==> Contains(a + b, sub)
    ensures Contains(a, sub) ==> Contains(a + b, sub)
  {
    if a == [] {
      assert a + b == b;
    } else {
      assert (a + b)[1..] == a[1..] + b;
      ContainsAppend(a[1..], b, sub);
    }
  }

  /** A CRLF in a concatenation lies in one half or straddles the cut. */
  lemma {:induction false} ContainsCRLF(a: string, b: string)
    ensures Contains(a + b, CRLF) <==>
            Contains(a, CRLF) || Contains(b, CRLF) ||
            (a != [] && b != [] && a[|a| - 1] == '\r' && b[0] == '\n')
  {
    if a == [] {
      assert a + b == b;
    } else {
      assert (a + b)[1..] == a[1..] + b;
      ContainsCRLF(a[1..], b);
      if |a| == 1 {
        assert a[1..] == [];
        assert !Contains([], CRLF);
      } else {
        assert a[1..][|a| - 2] == a[|a| - 1];
        assert (CRLF <= a + b) <==> (CRLF <= a);
      }
    }
  }

  lemma {:induction false} JoinContainsCRLF(lines: seq<string>)
    requires Stable(lines, LF)
    ensures !Contains(Join(lines, LF), CRLF)
    ensures |lines| > 1 || Join(lines, LF) == lines[0]
  {
    NoLFNoCRLF(lines[0]);
    if |lines| > 1 {
      var rest := lines[1..];
      JoinContainsCRLF(rest);
      ContainsCRLF(LF, Join(rest, LF));
      ContainsCRLF(lines[0], LF + Join(rest, LF));
      assert !Contains(LF, CRLF);
      assert lines[0] + LF + Join(rest, LF) == lines[0] + (LF + Join(rest, LF));
    }
  }

  lemma {:induction false} NoLFNoCRLF(line: string)
    requires !Contains(line, LF)
    ensures !Contains(line, CRLF)
    ensures '\n' !in line
  {
    if line != [] {
      assert line == [line[0]] + line[1..];
      NoLFNoCRLF(line[1..]);
    }
  }

  lemma {:induction false} CleanFree(line: string)
    requires Clean(line)
    ensures !Contains(line, LF) && !Contains(line, CRLF)
  {
    if line != [] {
      assert forall c :: c in line[1..] ==> c in line;
      CleanFree(line[1..]);
      assert line[0] in line && line[0] != '\n' && line[0] != '\r';
      assert !HasPrefix(line, LF) && !HasPrefix(line, CRLF);
    }
  }

  lemma SeparatorFound(lines: seq<string>, sep: string)
    requires IsSeparator(sep) && Stable(lines, sep)
    ensures LineSeparator(Join(lines, sep)) == sep
  {
    if sep == LF {
      JoinContainsCRLF(lines);
    } else {
      var rest := Join(lines[1..], sep);
      SeparatorContained(rest);
      ContainsAppend(lines[0], CRLF + rest, CRLF);
      JoinFirst(lines, sep);
    }
  }

  /** Re-detecting the separator of joined stable lines and splitting again gives the lines back. */
  lemma RoundTrip(lines: seq<string>, sep: string)
    requires IsSeparator(sep) && Stable(lines, sep)
    ensures LineSeparator(Join(lines, sep)) == sep
    ensures Lines(Join(lines, sep)) == lines
  {
    SeparatorFound(lines, sep);
    SplitJoin(lines, sep);
  }

  lemma SeparatorContained(rest: string)
    ensures Contains(CRLF + rest, CRLF)
  {
    assert CRLF <= CRLF + rest;
  }

  /** Every text splits into stable lines. */
  lemma LinesStable(s: string)
    ensures Stable(Lines(s), LineSeparator(s))
    ensures Join(Lines(s), LineSeparator(s)) == s
  {
    var sep := LineSeparator(s);
    var lines := Split(s, sep);
    JoinSplit(s, sep);
    SplitPieces(s, sep);
    if sep == CRLF {
      JoinCons(lines[0], lines[1..], sep);
      assert [lines[0]] + lines[1..] == lines;
    } else {
      NoTrailingCR(lines);
    }
  }

  lemma {:induction false} NoTrailingCR(lines: seq<string>)
    requires lines != [] && !Contains(Join(lines, LF), CRLF)
    ensures forall i :: 0 <= i < |lines| - 1 ==> lines[i] == [] || lines[i][|lines[i]| - 1] != '\r'
  {
    if |lines| > 1 {
      var rest := LF + Join(lines[1..], LF);
      assert Join(lines, LF) == lines[0] + rest;
      ContainsCRLF(lines[0], rest);
      ContainsCRLF(LF, Join(lines[1..], LF));
      NoTrailingCR(lines[1..]);
      forall i | 0 <= i < |lines| - 1
        ensures lines[i] == [] || lines[i][|lines[i]| - 1] != '\r'
      {
        if i > 0 {
          assert lines[i] == lines[1..][i - 1];
        }
      }
    }
  }

  /** Clean lines are stable under either separator, as long as a CRLF text keeps two lines. */
  lemma CleanStable(lines: seq<string>, sep: string)
    requires IsSeparator(sep) && lines != [] && AllClean(lines)
    requires sep == CRLF ==> |lines| >= 2
    ensures Stable(lines, sep)
  {
    forall i | 0 <= i < |lines|
      ensures !Contains(lines[i], sep)
    {
      CleanFree(lines[i]);
    }
    forall i | 0 <= i < |lines| && lines[i] != []
      ensures lines[i][|lines[i]| - 1] != '\r'
    {
      assert lines[i][|lines[i]| - 1] in lines[i];
    }
  }

  /** `strings.ReplaceAll(s, "\r\n", "\n")` then a split on LF is the plain split of a well-framed text. */
  lemma UnixLines(s: string)
    requires WellFramed(s)
    ensures Split(ReplaceCRLF(s), LF) == Lines(s)
  {
    var sep := LineSeparator(s);
    var lines := Lines(s);
    LinesStable(s);
    ReplaceJoin(lines, sep);
    CleanStable(lines, LF);
    SplitJoin(lines, LF);
  }

  lemma JoinFirst(lines: seq<string>, sep: string)
    requires |lines| > 1
    ensures Join(lines, sep) == lines[0] + (sep + Join(lines[1..], sep))
  {
  }

  lemma {:induction false} ReplaceJoin(lines: seq<string>, sep: string)
    requires IsSeparator(sep) && lines != [] && AllClean(lines)
    ensures ReplaceCRLF(Join(lines, sep)) == Join(lines, LF)
  {
    if |lines| == 1 {
      ReplaceClean(lines[0], []);
      assert lines[0] + [] == lines[0];
    } else {
      var rest := Join(lines[1..], sep);
      ReplaceJoin(lines[1..], sep);
      ReplaceClean(lines[0], sep + rest);
      ReplaceSeparator(sep, rest);
      JoinFirst(lines, sep);
      JoinFirst(lines, LF);
    }
  }

  lemma ReplaceSeparator(sep: string, rest: string)
    requires IsSeparator(sep)
    ensures ReplaceCRLF(sep + rest) == LF + ReplaceCRLF(rest)
  {
    assert (sep + rest)[|sep|..] == rest;
    assert (sep + rest)[0] == sep[0];
  }

  lemma {:induction false} ReplaceClean(line: string, rest: string)
    requires Clean(line)
    ensures ReplaceCRLF(line + rest) == line + ReplaceCRLF(rest)
  {
    if line == [] {
      assert line + rest == rest;
    } else {
      assert (line + rest)[0] == line[0] && line[0] in line;
      assert (line + rest)[1..] == line[1..] + rest;
      assert forall c :: c in line[1..] ==> c in line;
      ReplaceClean(line[1..], rest);
    }
  }

  predicate HasSuffix(s: string, suffix: string) {
    |suffix| <= |s| && s[|s| - |suffix|..] == suffix
  }

  /** The text ends with its own line separator. */
  predicate FinalNewline(s: string) {
    HasSuffix(s, LineSeparator(s))
  }

  lemma {:induction false} SuffixContained(s: string, suffix: string)
    requires suffix != [] && HasSuffix(s, suffix)
    ensures Contains(s, suffix)
  {
    if |s| > |suffix| {
      assert s[1..][|s| - 1 - |suffix|..] == s[|s| - |suffix|..];
      SuffixContained(s[1..], suffix);
    }
  }

  lemma AppendEnds(head: string, sep: string, tail: string)
    requires IsSeparator(sep)
    ensures |tail| >= |sep| ==> (HasSuffix(head + sep + tail, sep) <==> HasSuffix(tail, sep))
    ensures |tail| < |sep| ==> (HasSuffix(head + sep + tail, sep) <==> tail == [])
  {
    var s := head + sep + tail;
    if |tail| >= |sep| {
      assert s[|s| - |sep|..] == tail[|tail| - |sep|..];
    } else if tail == [] {
      assert s[|s| - |sep|..] == sep;
    } else {
      assert s[|s| - 2..][0] == sep[1];
    }
  }

  lemma {:induction false} JoinEnds(lines: seq<string>, sep: string)
    requires IsSeparator(sep) && lines != []
    requires forall i :: 0 <= i < |lines| ==> !Contains(lines[i], sep)
    ensures HasSuffix(Join(lines, sep), sep) <==> |lines| >= 2 && lines[|lines| - 1] == []
  {
    if |lines| == 1 {
      if HasSuffix(lines[0], sep) {
        SuffixContained(lines[0], sep);
      }
    } else {
      JoinEnds(lines[1..], sep);
      AppendEnds(lines[0], sep, Join(lines[1..], sep));
    }
  }

  /** The lines of a text with a final newline: the last one is empty, and not the only one. */
  predicate EndsBlank(lines: seq<string>) {
    |lines| >= 2 && lines[|lines| - 1] == []
  }

  lemma FinalNewlineLines(s: string)
    ensures FinalNewline(s) == EndsBlank(Lines(s))
  {
    LinesStable(s);
    JoinEnds(Lines(s), LineSeparator(s));
  }

  lemma {:induction false} PrefixSlice(s: string, prefix: string)
    ensures HasPrefix(s, prefix) <==> prefix <= s
  {
    if prefix != [] && s != [] {
      PrefixSlice(s[1..], prefix[1..]);
      assert prefix == [prefix[0]] + prefix[1..] && s == [s[0]] + s[1..];
    }
  }

  lemma {:induction false} PrefixAt(s: string, prefix: string, i: nat)
    requires HasPrefix(s, prefix) && i < |prefix|
    ensures s[i] == prefix[i]
  {
    if i > 0 {
      PrefixAt(s[1..], prefix[1..], i - 1);
    }
  }

  lemma NotPrefix(s: string, prefix: string, i: nat)
    requires i < |prefix| && i < |s| && s[i] != prefix[i]
    ensures !HasPrefix(s, prefix)
  {
    PrefixSlice(s, prefix);
  }

  lemma {:induction false} PrefixOfAppend(prefix: string, rest: string)
    ensures HasPrefix(prefix + rest, prefix)
    ensures TrimPrefix(prefix + rest, prefix) == rest
  {
    if prefix != [] {
      assert (prefix + rest)[1..] == prefix[1..] + rest;
      PrefixOfAppend(prefix[1..], rest);
    }
  }

  // ---- the same in terms of positions and pieces ----

  lemma TrimMeans(s: string, prefix: string)
    ensures if prefix <= s then prefix + TrimPrefix(s, prefix) == s else TrimPrefix(s, prefix) == s
  {
    PrefixSlice(s, prefix);
  }

  predicate OccursAt(s: string, sub: string, i: nat) {
    i <= |s| && sub <= s[i..]
  }

  lemma {:induction false} ContainsMeans(s: string, sub: string)
    ensures Contains(s, sub) <==> exists i: nat :: i <= |s| && OccursAt(s, sub, i)
  {
    if sub <= s {
      assert s[0..] == s && OccursAt(s, sub, 0);
    } else if s != [] {
      var rest := s[1..];
      ContainsMeans(rest, sub);
      if Contains(s, sub) {
        var i: nat :| i <= |rest| && OccursAt(rest, sub, i);
        assert s[i + 1..] == rest[i..] && OccursAt(s, sub, i + 1);
      }
      if i: nat :| i <= |s| && OccursAt(s, sub, i) {
        assert s[0..] == s;
        assert i > 0 && rest[i - 1..] == s[i..] && OccursAt(rest, sub, i - 1);
      }
    } else {
      assert s[0..] == s && !OccursAt(s, sub, 0);
    }
  }

  /** CRLF is picked exactly if it occurs, else LF. */
  lemma SeparatorMeans(s: string)
    ensures LineSeparator(s) == "\r\n" <==> exists i :: 0 <= i < |s| - 1 && s[i] == '\r' && s[i + 1] == '\n'
    ensures LineSeparator(s) == "\r\n" || LineSeparator(s) == "\n"
  {
    ContainsMeans(s, CRLF);
    if Contains(s, CRLF) {
      var i: nat :| i <= |s| && OccursAt(s, CRLF, i);
      CRLFAt(s, i);
    }
    if i :| 0 <= i < |s| - 1 && s[i] == '\r' && s[i + 1] == '\n' {
      CRLFAt(s, i);
      assert OccursAt(s, CRLF, i);
    }
  }

  lemma CRLFAt(s: string, i: nat)
    requires i <= |s|
    ensures CRLF <= s[i..] <==> i < |s| - 1 && s[i] == '\r' && s[i + 1] == '\n'
  {
    if i < |s| - 1 {
      assert s[i..][0] == s[i] && s[i..][1] == s[i + 1];
    }
  }

  /** Replacing CRLF is splitting on it and joining with LF. */
  lemma {:induction false} ReplaceMeans(s: string)
    ensures ReplaceCRLF(s) == Join(Split(s, CRLF), LF)
    decreases |s|
  {
    if s == [] {
    } else if CRLF <= s {
      ReplaceMeans(s[2..]);
      JoinEmptyFirst(Split(s[2..], CRLF), LF);
    } else {
      ReplaceMeans(s[1..]);
      JoinPrepend(s[0], Split(s[1..], CRLF), LF);
    }
  }

  // ---- framing, character by character ----

  predicate PairedAt(s: string, i: nat)
    requires i < |s|
  {
    && (s[i] == '\r' ==> i + 1 < |s| && s[i + 1] == '\n')
    && (s[i] == '\n' ==> i > 0 && s[i - 1] == '\r')
  }

  /** Every CR stands before an LF, and every LF after a CR. */
  predicate Paired(s: string) {
    forall i :: 0 <= i < |s| ==> PairedAt(s, i)
  }

  lemma PairedFrom(s: string, n: nat, i: nat)
    requires n <= i < |s| && (i == n > 0 ==> s[n - 1] != '\r')
    ensures PairedAt(s, i) <==> PairedAt(s[n..], i - n)
  {
  }

  lemma PairedSkip(s: string, n: nat)
    requires 0 < n <= |s| && s[n - 1] != '\r' && forall i :: 0 <= i < n ==> PairedAt(s, i)
    ensures Paired(s) <==> Paired(s[n..])
  {
    forall i | n <= i < |s|
      ensures PairedAt(s, i) <==> PairedAt(s[n..], i - n)
    {
      PairedFrom(s, n, i);
    }
    if Paired(s) {
      forall i | 0 <= i < |s[n..]|
        ensures PairedAt(s[n..], i)
      {
        assert PairedAt(s, i + n);
      }
    }
    if Paired(s[n..]) {
      forall i | n <= i < |s|
        ensures PairedAt(s, i)
      {
        assert PairedAt(s[n..], i - n);
      }
    }
  }

  lemma PairedNext(s: string)
    requires s != []
    ensures CRLF <= s ==> (Paired(s) <==> Paired(s[2..]))
    ensures !(CRLF <= s) ==> (Paired(s) <==> Clean([s[0]]) && Paired(s[1..]))
  {
    assert s[0] in [s[0]];
    CRLFAt(s, 0);
    if CRLF <= s {
      PairedSkip(s, 2);
    } else if Clean([s[0]]) {
      PairedSkip(s, 1);
    } else {
      assert !PairedAt(s, 0);
    }
  }

  lemma CleanSplit(c: char, lines: seq<string>)
    requires lines != []
    ensures AllClean([[c] + lines[0]] + lines[1..]) <==> Clean([c]) && AllClean(lines)
  {
    var longer := [[c] + lines[0]] + lines[1..];
    assert longer[0] == [c] + lines[0] && forall i :: 0 < i < |lines| ==> longer[i] == lines[i];
    assert Clean([c] + lines[0]) <==> Clean([c]) && Clean(lines[0]);
  }

  lemma {:induction false} PairedLines(s: string)
    ensures AllClean(Split(s, CRLF)) <==> Paired(s)
    decreases |s|
  {
    if s != [] {
      PairedNext(s);
      if CRLF <= s {
        PairedLines(s[2..]);
        var rest := Split(s[2..], CRLF);
        assert Split(s, CRLF) == [[]] + rest;
        assert AllClean([[]] + rest) <==> AllClean(rest) by {
          assert forall i :: 0 <= i < |rest| ==> ([[]] + rest)[i + 1] == rest[i];
        }
      } else {
        PairedLines(s[1..]);
        CleanSplit(s[0], Split(s[1..], CRLF));
      }
    }
  }

  lemma {:induction false} LFLines(s: string)
    ensures AllClean(Split(s, LF)) <==> '\r' !in s
    decreases |s|
  {
    if s != [] {
      assert s == [s[0]] + s[1..] && (s[0] == '\n' ==> LF <= s);
      LFLines(s[1..]);
      if LF <= s {
        var rest := Split(s[1..], LF);
        assert forall i :: 0 <= i < |rest| ==> ([[]] + rest)[i + 1] == rest[i];
      } else {
        assert s[0] in [s[0]];
        CleanSplit(s[0], Split(s[1..], LF));
      }
    }
  }

  /** A text is well framed if and only if it has no CR at all, or CRs and LFs come only in pairs. */
  lemma WellFramedMeans(s: string)
    ensures WellFramed(s) <==> '\r' !in s || Paired(s)
  {
    SeparatorMeans(s);
    if LineSeparator(s) == CRLF {
      PairedLines(s);
    } else {
      LFLines(s);
      if '\r' in s {
        var i :| 0 <= i < |s| && s[i] == '\r';
        assert !PairedAt(s, i);
      }
    }
  }
}
