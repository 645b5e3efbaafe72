/** The two tokenisers (Go's `strings.Fields` and the byte-span scanner) and the number parsers. */
module Tokens {
  import opened GoText
  import opened Sequences

  /** `unicode.IsSpace`. */
  predicate IsSpace(c: char) {
    var n := c as int;
    || 0x09 <= n <= 0x0d || n == 0x20 || n == 0x85 || n == 0xa0 || n == 0x1680
    || 0x2000 <= n <= 0x200a || n == 0x2028 || n == 0x2029 || n == 0x202f || n == 0x205f || n == 0x3000
  }

  /** The code points that Unicode gives the property White_Space. */
  const WHITE_SPACE := [
    0x09, 0x0a, 0x0b, 0x0c, 0x0d, 0x20, 0x85, 0xa0, 0x1680, 0x2000, 0x2001, 0x2002, 0x2003, 0x2004, 0x2005, 0x2006,
    0x2007, 0x2008, 0x2009, 0x200a, 0x2028, 0x2029, 0x202f, 0x205f, 0x3000]

  lemma SpacesExactly(c: char)
    ensures IsSpace(c) <==> c as int in WHITE_SPACE
  {
    assert |WHITE_SPACE| == 25;
    if IsSpace(c) {
      var n := c as int;
      if n <= 0x0d {
        assert WHITE_SPACE[n - 0x09] == n;
      } else if 0x2000 <= n <= 0x200a {
        assert WHITE_SPACE[n - 0x2000 + 9] == n;
      }
    }
  }

  /** What separates the tokens of `sdpFieldSpans`. */
  predicate IsBlank(c: char) {
    c == ' ' || c == '\t'
  }

  function TokenLength(s: string, blank: char -> bool): (n: nat)
    ensures n <= |s|
    ensures forall i :: 0 <= i < n ==> !blank(s[i])
    ensures n < |s| ==> blank(s[n])
  {
    if s == [] || blank(s[0]) then 0 else 1 + TokenLength(s[1..], blank)
  }

  /** The maximal runs of non-blank characters, in order. */
  function FieldsBy(s: string, blank: char -> bool): (fields: seq<string>)
    ensures forall f :: f in fields ==> f != [] && forall c :: c in f ==> !blank(c)
    decreases |s|
  {
    if s == [] then []
    else if blank(s[0]) then FieldsBy(s[1..], blank)
    else
      var n := TokenLength(s, blank);
      [s[..n]] + FieldsBy(s[n..], blank)
  }

  function Fields(s: string): seq<string> {
    FieldsBy(s, IsSpace)
  }

  function BlankFields(s: string): seq<string> {
    FieldsBy(s, IsBlank)
  }

  /** `strings.Join(fields, " ")`. */
  function JoinFields(fields: seq<string>): string {
    Join(fields, " ")
  }

  lemma {:induction false} TokenLengthWord(word: string, rest: string, blank: char -> bool)
    requires forall c :: c in word ==> !blank(c)
    requires rest == [] || blank(rest[0])
    ensures TokenLength(word + rest, blank) == |word|
  {
    if word == [] {
      assert word + rest == rest;
    } else {
      assert (word + rest)[0] == word[0];
      assert (word + rest)[1..] == word[1..] + rest;
      TokenLengthWord(word[1..], rest, blank);
    }
  }

  lemma FieldsWord(word: string, rest: string, blank: char -> bool)
    requires word != [] && forall c :: c in word ==> !blank(c)
    requires rest == [] || blank(rest[0])
    ensures FieldsBy(word + rest, blank) == [word] + FieldsBy(rest, blank)
  {
    TokenLengthWord(word, rest, blank);
    assert (word + rest)[0] == word[0] && word[0] in word;
    assert (word + rest)[..|word|] == word;
    assert (word + rest)[|word|..] == rest;
  }

  predicate IsWord(word: string) {
    word != [] && forall c :: c in word ==> !IsSpace(c)
  }

  /** A line that starts with n non-spaces starts its first field with them. */
  lemma FirstFieldPrefix(line: string, n: nat)
    requires 0 < n <= |line| && forall i :: 0 <= i < n ==> !IsSpace(line[i])
    ensures Fields(line) != [] && n <= |Fields(line)[0]| && Fields(line)[0][..n] == line[..n]
  {
    TokenAtLeast(line, n);
  }

  lemma {:induction false} TokenAtLeast(line: string, n: nat)
    requires n <= |line| && forall i :: 0 <= i < n ==> !IsSpace(line[i])
    ensures TokenLength(line, IsSpace) >= n
  {
    if n > 0 {
      TokenAtLeast(line[1..], n - 1);
    }
  }

  /** Tokens joined by single spaces are the tokens of the line. */
  lemma {:induction false} FieldsOfTokens(words: seq<string>, blank: char -> bool)
    requires blank(' ')
    requires forall i :: 0 <= i < |words| ==> words[i] != [] && forall c :: c in words[i] ==> !blank(c)
    ensures FieldsBy(JoinFields(words), blank) == words
  {
    if |words| == 1 {
      FieldsWord(words[0], [], blank);
      assert words[0] + [] == words[0];
    } else if words != [] {
      var rest := JoinFields(words[1..]);
      FieldsOfTokens(words[1..], blank);
      FieldsWord(words[0], " " + rest, blank);
      JoinFirst(words, " ");
      assert (" " + rest)[1..] == rest;
    }
  }

  predicate Words(words: seq<string>) {
    forall i :: 0 <= i < |words| ==> IsWord(words[i])
  }

  /** Words joined by single spaces: both tokenisers find them. */
  lemma FieldsOfWords(words: seq<string>)
    requires Words(words)
    ensures Fields(JoinFields(words)) == words && BlankFields(JoinFields(words)) == words
  {
    FieldsOfTokens(words, IsSpace);
    assert forall c :: IsBlank(c) ==> IsSpace(c);
    FieldsOfTokens(words, IsBlank);
  }

  /** Cutting a line next to a blank cuts its token list. */
  lemma {:induction false} FieldsConcat(a: string, b: string, blank: char -> bool)
    requires a == [] || b == [] || blank(a[|a| - 1]) || blank(b[0])
    ensures FieldsBy(a + b, blank) == FieldsBy(a, blank) + FieldsBy(b, blank)
    decreases |a|
  {
    if a == [] {
      assert a + b == b;
    } else if b == [] {
      assert a + b == a;
    } else if blank(a[0]) {
      assert (a + b)[1..] == a[1..] + b;
      FieldsConcat(a[1..], b, blank);
    } else {
      var n := TokenLength(a, blank);
      FieldsConcat(a[n..], b, blank);
      assert a == a[..n] + a[n..];
      WordBefore(a[..n], a[n..], b, blank);
    }
  }

  lemma WordBefore(word: string, rest: string, b: string, blank: char -> bool)
    requires word != [] && forall c :: c in word ==> !blank(c)
    requires if rest != [] then blank(rest[0]) else b == [] || blank(b[0])
    requires FieldsBy(rest + b, blank) == FieldsBy(rest, blank) + FieldsBy(b, blank)
    ensures FieldsBy(word + rest + b, blank) == FieldsBy(word + rest, blank) + FieldsBy(b, blank)
  {
    FieldsWord(word, rest, blank);
    BlankFirst(rest, b, blank);
    FieldsWord(word, rest + b, blank);
    Regroup(word, rest, b);
  }

  lemma BlankFirst(rest: string, b: string, blank: char -> bool)
    requires if rest != [] then blank(rest[0]) else b == [] || blank(b[0])
    ensures rest + b == [] || blank((rest + b)[0])
  {
    assert rest == [] ==> rest + b == b;
  }

  /** The spans of the tokens of `line` that start at or after `index`. */
  function SpansFrom(line: string, index: nat): (spans: seq<(nat, nat)>)
    requires index <= |line|
    ensures forall i :: 0 <= i < |spans| ==> index <= spans[i].0 < spans[i].1 <= |line|
    decreases |line| - index
  {
    if index == |line| then []
    else if IsBlank(line[index]) then SpansFrom(line, index + 1)
    else
      var end := index + TokenLength(line[index..], IsBlank);
      [(index, end)] + SpansFrom(line, end)
  }

  function Spans(line: string): seq<(nat, nat)> {
    SpansFrom(line, 0)
  }

  /** A word starting at `index` is both the first span and the first token. */
  lemma SpanStep(line: string, index: nat) returns (end: nat)
    requires index < |line| && !IsBlank(line[index])
    ensures index < end <= |line| && (end == |line| || IsBlank(line[end]))
    ensures SpansFrom(line, index) == [(index, end)] + SpansFrom(line, end)
    ensures BlankFields(line[index..]) == [line[index..end]] + BlankFields(line[end..])
    ensures forall c :: c in line[index..end] ==> !IsBlank(c)
  {
    var n := TokenLength(line[index..], IsBlank);
    end := index + n;
    assert line[index..][..n] == line[index..end];
    assert line[index..][n..] == line[end..];
  }

  lemma SpanSkip(line: string, index: nat)
    requires index < |line| && IsBlank(line[index])
    ensures SpansFrom(line, index) == SpansFrom(line, index + 1)
    ensures BlankFields(line[index..]) == BlankFields(line[index + 1..])
    ensures forall stop | index < stop <= |line| :: BlankFields(line[index..stop]) == BlankFields(line[index + 1..stop])
  {
    assert line[index..][1..] == line[index + 1..];
    forall stop | index < stop <= |line|
      ensures BlankFields(line[index..stop]) == BlankFields(line[index + 1..stop])
    {
      assert line[index..stop][1..] == line[index + 1..stop];
    }
  }

  /** Span k is token k. */
  lemma {:induction false} SpanIsToken(line: string, index: nat, k: nat)
    requires index <= |line|
    requires k < |SpansFrom(line, index)|
    ensures |SpansFrom(line, index)| == |BlankFields(line[index..])|
    ensures var (start, end) := SpansFrom(line, index)[k]; line[start..end] == BlankFields(line[index..])[k]
    decreases |line| - index
  {
    SpanCount(line, index);
    if IsBlank(line[index]) {
      SpanSkip(line, index);
      SpanIsToken(line, index + 1, k);
    } else {
      var end := SpanStep(line, index);
      if k > 0 {
        SpanIsToken(line, end, k - 1);
      }
    }
  }

  lemma {:induction false} SpanEnd(line: string, index: nat, k: nat)
    requires index <= |line|
    requires k < |SpansFrom(line, index)|
    ensures var end := SpansFrom(line, index)[k].1; end == |line| || IsBlank(line[end])
    decreases |line| - index
  {
    if IsBlank(line[index]) {
      SpanSkip(line, index);
      SpanEnd(line, index + 1, k);
    } else {
      var end := SpanStep(line, index);
      if k > 0 {
        SpanEnd(line, end, k - 1);
      }
    }
  }

  lemma {:induction false} BlankBeforeSpan(line: string, index: nat, k: nat)
    requires index <= |line|
    requires k < |SpansFrom(line, index)|
    ensures var start := SpansFrom(line, index)[k].0; start == index || IsBlank(line[start - 1])
    decreases |line| - index
  {
    if IsBlank(line[index]) {
      SpanSkip(line, index);
      BlankBeforeSpan(line, index + 1, k);
    } else {
      var end := SpanStep(line, index);
      if k > 0 {
        var start := SpansFrom(line, end)[k - 1].0;
        assert SpansFrom(line, index)[k].0 == start;
        BlankBeforeSpan(line, end, k - 1);
        SpanStart(line, end, k - 1);
        assert start != end;
      }
    }
  }

  /** Span k is token k, delimited by blanks. */
  lemma SpanText(line: string, index: nat, k: nat)
    requires index <= |line|
    requires k < |SpansFrom(line, index)|
    ensures |SpansFrom(line, index)| == |BlankFields(line[index..])|
    ensures var (start, end) := SpansFrom(line, index)[k];
            && line[start..end] == BlankFields(line[index..])[k]
            && (end == |line| || IsBlank(line[end]))
            && (start == index || IsBlank(line[start - 1]))
  {
    SpanIsToken(line, index, k);
    SpanEnd(line, index, k);
    BlankBeforeSpan(line, index, k);
  }

  /** A token, then the text up to a later span. */
  lemma TokenThen(line: string, index: nat, end: nat, start: nat, tokens: seq<string>)
    requires index < end <= start <= |line| && (start == end || IsBlank(line[end]))
    requires forall c :: c in line[index..end] ==> !IsBlank(c)
    requires BlankFields(line[end..start]) == tokens
    ensures BlankFields(line[index..start]) == [line[index..end]] + tokens
  {
    assert line[index..start] == line[index..end] + line[end..start];
    FieldsWord(line[index..end], line[end..start], IsBlank);
  }

  /** The text before span k holds exactly the first k tokens. */
  lemma {:induction false} SpanBefore(line: string, index: nat, k: nat)
    requires index <= |line|
    requires k < |SpansFrom(line, index)|
    ensures |SpansFrom(line, index)| == |BlankFields(line[index..])|
    ensures BlankFields(line[index..SpansFrom(line, index)[k].0]) == BlankFields(line[index..])[..k]
    decreases |line| - index
  {
    SpanCount(line, index);
    var start := SpansFrom(line, index)[k].0;
    if IsBlank(line[index]) {
      SpanSkip(line, index);
      SpanBefore(line, index + 1, k);
    } else if k == 0 {
      assert line[index..start] == [];
    } else {
      var end := SpanStep(line, index);
      SpanBefore(line, end, k - 1);
      TokenThen(line, index, end, start, BlankFields(line[end..])[..k - 1]);
    }
  }

  /** A span starts on a non-blank. */
  lemma {:induction false} SpanStart(line: string, index: nat, k: nat)
    requires index <= |line|
    requires k < |SpansFrom(line, index)|
    ensures !IsBlank(line[SpansFrom(line, index)[k].0])
    decreases |line| - index
  {
    if IsBlank(line[index]) {
      SpanSkip(line, index);
      SpanStart(line, index + 1, k);
    } else if k > 0 {
      var end := SpanStep(line, index);
      SpanStart(line, end, k - 1);
    }
  }

  /** At least one blank separates neighbouring spans. */
  lemma {:induction false} SpanOrder(line: string, index: nat, k: nat)
    requires index <= |line|
    requires k + 1 < |SpansFrom(line, index)|
    ensures SpansFrom(line, index)[k].1 < SpansFrom(line, index)[k + 1].0
    decreases |line| - index
  {
    if IsBlank(line[index]) {
      SpanSkip(line, index);
      SpanOrder(line, index + 1, k);
    } else {
      var end := SpanStep(line, index);
      if k == 0 {
        SpanStart(line, end, 0);
      } else {
        SpanOrder(line, end, k - 1);
      }
    }
  }

  lemma {:induction false} SpanCount(line: string, index: nat)
    requires index <= |line|
    ensures |SpansFrom(line, index)| == |BlankFields(line[index..])|
    decreases |line| - index
  {
    if index < |line| {
      var rest := line[index..];
      if IsBlank(line[index]) {
        assert rest[1..] == line[index + 1..];
        SpanCount(line, index + 1);
      } else {
        var n := TokenLength(rest, IsBlank);
        assert rest[n..] == line[index + n..];
        SpanCount(line, index + n);
      }
    }
  }

  /** The scan of the token that starts at `start` has come to `index`. */
  predicate Scanned(line: string, start: nat, index: nat)
    requires start <= index <= |line|
  {
    index - start + TokenLength(line[index..], IsBlank) == TokenLength(line[start..], IsBlank)
  }

  lemma ScannedNext(line: string, start: nat, index: nat)
    requires start <= index < |line| && !IsBlank(line[index]) && Scanned(line, start, index)
    ensures Scanned(line, start, index + 1)
  {
    assert line[index..][1..] == line[index + 1..];
  }

  lemma ScannedSpan(line: string, start: nat, index: nat)
    requires start < index <= |line| && Scanned(line, start, index) && !IsBlank(line[start])
    requires index == |line| || IsBlank(line[index])
    ensures SpansFrom(line, start) == [(start, index)] + SpansFrom(line, index)
  {
    assert index < |line| ==> line[index..][0] == line[index];
    assert TokenLength(line[index..], IsBlank) == 0;
  }

  /** The scan over blanks, `server.go:542-544`. */
  method SkipBlanks(line: string, from: nat) returns (index: nat)
    requires from <= |line|
    ensures from <= index <= |line| && (index < |line| ==> !IsBlank(line[index]))
    ensures SpansFrom(line, from) == SpansFrom(line, index)
  {
    index := from;
    while index < |line| && IsBlank(line[index])
      invariant from <= index <= |line|
      invariant SpansFrom(line, from) == SpansFrom(line, index)
    {
      index := index + 1;
    }
  }

  /** The scan over a token, `server.go:549-551`. */
  method ScanToken(line: string, start: nat) returns (index: nat)
    requires start < |line| && !IsBlank(line[start])
    ensures start < index <= |line|
    ensures SpansFrom(line, start) == [(start, index)] + SpansFrom(line, index)
  {
    index := start;
    while index < |line| && !IsBlank(line[index])
      invariant start <= index <= |line|
      invariant Scanned(line, start, index)
    {
      ScannedNext(line, start, index);
      index := index + 1;
    }
    ScannedSpan(line, start, index);
  }

  /** `sdpFieldSpans`. */
  method FieldSpans(line: string) returns (spans: seq<(nat, nat)>)
    ensures spans == Spans(line)
  {
    spans := [];
    var index := 0;
    while index < |line|
      invariant 0 <= index <= |line|
      invariant Spans(line) == spans + SpansFrom(line, index)
    {
      var start := SkipBlanks(line, index);
      if start == |line| {
        index := start;
        break;
      }
      index := ScanToken(line, start);
      Regroup(spans, [(start, index)], SpansFrom(line, index));
      spans := spans + [(start, index)];
    }
  }

  predicate IsDigit(c: char) {
    '0' <= c <= '9'
  }

  predicate IsDigits(s: string) {
    s != [] && forall i :: 0 <= i < |s| ==> IsDigit(s[i])
  }

  function DigitsValue(s: string): nat
    requires forall i :: 0 <= i < |s| ==> IsDigit(s[i])
  {
    if s == [] then 0
    else
      assert IsDigit(s[|s| - 1]);
      var digit := (s[|s| - 1] as int) - ('0' as int);
      DigitsValue(s[..|s| - 1]) * 10 + digit
  }

  /** `strconv.ParseUint(s, 10, bits)`, where `limit` is `2^bits`. */
  function ParseUint(s: string, limit: nat): Option<nat> {
    if IsDigits(s) && DigitsValue(s) < limit then Some(DigitsValue(s)) else None
  }

  const INT_LIMIT: nat := 0x8000_0000_0000_0000

  /** `strconv.Atoi` on a 64-bit platform. */
  function Atoi(s: string): Option<int> {
    if s != [] && s[0] == '-' then
      if IsDigits(s[1..]) && DigitsValue(s[1..]) <= INT_LIMIT then Some(0 - DigitsValue(s[1..]) as int) else None
    else
      var digits := if s != [] && s[0] == '+' then s[1..] else s;
      if IsDigits(digits) && DigitsValue(digits) < INT_LIMIT then Some(DigitsValue(digits)) else None
  }

  lemma AtoiZero()
    ensures Atoi("0") == Some(0)
  {
    assert "0"[..0] == "";
    assert DigitsValue("0"[..0]) == 0;
  }
}
