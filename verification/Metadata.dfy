/** `extractICESDPLogMetadata`, and why no rewriter can change what it reports. */
module Metadata {
  import opened GoText
  import opened Tokens
  import opened Sections

  datatype IceMetadata = IceMetadata(hasIceLite: bool, hasTrickle: bool, bundleMids: seq<string>)

  const ICE_LITE := "a=ice-lite"
  const ICE_OPTIONS := "a=ice-options:"
  const BUNDLE := "a=group:BUNDLE"

  predicate OffersTrickle(line: string) {
    HasPrefix(line, ICE_OPTIONS) && "trickle" in Fields(TrimPrefix(line, ICE_OPTIONS))
  }

  predicate IsBundle(line: string) {
    Fields(line) != [] && Fields(line)[0] == BUNDLE
  }

  /** The MIDs of the first BUNDLE group. */
  function FirstBundle(lines: seq<string>): seq<string> {
    if lines == [] then []
    else if IsBundle(lines[0]) then Fields(lines[0])[1..]
    else FirstBundle(lines[1..])
  }

  predicate HasBundle(lines: seq<string>) {
    exists i :: 0 <= i < |lines| && IsBundle(lines[i])
  }

  /** What the session-level lines say. */
  function Describe(lines: seq<string>): IceMetadata {
    IceMetadata(
      exists i :: 0 <= i < |lines| && lines[i] == ICE_LITE,
      exists i :: 0 <= i < |lines| && OffersTrickle(lines[i]),
      FirstBundle(lines))
  }

  function MetadataLines(raw: string): seq<string> {
    Split(ReplaceCRLF(raw), LF)
  }

  function MetadataOf(raw: string): IceMetadata {
    Describe(Parse(MetadataLines(raw)).preamble)
  }

  lemma IceLiteIsNotBundle()
    ensures !IsBundle(ICE_LITE)
  {
    FirstFieldPrefix(ICE_LITE, 3);
    OtherThirdLetter(ICE_LITE);
  }

  lemma IceLiteIsNoOption()
    ensures !HasPrefix(ICE_LITE, ICE_OPTIONS)
  {
    NotPrefix(ICE_LITE, ICE_OPTIONS, 6);
  }

  /** The third letter tells: `a=ice...` against `a=group...`. */
  lemma OtherThirdLetter(line: string)
    requires |line| >= 3 && line[2] == 'i'
    requires Fields(line) != [] && 3 <= |Fields(line)[0]| && Fields(line)[0][..3] == line[..3]
    ensures !IsBundle(line)
  {
    assert Fields(line)[0][2] == line[..3][2];
  }

  lemma IceOptionsAreNotBundle(line: string)
    requires HasPrefix(line, ICE_OPTIONS)
    ensures !IsBundle(line)
  {
    PrefixAt(line, ICE_OPTIONS, 0);
    PrefixAt(line, ICE_OPTIONS, 1);
    PrefixAt(line, ICE_OPTIONS, 2);
    FirstFieldPrefix(line, 3);
    OtherThirdLetter(line);
  }

  /** An ice-lite or ice-options line is never a BUNDLE line: the early `continue`s lose nothing. */
  lemma OptionLineIsNotBundle(line: string)
    requires line == ICE_LITE || HasPrefix(line, ICE_OPTIONS)
    ensures !IsBundle(line)
    ensures line == ICE_LITE ==> !HasPrefix(line, ICE_OPTIONS)
  {
    if line == ICE_LITE {
      IceLiteIsNotBundle();
      IceLiteIsNoOption();
    } else {
      IceOptionsAreNotBundle(line);
    }
  }

  lemma {:induction false} FirstBundleNext(lines: seq<string>, line: string)
    ensures FirstBundle(lines + [line]) ==
            if HasBundle(lines) then FirstBundle(lines) else if IsBundle(line) then Fields(line)[1..] else []
    ensures !HasBundle(lines) ==> FirstBundle(lines) == []
  {
    if lines == [] {
      assert lines + [line] == [line] && [line][1..] == [];
    } else {
      assert (lines + [line])[1..] == lines[1..] + [line];
      FirstBundleNext(lines[1..], line);
      if !IsBundle(lines[0]) {
        HasBundleRest(lines);
      }
    }
  }

  lemma HasBundleRest(lines: seq<string>)
    requires lines != [] && !IsBundle(lines[0])
    ensures HasBundle(lines) == HasBundle(lines[1..])
  {
    if HasBundle(lines) {
      var i :| 0 <= i < |lines| && IsBundle(lines[i]);
      assert IsBundle(lines[1..][i - 1]);
    }
  }

  /** The metadata read so far describes the lines read so far. */
  ghost predicate Read(lines: seq<string>, metadata: IceMetadata, bundleSeen: bool) {
    && metadata == Describe(lines)
    && bundleSeen == HasBundle(lines)
  }

  lemma ReadNext(lines: seq<string>, metadata: IceMetadata, bundleSeen: bool, line: string)
    requires Read(lines, metadata, bundleSeen)
    ensures Read(lines + [line],
                 IceMetadata(
                   metadata.hasIceLite || line == ICE_LITE,
                   metadata.hasTrickle || OffersTrickle(line),
                   if !bundleSeen && IsBundle(line) then Fields(line)[1..] else metadata.bundleMids),
                 bundleSeen || IsBundle(line))
  {
    var grown := lines + [line];
    FirstBundleNext(lines, line);
    assert grown[|lines|] == line;
    assert forall i :: 0 <= i < |lines| ==> grown[i] == lines[i];
  }

  lemma ReadUpTo(lines: seq<string>, i: nat, metadata: IceMetadata, bundleSeen: bool)
    requires i < |lines| && Read(lines[..i], metadata, bundleSeen)
    ensures Read(lines[..i + 1],
                 IceMetadata(
                   metadata.hasIceLite || lines[i] == ICE_LITE,
                   metadata.hasTrickle || OffersTrickle(lines[i]),
                   if !bundleSeen && IsBundle(lines[i]) then Fields(lines[i])[1..] else metadata.bundleMids),
                 bundleSeen || IsBundle(lines[i]))
  {
    ReadNext(lines[..i], metadata, bundleSeen, lines[i]);
    assert lines[..i + 1] == lines[..i] + [lines[i]];
  }

  lemma ReadAll(lines: seq<string>, i: nat, metadata: IceMetadata, bundleSeen: bool)
    requires i <= |lines| && (forall j :: 0 <= j < i ==> !IsMedia(lines[j])) && (i < |lines| ==> IsMedia(lines[i]))
    requires Read(lines[..i], metadata, bundleSeen)
    ensures metadata == Describe(Parse(lines).preamble)
  {
    SkipPreamble(lines, i);
    StopsAtMedia(lines, i);
    assert lines[..i] + [] == lines[..i];
  }

  /** The search for the trickle token, `server.go:422-427`. */
  method FindTrickle(options: seq<string>) returns (found: bool)
    ensures found <==> "trickle" in options
  {
    var i := 0;
    while i < |options|
      invariant 0 <= i <= |options|
      invariant "trickle" !in options[..i]
    {
      if options[i] == "trickle" {
        return true;
      }
      assert options[..i + 1] == options[..i] + [options[i]];
      i := i + 1;
    }
    assert options[..i] == options;
    return false;
  }

  /** One session-level line, `server.go:417-434`. */
  method ReadLine(metadata: IceMetadata, bundleSeen: bool, line: string) returns (next: IceMetadata, seen: bool)
    ensures next == IceMetadata(
                      metadata.hasIceLite || line == ICE_LITE,
                      metadata.hasTrickle || OffersTrickle(line),
                      if !bundleSeen && IsBundle(line) then Fields(line)[1..] else metadata.bundleMids)
    ensures seen == (bundleSeen || IsBundle(line))
  {
    next, seen := metadata, bundleSeen;
    if line == ICE_LITE {
      OptionLineIsNotBundle(line);
      next := next.(hasIceLite := true);
      return;
    }
    if HasPrefix(line, ICE_OPTIONS) {
      OptionLineIsNotBundle(line);
      var found := FindTrickle(Fields(TrimPrefix(line, ICE_OPTIONS)));
      if found {
        next := next.(hasTrickle := true);
      }
      return;
    }
    var fields := Fields(line);
    if !bundleSeen && |fields| > 0 && fields[0] == BUNDLE {
      seen := true;
      next := next.(bundleMids := fields[1..]);
    }
  }

  /** `extractICESDPLogMetadata`. */
  method ExtractIceMetadata(raw: string) returns (metadata: IceMetadata)
    ensures metadata == MetadataOf(raw)
  {
    metadata := IceMetadata(false, false, []);
    var bundleSeen := false;
    var lines := Split(ReplaceCRLF(raw), LF);
    var i := 0;
    while i < |lines| && !IsMedia(lines[i])
      invariant 0 <= i <= |lines|
      invariant forall j :: 0 <= j < i ==> !IsMedia(lines[j])
      invariant Read(lines[..i], metadata, bundleSeen)
    {
      ReadUpTo(lines, i, metadata, bundleSeen);
      metadata, bundleSeen := ReadLine(metadata, bundleSeen, lines[i]);
      i := i + 1;
    }
    ReadAll(lines, i, metadata, bundleSeen);
  }

  lemma StopsAtMedia(lines: seq<string>, i: nat)
    requires i <= |lines| && (i < |lines| ==> IsMedia(lines[i]))
    ensures Parse(lines[i..]).preamble == []
  {
  }

  // ---- texts that agree up to their first m-line ----

  /** A text cut where the first m-line of some line splitting starts. */
  ghost predicate CutAtMedia(raw: string, head: string, tail: string) {
    && raw == head + tail
    && IsMedia(tail)
    && (head == [] || head[|head| - 1] == '\n')
  }

  lemma {:induction false} ReplaceAppend(head: string, tail: string)
    requires head == [] || head[|head| - 1] == '\n'
    ensures ReplaceCRLF(head + tail) == ReplaceCRLF(head) + ReplaceCRLF(tail)
    ensures head != [] ==> ReplaceCRLF(head) != [] && ReplaceCRLF(head)[|ReplaceCRLF(head)| - 1] == '\n'
    decreases |head|
  {
    if head == [] {
      assert head + tail == tail;
    } else {
      var n := if CRLF <= head then 2 else 1;
      assert head != "\r";
      assert (head + tail)[n..] == head[n..] + tail;
      assert CRLF <= head + tail <==> CRLF <= head;
      ReplaceAppend(head[n..], tail);
    }
  }

  lemma {:induction false} SplitAfterNewline(head: string, tail: string)
    requires head == [] || head[|head| - 1] == '\n'
    ensures var pieces := Split(head, LF);
            pieces[|pieces| - 1] == [] && Split(head + tail, LF) == pieces[..|pieces| - 1] + Split(tail, LF)
  {
    if head == [] {
      assert head + tail == tail;
    } else {
      assert (head + tail)[1..] == head[1..] + tail;
      assert LF <= head + tail <==> LF <= head;
      SplitAfterNewline(head[1..], tail);
      var rest := Split(head[1..], LF);
      if LF <= head {
        assert Split(head, LF) == [[]] + rest;
      } else {
        NewlineSplits(head[1..]);
        PrependPiece(head[0], rest, Split(tail, LF));
      }
    }
  }

  lemma PrependPiece(c: char, pieces: seq<string>, rest: seq<string>)
    requires |pieces| > 1
    ensures var joined := pieces[..|pieces| - 1] + rest;
            var longer := [[c] + pieces[0]] + pieces[1..];
            [[c] + joined[0]] + joined[1..] == longer[..|longer| - 1] + rest
  {
  }

  lemma {:induction false} NewlineSplits(s: string)
    requires s != [] && s[|s| - 1] == '\n'
    ensures |Split(s, LF)| > 1
  {
    if !(LF <= s) {
      NewlineSplits(s[1..]);
    }
  }

  /** The first piece of a text that starts an m-line is an m-line. */
  lemma MediaPiece(tail: string)
    requires IsMedia(tail)
    ensures IsMedia(Split(ReplaceCRLF(tail), LF)[0])
  {
    PrefixSlice(tail, "m=");
    assert tail == ['m', '='] + tail[2..];
    assert ReplaceCRLF(tail) == ['m'] + ReplaceCRLF(tail[1..]);
    assert ReplaceCRLF(tail[1..]) == ['='] + ReplaceCRLF(tail[2..]);
    var replaced := ReplaceCRLF(tail);
    var rest := Split(replaced[1..], LF);
    assert replaced[1..] == ReplaceCRLF(tail[1..]);
    assert rest[0] != [] && rest[0][0] == '=';
    assert Split(replaced, LF)[0] == ['m'] + rest[0];
    PrefixSlice(Split(replaced, LF)[0], "m=");
  }

  /** Where a text is cut at an m-line, its lines are cut too. */
  lemma LinesCut(raw: string, head: string, tail: string)
    requires CutAtMedia(raw, head, tail)
    ensures var pieces, rest := MetadataLines(head), MetadataLines(tail);
            MetadataLines(raw) == pieces[..|pieces| - 1] + rest && IsMedia(rest[0])
  {
    ReplaceAppend(head, tail);
    SplitAfterNewline(ReplaceCRLF(head), ReplaceCRLF(tail));
    MediaPiece(tail);
  }

  lemma SamePreamble(lines: seq<string>, rest: seq<string>)
    requires rest != [] && IsMedia(rest[0])
    ensures Parse(lines + rest).preamble == Parse(lines + ["m="]).preamble
  {
    PreambleBefore(lines, rest);
    PreambleBefore(lines, ["m="]);
  }

  /** What is read before the first m-line does not depend on what follows. */
  lemma MetadataOfHead(raw: string, head: string, tail: string)
    requires CutAtMedia(raw, head, tail)
    ensures var pieces := MetadataLines(head);
            MetadataOf(raw) == Describe(Parse(pieces[..|pieces| - 1] + ["m="]).preamble)
  {
    LinesCut(raw, head, tail);
    SamePreamble(MetadataLines(head)[..|MetadataLines(head)| - 1], MetadataLines(tail));
  }

  /** The preamble of lines followed by an m-line depends on those lines alone. */
  lemma {:induction false} PreambleBefore(lines: seq<string>, rest: seq<string>)
    requires rest != [] && IsMedia(rest[0])
    ensures Parse(lines + rest).preamble == lines[..NextMedia(lines, 0)]
  {
    var n := NextMedia(lines, 0);
    SkipPreamble(lines + rest, n);
    assert (lines + rest)[n..][0] == (lines + rest)[n];
    assert (lines + rest)[..n] == lines[..n];
  }

  /** Line j is the first of the lines whose first token is `a=group:BUNDLE`. */
  predicate FirstBundleAt(lines: seq<string>, j: int) {
    && 0 <= j < |lines| && Fields(lines[j]) != [] && Fields(lines[j])[0] == "a=group:BUNDLE"
    && (forall k :: 0 <= k < j ==> Fields(lines[k]) == [] || Fields(lines[k])[0] != "a=group:BUNDLE")
  }

  lemma {:induction false} FirstBundleIs(lines: seq<string>, j: nat)
    requires FirstBundleAt(lines, j)
    ensures FirstBundle(lines) == Fields(lines[j])[1..]
  {
    if j > 0 {
      FirstBundleIs(lines[1..], j - 1);
    }
  }

  lemma {:induction false} NoBundle(lines: seq<string>)
    requires forall k :: 0 <= k < |lines| ==> Fields(lines[k]) == [] || Fields(lines[k])[0] != "a=group:BUNDLE"
    ensures FirstBundle(lines) == []
  {
    if lines != [] {
      NoBundle(lines[1..]);
    }
  }

  lemma TrickleMeans(line: string)
    ensures OffersTrickle(line) <==> "a=ice-options:" <= line && "trickle" in Fields(line[14..])
  {
    PrefixSlice(line, "a=ice-options:");
    TrimMeans(line, "a=ice-options:");
  }

  /** What is reported of a text, in its lines before the first m-line. */
  lemma MetadataExactly(raw: string, n: nat)
    requires var lines := Split(ReplaceCRLF(raw), "\n");
             n <= |lines| && (forall i :: 0 <= i < n ==> !("m=" <= lines[i])) && (n < |lines| ==> "m=" <= lines[n])
    ensures var lines, metadata := Split(ReplaceCRLF(raw), "\n")[..n], MetadataOf(raw);
            && (metadata.hasIceLite <==> "a=ice-lite" in lines)
            && (metadata.hasTrickle <==>
                  exists i :: 0 <= i < n && "a=ice-options:" <= lines[i] && "trickle" in Fields(lines[i][14..]))
            && (forall j :: FirstBundleAt(lines, j) ==> metadata.bundleMids == Fields(lines[j])[1..])
            && ((forall j :: !FirstBundleAt(lines, j)) ==> metadata.bundleMids == [])
  {
    var all := MetadataLines(raw);
    var lines := all[..n];
    forall i | 0 <= i < |all|
      ensures IsMedia(all[i]) <==> "m=" <= all[i]
    {
      PrefixSlice(all[i], "m=");
    }
    SkipPreamble(all, n);
    StopsAtMedia(all, n);
    assert Parse(all).preamble == lines;
    LinesMean(lines);
  }

  lemma LinesMean(lines: seq<string>)
    ensures Describe(lines).hasIceLite <==> "a=ice-lite" in lines
    ensures Describe(lines).hasTrickle <==>
            exists i :: 0 <= i < |lines| && "a=ice-options:" <= lines[i] && "trickle" in Fields(lines[i][14..])
    ensures forall j :: FirstBundleAt(lines, j) ==> FirstBundle(lines) == Fields(lines[j])[1..]
    ensures (forall j :: !FirstBundleAt(lines, j)) ==> FirstBundle(lines) == []
  {
    forall i | 0 <= i < |lines|
      ensures OffersTrickle(lines[i]) <==> "a=ice-options:" <= lines[i] && "trickle" in Fields(lines[i][14..])
    {
      TrickleMeans(lines[i]);
    }
    forall j | FirstBundleAt(lines, j)
      ensures FirstBundle(lines) == Fields(lines[j])[1..]
    {
      FirstBundleIs(lines, j);
    }
    if forall j :: !FirstBundleAt(lines, j) {
      NoneMeansNone(lines, |lines|);
      NoBundle(lines);
    }
  }

  lemma {:induction false} NoneMeansNone(lines: seq<string>, n: nat)
    requires n <= |lines| && forall j :: !FirstBundleAt(lines, j)
    ensures forall k :: 0 <= k < n ==> Fields(lines[k]) == [] || Fields(lines[k])[0] != "a=group:BUNDLE"
  {
    if n > 0 {
      NoneMeansNone(lines, n - 1);
      assert !FirstBundleAt(lines, n - 1);
    }
  }
}
