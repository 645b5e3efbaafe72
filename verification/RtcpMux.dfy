/** `normalizeAlexaRTCPMuxCandidates`: drop component-2 candidates from muxed audio sections. */
module RtcpMux {
  import opened GoText
  import opened Sequences
  import opened Tokens
  import opened Sections

  // `ice.UnmarshalCandidate` is foreign code: any deterministic predicate.
  type CandidateParser = string -> bool

  /** An accepted audio section: `m=audio` and a positive port. */
  predicate IsAcceptedAudio(mediaLine: string) {
    var fields := Fields(mediaLine);
    && |fields| >= 2
    && fields[0] == "m=audio"
    && Atoi(fields[1]).Some?
    && Atoi(fields[1]).value > 0
  }

  predicate IsMuxed(section: seq<string>)
    requires IsSection(section)
  {
    IsAcceptedAudio(section[0]) && "a=rtcp-mux" in section[1..]
  }

  /** A candidate line of component 2 that the ICE parser accepts. */
  predicate IsRtcpCandidate(line: string, parses: CandidateParser) {
    var fields := Fields(line);
    && HasPrefix(line, "a=candidate:")
    && |fields| >= 2
    && fields[1] == "2"
    && fields[0] != "a=candidate:"
    && parses(TrimPrefix(JoinFields(fields), "a="))
  }

  function WithoutCandidates(lines: seq<string>, parses: CandidateParser): seq<string> {
    if lines == [] then []
    else if IsRtcpCandidate(lines[0], parses) then WithoutCandidates(lines[1..], parses)
    else [lines[0]] + WithoutCandidates(lines[1..], parses)
  }

  function MuxSection(section: seq<string>, parses: CandidateParser): seq<string>
    requires IsSection(section)
  {
    if IsMuxed(section) then [section[0]] + WithoutCandidates(section[1..], parses) else section
  }

  function MuxSections(sections: seq<seq<string>>, parses: CandidateParser): (result: seq<seq<string>>)
    requires AllSections(sections)
    ensures |result| == |sections|
  {
    if sections == [] then [] else [MuxSection(sections[0], parses)] + MuxSections(sections[1..], parses)
  }

  function MuxLines(lines: seq<string>, parses: CandidateParser): seq<string> {
    Rebuild(lines, MuxSections(SectionsOf(lines), parses))
  }

  /** What the rewriter returns for an answer. */
  function MuxText(answer: string, parses: CandidateParser): string {
    Join(MuxLines(Lines(answer), parses), LineSeparator(answer))
  }

  lemma {:induction false} KeptCandidates(lines: seq<string>, remove: seq<bool>, parses: CandidateParser)
    requires |lines| == |remove|
    requires forall i :: 0 <= i < |lines| ==> remove[i] == IsRtcpCandidate(lines[i], parses)
    ensures Kept(lines, remove) == WithoutCandidates(lines, parses)
  {
    if lines != [] {
      KeptCandidates(lines[1..], remove[1..], parses);
    }
  }

  /** Flags of one section that agree with the section's specification. */
  predicate SectionFlags(section: seq<string>, remove: seq<bool>, parses: CandidateParser)
    requires IsSection(section)
  {
    && |remove| == |section|
    && !remove[0]
    && forall i :: 1 <= i < |section| ==> remove[i] == (IsMuxed(section) && IsRtcpCandidate(section[i], parses))
  }

  lemma KeptSection(section: seq<string>, remove: seq<bool>, parses: CandidateParser)
    requires IsSection(section) && SectionFlags(section, remove, parses)
    ensures Kept(section, remove) == MuxSection(section, parses)
  {
    if IsMuxed(section) {
      KeptCandidates(section[1..], remove[1..], parses);
    } else {
      KeptAll(section, remove);
    }
  }

  lemma MuxCons(section: seq<string>, rest: seq<seq<string>>, parses: CandidateParser)
    requires IsSection(section) && AllSections(rest)
    ensures AllSections([section] + rest)
    ensures MuxSections([section] + rest, parses) == [MuxSection(section, parses)] + MuxSections(rest, parses)
  {
    assert ([section] + rest)[1..] == rest;
  }

  lemma MuxScan(lines: seq<string>, start: nat, end: nat, parses: CandidateParser)
    requires IsSectionEnd(lines, start, end)
    ensures IsSection(lines[start..end])
    ensures MuxLines(lines[start..], parses) == MuxSection(lines[start..end], parses) + MuxLines(lines[end..], parses)
  {
    ScanSection(lines, start, end);
    var section, rest := lines[start..end], SectionsOf(lines[end..]);
    assert section[1..] == lines[start + 1..end];
    MuxCons(section, rest, parses);
    ConcatCons(MuxSection(section, parses), MuxSections(rest, parses));
  }

  lemma MuxSkip(lines: seq<string>, i: nat, parses: CandidateParser)
    requires i < |lines| && !IsMedia(lines[i])
    ensures MuxLines(lines[i..], parses) == [lines[i]] + MuxLines(lines[i + 1..], parses)
  {
    ScanPreamble(lines, i);
  }

  /** The checks on a candidate line, `server.go:248-261`. */
  method ShouldRemove(line: string, parses: CandidateParser) returns (remove: bool)
    ensures remove == IsRtcpCandidate(line, parses)
  {
    if !HasPrefix(line, "a=candidate:") {
      return false;
    }
    var fields := Fields(line);
    if |fields| < 2 || fields[1] != "2" {
      return false;
    }
    if fields[0] == "a=candidate:" {
      return false;
    }
    return parses(TrimPrefix(JoinFields(fields), "a="));
  }

  /** The checks on an m-line, `server.go:229-236`. */
  method AcceptsAudio(mediaLine: string) returns (accepts: bool)
    ensures accepts == IsAcceptedAudio(mediaLine)
  {
    var fields := Fields(mediaLine);
    if |fields| < 2 || fields[0] != "m=audio" {
      return false;
    }
    var port := Atoi(fields[1]);
    if port.None? || port.value <= 0 {
      return false;
    }
    return true;
  }

  /** The search for the exact attribute, `server.go:237-243`. */
  method HasLine(lines: seq<string>, start: nat, end: nat, text: string) returns (found: bool)
    requires start <= end <= |lines|
    ensures found <==> text in lines[start..end]
  {
    found := false;
    var i := start;
    while i < end
      invariant start <= i <= end
      invariant text !in lines[start..i]
    {
      if lines[i] == text {
        assert lines[start..end][i - start] == text;
        return true;
      }
      assert lines[start..i + 1] == lines[start..i] + [lines[i]];
      i := i + 1;
    }
  }

  /** Lines before `i` of the section at `start` carry their verdict; no flag outside has changed. */
  ghost predicate SectionMarked(lines: seq<string>, start: nat, i: nat, before: seq<bool>, flags: seq<bool>,
                                parses: CandidateParser)
    requires |before| == |flags| == |lines|
  {
    && (forall j :: start < j < i && j < |lines| ==> flags[j] == IsRtcpCandidate(lines[j], parses))
    && (forall j :: 0 <= j < |lines| && !(start < j < i) ==> flags[j] == before[j])
  }

  lemma SectionMarkedStep(lines: seq<string>, start: nat, i: nat, before: seq<bool>, flags: seq<bool>, rejected: bool,
                          parses: CandidateParser)
    requires |before| == |flags| == |lines| && start < i < |lines|
    requires SectionMarked(lines, start, i, before, flags, parses)
    requires rejected == IsRtcpCandidate(lines[i], parses)
    ensures SectionMarked(lines, start, i + 1, before, flags[i := rejected], parses)
  {
  }

  lemma SectionMarkedFlags(lines: seq<string>, start: nat, end: nat, before: seq<bool>, flags: seq<bool>,
                           parses: CandidateParser)
    requires |before| == |flags| == |lines|
    requires IsSectionEnd(lines, start, end) && IsSection(lines[start..end])
    requires forall i :: start <= i < end ==> !before[i]
    requires if IsMuxed(lines[start..end]) then SectionMarked(lines, start, end, before, flags, parses)
              else flags == before
    ensures SectionFlags(lines[start..end], flags[start..end], parses)
  {
    assert forall j :: 1 <= j < end - start ==>
        lines[start..end][j] == lines[start + j] && flags[start..end][j] == flags[start + j];
  }

  /** The scan of one section, `server.go:229-263`. */
  method MarkSection(lines: seq<string>, start: nat, end: nat, remove: array<bool>, parses: CandidateParser)
    requires IsSectionEnd(lines, start, end) && remove.Length == |lines|
    requires IsSection(lines[start..end])
    requires forall i :: start <= i < end ==> !remove[i]
    modifies remove
    ensures if IsMuxed(lines[start..end]) then SectionMarked(lines, start, end, old(remove[..]), remove[..], parses)
            else remove[..] == old(remove[..])
  {
    assert lines[start..end][1..] == lines[start + 1..end];
    var accepted := AcceptsAudio(lines[start]);
    if !accepted {
      return;
    }
    var hasMux := HasLine(lines, start + 1, end, "a=rtcp-mux");
    if !hasMux {
      return;
    }
    var i := start + 1;
    while i < end
      invariant start + 1 <= i <= end
      invariant SectionMarked(lines, start, i, old(remove[..]), remove[..], parses)
    {
      var rejected := ShouldRemove(lines[i], parses);
      ghost var flags := remove[..];
      if rejected {
        remove[i] := true;
      }
      assert !flags[i];
      assert remove[..] == flags[i := rejected];
      SectionMarkedStep(lines, start, i, old(remove[..]), flags, rejected, parses);
      i := i + 1;
    }
  }

  /** Flags are final up to `marked`, the end of the last section scanned, and clear after it. */
  ghost predicate MarkedUpTo(lines: seq<string>, start: nat, marked: nat, flags: seq<bool>, parses: CandidateParser) {
    && start <= marked <= |lines| == |flags|
    && (forall i :: start <= i < marked ==> !IsMedia(lines[i]))
    && (forall i :: marked <= i < |lines| ==> !flags[i])
    && MuxLines(lines, parses) == Kept(lines[..marked], flags[..marked]) + MuxLines(lines[marked..], parses)
  }

  lemma MarkedStart(lines: seq<string>, flags: seq<bool>, parses: CandidateParser)
    requires |flags| == |lines| && forall i :: 0 <= i < |lines| ==> !flags[i]
    ensures MarkedUpTo(lines, 0, 0, flags, parses)
  {
    assert lines[0..] == lines && Kept(lines[..0], flags[..0]) == [];
  }

  lemma MarkedPreamble(lines: seq<string>, start: nat, marked: nat, flags: seq<bool>, parses: CandidateParser)
    requires MarkedUpTo(lines, start, marked, flags, parses) && start < |lines| && !IsMedia(lines[start])
    ensures MarkedUpTo(lines, start + 1, if start == marked then marked + 1 else marked, flags, parses)
  {
    if start == marked {
      MuxSkip(lines, start, parses);
      KeptNext(lines, flags, start);
      SplitGoal(lines, start, start + 1, flags, [lines[start]], parses);
    }
  }

  lemma MarkedSection(lines: seq<string>, start: nat, end: nat, before: seq<bool>, flags: seq<bool>,
      parses: CandidateParser)
    requires MarkedUpTo(lines, start, start, before, parses)
    requires IsSectionEnd(lines, start, end) && IsSection(lines[start..end]) && |flags| == |lines|
    requires if IsMuxed(lines[start..end]) then SectionMarked(lines, start, end, before, flags, parses)
              else flags == before
    ensures MarkedUpTo(lines, start + 1, end, flags, parses)
  {
    SectionMarkedFlags(lines, start, end, before, flags, parses);
    MarkedGoal(lines, start, end, before, flags, parses);
  }

  lemma MarkedGoal(lines: seq<string>, start: nat, end: nat, before: seq<bool>, flags: seq<bool>,
                   parses: CandidateParser)
    requires start < end <= |lines| == |flags| == |before|
    requires IsSectionEnd(lines, start, end) && IsSection(lines[start..end])
    requires forall i :: 0 <= i < start ==> flags[i] == before[i]
    requires SectionFlags(lines[start..end], flags[start..end], parses)
    requires MuxLines(lines, parses) == Kept(lines[..start], before[..start]) + MuxLines(lines[start..], parses)
    ensures MuxLines(lines, parses) == Kept(lines[..end], flags[..end]) + MuxLines(lines[end..], parses)
  {
    assert flags[..start] == before[..start];
    KeptUpTo(lines, start, end, flags, parses);
    MuxScan(lines, start, end, parses);
    SplitGoal(lines, start, end, flags, MuxSection(lines[start..end], parses), parses);
  }

  lemma KeptUpTo(lines: seq<string>, start: nat, end: nat, flags: seq<bool>, parses: CandidateParser)
    requires start <= end <= |lines| == |flags| && IsSection(lines[start..end])
    requires SectionFlags(lines[start..end], flags[start..end], parses)
    ensures Kept(lines[..end], flags[..end]) == Kept(lines[..start], flags[..start]) + MuxSection(lines[start..end],
              parses)
  {
    KeptSection(lines[start..end], flags[start..end], parses);
    ExtendKept(lines, start, end, flags);
  }

  lemma SplitGoal(lines: seq<string>, a: nat, b: nat, flags: seq<bool>, kept: seq<string>, parses: CandidateParser)
    requires a <= b <= |lines| == |flags|
    requires Kept(lines[..b], flags[..b]) == Kept(lines[..a], flags[..a]) + kept
    requires MuxLines(lines[a..], parses) == kept + MuxLines(lines[b..], parses)
    ensures Kept(lines[..b], flags[..b]) + MuxLines(lines[b..], parses) ==
            Kept(lines[..a], flags[..a]) + MuxLines(lines[a..], parses)
  {
    Regroup(Kept(lines[..a], flags[..a]), kept, MuxLines(lines[b..], parses));
  }

  lemma MarkedAll(lines: seq<string>, marked: nat, flags: seq<bool>, parses: CandidateParser)
    requires MarkedUpTo(lines, |lines|, marked, flags, parses)
    ensures Kept(lines, flags) == MuxLines(lines, parses)
  {
    assert lines[..marked] == lines && flags[..marked] == flags;
    assert MuxLines(lines[marked..], parses) == [];
  }

  /** The section scan: mark every removable candidate line. */
  method MarkCandidates(lines: seq<string>, parses: CandidateParser) returns (remove: array<bool>)
    ensures fresh(remove) && remove.Length == |lines|
    ensures Kept(lines, remove[..]) == MuxLines(lines, parses)
  {
    remove := new bool[|lines|](_ => false);
    var start := 0;
    ghost var marked := 0;
    MarkedStart(lines, remove[..], parses);
    while start < |lines|
      invariant start <= |lines| == remove.Length
      invariant MarkedUpTo(lines, start, marked, remove[..], parses)
    {
      if !IsMedia(lines[start]) {
        MarkedPreamble(lines, start, marked, remove[..], parses);
        marked := if start == marked then marked + 1 else marked;
        start := start + 1;
        continue;
      }
      var end := FindSectionEnd(lines, start);
      MuxScan(lines, start, end, parses);
      ghost var before := remove[..];
      MarkSection(lines, start, end, remove, parses);
      MarkedSection(lines, start, end, before, remove[..], parses);
      marked := end;
      start := start + 1;
    }
    MarkedAll(lines, marked, remove[..], parses);
  }

  /** `normalizeAlexaRTCPMuxCandidates`. */
  method NormalizeRtcpMuxCandidates(answer: string, parses: CandidateParser) returns (normalized: string)
    ensures normalized == MuxText(answer, parses)
  {
    var separator := LF;
    if Contains(answer, CRLF) {
      separator := CRLF;
    }
    var lines := Split(answer, separator);
    var remove := MarkCandidates(lines, parses);
    var result: seq<string> := [];
    ghost var flags := remove[..];
    var i := 0;
    while i < |lines|
      invariant 0 <= i <= |lines| == remove.Length
      invariant remove[..] == flags
      invariant result == Kept(lines[..i], flags[..i])
    {
      KeptNext(lines, flags, i);
      if !remove[i] {
        result := result + [lines[i]];
      }
      i := i + 1;
    }
    assert lines[..i] == lines && flags[..i] == flags;
    normalized := Join(result, separator);
  }
}
