/** What the rtcp-mux rewriter promises: exact deletion, idempotence on every text, final-newline behaviour. */
module RtcpMuxProperties {
  import opened GoText
  import opened Sequences
  import opened Tokens
  import opened Sections
  import opened RtcpMux

  /** Line i is a removable candidate inside an accepted audio section with an exact `a=rtcp-mux` line. */
  ghost predicate Removable(lines: seq<string>, i: int, parses: CandidateParser)
    requires 0 <= i < |lines|
  {
    && IsRtcpCandidate(lines[i], parses)
    && exists start: nat, end: nat ::
         && start < i < end
         && IsSectionEnd(lines, start, end)
         && IsAcceptedAudio(lines[start])
         && "a=rtcp-mux" in lines[start + 1..end]
  }

  ghost function RemovalFlags(lines: seq<string>, parses: CandidateParser): (flags: seq<bool>)
    ensures |flags| == |lines|
  {
    seq(|lines|, i requires 0 <= i < |lines| => Removable(lines, i, parses))
  }

  lemma SectionEndUnique(lines: seq<string>, start: nat, end: nat, start': nat, end': nat, i: nat)
    requires IsSectionEnd(lines, start, end) && IsSectionEnd(lines, start', end')
    requires start <= i < end && start' <= i < end'
    ensures start == start' && end == end'
  {
  }

  lemma SectionRemovable(lines: seq<string>, start: nat, end: nat, i: nat, parses: CandidateParser)
    requires IsSectionEnd(lines, start, end) && start <= i < end
    ensures IsSection(lines[start..end])
    ensures Removable(lines, i, parses) <==>
            start < i && IsMuxed(lines[start..end]) && IsRtcpCandidate(lines[i], parses)
  {
    assert lines[start..end][1..] == lines[start + 1..end];
    if Removable(lines, i, parses) {
      var start': nat, end': nat :|
        && start' < i < end'
        && IsSectionEnd(lines, start', end')
        && IsAcceptedAudio(lines[start'])
        && "a=rtcp-mux" in lines[start' + 1..end'];
      SectionEndUnique(lines, start, end, start', end', i);
    }
  }

  /** No section contains a line before the first m-line. */
  lemma PreambleKept(lines: seq<string>, i: nat, parses: CandidateParser)
    requires i < |lines| && forall j :: 0 <= j <= i ==> !IsMedia(lines[j])
    ensures !Removable(lines, i, parses)
  {
  }

  lemma {:induction false} RemovedFrom(lines: seq<string>, start: nat, parses: CandidateParser)
    requires start <= |lines|
    requires start == |lines| || IsMedia(lines[start]) || forall j :: 0 <= j <= start ==> !IsMedia(lines[j])
    ensures MuxLines(lines[start..], parses) == Kept(lines[start..], RemovalFlags(lines, parses)[start..])
    decreases |lines| - start
  {
    var flags := RemovalFlags(lines, parses);
    if start == |lines| {
    } else if !IsMedia(lines[start]) {
      PreambleKept(lines, start, parses);
      MuxSkip(lines, start, parses);
      RemovedFrom(lines, start + 1, parses);
      assert lines[start..][1..] == lines[start + 1..] && flags[start..][1..] == flags[start + 1..];
    } else {
      var end := NextMedia(lines, start + 1);
      RemovedFrom(lines, end, parses);
      MuxScan(lines, start, end, parses);
      RemovedSection(lines, start, end, parses);
      KeptCut(lines, flags, start, end);
    }
  }

  lemma KeptCut(lines: seq<string>, flags: seq<bool>, a: nat, b: nat)
    requires a <= b <= |lines| == |flags|
    ensures Kept(lines[a..], flags[a..]) == Kept(lines[a..b], flags[a..b]) + Kept(lines[b..], flags[b..])
  {
    assert lines[a..] == lines[a..b] + lines[b..] && flags[a..] == flags[a..b] + flags[b..];
    KeptAppend(lines[a..b], flags[a..b], lines[b..], flags[b..]);
  }

  lemma RemovalFlag(lines: seq<string>, start: nat, end: nat, i: nat, parses: CandidateParser)
    requires IsSectionEnd(lines, start, end) && start <= i < end
    ensures IsSection(lines[start..end])
    ensures RemovalFlags(lines, parses)[i] ==
            (start < i && IsMuxed(lines[start..end]) && IsRtcpCandidate(lines[i], parses))
  {
    SectionRemovable(lines, start, end, i, parses);
  }

  lemma RemovedFlags(lines: seq<string>, start: nat, end: nat, section: seq<string>, all: seq<bool>, flags: seq<bool>,
                     parses: CandidateParser)
    requires IsSectionEnd(lines, start, end)
    requires section == lines[start..end] && all == RemovalFlags(lines, parses) && flags == all[start..end]
    ensures IsSection(section) && SectionFlags(section, flags, parses)
  {
    RemovalFlag(lines, start, end, start, parses);
    forall k | 1 <= k < |section|
      ensures flags[k] == (IsMuxed(section) && IsRtcpCandidate(section[k], parses))
    {
      RemovalFlag(lines, start, end, start + k, parses);
      assert flags[k] == all[start + k] && section[k] == lines[start + k];
    }
  }

  lemma RemovedSection(lines: seq<string>, start: nat, end: nat, parses: CandidateParser)
    requires IsSectionEnd(lines, start, end)
    ensures IsSection(lines[start..end])
    ensures MuxSection(lines[start..end], parses) == Kept(lines[start..end], RemovalFlags(lines, parses)[start..end])
  {
    var all := RemovalFlags(lines, parses);
    RemovedFlags(lines, start, end, lines[start..end], all, all[start..end], parses);
    KeptSection(lines[start..end], RemovalFlags(lines, parses)[start..end], parses);
  }

  /** The rewriter deletes exactly the removable lines and keeps every other line, in order. */
  lemma RemovedExactly(answer: string, parses: CandidateParser)
    ensures MuxText(answer, parses) ==
            Join(Kept(Lines(answer), RemovalFlags(Lines(answer), parses)), LineSeparator(answer))
  {
    var lines := Lines(answer);
    RemovedFrom(lines, 0, parses);
    assert lines[0..] == lines && RemovalFlags(lines, parses)[0..] == RemovalFlags(lines, parses);
  }

  lemma CandidatesStayCandidates(line: string)
    requires HasPrefix(line, "a=candidate:")
    ensures line != "a=rtcp-mux"
    ensures !IsMedia(line)
  {
    assert line[0] == 'a';
    assert line == "a=rtcp-mux" ==> |line| < |"a=candidate:"|;
  }

  lemma {:induction false} WithoutMembers(lines: seq<string>, parses: CandidateParser)
    ensures forall l :: l in WithoutCandidates(lines, parses) <==> l in lines && !IsRtcpCandidate(l, parses)
  {
    if lines != [] {
      WithoutMembers(lines[1..], parses);
      assert lines == [lines[0]] + lines[1..];
    }
  }

  lemma {:induction false} WithoutTwice(lines: seq<string>, parses: CandidateParser)
    ensures WithoutCandidates(WithoutCandidates(lines, parses), parses) == WithoutCandidates(lines, parses)
  {
    if lines != [] {
      WithoutTwice(lines[1..], parses);
    }
  }

  /** A filtered section is still a section, muxed exactly when it was, and keeps `a=rtcp-mux`. */
  lemma MuxSectionShape(section: seq<string>, parses: CandidateParser)
    requires IsSection(section)
    ensures var result := MuxSection(section, parses);
            && IsSection(result)
            && result[0] == section[0]
            && IsMuxed(result) == IsMuxed(section)
            && (result != section ==> |result| >= 2)
            && MuxSection(result, parses) == result
  {
    if IsMuxed(section) {
      var body := WithoutCandidates(section[1..], parses);
      WithoutMembers(section[1..], parses);
      WithoutTwice(section[1..], parses);
      var mux := "a=rtcp-mux";
      assert mux in body by {
        if IsRtcpCandidate(mux, parses) {
          CandidatesStayCandidates(mux);
          assert false;
        }
      }
      forall i | 0 <= i < |body|
        ensures !IsMedia(body[i])
      {
        assert body[i] in body;
      }
      assert ([section[0]] + body)[1..] == body;
    }
  }

  lemma {:induction false} MuxSectionsShape(sections: seq<seq<string>>, parses: CandidateParser)
    requires AllSections(sections)
    ensures AllSections(MuxSections(sections, parses))
    ensures MuxSections(MuxSections(sections, parses), parses) == MuxSections(sections, parses)
    ensures MuxSections(sections, parses) == sections || |Concat(MuxSections(sections, parses))| >= 2
  {
    if sections != [] {
      MuxSectionShape(sections[0], parses);
      MuxSectionsShape(sections[1..], parses);
      var head, tail := MuxSection(sections[0], parses), MuxSections(sections[1..], parses);
      assert MuxSections(sections, parses) == [head] + tail;
      assert AllSections([head] + tail);
      MuxCons(head, tail, parses);
      ConcatCons(head, tail);
    }
  }

  /** Filtering lines twice is filtering them once, and the filter keeps the partition. */
  lemma MuxLinesTwice(lines: seq<string>, parses: CandidateParser)
    ensures MuxLines(MuxLines(lines, parses), parses) == MuxLines(lines, parses)
    ensures AllSections(MuxSections(SectionsOf(lines), parses))
    ensures Parse(MuxLines(lines, parses)) == Doc(Parse(lines).preamble, MuxSections(SectionsOf(lines), parses))
    ensures |lines| >= 2 ==> |MuxLines(lines, parses)| >= 2
  {
    MuxSectionsShape(SectionsOf(lines), parses);
    RebuildSections(lines, MuxSections(SectionsOf(lines), parses));
  }

  /** Dropping lines keeps a text stable as long as a CRLF text keeps two of them. */
  lemma {:induction false} KeptStable(lines: seq<string>, remove: seq<bool>)
    requires |lines| == |remove|
    ensures forall sep: string, i: int | 0 <= i < |Kept(lines, remove)| && NoSeparator(lines, sep) ::
              !Contains(Kept(lines, remove)[i], sep)
    ensures NoTrailing(lines) ==> NoTrailing(Kept(lines, remove))
  {
    if lines != [] {
      var kept := Kept(lines[1..], remove[1..]);
      KeptStable(lines[1..], remove[1..]);
      assert forall sep: string :: NoSeparator(lines, sep) ==> NoSeparator(lines[1..], sep);
      if NoTrailing(lines) {
        forall i | 0 <= i < |lines[1..]| - 1
          ensures lines[1..][i] == [] || lines[1..][i][|lines[1..][i]| - 1] != '\r'
        {
          assert lines[1..][i] == lines[i + 1];
        }
        if kept == [] {
        } else {
          assert |lines| >= 2;
        }
      }
    }
  }

  predicate NoSeparator(lines: seq<string>, sep: string) {
    forall i :: 0 <= i < |lines| ==> !Contains(lines[i], sep)
  }

  predicate NoTrailing(lines: seq<string>) {
    forall i :: 0 <= i < |lines| - 1 ==> lines[i] == [] || lines[i][|lines[i]| - 1] != '\r'
  }

  lemma MuxStable(lines: seq<string>, sep: string, parses: CandidateParser)
    requires IsSeparator(sep) && Stable(lines, sep)
    ensures Stable(MuxLines(lines, parses), sep)
  {
    MuxLinesTwice(lines, parses);
    var flags := RemovalFlags(lines, parses);
    RemovedFrom(lines, 0, parses);
    assert lines[0..] == lines && flags[0..] == flags;
    KeptStable(lines, flags);
    assert NoSeparator(lines, sep);
    assert |lines| == 1 ==> MuxLines(lines, parses) == lines by {
      if |lines| == 1 {
        MuxSingle(lines, parses);
      }
    }
  }

  lemma MuxSingle(lines: seq<string>, parses: CandidateParser)
    requires |lines| == 1
    ensures MuxLines(lines, parses) == lines
  {
    if IsMedia(lines[0]) {
      MuxScan(lines, 0, 1, parses);
      assert lines[0..] == lines && lines[0..1] == lines && lines[1..] == [];
    } else {
      MuxSkip(lines, 0, parses);
      assert lines[0..] == lines && lines[1..] == [];
    }
  }

  /** Splitting the output gives the filtered lines back, whatever the input's line endings. */
  lemma MuxTextLines(answer: string, parses: CandidateParser)
    ensures LineSeparator(MuxText(answer, parses)) == LineSeparator(answer)
    ensures Lines(MuxText(answer, parses)) == MuxLines(Lines(answer), parses)
  {
    LinesStable(answer);
    MuxStable(Lines(answer), LineSeparator(answer), parses);
    RoundTrip(MuxLines(Lines(answer), parses), LineSeparator(answer));
  }

  /** The rewriter is idempotent on every text, mixed and lone line endings included. */
  lemma MuxIdempotent(answer: string, parses: CandidateParser)
    ensures MuxText(MuxText(answer, parses), parses) == MuxText(answer, parses)
  {
    MuxTextLines(answer, parses);
    MuxLinesTwice(Lines(answer), parses);
  }

  /** The text ends in an empty line followed only by removable candidate lines. */
  ghost predicate BlankBeforeRemovedTail(lines: seq<string>, parses: CandidateParser) {
    BlankBeforeFlagged(lines, RemovalFlags(lines, parses))
  }

  predicate BlankBeforeFlagged(lines: seq<string>, flags: seq<bool>)
    requires |lines| == |flags|
  {
    exists k :: 0 <= k < |lines| - 1 && lines[k] == [] && forall i :: k < i < |lines| ==> flags[i]
  }

  lemma {:induction false} KeptLast(lines: seq<string>, remove: seq<bool>) returns (k: nat)
    requires |lines| == |remove| && Kept(lines, remove) != []
    ensures k < |lines| && !remove[k]
    ensures forall i :: k < i < |lines| ==> remove[i]
    ensures Kept(lines, remove)[|Kept(lines, remove)| - 1] == lines[k]
  {
    var rest := Kept(lines[1..], remove[1..]);
    if rest != [] {
      k := KeptLast(lines[1..], remove[1..]);
      assert forall i :: k + 1 < i < |lines| ==> remove[i] == remove[1..][i - 1];
      k := k + 1;
    } else {
      k := 0;
      KeptNothing(lines[1..], remove[1..]);
      assert forall i :: 0 < i < |lines| ==> remove[i] == remove[1..][i - 1];
    }
  }

  lemma {:induction false} KeptNothing(lines: seq<string>, remove: seq<bool>)
    requires |lines| == |remove| && Kept(lines, remove) == []
    ensures forall i :: 0 <= i < |lines| ==> remove[i]
  {
    if lines != [] {
      KeptNothing(lines[1..], remove[1..]);
      assert forall i :: 0 < i < |lines| ==> remove[i] == remove[1..][i - 1];
    }
  }

  lemma RemovableNotEmpty(lines: seq<string>, i: nat, parses: CandidateParser)
    requires i < |lines| && Removable(lines, i, parses)
    ensures lines[i] != []
  {
    assert HasPrefix(lines[i], "a=candidate:");
  }

  lemma KeptFlags(lines: seq<string>, parses: CandidateParser)
    ensures MuxLines(lines, parses) == Kept(lines, RemovalFlags(lines, parses))
  {
    RemovedFrom(lines, 0, parses);
    assert lines[0..] == lines && RemovalFlags(lines, parses)[0..] == RemovalFlags(lines, parses);
  }

  lemma MuxBlankEnd(lines: seq<string>, parses: CandidateParser)
    requires |lines| >= 2
    ensures MuxLines(lines, parses) != []
    ensures EndsBlank(MuxLines(lines, parses)) == EndsBlank(lines) <==> !BlankBeforeRemovedTail(lines, parses)
  {
    var flags := RemovalFlags(lines, parses);
    MuxLinesTwice(lines, parses);
    KeptFlags(lines, parses);
    forall i | 0 <= i < |lines| && flags[i]
      ensures lines[i] != []
    {
      RemovableNotEmpty(lines, i, parses);
    }
    KeptBlank(lines, flags);
  }

  /**
   * The design promises to keep the final-newline state. The code keeps it exactly when the answer does not end in
   * an empty line followed only by candidates that are removed.
   */
  lemma MuxFinalNewline(answer: string, parses: CandidateParser)
    ensures FinalNewline(MuxText(answer, parses)) == FinalNewline(answer) <==>
            !BlankBeforeRemovedTail(Lines(answer), parses)
  {
    var lines := Lines(answer);
    MuxTextLines(answer, parses);
    FinalNewlineLines(answer);
    FinalNewlineLines(MuxText(answer, parses));
    if |lines| == 1 {
      MuxSingle(lines, parses);
    } else {
      MuxBlankEnd(lines, parses);
    }
  }

  lemma KeptBlank(lines: seq<string>, flags: seq<bool>)
    requires |lines| == |flags| && Kept(lines, flags) != []
    requires forall i :: 0 <= i < |lines| && flags[i] ==> lines[i] != []
    ensures var kept := Kept(lines, flags);
            (kept[|kept| - 1] == [] <==> lines[|lines| - 1] == []) <==> !BlankBeforeFlagged(lines, flags)
  {
    var k := KeptLast(lines, flags);
    if BlankBeforeFlagged(lines, flags) {
      var j :| 0 <= j < |lines| - 1 && lines[j] == [] && forall i :: j < i < |lines| ==> flags[i];
      assert j == k;
    }
  }

  /** A line of single-spaced words that starts with `prefix`. */
  lemma LineOfWords(words: seq<string>, prefix: string, rest: string)
    requires |words| >= 2 && Words(words) && words[0] == prefix + rest
    ensures HasPrefix(JoinFields(words), prefix) && Fields(JoinFields(words)) == words && Clean(JoinFields(words))
  {
    FieldsOfWords(words);
    WordsClean(words);
    var tail := " " + JoinFields(words[1..]);
    JoinFirst(words, " ");
    Regroup(prefix, rest, tail);
    PrefixOfAppend(prefix, rest + tail);
  }

  lemma {:induction false} WordsClean(words: seq<string>)
    requires Words(words)
    ensures Clean(JoinFields(words))
  {
    assert IsSpace('\r') && IsSpace('\n');
    if |words| > 1 {
      WordsClean(words[1..]);
      JoinFirst(words, " ");
    }
  }

  lemma AudioWords(words: seq<string>)
    requires |words| >= 2 && Words(words) && words[0] == "m=audio" && words[1] == "9"
    ensures IsAcceptedAudio(JoinFields(words)) && IsMedia(JoinFields(words)) && Clean(JoinFields(words))
  {
    assert "m=audio" == "m=" + "audio";
    LineOfWords(words, "m=", "audio");
    var digit := words[1];
    assert digit[..0] == [] && DigitsValue(digit) == 9;
  }

  lemma CandidateWords(words: seq<string>, parses: CandidateParser)
    requires |words| >= 2 && Words(words) && words[0] == "a=candidate:1" && words[1] == "2"
    requires parses(TrimPrefix(JoinFields(words), "a="))
    ensures IsRtcpCandidate(JoinFields(words), parses) && Clean(JoinFields(words))
  {
    assert "a=candidate:1" == "a=candidate:" + "1";
    LineOfWords(words, "a=candidate:", "1");
  }

  lemma LastRemoved(lines: seq<string>, mux: string, parses: CandidateParser)
    requires |lines| == 4 && lines[1] == mux == "a=rtcp-mux" && lines[2] == []
    requires IsAcceptedAudio(lines[0]) && IsMedia(lines[0]) && IsRtcpCandidate(lines[3], parses)
    requires !IsMedia(lines[1]) && !IsMedia(lines[3])
    ensures BlankBeforeRemovedTail(lines, parses)
  {
    assert IsSectionEnd(lines, 0, 4);
    assert lines[1..4][0] == mux;
    assert Removable(lines, 3, parses);
    assert RemovalFlags(lines, parses)[3];
  }

  /** Any accepted audio section that ends in an empty line and one removed candidate gains a final newline. */
  lemma NewlineGained(audio: string, mux: string, candidate: string, parses: CandidateParser)
    requires IsAcceptedAudio(audio) && IsMedia(audio) && IsRtcpCandidate(candidate, parses)
    requires mux == "a=rtcp-mux" && Clean(audio) && Clean(candidate)
    ensures var answer := Join([audio, mux, "", candidate], LF);
            !FinalNewline(answer) && FinalNewline(MuxText(answer, parses))
  {
    var lines := [audio, mux, "", candidate];
    CandidatesStayCandidates(candidate);
    assert Clean(mux) && !IsMedia(mux);
    CleanStable(lines, LF);
    RoundTrip(lines, LF);
    LastRemoved(lines, mux, parses);
    MuxFinalNewline(Join(lines, LF), parses);
    FinalNewlineLines(Join(lines, LF));
  }

  const AUDIO_WORDS := ["m=audio", "9", "UDP/TLS/RTP/SAVPF", "111"]
  const CANDIDATE_WORDS := ["a=candidate:1", "2", "udp", "90", "203.0.113.1", "40001", "typ", "host"]

  lemma WitnessWords()
    ensures Words(AUDIO_WORDS) && Words(CANDIDATE_WORDS)
  {
  }

  /** The promise fails: this LF answer without a final newline gains one, if its candidate parses. */
  lemma FinalNewlineGained(mux: string, parses: CandidateParser)
    requires mux == "a=rtcp-mux"
    requires parses(TrimPrefix(JoinFields(CANDIDATE_WORDS), "a="))
    ensures var answer := Join([JoinFields(AUDIO_WORDS), mux, "", JoinFields(CANDIDATE_WORDS)], LF);
            !FinalNewline(answer) && FinalNewline(MuxText(answer, parses))
  {
    WitnessWords();
    AudioWords(AUDIO_WORDS);
    CandidateWords(CANDIDATE_WORDS, parses);
    NewlineGained(JoinFields(AUDIO_WORDS), mux, JoinFields(CANDIDATE_WORDS), parses);
  }
}
