/** Which lines of an answer the rtcp-mux filter deletes, in the tokens and numerals of the text alone. */
module RtcpMuxExact {
  import opened GoText
  import opened Tokens
  import opened Numerals
  import opened Sections
  import opened RtcpMux
  import opened RtcpMuxProperties

  /** A candidate line with a foundation, component exactly `2`, and a text that parses without its `a=`. */
  predicate NamesRtcp(line: string, parses: CandidateParser) {
    var tokens := Fields(line);
    && "a=candidate:" <= line
    && |tokens| >= 2 && |tokens[0]| > 12 && tokens[1] == "2"
    && parses(Join(tokens, " ")[2..])
  }

  /** The port is a decimal numeral, an optional plus sign before it, of a positive 64-bit integer. */
  ghost predicate PositivePort(port: string) {
    exists n: nat :: 0 < n < 9_223_372_036_854_775_808
      && (ZeroPadded(port, n) || (port != [] && port[0] == '+' && ZeroPadded(port[1..], n)))
  }

  ghost predicate OpenAudio(mediaLine: string) {
    |Fields(mediaLine)| >= 2 && Fields(mediaLine)[0] == "m=audio" && PositivePort(Fields(mediaLine)[1])
  }

  /** From an m-line to the next one: a section of open audio that multiplexes RTCP. */
  ghost predicate MuxedAudio(lines: seq<string>, start: nat, end: nat) {
    && start < end <= |lines|
    && "m=" <= lines[start]
    && (forall j :: start < j < end ==> !("m=" <= lines[j]))
    && (end < |lines| ==> "m=" <= lines[end])
    && OpenAudio(lines[start])
    && "a=rtcp-mux" in lines[start + 1..end]
  }

  /** Line i lies in such a section, after its m-line. */
  ghost predicate InMuxedAudio(lines: seq<string>, i: nat) {
    exists start: nat, end: nat :: start < i < end && MuxedAudio(lines, start, end)
  }

  lemma PortMeans(port: string)
    ensures Atoi(port).Some? && Atoi(port).value > 0 <==> PositivePort(port)
  {
    if Atoi(port).Some? && Atoi(port).value > 0 {
      AtoiMeans(port, Atoi(port).value);
    }
    if PositivePort(port) {
      var n: nat :| 0 < n < 9_223_372_036_854_775_808
        && (ZeroPadded(port, n) || (port != [] && port[0] == '+' && ZeroPadded(port[1..], n)));
      AtoiMeans(port, n);
    }
  }

  lemma AudioMeans(mediaLine: string)
    ensures IsAcceptedAudio(mediaLine) <==> OpenAudio(mediaLine)
  {
    if |Fields(mediaLine)| >= 2 {
      PortMeans(Fields(mediaLine)[1]);
    }
  }

  /** The first token of a candidate line starts like the line. */
  lemma CandidateToken(line: string)
    requires HasPrefix(line, "a=candidate:")
    ensures Fields(line) != [] && "a=candidate:" <= Fields(line)[0]
  {
    var prefix := "a=candidate:";
    PrefixSlice(line, prefix);
    assert forall i :: 0 <= i < |prefix| ==> line[i] == prefix[i] && !IsSpace(prefix[i]);
    FirstFieldPrefix(line, |prefix|);
    assert line[..|prefix|] == prefix;
  }

  lemma {:induction false} JoinStarts(tokens: seq<string>)
    requires tokens != []
    ensures tokens[0] <= JoinFields(tokens)
  {
  }

  lemma CandidateMeans(line: string, parses: CandidateParser)
    ensures IsRtcpCandidate(line, parses) <==> NamesRtcp(line, parses)
  {
    PrefixSlice(line, "a=candidate:");
    if HasPrefix(line, "a=candidate:") {
      var tokens := Fields(line);
      CandidateToken(line);
      JoinStarts(tokens);
      var joined := JoinFields(tokens);
      assert "a=" <= "a=candidate:" <= tokens[0] <= joined;
      PrefixSlice(joined, "a=");
      assert |tokens[0]| == 12 ==> tokens[0] == "a=candidate:";
    }
  }

  lemma MediaMeans(line: string)
    ensures IsMedia(line) <==> "m=" <= line
  {
    PrefixSlice(line, "m=");
  }

  lemma EndMeans(lines: seq<string>, start: nat, end: nat)
    ensures IsSectionEnd(lines, start, end) <==>
            && start < end <= |lines|
            && "m=" <= lines[start]
            && (forall j :: start < j < end ==> !("m=" <= lines[j]))
            && (end < |lines| ==> "m=" <= lines[end])
  {
    forall j | 0 <= j < |lines|
      ensures IsMedia(lines[j]) <==> "m=" <= lines[j]
    {
      MediaMeans(lines[j]);
    }
  }

  lemma MuxedMeans(lines: seq<string>, start: nat, end: nat)
    ensures MuxedAudio(lines, start, end) <==>
            && IsSectionEnd(lines, start, end)
            && IsAcceptedAudio(lines[start])
            && "a=rtcp-mux" in lines[start + 1..end]
  {
    EndMeans(lines, start, end);
    if start < |lines| {
      AudioMeans(lines[start]);
    }
  }

  lemma RemovableExactly(lines: seq<string>, i: nat, parses: CandidateParser)
    requires i < |lines|
    ensures Removable(lines, i, parses) <==> NamesRtcp(lines[i], parses) && InMuxedAudio(lines, i)
  {
    CandidateMeans(lines[i], parses);
    if Removable(lines, i, parses) {
      var start: nat, end: nat :|
        && start < i < end
        && IsSectionEnd(lines, start, end)
        && IsAcceptedAudio(lines[start])
        && "a=rtcp-mux" in lines[start + 1..end];
      MuxedMeans(lines, start, end);
    }
    if InMuxedAudio(lines, i) {
      var start: nat, end: nat :| start < i < end && MuxedAudio(lines, start, end);
      MuxedMeans(lines, start, end);
    }
  }

  /**
   * A line of an answer is deleted exactly if it names RTCP and lies in an open audio section that multiplexes RTCP.
   */
  lemma DeletedExactly(answer: string, parses: CandidateParser, i: nat)
    requires i < |Lines(answer)|
    ensures RemovalFlags(Lines(answer), parses)[i] <==>
            NamesRtcp(Lines(answer)[i], parses) && InMuxedAudio(Lines(answer), i)
  {
    var lines := Lines(answer);
    RemovableExactly(lines, i, parses);
    assert RemovalFlags(lines, parses)[i] == Removable(lines, i, parses);
  }

  /** Every line of another component stays, the candidates for RTP among them. */
  lemma OtherComponentsStay(answer: string, parses: CandidateParser, i: nat)
    requires i < |Lines(answer)|
    requires |Fields(Lines(answer)[i])| < 2 || Fields(Lines(answer)[i])[1] != "2"
    ensures !RemovalFlags(Lines(answer), parses)[i]
  {
    DeletedExactly(answer, parses, i);
  }
}
