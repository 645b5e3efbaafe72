/** What the video rewriter reads and writes, in the tokens and lines of the text alone. */
module VideoExact {
  import opened GoText
  import opened Tokens
  import opened Sections
  import opened VideoPayloads
  import opened VideoProperties
  import opened VideoAnswers

  /** The line is `a=rtpmap:` with at least two tokens, the first of them the payload. */
  predicate MapLine(line: string, payload: string) {
    "a=rtpmap:" <= line && |BlankFields(line[9..])| >= 2 && BlankFields(line[9..])[0] == payload
  }

  lemma MapMeans(line: string, payload: string)
    ensures MapsPayload(line, payload) <==> MapLine(line, payload)
  {
    RtpMapTokens(line);
    PrefixSlice(line, "a=rtpmap:");
    TrimMeans(line, "a=rtpmap:");
  }

  // ---- the offer ----

  lemma {:induction false} FirstMapIs(lines: seq<string>, payload: string, i: nat)
    requires i < |lines| && MapLine(lines[i], payload) && forall j :: 0 <= j < i ==> !MapLine(lines[j], payload)
    ensures FirstRtpMap(lines, payload) == lines[i]
  {
    MapMeans(lines[0], payload);
    if i > 0 {
      FirstMapIs(lines[1..], payload, i - 1);
    }
  }

  lemma {:induction false} NoFirstMap(lines: seq<string>, payload: string)
    requires forall j :: 0 <= j < |lines| ==> !MapLine(lines[j], payload)
    ensures FirstRtpMap(lines, payload) == ""
  {
    if lines != [] {
      MapMeans(lines[0], payload);
      NoFirstMap(lines[1..], payload);
    }
  }

  /** Line j of the section maps the payload, and no earlier line of it does. */
  predicate FirstMapAt(section: seq<string>, payload: string, j: int) {
    1 <= j < |section| && MapLine(section[j], payload) && forall k :: 1 <= k < j ==> !MapLine(section[k], payload)
  }

  /** What a section of the offer selects. */
  ghost predicate Selects(section: seq<string>, offered: OfferedVideo)
    requires section != []
  {
    var tokens := Fields(section[0]);
    if |tokens| < 4 then offered.payload == "" && offered.rtpmap == ""
    else
      && offered.payload == (if "102" in tokens[3..] then "102" else tokens[3])
      && (forall j :: FirstMapAt(section, offered.payload, j) ==> offered.rtpmap == section[j])
      && ((forall j :: 1 <= j < |section| ==> !MapLine(section[j], offered.payload)) <==> offered.rtpmap == "")
  }

  lemma MapAtBody(section: seq<string>, payload: string)
    requires section != []
    ensures forall j :: FirstMapAt(section, payload, j) ==> FirstRtpMap(section[1..], payload) == section[j]
    ensures (forall j :: 1 <= j < |section| ==> !MapLine(section[j], payload)) ==>
              FirstRtpMap(section[1..], payload) == ""
  {
    assert forall j :: 1 <= j < |section| ==> section[1..][j - 1] == section[j];
    forall j | FirstMapAt(section, payload, j)
      ensures FirstRtpMap(section[1..], payload) == section[j]
    {
      FirstMapIs(section[1..], payload, j - 1);
    }
    if forall j :: 1 <= j < |section| ==> !MapLine(section[j], payload) {
      NoFirstMap(section[1..], payload);
    }
  }

  lemma {:induction false} LeastMap(section: seq<string>, payload: string, j: nat) returns (i: nat)
    requires 1 <= j < |section| && MapLine(section[j], payload)
    ensures FirstMapAt(section, payload, i)
    decreases j
  {
    if k: nat :| 1 <= k < j && MapLine(section[k], payload) {
      i := LeastMap(section, payload, k);
    } else {
      i := j;
    }
  }

  lemma MapFound(section: seq<string>, payload: string, j: nat)
    requires 1 <= j < |section| && MapLine(section[j], payload)
    ensures FirstRtpMap(section[1..], payload) != ""
  {
    var i := LeastMap(section, payload, j);
    MapAtBody(section, payload);
    assert "a=rtpmap:" <= section[i];
  }

  lemma EmptyMapMeansNone(section: seq<string>, payload: string)
    requires section != []
    ensures FirstRtpMap(section[1..], payload) == "" <==> forall j :: 1 <= j < |section| ==>
              !MapLine(section[j], payload)
  {
    MapAtBody(section, payload);
    if j: nat :| 1 <= j < |section| && MapLine(section[j], payload) {
      MapFound(section, payload, j);
    }
  }

  /** 102 if it is among the formats, else the first format; its first rtpmap line, if there is one. */
  lemma SelectsExactly(section: seq<string>)
    requires IsSection(section)
    ensures Selects(section, OfferedVideoOf(section))
  {
    var tokens := Fields(section[0]);
    if |tokens| >= 4 {
      var payload := SelectPayload(tokens);
      MapAtBody(section, payload);
      EmptyMapMeansNone(section, payload);
    }
  }

  /** How many of the first i sections are of video. */
  lemma {:induction false} OffersAt(sections: seq<seq<string>>, i: nat)
    requires AllSections(sections) && i < |sections| && "m=video " <= sections[i][0]
    ensures VideosBefore(sections, i) < |VideoOffers(sections)|
    ensures VideoOffers(sections)[VideosBefore(sections, i)] == OfferedVideoOf(sections[i])
  {
    PrefixSlice(sections[0][0], "m=video ");
    if i > 0 {
      OffersAt(sections[1..], i - 1);
    }
  }

  lemma {:induction false} OffersCount(sections: seq<seq<string>>)
    requires AllSections(sections)
    ensures |VideoOffers(sections)| == VideosBefore(sections, |sections|)
  {
    if sections != [] {
      OffersCount(sections[1..]);
    }
  }

  /** The indices of the video sections before section i. */
  function VideoIndices(sections: seq<seq<string>>, i: nat): set<int>
    requires AllSections(sections) && i <= |sections|
  {
    set j | 0 <= j < i && "m=video " <= sections[j][0]
  }

  lemma {:induction false} CountMeans(sections: seq<seq<string>>, i: nat)
    requires AllSections(sections) && i <= |sections|
    ensures VideosBefore(sections, i) == |VideoIndices(sections, i)|
    decreases i
  {
    if i == 0 {
      assert VideoIndices(sections, 0) == {};
    } else {
      CountMeans(sections, i - 1);
      CountNext(sections, i);
      PrefixSlice(sections[i - 1][0], "m=video ");
      var before := VideoIndices(sections, i - 1);
      if "m=video " <= sections[i - 1][0] {
        assert VideoIndices(sections, i) == before + {i - 1};
      } else {
        assert VideoIndices(sections, i) == before;
      }
    }
  }

  lemma {:induction false} CountNext(sections: seq<seq<string>>, i: nat)
    requires AllSections(sections) && 0 < i <= |sections|
    ensures VideosBefore(sections, i) == VideosBefore(sections, i - 1) + if IsVideo(sections[i - 1][0]) then 1 else 0
    decreases i
  {
    if i > 1 {
      CountNext(sections[1..], i - 1);
    }
  }

  /**
   * The k-th entry read of an offer is what its k-th `m=video ` section selects, and there are no other entries. The
   * offer's lines are those between LFs, CRLF counting as LF.
   */
  lemma OfferedExactly(offer: string, i: nat)
    requires i < |SectionsOf(Split(ReplaceCRLF(offer), LF))|
    ensures var sections := SectionsOf(Split(ReplaceCRLF(offer), LF));
            && |VideoOffersOf(offer)| == |VideoIndices(sections, |sections|)|
            && ("m=video " <= sections[i][0] ==>
                  var k := |VideoIndices(sections, i)|;
                  k < |VideoOffersOf(offer)| && Selects(sections[i], VideoOffersOf(offer)[k]))
  {
    var sections := SectionsOf(Split(ReplaceCRLF(offer), LF));
    OffersCount(sections);
    CountMeans(sections, |sections|);
    if "m=video " <= sections[i][0] {
      OffersAt(sections, i);
      CountMeans(sections, i);
      SelectsExactly(sections[i]);
    }
  }

  /** Sections without an offered counterpart stay as they are. */
  lemma {:induction false} BeyondOffers(sections: seq<seq<string>>, k: nat, offers: seq<OfferedVideo>)
    requires AllSections(sections) && k >= |offers|
    ensures VideoSections(sections, k, offers) == sections
  {
    if sections != [] {
      PairStep(sections, k, offers);
      BeyondOffers(sections[1..], NextOffer(sections, k), offers);
    }
  }

  // ---- the m-line ----

  /** The fourth token becomes the payload and every other character stays. */
  predicate Replaced(line: string, payload: string, result: string, start: nat, end: nat) {
    && start <= end <= |line| && |BlankFields(line)| == 4
    && line[start..end] == "0"
    && BlankFields(line[..start]) == BlankFields(line)[..3]
    && result == line[..start] + payload + line[end..]
  }

  /** Of four tokens the last is replaced in place; to three the payload is appended, after a space if none is there. */
  lemma MLineBytes(line: string, payload: string)
    requires RejectedVideo(BlankFields(line)) && payload != []
    ensures NormalizeMLine(line, payload).Some?
    ensures var result := NormalizeMLine(line, payload).value;
            if |BlankFields(line)| == 4 then exists start: nat, end: nat :: Replaced(line, payload, result, start, end)
            else line != "" && result == line + (if IsBlank(line[|line| - 1]) then "" else " ") + payload
  {
    MLineEligible(line, payload);
    FirstTokens(line);
    if |BlankFields(line)| == 4 {
      SpanCut(line, 3);
      var (start, end) := Spans(line)[3];
      assert Replaced(line, payload, NormalizeMLine(line, payload).value, start, end);
    } else {
      SpanCut(line, 2);
      AppendedBytes(line, payload);
    }
  }

  lemma AppendedBytes(line: string, payload: string)
    requires |Spans(line)| == |BlankFields(line)| == 3 && BlankFields(line[Spans(line)[2].1..]) == []
    requires payload != [] && NormalizeMLine(line, payload).Some?
    ensures line != ""
    ensures NormalizeMLine(line, payload) ==
            Some(line + (if IsBlank(line[|line| - 1]) then "" else " ") + payload)
  {
    var end := Spans(line)[2].1;
    assert line[..end] + line[end..] == line && line + "" == line;
    if end == |line| {
      LastOfToken(line);
    } else {
      BlankFrom(line, end);
    }
  }

  lemma LastOfToken(line: string)
    requires |Spans(line)| == 3 && Spans(line)[2].1 == |line|
    ensures line != "" && !IsBlank(line[|line| - 1])
  {
    SpanText(line, 0, 2);
    assert line[0..] == line;
    var word := BlankFields(line)[2];
    assert word in BlankFields(line) && word == line[Spans(line)[2].0..];
    assert word[|word| - 1] == line[|line| - 1] && word[|word| - 1] in word;
  }

  // ---- directions and other lines ----

  predicate DirectionLine(line: string) {
    line == "a=inactive" || line == "a=sendrecv" || line == "a=sendonly" || line == "a=recvonly"
  }

  /** The lines that neither give a direction nor map the payload, in order. */
  function OtherLines(lines: seq<string>, payload: string): seq<string> {
    if lines == [] then []
    else
      (if DirectionLine(lines[0]) || MapLine(lines[0], payload) then []
          else [lines[0]]) + OtherLines(lines[1..], payload)
  }

  function MapLines(lines: seq<string>, payload: string): seq<string> {
    if lines == [] then []
    else (if MapLine(lines[0], payload) then [lines[0]] else []) + MapLines(lines[1..], payload)
  }

  lemma {:induction false} OthersMean(lines: seq<string>, payload: string)
    ensures Others(lines, payload) == OtherLines(lines, payload)
    ensures Maps(lines, payload) == MapLines(lines, payload)
  {
    if lines != [] {
      MapMeans(lines[0], payload);
      OthersMean(lines[1..], payload);
    }
  }

  /**
   * A section changes exactly if its m-line rejects video and a payload is offered. Then it holds `a=inactive` and no
   * other direction, maps the payload as before or else by the offered line alone, and keeps all its other lines.
   */
  lemma VideoSectionInTokens(section: seq<string>, offered: OfferedVideo, last: bool)
    requires IsSection(section) && Usable(offered)
    ensures var result := VideoSection(section, offered, last);
            if "m=video " <= section[0] && offered.payload != "" && RejectedVideo(BlankFields(section[0])) then
              && result != [] && BlankFields(result[0]) == BlankFields(section[0])[..3] + [offered.payload]
              && "a=inactive" in result[1..]
              && (forall l :: l in result[1..] && DirectionLine(l) ==> l == "a=inactive")
              && OtherLines(result[1..], offered.payload) == OtherLines(section[1..], offered.payload)
              && MapLines(result[1..], offered.payload) ==
                 (if MapLines(section[1..], offered.payload) == [] && offered.rtpmap != "" then [offered.rtpmap]
                  else MapLines(section[1..], offered.payload))
            else result == section
  {
    VideoSectionExact(section, offered, last);
    MLineEligible(section[0], offered.payload);
    PrefixSlice(section[0], "m=video ");
    var result := VideoSection(section, offered, last);
    OthersMean(section[1..], offered.payload);
    OthersMean(result[1..], offered.payload);
  }

  /** Every direction becomes inactive where it stands, and every other line stays. */
  predicate InactiveInPlace(body: seq<string>, result: seq<string>) {
    && |result| == |body|
    && forall i :: 0 <= i < |body| ==> result[i] == if DirectionLine(body[i]) then "a=inactive" else body[i]
  }

  /** The end of a section's body is before the empty last line of the text, if it has one. */
  predicate AtEnd(body: seq<string>, last: bool, at: int) {
    if last && body != [] && body[|body| - 1] == "" then at == |body| - 1 else at == |body|
  }

  /** Before the first `a=` line, or without one at the end. */
  predicate AtFirst(body: seq<string>, last: bool, at: int) {
    && 0 <= at <= |body|
    && (forall i :: 0 <= i < at ==> !("a=" <= body[i]))
    && ((at < |body| && "a=" <= body[at]) || (AtEnd(body, last, at) && forall i :: 0 <= i < |body| ==>
        !("a=" <= body[i])))
  }

  /** A missing rtpmap goes before the first `a=` line, else to the end; a payload that is mapped gets no second one. */
  lemma RtpMapGoes(body: seq<string>, offered: OfferedVideo, last: bool)
    ensures var result := WithRtpMap(body, offered, last);
            if offered.rtpmap == "" || exists i :: 0 <= i < |body| && MapLine(body[i], offered.payload)
            then result == body
            else exists at :: AtFirst(body, last, at) && result == body[..at] + [offered.rtpmap] + body[at..]
  {
    forall i | 0 <= i < |body|
      ensures IsAttribute(body[i]) <==> "a=" <= body[i]
      ensures MapsPayload(body[i], offered.payload) <==> MapLine(body[i], offered.payload)
    {
      PrefixSlice(body[i], "a=");
      MapMeans(body[i], offered.payload);
    }
    assert AtFirst(body, last, MapPosition(body, last));
  }

  /** A missing direction goes to the end; directions that are there become inactive in place. */
  lemma DirectionGoes(body: seq<string>, last: bool)
    ensures var result := WithInactive(body, last);
            if exists i :: 0 <= i < |body| && DirectionLine(body[i]) then InactiveInPlace(body, result)
            else exists at :: AtEnd(body, last, at) && 0 <= at && result == body[..at] + ["a=inactive"] + body[at..]
  {
    assert AtEnd(body, last, EndPosition(body, last));
  }
}
