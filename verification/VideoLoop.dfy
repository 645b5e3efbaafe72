/** The in-place loop of `normalizeAlexaRejectedVideoPayloads` computes the per-section specification. */
module VideoLoop {
  import opened GoText
  import opened Sequences
  import opened Tokens
  import opened Sections
  import opened VideoPayloads

  /** `normalizeAlexaRejectedVideoMLine`. */
  method NormalizeVideoMLine(line: string, payload: string) returns (normalized: string, eligible: bool)
    ensures eligible == NormalizeMLine(line, payload).Some?
    ensures normalized == if eligible then NormalizeMLine(line, payload).value else line
  {
    if payload == "" {
      return line, false;
    }
    var spans := FieldSpans(line);
    if |spans| < 3 || |spans| > 4
       || line[spans[0].0..spans[0].1] != "m=video" || line[spans[1].0..spans[1].1] != "0" {
      return line, false;
    }
    if |spans| == 4 {
      if line[spans[3].0..spans[3].1] != "0" {
        return line, false;
      }
      return line[..spans[3].0] + payload + line[spans[3].1..], true;
    }
    var separator := " ";
    var trailing := line[spans[2].1..];
    if trailing != "" {
      separator := trailing;
    }
    return line[..spans[2].1] + separator + payload, true;
  }

  /** Grow by one, shift the tail right, write the line: `append`, `copy`, assignment. */
  method InsertLine(lines: seq<string>, at: nat, line: string) returns (grown: seq<string>)
    requires at <= |lines|
    ensures grown == Insert(lines, at, line)
  {
    grown := lines + [""];
    grown := grown[..at + 1] + grown[at..|grown| - 1];
    grown := grown[at := line];
  }

  /** `alexaSectionHasRTPMap`. */
  method SectionHasRtpMap(lines: seq<string>, payload: string) returns (found: bool)
    ensures found == HasRtpMap(lines, payload)
  {
    var i := 0;
    while i < |lines|
      invariant 0 <= i <= |lines|
      invariant forall j :: 0 <= j < i ==> !MapsPayload(lines[j], payload)
    {
      var mapped := ParseRtpMap(lines[i]);
      if mapped == Some(payload) {
        assert MapsPayload(lines[i], payload);
        return true;
      }
      i := i + 1;
    }
    return false;
  }

  /** A text cut into the lines up to an m-line, the section body, and the rest. */
  ghost predicate Cut(lines: seq<string>, start: nat, end: nat, head: seq<string>, body: seq<string>,
      rest: seq<string>) {
    && start < end <= |lines|
    && lines == head + body + rest
    && |head| == start + 1 && |body| == end - start - 1
    && head != [] && Last(head) != []
  }

  lemma InsertInBody(head: seq<string>, body: seq<string>, rest: seq<string>, at: nat, line: string)
    requires at <= |body|
    ensures Insert(head + body + rest, |head| + at, line) == head + Insert(body, at, line) + rest
  {
  }

  /** The scan for the first attribute, one line on. */
  lemma AttributeNext(lines: seq<string>, i: nat, end: nat)
    requires i < end <= |lines|
    ensures FirstAttribute(lines[i..end]) == if IsAttribute(lines[i]) then 0 else 1 + FirstAttribute(lines[i + 1..end])
  {
    assert lines[i..end][1..] == lines[i + 1..end];
  }

  lemma CutBody(lines: seq<string>, start: nat, end: nat, head: seq<string>, body: seq<string>, rest: seq<string>)
    requires Cut(lines, start, end, head, body, rest)
    ensures lines[start + 1..end] == body
  {
  }

  /** The scan for the first attribute line of a section, `server.go:475-480`. */
  method FindAttribute(lines: seq<string>, start: nat, end: nat) returns (at: nat)
    requires start < end <= |lines|
    ensures at == start + 1 + FirstAttribute(lines[start + 1..end])
  {
    at := end;
    var i := start + 1;
    while i < end
      invariant start + 1 <= i <= end
      invariant at == end
      invariant FirstAttribute(lines[start + 1..end]) == i - start - 1 + FirstAttribute(lines[i..end])
    {
      AttributeNext(lines, i, end);
      if IsAttribute(lines[i]) {
        at := i;
        break;
      }
      i := i + 1;
    }
  }

  /** The section ends the text exactly when nothing follows, and then the last line is the body's, if it has one. */
  lemma CutEnd(lines: seq<string>, start: nat, end: nat, head: seq<string>, body: seq<string>, rest: seq<string>)
    requires Cut(lines, start, end, head, body, rest)
    ensures end == |lines| <==> rest == []
    ensures lines[end - 1] == if body == [] then Last(head) else Last(body)
  {
  }

  /** Where the copied rtpmap goes, `server.go:474-483`. */
  method FindMapPosition(lines: seq<string>, start: nat, end: nat, ghost head: seq<string>, ghost body: seq<string>,
                         ghost rest: seq<string>)
    returns (at: nat)
    requires Cut(lines, start, end, head, body, rest)
    ensures at == start + 1 + MapPosition(body, rest == [])
  {
    CutBody(lines, start, end, head, body, rest);
    at := FindAttribute(lines, start, end);
    CutEnd(lines, start, end, head, body, rest);
    if at == |lines| && at > 0 && lines[at - 1] == "" {
      at := at - 1;
    }
  }

  /** Where a missing direction goes, `server.go:500-503`. */
  method FindEndPosition(lines: seq<string>, start: nat, end: nat, ghost head: seq<string>, ghost body: seq<string>,
                         ghost rest: seq<string>)
    returns (at: nat)
    requires Cut(lines, start, end, head, body, rest)
    ensures at == start + 1 + EndPosition(body, rest == [])
  {
    CutEnd(lines, start, end, head, body, rest);
    at := end;
    if at == |lines| && at > 0 && lines[at - 1] == "" {
      at := at - 1;
    }
  }

  /** The rtpmap step, `server.go:473-488`. */
  method CopyRtpMap(lines: seq<string>, start: nat, end: nat, offered: OfferedVideo, ghost head: seq<string>,
                    ghost body: seq<string>, ghost rest: seq<string>)
    returns (edited: seq<string>, sectionEnd: nat)
    requires Cut(lines, start, end, head, body, rest)
    ensures Cut(edited, start, sectionEnd, head, WithRtpMap(body, offered, rest == []), rest)
  {
    edited, sectionEnd := lines, end;
    if offered.rtpmap != "" {
      assert lines[start + 1..end] == body;
      var found := SectionHasRtpMap(lines[start + 1..end], offered.payload);
      if !found {
        var insertAt := FindMapPosition(lines, start, end, head, body, rest);
        edited := InsertLine(lines, insertAt, offered.rtpmap);
        InsertInBody(head, body, rest, MapPosition(body, rest == []), offered.rtpmap);
        sectionEnd := sectionEnd + 1;
      }
    }
  }

  /** The body lines before `i` have been set inactive. */
  ghost predicate Inactivating(lines: seq<string>, start: nat, end: nat, i: nat, hasDirection: bool, head: seq<string>,
                               body: seq<string>, rest: seq<string>)
  {
    && i <= |body|
    && Cut(lines, start, end, head, Inactivate(body[..i]) + body[i..], rest)
    && hasDirection == HasDirection(body[..i])
  }

  lemma InactivatingStep(lines: seq<string>, start: nat, end: nat, i: nat, hasDirection: bool, head: seq<string>,
                         body: seq<string>, rest: seq<string>)
    requires Inactivating(lines, start, end, i, hasDirection, head, body, rest) && i < |body|
    ensures start + 1 + i < |lines| && lines[start + 1 + i] == body[i]
    ensures Inactivating(lines[start + 1 + i := Inactivated(body[i])], start, end, i + 1,
                         hasDirection || IsDirection(body[i]), head, body, rest)
  {
    var before, after := Inactivate(body[..i]) + body[i..], Inactivate(body[..i + 1]) + body[i + 1..];
    assert before[i] == body[i];
    assert after == before[i := Inactivated(body[i])];
    assert body[..i + 1] == body[..i] + [body[i]];
    if HasDirection(body[..i]) {
      var j :| 0 <= j < i && IsDirection(body[..i][j]);
      assert body[..i + 1][j] == body[..i][j];
    }
    assert IsDirection(body[i]) ==> IsDirection(body[..i + 1][i]);
    if HasDirection(body[..i + 1]) && !IsDirection(body[i]) {
      var j :| 0 <= j < i + 1 && IsDirection(body[..i + 1][j]);
      assert body[..i + 1][j] == body[..i][j];
    }
  }

  lemma InactivatingEnds(lines: seq<string>, start: nat, end: nat, hasDirection: bool, head: seq<string>,
                         body: seq<string>, rest: seq<string>)
    requires Cut(lines, start, end, head, body, rest)
    ensures Inactivating(lines, start, end, 0, false, head, body, rest)
  {
    assert body[..0] == [] && Inactivate([]) == [] && [] + body[0..] == body;
  }

  /** The direction loop, `server.go:489-498`. */
  method SetInactive(lines: seq<string>, start: nat, end: nat, ghost head: seq<string>, ghost body: seq<string>,
                     ghost rest: seq<string>)
    returns (edited: seq<string>, hasDirection: bool)
    requires Cut(lines, start, end, head, body, rest)
    ensures Cut(edited, start, end, head, Inactivate(body), rest)
    ensures hasDirection == HasDirection(body)
  {
    edited, hasDirection := lines, false;
    InactivatingEnds(lines, start, end, false, head, body, rest);
    var i := 0;
    while i < end - start - 1
      invariant 0 <= i <= |body| == end - start - 1
      invariant Inactivating(edited, start, end, i, hasDirection, head, body, rest)
    {
      InactivatingStep(edited, start, end, i, hasDirection, head, body, rest);
      ghost var before, had := edited, hasDirection;
      match edited[start + 1 + i] {
        case "a=inactive" => hasDirection := true;
        case "a=sendrecv" | "a=sendonly" | "a=recvonly" =>
          edited := edited[start + 1 + i := "a=inactive"];
          hasDirection := true;
        case _ =>
      }
      assert edited == before[start + 1 + i := Inactivated(body[i])];
      assert hasDirection == (had || IsDirection(body[i]));
      i := i + 1;
    }
    assert body[..i] == body && Inactivate(body) + body[i..] == Inactivate(body);
  }

  /** The edit of an eligible section whose m-line is already rewritten, `server.go:469-508`. */
  method EditBody(lines: seq<string>, start: nat, offered: OfferedVideo) returns (edited: seq<string>, inserted: bool)
    requires start < |lines| && lines[start] != []
    ensures var end := NextMedia(lines, start + 1);
            edited == lines[..start + 1]
                      + WithInactive(WithRtpMap(lines[start + 1..end], offered, end == |lines|), end == |lines|)
                      + lines[end..]
    ensures inserted ==> |edited| > start + 1
    ensures inserted ==> var end := NextMedia(lines, start + 1);
                         |WithInactive(WithRtpMap(lines[start + 1..end], offered, end == |lines|), end == |lines|)| > 0
  {
    var sectionEnd := ScanEnd(lines, start);
    ghost var head, body, rest := lines[..start + 1], lines[start + 1..sectionEnd], lines[sectionEnd..];
    assert lines == head + body + rest;
    ghost var last := rest == [];
    edited, sectionEnd := CopyRtpMap(lines, start, sectionEnd, offered, head, body, rest);
    ghost var mapped := WithRtpMap(body, offered, last);
    var hasDirection;
    edited, hasDirection := SetInactive(edited, start, sectionEnd, head, mapped, rest);
    inserted := !hasDirection;
    if !hasDirection {
      NoDirection(mapped);
      var insertAt := FindEndPosition(edited, start, sectionEnd, head, mapped, rest);
      InsertInBody(head, mapped, rest, EndPosition(mapped, last), INACTIVE);
      edited := InsertLine(edited, insertAt, "a=inactive");
    }
  }

  lemma NoDirection(body: seq<string>)
    requires !HasDirection(body)
    ensures Inactivate(body) == body
  {
  }

  /** The scan for the end of the section, `server.go:469-472`; the m-line itself was just rewritten. */
  method ScanEnd(lines: seq<string>, start: nat) returns (sectionEnd: nat)
    requires start < |lines|
    ensures sectionEnd == NextMedia(lines, start + 1)
  {
    sectionEnd := start + 1;
    while sectionEnd < |lines| && !IsMedia(lines[sectionEnd])
      invariant start + 1 <= sectionEnd <= |lines|
      invariant NextMedia(lines, start + 1) == NextMedia(lines, sectionEnd)
    {
      sectionEnd := sectionEnd + 1;
    }
  }

  // ---- the specification from a line on ----

  function VideoTail(rest: seq<string>, k: nat, offers: seq<OfferedVideo>): seq<string> {
    Rebuild(rest, VideoSections(SectionsOf(rest), k, offers))
  }

  lemma VideoCons(section: seq<string>, rest: seq<seq<string>>, k: nat, offers: seq<OfferedVideo>)
    requires IsSection(section) && AllSections(rest)
    ensures AllSections([section] + rest)
    ensures VideoSections([section] + rest, k, offers) ==
            [VideoSection(section, OfferAt(offers, k), rest == [])]
            + VideoSections(rest, if IsVideo(section[0]) then k + 1 else k, offers)
  {
    assert ([section] + rest)[1..] == rest;
  }

  lemma TailSkip(lines: seq<string>, i: nat, k: nat, offers: seq<OfferedVideo>)
    requires i < |lines| && !IsMedia(lines[i])
    ensures VideoTail(lines[i..], k, offers) == [lines[i]] + VideoTail(lines[i + 1..], k, offers)
  {
    ScanPreamble(lines, i);
  }

  lemma TailStep(lines: seq<string>, start: nat, end: nat, k: nat, offers: seq<OfferedVideo>)
    requires IsSectionEnd(lines, start, end)
    ensures IsSection(lines[start..end])
    ensures VideoTail(lines[start..], k, offers) ==
            VideoSection(lines[start..end], OfferAt(offers, k), end == |lines|)
            + VideoTail(lines[end..], if IsVideo(lines[start]) then k + 1 else k, offers)
  {
    ScanSection(lines, start, end);
    LastSection(lines, end);
    assert lines[start..end][1..] == lines[start + 1..end];
    TailCons(lines[start..end], SectionsOf(lines[end..]), k, offers, end == |lines|,
        if IsVideo(lines[start]) then k + 1 else k);
  }

  lemma TailCons(section: seq<string>, rest: seq<seq<string>>, k: nat, offers: seq<OfferedVideo>, last: bool, next: nat)
    requires IsSection(section) && AllSections(rest)
    requires last == (rest == []) && next == if IsVideo(section[0]) then k + 1 else k
    ensures AllSections([section] + rest)
    ensures Concat(VideoSections([section] + rest, k, offers)) ==
            VideoSection(section, OfferAt(offers, k), last) + Concat(VideoSections(rest, next, offers))
  {
    VideoCons(section, rest, k, offers);
    ConcatCons(VideoSection(section, OfferAt(offers, k), last), VideoSections(rest, next, offers));
  }

  lemma LastSection(lines: seq<string>, end: nat)
    requires end <= |lines| && Parse(lines[end..]).preamble == []
    ensures SectionsOf(lines[end..]) == [] <==> end == |lines|
  {
    assert Flat(Parse(lines[end..])) == lines[end..];
  }

  /** The lines up to `done` are final, the rest is untouched, and no m-line in between is left to visit. */
  ghost predicate Rewritten(goal: seq<string>, lines: seq<string>, lineIndex: int, done: int, k: nat,
                            offers: seq<OfferedVideo>)
  {
    && 0 <= lineIndex <= done <= |lines|
    && (forall i :: lineIndex <= i < done ==> !IsMedia(lines[i]))
    && goal == lines[..done] + VideoTail(lines[done..], k, offers)
  }

  lemma RewrittenStart(lines: seq<string>, offers: seq<OfferedVideo>)
    ensures Rewritten(VideoLines(lines, offers), lines, 0, 0, 0, offers)
  {
    assert lines[0..] == lines;
  }

  lemma RewrittenAll(goal: seq<string>, lines: seq<string>, lineIndex: int, done: int, k: nat,
      offers: seq<OfferedVideo>)
    requires Rewritten(goal, lines, lineIndex, done, k, offers) && lineIndex >= |lines|
    ensures lines == goal
  {
    assert lines[done..] == [] && lines[..done] == lines;
  }

  lemma RewrittenOther(goal: seq<string>, lines: seq<string>, lineIndex: int, done: int, k: nat,
      offers: seq<OfferedVideo>)
    requires Rewritten(goal, lines, lineIndex, done, k, offers) && lineIndex < |lines| && !IsMedia(lines[lineIndex])
    ensures Rewritten(goal, lines, lineIndex + 1, if lineIndex == done then done + 1 else done, k, offers)
  {
    if lineIndex == done {
      TailSkip(lines, lineIndex, k, offers);
      Regroup(lines[..done], [lines[done]], VideoTail(lines[done + 1..], k, offers));
      assert lines[..done + 1] == lines[..done] + [lines[done]];
    }
  }

  /** One section is replaced by what the specification asks for. */
  lemma RewrittenSection(goal: seq<string>, lines: seq<string>, start: int, end: int, k: nat, offers: seq<OfferedVideo>,
                         edited: seq<string>, next: int)
    requires Rewritten(goal, lines, start, start, k, offers) && 0 <= end && IsSectionEnd(lines, start, end)
    requires IsSection(lines[start..end])
    requires var result := VideoSection(lines[start..end], OfferAt(offers, k), end == |lines|);
             && edited == lines[..start] + result + lines[end..]
             && NoMedia(result[1..])
             && start < next <= start + |result|
    ensures Rewritten(goal, edited, next, start + |VideoSection(lines[start..end], OfferAt(offers, k), end == |lines|)|,
                      if IsVideo(lines[start]) then k + 1 else k, offers)
  {
    var result := VideoSection(lines[start..end], OfferAt(offers, k), end == |lines|);
    var done := start + |result|;
    TailStep(lines, start, end, k, offers);
    assert edited[..done] == lines[..start] + result && edited[done..] == lines[end..];
    Regroup(lines[..start], result, VideoTail(lines[end..], if IsVideo(lines[start]) then k + 1 else k, offers));
    forall i | next <= i < done
      ensures !IsMedia(edited[i])
    {
      assert edited[i] == result[1..][i - start - 1];
    }
  }

  // ---- termination: the m=video lines not yet visited ----

  function Videos(lines: seq<string>): nat {
    if lines == [] then 0 else (if IsVideo(lines[0]) then 1 else 0) + Videos(lines[1..])
  }

  lemma {:induction false} VideosAppend(a: seq<string>, b: seq<string>)
    ensures Videos(a + b) == Videos(a) + Videos(b)
  {
    if a == [] {
      assert a + b == b;
    } else {
      assert (a + b)[1..] == a[1..] + b;
      VideosAppend(a[1..], b);
    }
  }

  lemma {:induction false} NoVideos(lines: seq<string>)
    requires NoMedia(lines)
    ensures Videos(lines) == 0
  {
    if lines != [] {
      assert forall i :: 0 <= i < |lines| - 1 ==> lines[1..][i] == lines[i + 1];
      NoVideos(lines[1..]);
      if IsVideo(lines[0]) {
        VideoIsMedia(lines[0]);
      }
    }
  }

  /** Lines before the next m-line hold no video line. */
  lemma VideosFrom(lines: seq<string>, i: nat, done: nat)
    requires i <= done <= |lines| && forall j :: i <= j < done ==> !IsMedia(lines[j])
    ensures Videos(lines[i..]) == Videos(lines[done..])
  {
    assert lines[i..] == lines[i..done] + lines[done..];
    NoVideos(lines[i..done]);
    VideosAppend(lines[i..done], lines[done..]);
  }

  // ---- the offers ----

  /** A copied rtpmap line maps the payload it was selected for. */
  predicate GoodOffer(offered: OfferedVideo) {
    offered.rtpmap == [] || MapsPayload(offered.rtpmap, offered.payload)
  }

  predicate GoodOffers(offers: seq<OfferedVideo>) {
    forall k :: 0 <= k < |offers| ==> GoodOffer(offers[k])
  }

  lemma {:induction false} FirstRtpMapGood(lines: seq<string>, payload: string)
    ensures FirstRtpMap(lines, payload) == [] || MapsPayload(FirstRtpMap(lines, payload), payload)
  {
    if lines != [] {
      FirstRtpMapGood(lines[1..], payload);
    }
  }

  lemma {:induction false} VideoOffersGood(sections: seq<seq<string>>)
    requires AllSections(sections)
    ensures GoodOffers(VideoOffers(sections))
  {
    if sections != [] {
      VideoOffersGood(sections[1..]);
      OfferedVideoGood(sections[0]);
    }
  }

  lemma OfferedVideoGood(section: seq<string>)
    requires IsSection(section)
    ensures GoodOffer(OfferedVideoOf(section))
  {
    var fields := Fields(section[0]);
    if |fields| >= 4 {
      FirstRtpMapGood(section[1..], SelectPayload(fields));
    }
  }

  lemma MapIsAttribute(line: string, payload: string)
    requires MapsPayload(line, payload)
    ensures !IsMedia(line) && line != []
  {
    PrefixAt(line, RTPMAP, 0);
  }

  lemma InsertNoMedia(body: seq<string>, at: nat, line: string)
    requires NoMedia(body) && at <= |body| && !IsMedia(line)
    ensures NoMedia(Insert(body, at, line))
  {
    var result := Insert(body, at, line);
    forall i | 0 <= i < |result|
      ensures !IsMedia(result[i])
    {
      assert result[i] == if i < at then body[i] else if i == at then line else body[i - 1];
    }
  }

  lemma EditedNoMedia(body: seq<string>, offered: OfferedVideo, last: bool)
    requires NoMedia(body) && GoodOffer(offered)
    ensures NoMedia(WithInactive(WithRtpMap(body, offered, last), last))
  {
    if offered.rtpmap != [] {
      MapIsAttribute(offered.rtpmap, offered.payload);
      InsertNoMedia(body, MapPosition(body, last), offered.rtpmap);
    }
    var mapped := WithRtpMap(body, offered, last);
    assert INACTIVE[0] == 'a';
    InsertNoMedia(mapped, EndPosition(mapped, last), INACTIVE);
    forall i | 0 <= i < |mapped|
      ensures !IsMedia(Inactivate(mapped)[i])
    {
    }
  }

  // ---- the loop ----

  /** The m-line step for a `m=video ` line, `server.go:463-508`. */
  method EditVideo(lines: seq<string>, start: nat, offered: OfferedVideo, ghost goal: seq<string>, ghost k: nat,
                   ghost offers: seq<OfferedVideo>)
    returns (edited: seq<string>, skip: bool, ghost done: int)
    requires start < |lines| && IsVideo(lines[start]) && IsMedia(lines[start])
    requires offered == OfferAt(offers, k) && GoodOffer(offered)
    requires Rewritten(goal, lines, start, start, k, offers)
    ensures Rewritten(goal, edited, if skip then start + 2 else start + 1, done, k + 1, offers)
    ensures Videos(edited[if skip then start + 2 else start + 1..]) < Videos(lines[start..])
  {
    ghost var end := NextMedia(lines, start + 1);
    ghost var section, last := lines[start..end], end == |lines|;
    assert section[1..] == lines[start + 1..end] && NoMedia(section[1..]);
    assert IsSection(section);
    ghost var result := VideoSection(section, offered, last);
    var line, eligible := NormalizeVideoMLine(lines[start], offered.payload);
    if !eligible {
      edited, skip := lines, false;
      Threefold(lines, start, end);
    } else {
      NormalizedNotEmpty(lines[start], offered.payload);
      EditedNoMedia(section[1..], offered, last);
      edited := lines[start := line];
      MLineReplaced(lines, start, line);
      edited, skip := EditBody(edited, start, offered);
      EditedSection(lines, start, end, line, result[1..]);
    }
    done := start + |result|;
    RewrittenSection(goal, lines, start, end, k, offers, edited, if skip then start + 2 else start + 1);
    FewerVideos(lines, start, end, edited, result, if skip then start + 2 else start + 1);
  }

  lemma Threefold(lines: seq<string>, start: nat, end: nat)
    requires start <= end <= |lines|
    ensures lines == lines[..start] + lines[start..end] + lines[end..]
  {
  }

  lemma NormalizedNotEmpty(line: string, payload: string)
    requires NormalizeMLine(line, payload).Some?
    ensures NormalizeMLine(line, payload).value != []
  {
  }

  /** Rewriting the m-line does not move the next one. */
  lemma MLineReplaced(lines: seq<string>, start: nat, line: string)
    requires start < |lines|
    ensures var edited := lines[start := line];
            && NextMedia(edited, start + 1) == NextMedia(lines, start + 1)
            && edited[start + 1..NextMedia(lines, start + 1)] == lines[start + 1..NextMedia(lines, start + 1)]
            && edited[NextMedia(lines, start + 1)..] == lines[NextMedia(lines, start + 1)..]
            && edited[..start + 1] == lines[..start] + [line]
  {
    NextMediaReplaced(lines, start, line, start + 1);
  }

  lemma {:induction false} NextMediaReplaced(lines: seq<string>, start: nat, line: string, i: nat)
    requires start < i <= |lines|
    ensures NextMedia(lines[start := line], i) == NextMedia(lines, i)
    decreases |lines| - i
  {
    if i < |lines| && !IsMedia(lines[i]) {
      NextMediaReplaced(lines, start, line, i + 1);
    }
  }

  lemma EditedSection(lines: seq<string>, start: nat, end: nat, line: string, body: seq<string>)
    requires start < end <= |lines|
    ensures (lines[..start] + [line]) + body + lines[end..] == lines[..start] + ([line] + body) + lines[end..]
  {
  }

  lemma FewerVideos(lines: seq<string>, start: nat, end: nat, edited: seq<string>, result: seq<string>, next: nat)
    requires IsSectionEnd(lines, start, end) && IsVideo(lines[start])
    requires edited == lines[..start] + result + lines[end..]
    requires NoMedia(result[if |result| > 0 then 1 else 0..]) && start < next <= start + |result|
    ensures Videos(edited[next..]) < Videos(lines[start..])
  {
    var done := start + |result|;
    assert edited[done..] == lines[end..];
    forall j | next <= j < done
      ensures !IsMedia(edited[j])
    {
      assert edited[j] == result[1..][j - start - 1];
    }
    VideosFrom(edited, next, done);
    VideosFrom(lines, start + 1, end);
    assert lines[start..][1..] == lines[start + 1..];
  }

  /** Any other line: pass over it. */
  lemma PassLine(goal: seq<string>, lines: seq<string>, lineIndex: nat, done: int, k: nat, offers: seq<OfferedVideo>)
    returns (next: int)
    requires Rewritten(goal, lines, lineIndex, done, k, offers) && lineIndex < |lines| && !IsVideo(lines[lineIndex])
    ensures Rewritten(goal, lines, lineIndex + 1, next, k, offers)
    ensures Videos(lines[lineIndex + 1..]) == Videos(lines[lineIndex..])
  {
    assert lines[lineIndex..][1..] == lines[lineIndex + 1..];
    if !IsMedia(lines[lineIndex]) {
      RewrittenOther(goal, lines, lineIndex, done, k, offers);
      next := if lineIndex == done then done + 1 else done;
    } else {
      var end := NextMedia(lines, lineIndex + 1);
      var section := lines[lineIndex..end];
      assert section[1..] == lines[lineIndex + 1..end] && NoMedia(section[1..]);
      Threefold(lines, lineIndex, end);
      RewrittenSection(goal, lines, lineIndex, end, k, offers, lines, lineIndex + 1);
      next := lineIndex + |section|;
    }
  }

  /**
   * The loop terminates although a round may add two lines: the video lines not yet visited decrease, or they stay
   * and the lines after `lineIndex` decrease.
   */
  method RewriteVideos(input: seq<string>, offers: seq<OfferedVideo>) returns (lines: seq<string>)
    requires GoodOffers(offers)
    ensures lines == VideoLines(input, offers)
  {
    lines := input;
    var videoIndex, lineIndex := 0, 0;
    ghost var goal, done := VideoLines(input, offers), 0;
    RewrittenStart(input, offers);
    while lineIndex < |lines|
      invariant 0 <= videoIndex && 0 <= lineIndex
      invariant Rewritten(goal, lines, lineIndex, done, videoIndex, offers)
      decreases Videos(lines[lineIndex..]), |lines| - lineIndex
    {
      if !IsVideo(lines[lineIndex]) {
        done := PassLine(goal, lines, lineIndex, done, videoIndex, offers);
      } else {
        VideoIsMedia(lines[lineIndex]);
        assert done == lineIndex;
        var offered := NOTHING;
        if videoIndex < |offers| {
          offered := offers[videoIndex];
        }
        var skip;
        lines, skip, done := EditVideo(lines, lineIndex, offered, goal, videoIndex, offers);
        videoIndex := videoIndex + 1;
        if skip {
          lineIndex := lineIndex + 1;
        }
      }
      lineIndex := lineIndex + 1;
    }
    RewrittenAll(goal, lines, lineIndex, done, videoIndex, offers);
  }

  lemma {:induction false} NoOffers(sections: seq<seq<string>>, k: nat)
    requires AllSections(sections)
    ensures VideoSections(sections, k, []) == sections
  {
    if sections != [] {
      NoOffers(sections[1..], if IsVideo(sections[0][0]) then k + 1 else k);
    }
  }

  /** `normalizeAlexaRejectedVideoPayloads`. */
  method NormalizeRejectedVideoPayloads(offer: string, answer: string) returns (normalized: string)
    ensures normalized == VideoText(offer, answer)
  {
    var offers := OfferedVideoPayloads(offer);
    if |offers| == 0 {
      NoOffers(SectionsOf(Lines(answer)), 0);
      LinesStable(answer);
      return answer;
    }
    var separator := LF;
    if Contains(answer, CRLF) {
      separator := CRLF;
    }
    VideoOffersGood(SectionsOf(Split(ReplaceCRLF(offer), LF)));
    var lines := Split(answer, separator);
    lines := RewriteVideos(lines, offers);
    normalized := Join(lines, separator);
  }
}
