/** `normalizeAlexaRejectedVideoPayloads`: the per-section specification of the in-place rewriter. */
module VideoPayloads {
  import opened GoText
  import opened Tokens
  import opened Sections

  const RTPMAP := "a=rtpmap:"
  const INACTIVE := "a=inactive"

  predicate IsVideo(line: string) {
    HasPrefix(line, "m=video ")
  }

  /** What an offered video section selects; an empty payload means nothing usable was offered. */
  datatype OfferedVideo = OfferedVideo(payload: string, rtpmap: string)

  const NOTHING := OfferedVideo("", "")

  /** `alexaRTPMapPayload`. */
  function RtpMapPayload(line: string): Option<string> {
    if !HasPrefix(line, RTPMAP) then None
    else
      var value := TrimPrefix(line, RTPMAP);
      var spans := Spans(value);
      if |spans| < 2 then None else Some(value[spans[0].0..spans[0].1])
  }

  predicate MapsPayload(line: string, payload: string) {
    RtpMapPayload(line) == Some(payload)
  }

  predicate HasRtpMap(lines: seq<string>, payload: string) {
    exists i :: 0 <= i < |lines| && MapsPayload(lines[i], payload)
  }

  function FirstRtpMap(lines: seq<string>, payload: string): string {
    if lines == [] then []
    else if MapsPayload(lines[0], payload) then lines[0]
    else FirstRtpMap(lines[1..], payload)
  }

  /** Payload 102 when offered, else the first one. */
  function SelectPayload(fields: seq<string>): string
    requires |fields| >= 4
  {
    if "102" in fields[3..] then "102" else fields[3]
  }

  function OfferedVideoOf(section: seq<string>): OfferedVideo
    requires IsSection(section)
  {
    var fields := Fields(section[0]);
    if |fields| < 4 then NOTHING
    else OfferedVideo(SelectPayload(fields), FirstRtpMap(section[1..], SelectPayload(fields)))
  }

  /** One entry per offered `m=video ` section, in order. */
  function VideoOffers(sections: seq<seq<string>>): seq<OfferedVideo>
    requires AllSections(sections)
  {
    if sections == [] then []
    else (if IsVideo(sections[0][0]) then [OfferedVideoOf(sections[0])] else []) + VideoOffers(sections[1..])
  }

  function VideoOffersOf(offer: string): seq<OfferedVideo> {
    VideoOffers(SectionsOf(Split(ReplaceCRLF(offer), LF)))
  }

  function OfferAt(offers: seq<OfferedVideo>, k: nat): OfferedVideo {
    if k < |offers| then offers[k] else NOTHING
  }

  /** `normalizeAlexaRejectedVideoMLine`; `None` is "not eligible". */
  function NormalizeMLine(line: string, payload: string): Option<string> {
    if payload == [] then None
    else
      var spans := Spans(line);
      if |spans| < 3 || |spans| > 4
         || line[spans[0].0..spans[0].1] != "m=video" || line[spans[1].0..spans[1].1] != "0" then None
      else if |spans| == 4 then
        if line[spans[3].0..spans[3].1] != "0" then None
        else Some(line[..spans[3].0] + payload + line[spans[3].1..])
      else
        var trailing := line[spans[2].1..];
        Some(line[..spans[2].1] + (if trailing != [] then trailing else " ") + payload)
  }

  predicate IsActiveDirection(line: string) {
    line == "a=sendrecv" || line == "a=sendonly" || line == "a=recvonly"
  }

  predicate IsDirection(line: string) {
    line == INACTIVE || IsActiveDirection(line)
  }

  predicate HasDirection(lines: seq<string>) {
    exists i :: 0 <= i < |lines| && IsDirection(lines[i])
  }

  function Inactivated(line: string): string {
    if IsActiveDirection(line) then INACTIVE else line
  }

  function Inactivate(lines: seq<string>): (result: seq<string>)
    ensures |result| == |lines|
    ensures forall i :: 0 <= i < |lines| ==> result[i] == Inactivated(lines[i])
  {
    seq(|lines|, i requires 0 <= i < |lines| => Inactivated(lines[i]))
  }

  /** The end of a section body, before the empty last line of the text. */
  function EndPosition(body: seq<string>, last: bool): (at: nat)
    ensures at <= |body|
  {
    if last && body != [] && Last(body) == [] then |body| - 1 else |body|
  }

  /** Where a copied rtpmap goes: before the first attribute, else at the end. */
  function MapPosition(body: seq<string>, last: bool): (at: nat)
    ensures at <= |body|
  {
    if FirstAttribute(body) < |body| then FirstAttribute(body) else EndPosition(body, last)
  }

  function Insert(lines: seq<string>, at: nat, line: string): seq<string>
    requires at <= |lines|
  {
    lines[..at] + [line] + lines[at..]
  }

  function WithRtpMap(body: seq<string>, offered: OfferedVideo, last: bool): seq<string> {
    if offered.rtpmap != [] && !HasRtpMap(body, offered.payload)
    then Insert(body, MapPosition(body, last), offered.rtpmap)
    else body
  }

  function WithInactive(body: seq<string>, last: bool): seq<string> {
    if HasDirection(body) then Inactivate(body) else Insert(body, EndPosition(body, last), INACTIVE)
  }

  /** The edit of one section; `last` says that it ends the text. */
  function VideoSection(section: seq<string>, offered: OfferedVideo, last: bool): seq<string>
    requires IsSection(section)
  {
    if !IsVideo(section[0]) || NormalizeMLine(section[0], offered.payload).None? then section
    else
      [NormalizeMLine(section[0], offered.payload).value]
      + WithInactive(WithRtpMap(section[1..], offered, last), last)
  }

  /** The sections from the k-th offered video on: each video section consumes one offered entry. */
  function VideoSections(sections: seq<seq<string>>, k: nat, offers: seq<OfferedVideo>): (result: seq<seq<string>>)
    requires AllSections(sections)
    ensures |result| == |sections|
  {
    if sections == [] then []
    else
      [VideoSection(sections[0], OfferAt(offers, k), |sections| == 1)]
      + VideoSections(sections[1..], if IsVideo(sections[0][0]) then k + 1 else k, offers)
  }

  function VideoLines(lines: seq<string>, offers: seq<OfferedVideo>): seq<string> {
    Rebuild(lines, VideoSections(SectionsOf(lines), 0, offers))
  }

  function VideoText(offer: string, answer: string): string {
    Join(VideoLines(Lines(answer), VideoOffersOf(offer)), LineSeparator(answer))
  }

  lemma VideoIsMedia(line: string)
    requires IsVideo(line)
    ensures IsMedia(line)
  {
    PrefixSlice(line, "m=video ");
    PrefixSlice(line, "m=");
    assert line[..2] == "m=video "[..2];
  }

  // ---- the offer ----

  /** `alexaRTPMapPayload`, on the span scanner. */
  method ParseRtpMap(line: string) returns (payload: Option<string>)
    ensures payload == RtpMapPayload(line)
  {
    if !HasPrefix(line, RTPMAP) {
      return None;
    }
    var value := TrimPrefix(line, RTPMAP);
    var spans := FieldSpans(value);
    if |spans| < 2 {
      return None;
    }
    return Some(value[spans[0].0..spans[0].1]);
  }

  /** The search of an offered section for the selected payload's mapping, `server.go:577-582`. */
  method FindRtpMap(lines: seq<string>, start: nat, payload: string) returns (rtpmap: string)
    requires start < |lines|
    ensures rtpmap == FirstRtpMap(lines[start + 1..NextMedia(lines, start + 1)], payload)
  {
    ghost var end := NextMedia(lines, start + 1);
    var i := start + 1;
    while i < |lines| && !IsMedia(lines[i])
      invariant start + 1 <= i <= end
      invariant FirstRtpMap(lines[start + 1..end], payload) == FirstRtpMap(lines[i..end], payload)
    {
      var mapped := ParseRtpMap(lines[i]);
      assert lines[i..end][1..] == lines[i + 1..end];
      if mapped == Some(payload) {
        return lines[i];
      }
      i := i + 1;
    }
    return [];
  }

  /** The choice of the payload, `server.go:569-575`. */
  method ChoosePayload(fields: seq<string>) returns (selected: string)
    requires |fields| >= 4
    ensures selected == SelectPayload(fields)
  {
    selected := fields[3];
    var i := 3;
    while i < |fields|
      invariant 3 <= i <= |fields|
      invariant "102" !in fields[3..i]
    {
      if fields[i] == "102" {
        assert fields[3..][i - 3] == "102";
        return fields[i];
      }
      assert fields[3..i + 1] == fields[3..i] + [fields[i]];
      i := i + 1;
    }
    assert fields[3..i] == fields[3..];
  }

  /** The offered entries before `start` have been collected. */
  ghost predicate Collected(lines: seq<string>, start: int, offers: seq<OfferedVideo>) {
    && 0 <= start <= |lines|
    && VideoOffers(SectionsOf(lines)) == offers + VideoOffers(SectionsOf(lines[start..]))
  }

  lemma CollectedStart(lines: seq<string>)
    ensures Collected(lines, 0, [])
  {
    assert lines[0..] == lines;
  }

  lemma CollectedAll(lines: seq<string>, offers: seq<OfferedVideo>)
    requires Collected(lines, |lines|, offers)
    ensures offers == VideoOffers(SectionsOf(lines))
  {
  }

  lemma {:induction false} CollectedOther(lines: seq<string>, start: int, offers: seq<OfferedVideo>)
    requires Collected(lines, start, offers) && start < |lines| && !IsMedia(lines[start])
    ensures Collected(lines, start + 1, offers)
  {
    ScanPreamble(lines, start);
  }

  lemma VideoOffersStep(lines: seq<string>, start: nat, end: nat)
    requires IsSectionEnd(lines, start, end)
    ensures IsSection(lines[start..end])
    ensures VideoOffers(SectionsOf(lines[start..])) ==
            (if IsVideo(lines[start]) then [OfferedVideoOf(lines[start..end])] else [])
            + VideoOffers(SectionsOf(lines[end..]))
  {
    ScanSection(lines, start, end);
    assert lines[start..end][1..] == lines[start + 1..end];
    var section, rest := lines[start..end], SectionsOf(lines[end..]);
    assert ([section] + rest)[1..] == rest;
  }

  lemma CollectedSection(lines: seq<string>, start: int, end: int, offers: seq<OfferedVideo>)
    requires Collected(lines, start, offers) && 0 <= end && IsSectionEnd(lines, start, end)
    ensures IsSection(lines[start..end])
    ensures Collected(lines, end, offers + if IsVideo(lines[start]) then [OfferedVideoOf(lines[start..end])] else [])
  {
    VideoOffersStep(lines, start, end);
  }

  /** One video section of the offer, `server.go:564-583`. */
  method OfferVideo(lines: seq<string>, start: nat) returns (offered: OfferedVideo)
    requires start < |lines| && IsMedia(lines[start])
    ensures IsSection(lines[start..NextMedia(lines, start + 1)])
    ensures offered == OfferedVideoOf(lines[start..NextMedia(lines, start + 1)])
  {
    ghost var end := NextMedia(lines, start + 1);
    assert lines[start..end][1..] == lines[start + 1..end];
    var fields := Fields(lines[start]);
    if |fields| < 4 {
      return OfferedVideo("", "");
    }
    var selected := ChoosePayload(fields);
    var rtpmap := FindRtpMap(lines, start, selected);
    offered := OfferedVideo(selected, rtpmap);
  }

  /** The loop over the offered lines; `done` is the end of the last section seen. */
  method CollectVideos(lines: seq<string>) returns (offers: seq<OfferedVideo>)
    ensures offers == VideoOffers(SectionsOf(lines))
  {
    offers := [];
    var lineIndex := 0;
    ghost var done := 0;
    CollectedStart(lines);
    while lineIndex < |lines|
      invariant 0 <= lineIndex <= done <= |lines|
      invariant forall i :: lineIndex <= i < done ==> !IsMedia(lines[i])
      invariant Collected(lines, done, offers)
    {
      offers, done := CollectVideo(lines, lineIndex, done, offers);
      lineIndex := lineIndex + 1;
    }
    CollectedAll(lines, offers);
  }

  /** One round of the loop; the source revisits the lines of a section and skips them. */
  method CollectVideo(lines: seq<string>, lineIndex: int, ghost done: int, offers: seq<OfferedVideo>)
    returns (grown: seq<OfferedVideo>, ghost next: int)
    requires 0 <= lineIndex < |lines| && lineIndex <= done
    requires forall i :: lineIndex <= i < done ==> i < |lines| && !IsMedia(lines[i])
    requires Collected(lines, done, offers)
    ensures lineIndex + 1 <= next <= |lines|
    ensures forall i :: lineIndex + 1 <= i < next ==> !IsMedia(lines[i])
    ensures Collected(lines, next, grown)
  {
    grown, next := offers, done;
    if !IsMedia(lines[lineIndex]) {
      if lineIndex == done {
        CollectedOther(lines, lineIndex, offers);
        next := done + 1;
      }
    } else {
      next := NextMedia(lines, lineIndex + 1);
      CollectedSection(lines, lineIndex, next, offers);
    }
    if !IsVideo(lines[lineIndex]) {
      return;
    }
    VideoIsMedia(lines[lineIndex]);
    var offered := OfferVideo(lines, lineIndex);
    grown := offers + [offered];
  }

  /** `alexaOfferedVideoPayloads`. */
  method OfferedVideoPayloads(offer: string) returns (offers: seq<OfferedVideo>)
    ensures offers == VideoOffersOf(offer)
  {
    var lines := Split(ReplaceCRLF(offer), LF);
    offers := CollectVideos(lines);
  }
}
