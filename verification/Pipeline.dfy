/** The three rewriters chained on an answer, `server.go:186-188`. */
module Pipeline {
  import opened GoText
  import opened Sequences
  import opened Tokens
  import opened Sections
  import opened Metadata
  import R = RtcpMux
  import RP = RtcpMuxProperties
  import M = MediaMids
  import MP = MediaMidsProperties
  import V = VideoPayloads
  import VL = VideoLoop
  import VP = VideoProperties
  import VA = VideoAnswers

  function ChainText(offer: string, answer: string, parses: R.CandidateParser): string {
    R.MuxText(M.MidText(offer, V.VideoText(offer, answer)), parses)
  }

  /** The normalisation of a gathered answer. */
  method NormalizeAnswer(offer: string, answer: string, parses: R.CandidateParser) returns (normalized: string)
    ensures normalized == ChainText(offer, answer, parses)
  {
    var video := VL.NormalizeRejectedVideoPayloads(offer, answer);
    var mids := M.NormalizeRejectedMediaMids(offer, video);
    normalized := R.NormalizeRtcpMuxCandidates(mids, parses);
  }

  // ---- the stages touch disjoint sections ----

  lemma VideoNotAudio(line: string)
    requires V.IsVideo(line)
    ensures !R.IsAcceptedAudio(line)
  {
    PrefixSlice(line, "m=video ");
    assert line[..7] == "m=video";
    forall i | 0 <= i < 7
      ensures !IsSpace(line[i])
    {
      assert line[i] == "m=video"[i];
    }
    FirstFieldPrefix(line, 7);
    assert Fields(line)[0][2] == 'v';
  }

  lemma RejectedNotAccepted(line: string)
    requires M.RejectedFields(line).Some?
    ensures !R.IsAcceptedAudio(line)
  {
    AtoiZero();
  }

  lemma MuxVideoSection(section: seq<string>, offered: V.OfferedVideo, last: bool, parses: R.CandidateParser)
    requires IsSection(section) && VL.GoodOffer(offered)
    ensures IsSection(V.VideoSection(section, offered, last)) && IsSection(R.MuxSection(section, parses))
    ensures R.MuxSection(V.VideoSection(section, offered, last), parses) ==
            V.VideoSection(R.MuxSection(section, parses), offered, last)
  {
    VP.VideoSectionShape(section, offered, last);
    RP.MuxSectionShape(section, parses);
    if V.IsVideo(section[0]) {
      VideoNotAudio(section[0]);
      VideoNotAudio(V.VideoSection(section, offered, last)[0]);
    }
  }

  lemma MuxMidSection(section: seq<string>, index: nat, offers: seq<M.OfferedSection>, parses: R.CandidateParser)
    requires IsSection(section)
    ensures IsSection(M.MidSection(section, index, offers)) && IsSection(R.MuxSection(section, parses))
    ensures R.MuxSection(M.MidSection(section, index, offers), parses) ==
            M.MidSection(R.MuxSection(section, parses), index, offers)
  {
    MP.MidSectionExact(section, index, offers);
    RP.MuxSectionShape(section, parses);
    if M.RejectedFields(section[0]).Some? {
      RejectedNotAccepted(section[0]);
    }
  }

  lemma {:induction false} MuxVideoSections(sections: seq<seq<string>>, k: nat, offers: seq<V.OfferedVideo>,
                                            parses: R.CandidateParser)
    requires AllSections(sections) && VL.GoodOffers(offers)
    ensures AllSections(V.VideoSections(sections, k, offers)) && AllSections(R.MuxSections(sections, parses))
    ensures R.MuxSections(V.VideoSections(sections, k, offers), parses) ==
            V.VideoSections(R.MuxSections(sections, parses), k, offers)
  {
    if sections != [] {
      var offered, last := V.OfferAt(offers, k), |sections| == 1;
      var next := if V.IsVideo(sections[0][0]) then k + 1 else k;
      assert VL.GoodOffer(offered);
      MuxVideoSections(sections[1..], next, offers, parses);
      MuxVideoSection(sections[0], offered, last, parses);
      RP.MuxSectionShape(sections[0], parses);
      R.MuxCons(V.VideoSection(sections[0], offered, last), V.VideoSections(sections[1..], next, offers), parses);
      VL.VideoCons(R.MuxSection(sections[0], parses), R.MuxSections(sections[1..], parses), k, offers);
    }
  }

  lemma {:induction false} MuxMidSections(sections: seq<seq<string>>, index: nat, offers: seq<M.OfferedSection>,
                                          parses: R.CandidateParser)
    requires AllSections(sections)
    ensures AllSections(M.MidSections(sections, index, offers)) && AllSections(R.MuxSections(sections, parses))
    ensures R.MuxSections(M.MidSections(sections, index, offers), parses) ==
            M.MidSections(R.MuxSections(sections, parses), index, offers)
  {
    if sections != [] {
      MuxMidSections(sections[1..], index + 1, offers, parses);
      MuxMidSection(sections[0], index, offers, parses);
      R.MuxCons(M.MidSection(sections[0], index, offers), M.MidSections(sections[1..], index + 1, offers), parses);
      M.MidCons(R.MuxSection(sections[0], parses), R.MuxSections(sections[1..], parses), index, offers);
    }
  }

  // ---- the MID stage leaves the video stage's work done ----

  lemma MidLineIsOther(mid: string, payload: string)
    ensures !V.IsDirection(M.MID + mid) && !V.MapsPayload(M.MID + mid, payload)
  {
    var line := M.MID + mid;
    assert line[2] == 'm';
    NotPrefix(line, V.RTPMAP, 2);
  }

  /** What it takes for the video stage to keep a body. */
  predicate Settled(body: seq<string>, offered: V.OfferedVideo) {
    VP.OnlyInactive(body) && (offered.rtpmap == [] || V.HasRtpMap(body, offered.payload))
  }

  lemma SettledIffKept(body: seq<string>, offered: V.OfferedVideo, last: bool)
    ensures V.WithInactive(V.WithRtpMap(body, offered, last), last) == body <==> Settled(body, offered)
  {
    if Settled(body, offered) {
      VP.InactiveStays(body, last);
    }
    if V.WithInactive(V.WithRtpMap(body, offered, last), last) == body {
      VP.DirectionOnly(V.WithRtpMap(body, offered, last), last);
      assert |V.WithRtpMap(body, offered, last)| <= |body|;
    }
  }

  lemma SettledInsert(body: seq<string>, at: nat, line: string, offered: V.OfferedVideo)
    requires at <= |body| && !V.IsDirection(line) && Settled(body, offered)
    ensures Settled(V.Insert(body, at, line), offered)
  {
    var grown := V.Insert(body, at, line);
    assert forall l :: l in grown <==> l in body || l == line by {
      assert body == body[..at] + body[at..];
    }
    if offered.rtpmap != [] {
      var i :| 0 <= i < |body| && V.MapsPayload(body[i], offered.payload);
      assert grown[if i < at then i else i + 1] == body[i];
    }
  }

  /** A section the video stage would edit, and keeps, is kept after gaining a MID line. */
  lemma VideoKeepsLine(section: seq<string>, at: nat, mid: string, offered: V.OfferedVideo, last: bool)
    requires IsSection(section) && V.VideoSection(section, offered, last) == section && 1 <= at <= |section|
    requires V.IsVideo(section[0]) && V.NormalizeMLine(section[0], offered.payload).Some?
    requires IsSection(section[..at] + [M.MID + mid] + section[at..])
    ensures var grown := section[..at] + [M.MID + mid] + section[at..];
            V.VideoSection(grown, offered, last) == grown
  {
    var body := section[1..];
    var media := V.NormalizeMLine(section[0], offered.payload).value;
    SameTail(section[0], media, body, V.WithInactive(V.WithRtpMap(body, offered, last), last));
    InsertedKept(body, at - 1, mid, offered, last);
    InsertTail(section, at, M.MID + mid);
  }

  /** A section the video stage keeps is kept after gaining its MID. */
  lemma VideoKeepsMid(section: seq<string>, index: nat, mids: seq<M.OfferedSection>, offered: V.OfferedVideo,
      last: bool)
    requires IsSection(section) && V.VideoSection(section, offered, last) == section
    ensures IsSection(M.MidSection(section, index, mids))
    ensures V.VideoSection(M.MidSection(section, index, mids), offered, last) == M.MidSection(section, index, mids)
  {
    MP.MidSectionExact(section, index, mids);
    if M.NeedsMid(section, index, mids)
       && V.IsVideo(section[0]) && V.NormalizeMLine(section[0], offered.payload).Some? {
      VideoKeepsLine(section, M.MidPosition(section), mids[index].mid, offered, last);
    }
  }

  lemma InsertedKept(body: seq<string>, at: nat, mid: string, offered: V.OfferedVideo, last: bool)
    requires at <= |body| && V.WithInactive(V.WithRtpMap(body, offered, last), last) == body
    ensures var grown := V.Insert(body, at, M.MID + mid);
            V.WithInactive(V.WithRtpMap(grown, offered, last), last) == grown
  {
    MidLineIsOther(mid, offered.payload);
    SettledIffKept(body, offered, last);
    SettledInsert(body, at, M.MID + mid, offered);
    SettledIffKept(V.Insert(body, at, M.MID + mid), offered, last);
  }

  lemma InsertTail(section: seq<string>, at: nat, line: string)
    requires 1 <= at <= |section|
    ensures section[..at] + [line] + section[at..] == [section[0]] + V.Insert(section[1..], at - 1, line)
    ensures (section[..at] + [line] + section[at..])[1..] == V.Insert(section[1..], at - 1, line)
  {
  }

  lemma SameTail(a: string, b: string, x: seq<string>, y: seq<string>)
    requires [b] + y == [a] + x
    ensures a == b && x == y
  {
    assert ([b] + y)[0] == b && ([b] + y)[1..] == y && ([a] + x)[1..] == x;
  }

  lemma {:induction false} VideoKeepsMids(sections: seq<seq<string>>, k: nat, offers: seq<V.OfferedVideo>, index: nat,
                                          mids: seq<M.OfferedSection>)
    requires AllSections(sections) && V.VideoSections(sections, k, offers) == sections
    ensures AllSections(M.MidSections(sections, index, mids))
    ensures V.VideoSections(M.MidSections(sections, index, mids), k, offers) == M.MidSections(sections, index, mids)
  {
    if sections != [] {
      var offered, last := V.OfferAt(offers, k), |sections| == 1;
      var next := if V.IsVideo(sections[0][0]) then k + 1 else k;
      assert V.VideoSections(sections, k, offers)[0] == sections[0];
      assert V.VideoSections(sections, k, offers)[1..] == V.VideoSections(sections[1..], next, offers);
      VideoKeepsMids(sections[1..], next, offers, index + 1, mids);
      VideoKeepsMid(sections[0], index, mids, offered, last);
      MP.MidSectionExact(sections[0], index, mids);
      VL.VideoCons(M.MidSection(sections[0], index, mids), M.MidSections(sections[1..], index + 1, mids), k, offers);
    }
  }

  /** MID stage after video stage, and video stage after MID stage, give different sections. */
  predicate OrdersDiffer(section: seq<string>, offered: V.OfferedVideo, last: bool, index: nat,
                         mids: seq<M.OfferedSection>)
  {
    && IsSection(section)
    && IsSection(V.VideoSection(section, offered, last))
    && IsSection(M.MidSection(section, index, mids))
    && M.MidSection(V.VideoSection(section, offered, last), index, mids) !=
       V.VideoSection(M.MidSection(section, index, mids), offered, last)
  }

  /**
   * The MID stage must come second: a three-token m-line has no format list until the video stage adds one. Run first,
   * it passes the section, and the two orders differ.
   */
  lemma MidFirstLosesMid(section: seq<string>, offered: V.OfferedVideo, last: bool, index: nat,
      mids: seq<M.OfferedSection>)
    requires IsSection(section) && VL.GoodOffer(offered) && |Fields(section[0])| < 4
    requires IsSection(V.VideoSection(section, offered, last))
    requires M.NeedsMid(V.VideoSection(section, offered, last), index, mids)
    ensures M.MidSection(section, index, mids) == section
    ensures OrdersDiffer(section, offered, last, index, mids)
  {
    MP.MidSectionExact(V.VideoSection(section, offered, last), index, mids);
  }

  const REJECTED_WORDS := ["m=video", "0", "UDP/TLS/RTP/SAVPF"]

  lemma RejectedWords()
    ensures Words(REJECTED_WORDS) && IsWord("96")
  {
  }

  /** Any well-formed m-line of four words with port `0` is rejected video. */
  lemma FourWords(words: seq<string>)
    requires |words| == 4 && Words(words) && words[0] == "m=video" && words[1] == "0"
    ensures M.RejectedFields(JoinFields(words)) == Some(words) && M.MediaType(JoinFields(words)) == "video"
  {
    FieldsOfWords(words);
    PrefixOfAppend("m=", "video");
    assert "m=" + "video" == words[0];
    PortZero(words[1]);
  }

  lemma PortZero(port: string)
    requires port == "0"
    ensures Split(port, "/") == [port] && ParseUint(port, 0x1_0000) == Some(0)
  {
    NotPrefix(port, "/", 0);
    assert Split(port[1..], "/") == [[]];
    assert [port[0]] + [] == port;
    assert port[..|port| - 1] == [] && DigitsValue([]) == 0;
    assert DigitsValue(port) == 0;
  }

  lemma InactiveOnly(offered: V.OfferedVideo, last: bool)
    requires offered.rtpmap == []
    ensures V.WithInactive(V.WithRtpMap([], offered, last), last) == [V.INACTIVE]
    ensures !M.HasMid([V.INACTIVE])
  {
    NotPrefix(V.INACTIVE, M.MID, 2);
  }

  /** Such a section exists: a rejected video m-line without formats, offered with payload 96 and MID 1. */
  lemma MidFirstExample(last: bool)
    ensures OrdersDiffer([JoinFields(REJECTED_WORDS)], V.OfferedVideo("96", ""), last, 0,
                         [M.OfferedSection("video", "1")])
  {
    RejectedWords();
    MidFirstFor(REJECTED_WORDS, V.OfferedVideo("96", ""), last, [M.OfferedSection("video", "1")]);
  }

  lemma MidFirstFor(words: seq<string>, offered: V.OfferedVideo, last: bool, mids: seq<M.OfferedSection>)
    requires |words| == 3 && Words(words) && words[0] == "m=video" && words[1] == "0"
    requires IsWord(offered.payload) && offered.rtpmap == []
    requires |mids| == 1 && mids[0].mediaType == "video" && mids[0].mid != []
    ensures OrdersDiffer([JoinFields(words)], offered, last, 0, mids)
  {
    var section, longer := [JoinFields(words)], words + [offered.payload];
    JoinFirst(words, " ");
    VideoWord(words[0], JoinFields(words[1..]));
    FieldsOfWords(words);
    VP.MLineOfThree(words, offered.payload);
    FourWords(longer);
    InactiveOnly(offered, last);
    assert section[1..] == [];
    var result := V.VideoSection(section, offered, last);
    assert result == [JoinFields(longer)] + [V.INACTIVE];
    assert result[1..] == [V.INACTIVE];
    VP.VideoSectionShape(section, offered, last);
    MidFirstLosesMid(section, offered, last, 0, mids);
  }

  lemma VideoWord(word: string, rest: string)
    requires word == "m=video"
    ensures V.IsVideo(word + (" " + rest)) && IsMedia(word + (" " + rest))
  {
    PrefixOfAppend("m=video ", rest);
    assert "m=video " + rest == word + (" " + rest);
    V.VideoIsMedia(word + (" " + rest));
  }

  // ---- sections of the chain ----

  function ChainSections(sections: seq<seq<string>>, videos: seq<V.OfferedVideo>, mids: seq<M.OfferedSection>,
                         parses: R.CandidateParser): (result: seq<seq<string>>)
    requires AllSections(sections) && VA.UsableOffers(videos)
    ensures AllSections(result) && |result| == |sections|
  {
    VA.VideoSectionsShape(sections, 0, videos);
    var video := V.VideoSections(sections, 0, videos);
    MP.MidSectionsShape(video, 0, mids);
    RP.MuxSectionsShape(M.MidSections(video, 0, mids), parses);
    R.MuxSections(M.MidSections(video, 0, mids), parses)
  }

  /** Each stage leaves the next ones' work done, so the chain on sections is idempotent. */
  lemma ChainSectionsTwice(sections: seq<seq<string>>, videos: seq<V.OfferedVideo>, mids: seq<M.OfferedSection>,
                           parses: R.CandidateParser)
    requires AllSections(sections) && VA.UsableOffers(videos)
    ensures ChainSections(ChainSections(sections, videos, mids, parses), videos, mids, parses) ==
            ChainSections(sections, videos, mids, parses)
  {
    var video := V.VideoSections(sections, 0, videos);
    VA.VideoSectionsShape(sections, 0, videos);
    var mid := M.MidSections(video, 0, mids);
    MP.MidSectionsShape(video, 0, mids);
    var mux := R.MuxSections(mid, parses);
    RP.MuxSectionsShape(mid, parses);
    calc {
      V.VideoSections(mux, 0, videos);
      { MuxVideoSections(mid, 0, videos, parses); }
      R.MuxSections(V.VideoSections(mid, 0, videos), parses);
      { VideoKeepsMids(video, 0, videos, 0, mids); }
      mux;
    }
    MuxMidSections(mid, 0, mids, parses);
  }

  // ---- texts ----

  lemma MuxWellFramed(answer: string, parses: R.CandidateParser)
    requires WellFramed(answer)
    ensures WellFramed(R.MuxText(answer, parses))
    ensures LineSeparator(R.MuxText(answer, parses)) == LineSeparator(answer)
    ensures Lines(R.MuxText(answer, parses)) == R.MuxLines(Lines(answer), parses)
  {
    RP.MuxTextLines(answer, parses);
    RP.RemovedExactly(answer, parses);
    var lines := Lines(answer);
    RP.RemovedFrom(lines, 0, parses);
    assert lines[0..] == lines && RP.RemovalFlags(lines, parses)[0..] == RP.RemovalFlags(lines, parses);
    KeptClean(lines, RP.RemovalFlags(lines, parses));
  }

  lemma {:induction false} KeptClean(lines: seq<string>, remove: seq<bool>)
    requires |lines| == |remove| && AllClean(lines)
    ensures AllClean(Kept(lines, remove))
  {
    if lines != [] {
      KeptClean(lines[1..], remove[1..]);
    }
  }

  /** On well-framed texts the rtcp-mux stage commutes with the video stage. */
  lemma MuxCommutesWithVideo(offer: string, answer: string, parses: R.CandidateParser)
    requires WellFramed(offer) && WellFramed(answer)
    ensures R.MuxText(V.VideoText(offer, answer), parses) == V.VideoText(offer, R.MuxText(answer, parses))
  {
    var lines, videos := Lines(answer), V.VideoOffersOf(offer);
    VA.OfferFacts(offer);
    LinesStable(answer);
    VA.VideoTextLines(offer, answer);
    VA.VideoLinesShape(lines, videos);
    MuxWellFramed(answer, parses);
    RP.MuxLinesTwice(lines, parses);
    assert VL.GoodOffers(videos);
    MuxVideoSections(SectionsOf(lines), 0, videos, parses);
  }

  /** On well-framed texts the rtcp-mux stage commutes with the MID stage. */
  lemma MuxCommutesWithMid(offer: string, answer: string, parses: R.CandidateParser)
    requires WellFramed(offer) && WellFramed(answer)
    ensures R.MuxText(M.MidText(offer, answer), parses) == M.MidText(offer, R.MuxText(answer, parses))
  {
    var lines, mids := Lines(answer), M.OffersOf(offer);
    LinesStable(answer);
    MP.MidTextLines(offer, answer);
    MP.MidLinesShape(lines, mids);
    MuxWellFramed(answer, parses);
    RP.MuxLinesTwice(lines, parses);
    MuxMidSections(SectionsOf(lines), 0, mids, parses);
  }

  /** The chain on a well-framed answer edits each section and nothing else. */
  lemma ChainLines(offer: string, answer: string, parses: R.CandidateParser)
    requires WellFramed(offer) && WellFramed(answer)
    ensures VA.UsableOffers(V.VideoOffersOf(offer))
    ensures var result := ChainText(offer, answer, parses);
            && WellFramed(result)
            && LineSeparator(result) == LineSeparator(answer)
            && Parse(Lines(result)).preamble == Parse(Lines(answer)).preamble
            && SectionsOf(Lines(result)) ==
                 ChainSections(SectionsOf(Lines(answer)), V.VideoOffersOf(offer), M.OffersOf(offer), parses)
  {
    var lines, videos, mids := Lines(answer), V.VideoOffersOf(offer), M.OffersOf(offer);
    VA.OfferFacts(offer);
    VA.VideoTextLines(offer, answer);
    VA.VideoLinesShape(lines, videos);
    var video := V.VideoText(offer, answer);
    MP.MidTextLines(offer, video);
    MP.MidLinesShape(Lines(video), mids);
    var mid := M.MidText(offer, video);
    MuxWellFramed(mid, parses);
    RP.MuxLinesTwice(Lines(mid), parses);
  }

  /** The whole chain is idempotent, also when the selected payload is `0`. */
  lemma ChainIdempotent(offer: string, answer: string, parses: R.CandidateParser)
    requires WellFramed(offer) && WellFramed(answer)
    ensures ChainText(offer, ChainText(offer, answer, parses), parses) == ChainText(offer, answer, parses)
  {
    var once := ChainText(offer, answer, parses);
    var twice := ChainText(offer, once, parses);
    ChainLines(offer, answer, parses);
    ChainLines(offer, once, parses);
    ChainSectionsTwice(SectionsOf(Lines(answer)), V.VideoOffersOf(offer), M.OffersOf(offer), parses);
    SameText(once, twice);
  }

  lemma SameText(a: string, b: string)
    requires LineSeparator(a) == LineSeparator(b)
    requires Parse(Lines(a)) == Parse(Lines(b))
    ensures a == b
  {
    LinesStable(a);
    LinesStable(b);
    assert Lines(a) == Flat(Parse(Lines(a)));
    assert Lines(b) == Flat(Parse(Lines(b)));
  }

  /** The first three tokens, media type, port and protocol, are kept. */
  predicate SameMedia(before: string, after: string) {
    || after == before
    || (|BlankFields(before)| >= 3 && |BlankFields(after)| == 4 && BlankFields(after)[..3] == BlankFields(before)[..3])
  }

  lemma SectionSameMedia(section: seq<string>, edited: seq<string>, offered: V.OfferedVideo, last: bool)
    requires IsSection(section) && VA.Usable(offered) && edited == V.VideoSection(section, offered, last)
    ensures edited != [] && SameMedia(section[0], edited[0])
  {
    VP.VideoSectionExact(section, offered, last);
  }

  lemma EditedSameMedia(sections: seq<seq<string>>, videos: seq<V.OfferedVideo>, i: nat, edited: seq<string>)
    requires AllSections(sections) && VA.UsableOffers(videos) && i < |sections|
    requires edited == V.VideoSections(sections, 0, videos)[i]
    ensures edited != [] && SameMedia(sections[i][0], edited[0])
  {
    var section, offered, last := sections[i], V.OfferAt(videos, VA.VideosBefore(sections, i)), i == |sections| - 1;
    VA.PairedWith(sections, videos, i, section, offered, last, edited);
    SectionSameMedia(section, edited, offered, last);
  }

  lemma VideoSameMedia(sections: seq<seq<string>>, videos: seq<V.OfferedVideo>, i: nat)
    requires AllSections(sections) && VA.UsableOffers(videos) && i < |sections|
    ensures AllSections(V.VideoSections(sections, 0, videos))
    ensures SameMedia(sections[i][0], V.VideoSections(sections, 0, videos)[i][0])
  {
    VA.VideoSectionsTwice(sections, 0, videos);
    EditedSameMedia(sections, videos, i, V.VideoSections(sections, 0, videos)[i]);
  }

  /** Sections keep their number, order, media type, port and protocol. */
  lemma ChainKeepsMediaLines(offer: string, answer: string, parses: R.CandidateParser, i: nat)
    requires WellFramed(offer) && WellFramed(answer)
    requires i < |SectionsOf(Lines(answer))|
    ensures |SectionsOf(Lines(ChainText(offer, answer, parses)))| == |SectionsOf(Lines(answer))|
    ensures SameMedia(SectionsOf(Lines(answer))[i][0], SectionsOf(Lines(ChainText(offer, answer, parses)))[i][0])
  {
    ChainLines(offer, answer, parses);
    var sections, videos, mids := SectionsOf(Lines(answer)), V.VideoOffersOf(offer), M.OffersOf(offer);
    VideoSameMedia(sections, videos, i);
    var video := V.VideoSections(sections, 0, videos);
    LaterStagesKeepMedia(video, mids, parses, i);
  }

  lemma LaterStagesKeepMedia(video: seq<seq<string>>, mids: seq<M.OfferedSection>, parses: R.CandidateParser, i: nat)
    requires AllSections(video) && i < |video|
    ensures AllSections(M.MidSections(video, 0, mids))
    ensures AllSections(R.MuxSections(M.MidSections(video, 0, mids), parses))
    ensures R.MuxSections(M.MidSections(video, 0, mids), parses)[i][0] == video[i][0]
  {
    MP.MidSectionsShape(video, 0, mids);
    MP.MidPositional(video, 0, mids, i);
    MP.MidSectionExact(video[i], i, mids);
    var mid := M.MidSections(video, 0, mids);
    RP.MuxSectionsShape(mid, parses);
    MuxPositional(mid, parses, i);
    RP.MuxSectionShape(mid[i], parses);
  }

  lemma {:induction false} MuxPositional(sections: seq<seq<string>>, parses: R.CandidateParser, i: nat)
    requires AllSections(sections) && i < |sections|
    ensures R.MuxSections(sections, parses)[i] == R.MuxSection(sections[i], parses)
  {
    if i > 0 {
      MuxPositional(sections[1..], parses, i - 1);
    }
  }

  // ---- diagnostics ----

  /** The text of lines that are all followed by a separator. */
  function HeadText(lines: seq<string>, sep: string): string {
    if lines == [] then [] else lines[0] + sep + HeadText(lines[1..], sep)
  }

  lemma {:induction false} JoinHead(lines: seq<string>, rest: seq<string>, sep: string)
    requires rest != [] && IsSeparator(sep)
    ensures Join(lines + rest, sep) == HeadText(lines, sep) + Join(rest, sep)
    ensures lines != [] ==> HeadText(lines, sep) != [] && Last(HeadText(lines, sep)) == '\n'
  {
    if lines == [] {
      assert lines + rest == rest;
    } else {
      JoinHead(lines[1..], rest, sep);
      assert (lines + rest)[1..] == lines[1..] + rest;
      Regroup(lines[0] + sep, HeadText(lines[1..], sep), Join(rest, sep));
    }
  }

  lemma JoinMedia(lines: seq<string>, sep: string)
    requires lines != [] && IsMedia(lines[0])
    ensures IsMedia(Join(lines, sep))
  {
    PrefixSlice(lines[0], "m=");
    PrefixSlice(Join(lines, sep), "m=");
    assert Join(lines, sep)[..2] == lines[0][..2];
  }

  /** Whatever is done to the sections, the metadata read before the first m-line stays, for every text. */
  lemma SectionsKeepMetadata(answer: string, sections: seq<seq<string>>)
    requires AllSections(sections) && |sections| == |SectionsOf(Lines(answer))|
    ensures MetadataOf(Join(Rebuild(Lines(answer), sections), LineSeparator(answer))) == MetadataOf(answer)
  {
    var lines, sep := Lines(answer), LineSeparator(answer);
    var preamble := Parse(lines).preamble;
    LinesStable(answer);
    assert lines == preamble + Concat(SectionsOf(lines));
    if sections != [] {
      CutText(preamble, sections, sep);
      CutText(preamble, SectionsOf(lines), sep);
      var head := HeadText(preamble, sep);
      MetadataOfHead(answer, head, Join(Concat(SectionsOf(lines)), sep));
      MetadataOfHead(Join(preamble + Concat(sections), sep), head, Join(Concat(sections), sep));
    } else {
      assert SectionsOf(lines) == sections;
    }
  }

  lemma CutText(preamble: seq<string>, sections: seq<seq<string>>, sep: string)
    requires IsSeparator(sep) && AllSections(sections) && sections != []
    ensures CutAtMedia(Join(preamble + Concat(sections), sep), HeadText(preamble, sep), Join(Concat(sections), sep))
  {
    var rest := Concat(sections);
    assert rest == sections[0] + Concat(sections[1..]);
    assert rest[0] == sections[0][0];
    JoinHead(preamble, rest, sep);
    JoinMedia(rest, sep);
  }

  /** The chain never changes what is logged about an answer: for every offer and answer, whatever the framing. */
  lemma ChainKeepsMetadata(offer: string, answer: string, parses: R.CandidateParser)
    ensures MetadataOf(ChainText(offer, answer, parses)) == MetadataOf(answer)
  {
    var video := V.VideoText(offer, answer);
    VA.OffersUsable(SectionsOf(Split(ReplaceCRLF(offer), LF)));
    VA.VideoSectionsShape(SectionsOf(Lines(answer)), 0, V.VideoOffersOf(offer));
    SectionsKeepMetadata(answer, V.VideoSections(SectionsOf(Lines(answer)), 0, V.VideoOffersOf(offer)));
    var mid := M.MidText(offer, video);
    MP.MidSectionsShape(SectionsOf(Lines(video)), 0, M.OffersOf(offer));
    SectionsKeepMetadata(video, M.MidSections(SectionsOf(Lines(video)), 0, M.OffersOf(offer)));
    RP.MuxSectionsShape(SectionsOf(Lines(mid)), parses);
    SectionsKeepMetadata(mid, R.MuxSections(SectionsOf(Lines(mid)), parses));
  }
}
