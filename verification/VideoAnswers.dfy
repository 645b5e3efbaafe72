/** The rejected-video rewriter on whole answers: pairing of sections, size, idempotence, framing. */
module VideoAnswers {
  import opened GoText
  import opened Tokens
  import opened Sections
  import opened VideoPayloads
  import opened VideoLoop
  import opened VideoProperties

  /** Offers whose payloads are tokens and whose rtpmaps map them. */
  predicate UsableOffers(offers: seq<OfferedVideo>) {
    forall k :: 0 <= k < |offers| ==> Usable(offers[k])
  }

  predicate Usable(offered: OfferedVideo) {
    GoodOffer(offered) && (offered.payload == [] || IsToken(offered.payload))
  }

  lemma OfferedUsable(section: seq<string>)
    requires IsSection(section)
    ensures Usable(OfferedVideoOf(section))
  {
    OfferedVideoGood(section);
    var fields := Fields(section[0]);
    if |fields| >= 4 {
      assert fields[3] in fields && forall c :: IsBlank(c) ==> IsSpace(c);
      PayloadToken("102");
    }
  }

  lemma PayloadToken(payload: string)
    requires payload == "102"
    ensures IsToken(payload)
  {
  }

  lemma {:induction false} OffersUsable(sections: seq<seq<string>>)
    requires AllSections(sections)
    ensures UsableOffers(VideoOffers(sections))
  {
    if sections != [] {
      OffersUsable(sections[1..]);
      OfferedUsable(sections[0]);
    }
  }

  /** How many of the first i sections are video sections. */
  function VideosBefore(sections: seq<seq<string>>, i: nat): nat
    requires AllSections(sections) && i <= |sections|
  {
    if i == 0 then 0 else (if IsVideo(sections[0][0]) then 1 else 0) + VideosBefore(sections[1..], i - 1)
  }

  /** The pairing, one section at a time. */
  lemma PairStep(sections: seq<seq<string>>, k: nat, offers: seq<OfferedVideo>)
    requires AllSections(sections) && sections != []
    ensures var next := if IsVideo(sections[0][0]) then k + 1 else k;
            && |VideoSections(sections, k, offers)| == 1 + |VideoSections(sections[1..], next, offers)|
            && VideoSections(sections, k, offers)[0] == VideoSection(sections[0], OfferAt(offers, k), |sections| == 1)
            && VideoSections(sections, k, offers)[1..] == VideoSections(sections[1..], next, offers)
  {
  }

  lemma BeforeStep(sections: seq<seq<string>>, i: nat)
    requires AllSections(sections) && 0 < i < |sections|
    ensures VideosBefore(sections, i) == (if IsVideo(sections[0][0]) then 1 else 0) + VideosBefore(sections[1..], i - 1)
  {
  }

  function NextOffer(sections: seq<seq<string>>, k: nat): nat
    requires AllSections(sections) && sections != []
  {
    if IsVideo(sections[0][0]) then k + 1 else k
  }

  lemma PairTail(sections: seq<seq<string>>, k: nat, offers: seq<OfferedVideo>, i: nat)
    requires AllSections(sections) && 0 < i < |sections|
    ensures VideoSections(sections, k, offers)[i] == VideoSections(sections[1..], NextOffer(sections, k), offers)[i - 1]
  {
    PairStep(sections, k, offers);
    var all := VideoSections(sections, k, offers);
    assert all[i] == all[1..][i - 1];
  }

  lemma SameSection(sections: seq<seq<string>>, k: nat, offers: seq<OfferedVideo>, i: nat)
    requires AllSections(sections) && 0 < i < |sections|
    ensures VideoSection(sections[1..][i - 1],
              OfferAt(offers, NextOffer(sections, k) + VideosBefore(sections[1..], i - 1)),
                         i - 1 == |sections[1..]| - 1) ==
            VideoSection(sections[i], OfferAt(offers, k + VideosBefore(sections, i)), i == |sections| - 1)
  {
    BeforeStep(sections, i);
    assert NextOffer(sections, k) + VideosBefore(sections[1..], i - 1) == k + VideosBefore(sections, i);
    assert sections[1..][i - 1] == sections[i];
  }

  /** The k-th video section of the answer uses the k-th offered video; other sections are kept. */
  lemma {:induction false} VideoPairing(sections: seq<seq<string>>, k: nat, offers: seq<OfferedVideo>, i: nat)
    requires AllSections(sections) && i < |sections|
    ensures VideoSections(sections, k, offers)[i] ==
            VideoSection(sections[i], OfferAt(offers, k + VideosBefore(sections, i)), i == |sections| - 1)
  {
    if i == 0 {
      PairStep(sections, k, offers);
    } else {
      VideoPairing(sections[1..], NextOffer(sections, k), offers, i - 1);
      PairTail(sections, k, offers, i);
      SameSection(sections, k, offers, i);
    }
  }

  /** The pairing, with a name for each part. */
  lemma PairedWith(sections: seq<seq<string>>, offers: seq<OfferedVideo>, i: nat, section: seq<string>,
                   offered: OfferedVideo, last: bool, edited: seq<string>)
    requires AllSections(sections) && UsableOffers(offers) && i < |sections| && section == sections[i]
    requires offered == OfferAt(offers, VideosBefore(sections, i)) && last == (i == |sections| - 1)
    requires edited == VideoSections(sections, 0, offers)[i]
    ensures IsSection(section) && Usable(offered) && edited == VideoSection(section, offered, last)
  {
    VideoPairing(sections, 0, offers, i);
  }

  lemma LastInsert(body: seq<string>, at: nat, line: string)
    requires at <= |body| && line != []
    requires at == |body| ==> body == [] || Last(body) != []
    ensures Insert(body, at, line) != []
    ensures Last(Insert(body, at, line)) == [] <==> body != [] && Last(body) == []
  {
    var result := Insert(body, at, line);
    if at < |body| {
      assert Last(result) == Last(body);
    } else {
      assert Last(result) == line;
    }
  }

  lemma MappedLast(body: seq<string>, offered: OfferedVideo)
    requires GoodOffer(offered)
    ensures var mapped := WithRtpMap(body, offered, true);
            && (mapped == [] ==> body == [])
            && (mapped != [] && Last(mapped) == [] <==> body != [] && Last(body) == [])
  {
    if offered.rtpmap != [] && !HasRtpMap(body, offered.payload) {
      MapIsAttribute(offered.rtpmap, offered.payload);
      LastInsert(body, MapPosition(body, true), offered.rtpmap);
    }
  }

  lemma InactiveLast(mapped: seq<string>)
    ensures var edited := WithInactive(mapped, true);
            edited != [] && (Last(edited) == [] <==> mapped != [] && Last(mapped) == [])
  {
    if !HasDirection(mapped) {
      LastInsert(mapped, EndPosition(mapped, true), INACTIVE);
    } else {
      assert mapped != [] && Last(WithInactive(mapped, true)) == Inactivated(Last(mapped));
    }
  }

  lemma LastOfCons(line: string, lines: seq<string>)
    requires lines != []
    ensures [line] + lines != [] && Last([line] + lines) == Last(lines)
  {
  }

  lemma EditedLast(body: seq<string>, offered: OfferedVideo)
    requires GoodOffer(offered)
    ensures var edited := WithInactive(WithRtpMap(body, offered, true), true);
            edited != [] && (Last(edited) == [] <==> body != [] && Last(body) == [])
  {
    MappedLast(body, offered);
    InactiveLast(WithRtpMap(body, offered, true));
  }

  /** An edit of the last section keeps its empty last line last. */
  lemma VideoLastLine(section: seq<string>, offered: OfferedVideo)
    requires IsSection(section) && GoodOffer(offered)
    ensures VideoSection(section, offered, true) != []
    ensures Last(VideoSection(section, offered, true)) == [] <==> Last(section) == []
  {
    if IsVideo(section[0]) && NormalizeMLine(section[0], offered.payload).Some? {
      var body := section[1..];
      EditedLast(body, offered);
      LastOfCons(NormalizeMLine(section[0], offered.payload).value,
          WithInactive(WithRtpMap(body, offered, true), true));
      assert Last(section) == if body == [] then section[0] else Last(body);
    }
  }

  lemma {:induction false} VideoSectionsTwice(sections: seq<seq<string>>, k: nat, offers: seq<OfferedVideo>)
    requires AllSections(sections) && UsableOffers(offers)
    ensures var result := VideoSections(sections, k, offers);
            AllSections(result) && VideoSections(result, k, offers) == result
  {
    if sections != [] {
      var offered, last := OfferAt(offers, k), |sections| == 1;
      assert Usable(offered);
      VideoSectionShape(sections[0], offered, last);
      VideoSectionTwice(sections[0], offered, last);
      var next := if IsVideo(sections[0][0]) then k + 1 else k;
      VideoSectionsTwice(sections[1..], next, offers);
      PairStep(sections, k, offers);
      VideoCons(VideoSection(sections[0], offered, last), VideoSections(sections[1..], next, offers), k, offers);
    }
  }

  lemma {:induction false} VideoSectionsSize(sections: seq<seq<string>>, k: nat, offers: seq<OfferedVideo>)
    requires AllSections(sections) && UsableOffers(offers)
    ensures |Concat(sections)| <= |Concat(VideoSections(sections, k, offers))|
                               <= |Concat(sections)| + 2 * VideosBefore(sections, |sections|)
  {
    if sections != [] {
      var offered, last := OfferAt(offers, k), |sections| == 1;
      assert Usable(offered);
      VideoSectionSize(sections[0], offered, last);
      var next := if IsVideo(sections[0][0]) then k + 1 else k;
      VideoSectionsSize(sections[1..], next, offers);
      PairStep(sections, k, offers);
      ConcatCons(VideoSection(sections[0], offered, last), VideoSections(sections[1..], next, offers));
    }
  }

  lemma {:induction false} VideoSectionsLast(sections: seq<seq<string>>, k: nat, offers: seq<OfferedVideo>)
    requires AllSections(sections) && UsableOffers(offers) && sections != []
    ensures var result := VideoSections(sections, k, offers);
            && result != [] && Last(result) != []
            && (Last(Last(result)) == [] <==> Last(Last(sections)) == [])
  {
    var offered := OfferAt(offers, k);
    assert Usable(offered);
    PairStep(sections, k, offers);
    if |sections| == 1 {
      VideoLastLine(sections[0], offered);
    } else {
      var next := if IsVideo(sections[0][0]) then k + 1 else k;
      VideoSectionsLast(sections[1..], next, offers);
      assert Last(VideoSections(sections, k, offers)) == Last(VideoSections(sections[1..], next, offers));
      assert Last(sections) == Last(sections[1..]);
    }
  }

  lemma VideoSectionsShape(sections: seq<seq<string>>, k: nat, offers: seq<OfferedVideo>)
    requires AllSections(sections) && UsableOffers(offers)
    ensures var result := VideoSections(sections, k, offers);
            && AllSections(result)
            && VideoSections(result, k, offers) == result
            && |Concat(sections)| <= |Concat(result)| <= |Concat(sections)| + 2 * VideosBefore(sections, |sections|)
            && (sections != [] ==> (Last(Last(result)) == [] <==> Last(Last(sections)) == []))
  {
    VideoSectionsTwice(sections, k, offers);
    VideoSectionsSize(sections, k, offers);
    if sections != [] {
      VideoSectionsLast(sections, k, offers);
    }
  }

  lemma BodyGrows(body: seq<string>, offered: OfferedVideo, last: bool)
    ensures |body| <= |WithInactive(WithRtpMap(body, offered, last), last)| <= |body| + 2
  {
    assert |body| <= |WithRtpMap(body, offered, last)| <= |body| + 1;
  }

  lemma VideoSectionSize(section: seq<string>, offered: OfferedVideo, last: bool)
    requires IsSection(section) && Usable(offered)
    ensures |section| <= |VideoSection(section, offered, last)| <= |section| + if IsVideo(section[0]) then 2 else 0
  {
    BodyGrows(section[1..], offered, last);
  }

  lemma VideoLinesShape(lines: seq<string>, offers: seq<OfferedVideo>)
    requires lines != [] && UsableOffers(offers)
    ensures var sections := VideoSections(SectionsOf(lines), 0, offers);
            && AllSections(sections)
            && Parse(VideoLines(lines, offers)) == Doc(Parse(lines).preamble, sections)
    ensures VideoLines(VideoLines(lines, offers), offers) == VideoLines(lines, offers)
    ensures |lines| <= |VideoLines(lines, offers)|
                    <= |lines| + 2 * VideosBefore(SectionsOf(lines), |SectionsOf(lines)|)
    ensures EndsBlank(VideoLines(lines, offers)) == EndsBlank(lines)
  {
    var sections := VideoSections(SectionsOf(lines), 0, offers);
    VideoSectionsShape(SectionsOf(lines), 0, offers);
    RebuildSections(lines, sections);
    assert lines == Parse(lines).preamble + Concat(SectionsOf(lines));
    LastRebuild(lines, sections);
  }

  // ---- clean lines ----

  predicate CleanOffers(offers: seq<OfferedVideo>) {
    forall k :: 0 <= k < |offers| ==> CleanOffer(offers[k])
  }

  predicate CleanOffer(offered: OfferedVideo) {
    Clean(offered.payload) && Clean(offered.rtpmap)
  }

  lemma TokenClean(payload: string, line: string)
    requires payload in Fields(line)
    ensures Clean(payload)
  {
    assert IsSpace('\r') && IsSpace('\n');
  }

  lemma {:induction false} FirstRtpMapClean(lines: seq<string>, payload: string)
    requires AllClean(lines)
    ensures Clean(FirstRtpMap(lines, payload))
  {
    if lines != [] {
      FirstRtpMapClean(lines[1..], payload);
    }
  }

  lemma {:induction false} OffersClean(sections: seq<seq<string>>)
    requires AllSections(sections) && CleanSections(sections)
    ensures CleanOffers(VideoOffers(sections))
  {
    if sections != [] {
      OffersClean(sections[1..]);
      var fields := Fields(sections[0][0]);
      if |fields| >= 4 {
        TokenClean(fields[3], sections[0][0]);
        assert fields[3] in fields;
        FirstRtpMapClean(sections[0][1..], SelectPayload(fields));
        assert Clean("102");
      }
    }
  }

  lemma MLineClean(line: string, payload: string)
    requires Clean(line) && Clean(payload) && NormalizeMLine(line, payload).Some?
    ensures Clean(NormalizeMLine(line, payload).value)
  {
    var result := NormalizeMLine(line, payload).value;
    assert forall c :: c in result ==> c in line || c in payload || c == ' ';
  }

  lemma InsertClean(body: seq<string>, at: nat, line: string)
    requires AllClean(body) && at <= |body| && Clean(line)
    ensures AllClean(Insert(body, at, line))
  {
    var result := Insert(body, at, line);
    forall i | 0 <= i < |result|
      ensures Clean(result[i])
    {
      assert result[i] == if i < at then body[i] else if i == at then line else body[i - 1];
    }
  }

  lemma InactiveClean()
    ensures Clean(INACTIVE)
  {
  }

  lemma VideoSectionClean(section: seq<string>, offered: OfferedVideo, last: bool)
    requires IsSection(section) && AllClean(section) && CleanOffer(offered)
    ensures AllClean(VideoSection(section, offered, last))
  {
    if IsVideo(section[0]) && NormalizeMLine(section[0], offered.payload).Some? {
      var body := section[1..];
      MLineClean(section[0], offered.payload);
      InsertClean(body, MapPosition(body, last), offered.rtpmap);
      InactiveKeepsClean(WithRtpMap(body, offered, last), last);
    }
  }

  lemma InactiveKeepsClean(body: seq<string>, last: bool)
    requires AllClean(body)
    ensures AllClean(WithInactive(body, last))
  {
    InactiveClean();
    InsertClean(body, EndPosition(body, last), INACTIVE);
    assert AllClean(Inactivate(body));
  }

  lemma {:induction false} VideoSectionsClean(sections: seq<seq<string>>, k: nat, offers: seq<OfferedVideo>)
    requires AllSections(sections) && CleanSections(sections) && CleanOffers(offers)
    ensures CleanSections(VideoSections(sections, k, offers))
  {
    if sections != [] {
      var next := if IsVideo(sections[0][0]) then k + 1 else k;
      assert CleanOffer(OfferAt(offers, k));
      VideoSectionClean(sections[0], OfferAt(offers, k), |sections| == 1);
      VideoSectionsClean(sections[1..], next, offers);
    }
  }

  // ---- texts ----

  lemma OfferFacts(offer: string)
    requires WellFramed(offer)
    ensures UsableOffers(VideoOffersOf(offer)) && CleanOffers(VideoOffersOf(offer))
  {
    UnixLines(offer);
    CleanSectionsOf(Lines(offer));
    OffersUsable(SectionsOf(Lines(offer)));
    OffersClean(SectionsOf(Lines(offer)));
  }

  /** On well-framed texts the output is well framed and splits into exactly the edited lines. */
  lemma VideoTextLines(offer: string, answer: string)
    requires WellFramed(offer) && WellFramed(answer)
    ensures var result := VideoText(offer, answer);
            && WellFramed(result)
            && LineSeparator(result) == LineSeparator(answer)
            && Lines(result) == VideoLines(Lines(answer), VideoOffersOf(offer))
  {
    var lines, offers, sep := Lines(answer), VideoOffersOf(offer), LineSeparator(answer);
    LinesStable(answer);
    OfferFacts(offer);
    VideoLinesShape(lines, offers);
    CleanSectionsOf(lines);
    VideoSectionsClean(SectionsOf(lines), 0, offers);
    CleanRebuild(lines, VideoSections(SectionsOf(lines), 0, offers));
    CleanStable(VideoLines(lines, offers), sep);
    RoundTrip(VideoLines(lines, offers), sep);
  }

  /** A second run changes nothing. */
  lemma VideoIdempotent(offer: string, answer: string)
    requires WellFramed(offer) && WellFramed(answer)
    ensures VideoText(offer, VideoText(offer, answer)) == VideoText(offer, answer)
  {
    VideoTextLines(offer, answer);
    OfferFacts(offer);
    VideoLinesShape(Lines(answer), VideoOffersOf(offer));
  }

  /** The final-newline state is kept. */
  lemma VideoFinalNewline(offer: string, answer: string)
    requires WellFramed(offer) && WellFramed(answer)
    ensures FinalNewline(VideoText(offer, answer)) == FinalNewline(answer)
  {
    VideoTextLines(offer, answer);
    OfferFacts(offer);
    VideoLinesShape(Lines(answer), VideoOffersOf(offer));
    FinalNewlineLines(answer);
    FinalNewlineLines(VideoText(offer, answer));
  }
}
