/** `normalizeAlexaRejectedMediaMIDs`: restore the offered MID of rejected media sections, by position. */
module MediaMids {
  import opened GoText
  import opened Sequences
  import opened Tokens
  import opened Sections

  const MID := "a=mid:"

  predicate IsMid(line: string) {
    HasPrefix(line, MID)
  }

  /** `alexaMediaLineFields`: the fields of a well-formed m-line. */
  function MediaLineFields(line: string): (fields: Option<seq<string>>)
    ensures fields.Some? ==> |fields.value| >= 4 && fields.value == Fields(line)
    ensures fields.Some? ==> TrimPrefix(fields.value[0], "m=") != []
  {
    var fields := Fields(line);
    if |fields| < 4 || !HasPrefix(fields[0], "m=") || TrimPrefix(fields[0], "m=") == [] then None
    else
      var parts := Split(fields[1], "/");
      if |parts| > 2 || parts[0] == [] then None
      else if ParseUint(parts[0], 0x1_0000).None? then None
      else if |parts| == 2
          && (ParseUint(parts[1], 0x1_0000_0000).None? || ParseUint(parts[1], 0x1_0000_0000).value == 0)
      then None
      else Some(fields)
  }

  /** The fields of a well-formed m-line with port token exactly `0`. */
  function RejectedFields(line: string): (fields: Option<seq<string>>)
    ensures fields.Some? ==> |fields.value| >= 4 && fields.value == Fields(line) && fields.value[1] == "0"
  {
    var fields := MediaLineFields(line);
    if fields.Some? && fields.value[1] == "0" then fields else None
  }

  datatype OfferedSection = OfferedSection(mediaType: string, mid: string)

  function FirstMid(lines: seq<string>): string {
    if lines == [] then []
    else if IsMid(lines[0]) then TrimPrefix(lines[0], MID)
    else FirstMid(lines[1..])
  }

  function MediaType(line: string): string {
    var fields := MediaLineFields(line);
    if fields.Some? then TrimPrefix(fields.value[0], "m=") else []
  }

  function OfferOf(section: seq<string>): OfferedSection
    requires IsSection(section)
  {
    OfferedSection(MediaType(section[0]), FirstMid(section[1..]))
  }

  function Offers(sections: seq<seq<string>>): (offers: seq<OfferedSection>)
    requires AllSections(sections)
    ensures |offers| == |sections|
  {
    if sections == [] then [] else [OfferOf(sections[0])] + Offers(sections[1..])
  }

  lemma {:induction false} OfferAt(sections: seq<seq<string>>, i: nat)
    requires AllSections(sections) && i < |sections|
    ensures Offers(sections)[i] == OfferOf(sections[i])
  {
    if i > 0 {
      OfferAt(sections[1..], i - 1);
    }
  }

  function OffersOf(offer: string): seq<OfferedSection> {
    Offers(SectionsOf(Lines(offer)))
  }

  predicate HasMid(lines: seq<string>) {
    exists i :: 0 <= i < |lines| && IsMid(lines[i])
  }

  /** The section is rejected, well formed, of the offered media type, offered with a MID and lacking one. */
  predicate NeedsMid(section: seq<string>, index: nat, offers: seq<OfferedSection>)
    requires IsSection(section)
  {
    && index < |offers|
    && RejectedFields(section[0]).Some?
    && MediaType(section[0]) == offers[index].mediaType
    && offers[index].mid != []
    && !HasMid(section[1..])
  }

  /** Before the first attribute; else at the end, but before a blank last line. */
  function MidPosition(section: seq<string>): (at: nat)
    requires IsSection(section)
    ensures 1 <= at <= |section|
  {
    var at := 1 + FirstAttribute(section[1..]);
    if at < |section| then at
    else if |section| > 1 && Last(section) == [] then |section| - 1
    else |section|
  }

  function MidSection(section: seq<string>, index: nat, offers: seq<OfferedSection>): seq<string>
    requires IsSection(section)
  {
    if NeedsMid(section, index, offers) then
      var at := MidPosition(section);
      section[..at] + [MID + offers[index].mid] + section[at..]
    else section
  }

  function MidSections(sections: seq<seq<string>>, index: nat, offers: seq<OfferedSection>): (result: seq<seq<string>>)
    requires AllSections(sections)
    ensures |result| == |sections|
  {
    if sections == [] then []
    else [MidSection(sections[0], index, offers)] + MidSections(sections[1..], index + 1, offers)
  }

  function MidLines(lines: seq<string>, offers: seq<OfferedSection>): seq<string> {
    Rebuild(lines, MidSections(SectionsOf(lines), 0, offers))
  }

  function MidText(offer: string, answer: string): string {
    Join(MidLines(Lines(answer), OffersOf(offer)), LineSeparator(answer))
  }

  /** The search for the offered MID, `server.go:341-346`. */
  method FindMid(lines: seq<string>, start: nat, end: nat) returns (mid: string)
    requires start <= end <= |lines|
    ensures mid == FirstMid(lines[start..end])
  {
    var i := start;
    while i < end
      invariant start <= i <= end
      invariant FirstMid(lines[start..end]) == FirstMid(lines[i..end])
    {
      if HasPrefix(lines[i], MID) {
        return TrimPrefix(lines[i], MID);
      }
      assert lines[i..end][1..] == lines[i + 1..end];
      i := i + 1;
    }
    return [];
  }

  /** The media type of an offered m-line, `server.go:333-336`. */
  method ParseMediaType(line: string) returns (mediaType: string)
    ensures mediaType == MediaType(line)
  {
    mediaType := [];
    var fields := MediaLineFields(line);
    if fields.Some? {
      mediaType := TrimPrefix(fields.value[0], "m=");
    }
  }

  function OffersFrom(lines: seq<string>, start: nat): seq<OfferedSection>
    requires start <= |lines|
  {
    Offers(SectionsOf(lines[start..]))
  }

  lemma OffersStep(lines: seq<string>, start: nat, end: nat)
    requires IsSectionEnd(lines, start, end)
    ensures OffersFrom(lines, start) ==
            [OfferedSection(MediaType(lines[start]), FirstMid(lines[start + 1..end]))] + OffersFrom(lines, end)
  {
    ScanSection(lines, start, end);
    assert lines[start..end][1..] == lines[start + 1..end];
    var section, rest := lines[start..end], SectionsOf(lines[end..]);
    assert ([section] + rest)[1..] == rest;
  }

  lemma OffersSkip(lines: seq<string>, start: nat)
    requires start < |lines| && !IsMedia(lines[start])
    ensures OffersFrom(lines, start) == OffersFrom(lines, start + 1)
  {
    ScanPreamble(lines, start);
  }

  /** The sections before `start` have been collected. */
  ghost predicate Collected(lines: seq<string>, start: nat, offers: seq<OfferedSection>) {
    && start <= |lines|
    && Offers(SectionsOf(lines)) == offers + OffersFrom(lines, start)
  }

  lemma CollectedEnds(lines: seq<string>)
    ensures Collected(lines, 0, [])
  {
    assert lines[0..] == lines;
  }

  lemma CollectedAll(lines: seq<string>, offers: seq<OfferedSection>)
    requires Collected(lines, |lines|, offers)
    ensures offers == Offers(SectionsOf(lines))
  {
  }

  lemma CollectedSkip(lines: seq<string>, start: nat, offers: seq<OfferedSection>)
    requires Collected(lines, start, offers) && start < |lines| && !IsMedia(lines[start])
    ensures Collected(lines, start + 1, offers)
  {
    OffersSkip(lines, start);
  }

  lemma CollectedSection(lines: seq<string>, start: nat, end: nat, offers: seq<OfferedSection>)
    requires Collected(lines, start, offers) && IsSectionEnd(lines, start, end)
    ensures Collected(lines, end, offers + [OfferedSection(MediaType(lines[start]), FirstMid(lines[start + 1..end]))])
  {
    OffersStep(lines, start, end);
  }

  /** `alexaOfferMediaSections`. */
  method OfferMediaSections(offer: string) returns (offers: seq<OfferedSection>)
    ensures offers == OffersOf(offer)
  {
    var separator := LF;
    if Contains(offer, CRLF) {
      separator := CRLF;
    }
    var lines := Split(offer, separator);
    offers := CollectOffers(lines);
  }

  /** The section loop, `server.go:329-349`. */
  method CollectOffers(lines: seq<string>) returns (offers: seq<OfferedSection>)
    ensures offers == Offers(SectionsOf(lines))
  {
    offers := [];
    var lineIndex := 0;
    CollectedEnds(lines);
    while lineIndex < |lines|
      invariant 0 <= lineIndex <= |lines|
      invariant Collected(lines, lineIndex, offers)
    {
      offers, lineIndex := CollectRound(lines, lineIndex, offers);
    }
    CollectedAll(lines, offers);
  }

  /** One round: after a section `lineIndex` comes to its end (last line, then `++`), else to the next line. */
  method CollectRound(lines: seq<string>, start: nat, offers: seq<OfferedSection>)
    returns (grown: seq<OfferedSection>, next: nat)
    requires start < |lines| && Collected(lines, start, offers)
    ensures start < next <= |lines| && Collected(lines, next, grown)
  {
    if !IsMedia(lines[start]) {
      CollectedSkip(lines, start, offers);
      grown, next := offers, start + 1;
    } else {
      grown, next := CollectOffer(lines, start, offers);
    }
  }

  /** The section read in one round, `server.go:333-347`. */
  method CollectOffer(lines: seq<string>, start: nat, offers: seq<OfferedSection>)
    returns (grown: seq<OfferedSection>, sectionEnd: nat)
    requires start < |lines| && IsMedia(lines[start]) && Collected(lines, start, offers)
    ensures start < sectionEnd <= |lines| && Collected(lines, sectionEnd, grown)
  {
    var mediaType := ParseMediaType(lines[start]);
    sectionEnd := FindSectionEnd(lines, start);
    var mid := FindMid(lines, start + 1, sectionEnd);
    CollectedSection(lines, start, sectionEnd, offers);
    grown := offers + [OfferedSection(mediaType, mid)];
  }

  /** `alexaRejectedMediaMIDInsertAt`; `None` is the source's -1. */
  method RejectedMidInsertAt(section: seq<string>, index: nat, offers: seq<OfferedSection>) returns (at: Option<nat>)
    requires IsSection(section)
    ensures at == if NeedsMid(section, index, offers) then Some(MidPosition(section)) else None
  {
    if |section| == 0 || index >= |offers| {
      return None;
    }
    var fields := MediaLineFields(section[0]);
    if fields.None? || fields.value[1] != "0" {
      return None;
    }
    var mediaType := TrimPrefix(fields.value[0], "m=");
    if mediaType == [] || mediaType != offers[index].mediaType || offers[index].mid == [] {
      return None;
    }
    var i := 1;
    while i < |section|
      invariant 1 <= i <= |section|
      invariant forall j :: 1 <= j < i ==> !IsMid(section[j])
    {
      if HasPrefix(section[i], MID) {
        assert section[1..][i - 1] == section[i];
        return None;
      }
      i := i + 1;
    }
    assert NeedsMid(section, index, offers);
    i := 1;
    while i < |section|
      invariant 1 <= i <= |section|
      invariant FirstAttribute(section[1..]) == i - 1 + FirstAttribute(section[i..])
    {
      if IsAttribute(section[i]) {
        return Some(i);
      }
      assert section[i..][1..] == section[i + 1..];
      i := i + 1;
    }
    var insertAt := |section|;
    if insertAt > 1 && section[insertAt - 1] == [] {
      insertAt := insertAt - 1;
    }
    return Some(insertAt);
  }

  /** The m-line indices below `n`, in order, as the first loop collects them. */
  ghost predicate StartsBelow(lines: seq<string>, starts: seq<int>, n: nat)
    requires n <= |lines|
  {
    && (forall k :: 0 <= k < |starts| ==> 0 <= starts[k] < n && IsMedia(lines[starts[k]]))
    && (forall k :: 0 <= k < |starts| - 1 ==> starts[k] < starts[k + 1])
    && (forall k, i :: 0 <= k < |starts| - 1 && starts[k] < i < starts[k + 1] ==> !IsMedia(lines[i]))
    && (forall i :: (if starts == [] then -1 else Last(starts)) < i < n ==> !IsMedia(lines[i]))
    && (starts != [] ==> forall i :: 0 <= i < starts[0] ==> !IsMedia(lines[i]))
  }

  /** The section scan from `sectionStarts`: section k runs to the next start, or to the last line. */
  function EndOf(lines: seq<string>, starts: seq<int>, k: nat): int
    requires k < |starts|
  {
    if k + 1 < |starts| then starts[k + 1] else |lines|
  }

  lemma StartsSection(lines: seq<string>, starts: seq<int>, k: nat)
    requires StartsBelow(lines, starts, |lines|) && k < |starts|
    ensures IsSectionEnd(lines, starts[k], EndOf(lines, starts, k))
  {
    assert k + 1 == |starts| ==> starts[k] == Last(starts);
  }

  function MidTail(lines: seq<string>, start: nat, index: nat, offers: seq<OfferedSection>): seq<string>
    requires start <= |lines|
  {
    Concat(MidSections(SectionsOf(lines[start..]), index, offers))
  }

  lemma MidStep(lines: seq<string>, start: nat, end: nat, index: nat, offers: seq<OfferedSection>)
    requires IsSectionEnd(lines, start, end)
    ensures IsSection(lines[start..end])
    ensures MidTail(lines, start, index, offers) ==
            MidSection(lines[start..end], index, offers) + MidTail(lines, end, index + 1, offers)
  {
    ScanSection(lines, start, end);
    var section, rest := lines[start..end], SectionsOf(lines[end..]);
    assert section[1..] == lines[start + 1..end];
    MidCons(section, rest, index, offers);
    ConcatCons(MidSection(section, index, offers), MidSections(rest, index + 1, offers));
  }

  lemma MidCons(section: seq<string>, rest: seq<seq<string>>, index: nat, offers: seq<OfferedSection>)
    requires IsSection(section) && AllSections(rest)
    ensures AllSections([section] + rest)
    ensures MidSections([section] + rest, index, offers) ==
            [MidSection(section, index, offers)] + MidSections(rest, index + 1, offers)
  {
    assert ([section] + rest)[1..] == rest;
  }

  /** With nothing offered, or no section to edit, the specification leaves the text alone too. */
  lemma MidNothing(offer: string, answer: string)
    ensures OffersOf(offer) == [] || SectionsOf(Lines(answer)) == [] ==> MidText(offer, answer) == answer
  {
    LinesStable(answer);
    if OffersOf(offer) == [] {
      MidNoOffers(SectionsOf(Lines(answer)), 0);
    }
  }

  lemma {:induction false} MidNoOffers(sections: seq<seq<string>>, index: nat)
    requires AllSections(sections)
    ensures MidSections(sections, index, []) == sections
  {
    if sections != [] {
      MidNoOffers(sections[1..], index + 1);
    }
  }

  lemma StartsSkip(lines: seq<string>, starts: seq<int>, i: nat)
    requires i < |lines| && StartsBelow(lines, starts, i) && !IsMedia(lines[i])
    ensures StartsBelow(lines, starts, i + 1)
  {
  }

  lemma StartsPush(lines: seq<string>, starts: seq<int>, i: nat)
    requires i < |lines| && StartsBelow(lines, starts, i) && IsMedia(lines[i])
    ensures StartsBelow(lines, starts + [i], i + 1)
  {
    var grown := starts + [i];
    assert Last(grown) == i;
    forall k | 0 <= k < |grown| - 1
      ensures grown[k] < grown[k + 1]
      ensures forall j :: grown[k] < j < grown[k + 1] ==> !IsMedia(lines[j])
    {
      if k < |starts| - 1 {
        assert grown[k + 1] == starts[k + 1];
      } else {
        assert grown[k] == Last(starts);
      }
    }
  }

  /** One line of the first loop. */
  method CollectStart(lines: seq<string>, starts: seq<int>, i: nat) returns (grown: seq<int>)
    requires i < |lines| && StartsBelow(lines, starts, i)
    ensures StartsBelow(lines, grown, i + 1)
  {
    if IsMedia(lines[i]) {
      StartsPush(lines, starts, i);
      grown := starts + [i];
    } else {
      StartsSkip(lines, starts, i);
      grown := starts;
    }
  }

  /** The first loop over the lines, `server.go:293-298`. */
  method CollectStarts(lines: seq<string>) returns (starts: seq<int>)
    ensures StartsBelow(lines, starts, |lines|)
  {
    starts := [];
    var i := 0;
    while i < |lines|
      invariant 0 <= i <= |lines|
      invariant StartsBelow(lines, starts, i)
    {
      starts := CollectStart(lines, starts, i);
      i := i + 1;
    }
  }

  /** `normalizeAlexaRejectedMediaMIDs`. */
  method NormalizeRejectedMediaMids(offer: string, answer: string) returns (normalized: string)
    ensures normalized == MidText(offer, answer)
  {
    var offers := OfferMediaSections(offer);
    MidNothing(offer, answer);
    if |offers| == 0 {
      return answer;
    }
    var separator := LF;
    if Contains(answer, CRLF) {
      separator := CRLF;
    }
    var lines := Split(answer, separator);
    var starts := CollectStarts(lines);
    if |starts| == 0 {
      SkipPreamble(lines, |lines|);
      return answer;
    }
    var result := EditSections(lines, starts, offers);
    normalized := Join(result, separator);
  }

  /** The second loop, `server.go:303-318`. */
  method EditSections(lines: seq<string>, starts: seq<int>, offers: seq<OfferedSection>)
    returns (normalized: seq<string>)
    requires StartsBelow(lines, starts, |lines|) && starts != []
    ensures normalized == MidLines(lines, offers)
  {
    normalized := lines[..starts[0]];
    SkipPreamble(lines, starts[0]);
    StartsSection(lines, starts, 0);
    ScanSection(lines, starts[0], EndOf(lines, starts, 0));
    var k := 0;
    ghost var at := starts[0];
    while k < |starts|
      invariant 0 <= k <= |starts| && 0 <= at <= |lines|
      invariant at == if k < |starts| then starts[k] else |lines|
      invariant MidLines(lines, offers) == normalized + MidTail(lines, at, k, offers)
    {
      var sectionStart := starts[k];
      var sectionEnd := |lines|;
      if k + 1 < |starts| {
        sectionEnd := starts[k + 1];
      }
      StartsSection(lines, starts, k);
      MidStep(lines, sectionStart, sectionEnd, k, offers);
      var section := lines[sectionStart..sectionEnd];
      ghost var tail := MidTail(lines, sectionEnd, k + 1, offers);
      Regroup(normalized, MidSection(section, k, offers), tail);
      normalized := AppendSection(normalized, section, k, offers);
      at := sectionEnd;
      k := k + 1;
    }
    assert MidTail(lines, |lines|, k, offers) == [];
  }

  /** The appends for one section, `server.go:310-317`. */
  method AppendSection(normalized: seq<string>, section: seq<string>, index: nat, offers: seq<OfferedSection>)
    returns (grown: seq<string>)
    requires IsSection(section)
    ensures grown == normalized + MidSection(section, index, offers)
  {
    var insertAt := RejectedMidInsertAt(section, index, offers);
    if insertAt.None? {
      return normalized + section;
    }
    Regroup3(normalized, section[..insertAt.value], [MID + offers[index].mid], section[insertAt.value..]);
    grown := normalized + section[..insertAt.value];
    grown := grown + [MID + offers[index].mid];
    grown := grown + section[insertAt.value..];
  }
}
