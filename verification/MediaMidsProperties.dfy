/** What the MID rewriter promises: insert-only, positional, exact, idempotent, final newline kept. */
module MediaMidsProperties {
  import opened GoText
  import opened Sections
  import opened MediaMids

  function MidsOf(lines: seq<string>): seq<string> {
    if lines == [] then [] else (if IsMid(lines[0]) then [lines[0]] else []) + MidsOf(lines[1..])
  }

  function WithoutMids(lines: seq<string>): seq<string> {
    if lines == [] then [] else (if IsMid(lines[0]) then [] else [lines[0]]) + WithoutMids(lines[1..])
  }

  lemma TailOfSum(a: seq<string>, b: seq<string>)
    requires a != []
    ensures a + b != [] && (a + b)[0] == a[0] && (a + b)[1..] == a[1..] + b
  {
  }

  lemma {:induction false} MidsOfAppend(a: seq<string>, b: seq<string>)
    ensures MidsOf(a + b) == MidsOf(a) + MidsOf(b)
  {
    if a == [] {
      assert a + b == b;
    } else {
      TailOfSum(a, b);
      MidsOfAppend(a[1..], b);
    }
  }

  lemma {:induction false} WithoutMidsAppend(a: seq<string>, b: seq<string>)
    ensures WithoutMids(a + b) == WithoutMids(a) + WithoutMids(b)
  {
    if a == [] {
      assert a + b == b;
    } else {
      TailOfSum(a, b);
      WithoutMidsAppend(a[1..], b);
    }
  }

  lemma MidsAppend(a: seq<string>, b: seq<string>)
    ensures MidsOf(a + b) == MidsOf(a) + MidsOf(b)
    ensures WithoutMids(a + b) == WithoutMids(a) + WithoutMids(b)
  {
    MidsOfAppend(a, b);
    WithoutMidsAppend(a, b);
  }

  lemma {:induction false} NoMids(lines: seq<string>)
    requires !HasMid(lines)
    ensures MidsOf(lines) == [] && WithoutMids(lines) == lines
  {
    if lines != [] {
      assert forall i :: 0 <= i < |lines| - 1 ==> lines[1..][i] == lines[i + 1];
      NoMids(lines[1..]);
    }
  }

  lemma MidLine(mid: string)
    ensures IsMid(MID + mid) && IsAttribute(MID + mid) && !IsMedia(MID + mid)
  {
    PrefixOfAppend(MID, mid);
    PrefixOfAppend("a=", "mid:" + mid);
    assert "a=" + ("mid:" + mid) == MID + mid;
    assert (MID + mid)[0] == 'a';
  }

  /** An m-line is not a MID line. */
  lemma MediaNotMid(line: string)
    requires IsMedia(line)
    ensures !IsMid(line)
  {
    assert line[0] == 'm';
  }

  /** The index i where the new line goes. */
  lemma InsertedSection(section: seq<string>, at: nat, line: string)
    requires IsSection(section) && 1 <= at <= |section| && !IsMedia(line)
    ensures IsSection(section[..at] + [line] + section[at..])
    ensures (section[..at] + [line] + section[at..])[0] == section[0]
    ensures (section[..at] + [line] + section[at..])[1..] == section[1..at] + [line] + section[at..]
  {
    var result := section[..at] + [line] + section[at..];
    assert result[1..] == section[1..at] + [line] + section[at..];
    forall i | 1 <= i < |result|
      ensures !IsMedia(result[i])
    {
      if i < at {
        assert result[i] == section[1..][i - 1];
      } else if i > at {
        assert result[i] == section[1..][i - 2];
      }
    }
  }

  lemma JustMid(line: string)
    requires IsMid(line)
    ensures MidsOf([line]) == [line] && WithoutMids([line]) == []
  {
    assert [line][1..] == [];
  }

  lemma MidBetween(a: seq<string>, b: seq<string>, line: string)
    requires IsMid(line)
    ensures MidsOf(a + [line] + b) == MidsOf(a) + [line] + MidsOf(b)
  {
    JustMid(line);
    MidsOfAppend(a + [line], b);
    MidsOfAppend(a, [line]);
  }

  lemma NoMidBetween(a: seq<string>, b: seq<string>, line: string)
    requires IsMid(line)
    ensures WithoutMids(a + [line] + b) == WithoutMids(a) + WithoutMids(b)
  {
    JustMid(line);
    WithoutMidsAppend(a + [line], b);
    WithoutMidsAppend(a, [line]);
  }

  lemma OneMidBetween(a: seq<string>, b: seq<string>, line: string)
    requires IsMid(line) && MidsOf(a + b) == [] && WithoutMids(a + b) == a + b
    ensures MidsOf(a + [line] + b) == [line] && WithoutMids(a + [line] + b) == a + b
  {
    MidsAppend(a, b);
    MidBetween(a, b, line);
    NoMidBetween(a, b, line);
  }

  /** One MID line put into lines without any is found, and deleting it gives the lines back. */
  lemma OneMid(lines: seq<string>, at: nat, line: string)
    requires at <= |lines| && IsMid(line) && MidsOf(lines) == [] && WithoutMids(lines) == lines
    ensures MidsOf(lines[..at] + [line] + lines[at..]) == [line]
    ensures WithoutMids(lines[..at] + [line] + lines[at..]) == lines
  {
    assert lines[..at] + lines[at..] == lines;
    OneMidBetween(lines[..at], lines[at..], line);
  }

  /**
   * A section gains at most one line, the offered MID, exactly when it needs one; deleting the MID line of a changed
   * section gives the section back.
   */
  lemma MidSectionExact(section: seq<string>, index: nat, offers: seq<OfferedSection>)
    requires IsSection(section)
    ensures var result := MidSection(section, index, offers);
            && IsSection(result) && result[0] == section[0]
            && (NeedsMid(section, index, offers) ==>
                  && |result| == |section| + 1
                  && MidsOf(result) == [MID + offers[index].mid]
                  && WithoutMids(result) == section)
            && (!NeedsMid(section, index, offers) ==> result == section)
            && !NeedsMid(result, index, offers)
  {
    if NeedsMid(section, index, offers) {
      var at, line := MidPosition(section), MID + offers[index].mid;
      MidLine(offers[index].mid);
      InsertedSection(section, at, line);
      var result := section[..at] + [line] + section[at..];
      MediaNotMid(section[0]);
      SectionWithoutMids(section);
      OneMid(section, at, line);
      assert result[1..][at - 1] == line;
    }
  }

  /** The new line comes right before the first attribute line of the section. */
  lemma MidComesFirst(section: seq<string>, index: nat, offers: seq<OfferedSection>)
    requires IsSection(section) && NeedsMid(section, index, offers)
    ensures var result := MidSection(section, index, offers);
            exists at :: 1 <= at < |result|
              && result[at] == MID + offers[index].mid
              && result[..at] == section[..at]
              && (forall i :: 1 <= i < at ==> !IsAttribute(result[i]))
              && (at < |section| ==> IsAttribute(section[at]) || (at == |section| - 1 && section[at] == []))
  {
    var at, line := MidPosition(section), MID + offers[index].mid;
    PositionFacts(section);
    InsertedAt(section, at, line);
  }

  /** Where the line goes: no attribute before it, and an attribute or the blank last line after it. */
  lemma PositionFacts(section: seq<string>)
    requires IsSection(section)
    ensures var at := MidPosition(section);
            && (forall i :: 1 <= i < at ==> !IsAttribute(section[i]))
            && (at < |section| ==> IsAttribute(section[at]) || (at == |section| - 1 && section[at] == []))
  {
    assert forall i :: 1 <= i < |section| ==> section[1..][i - 1] == section[i];
  }

  lemma InsertedAt(section: seq<string>, at: nat, line: string)
    requires at <= |section|
    ensures var result := section[..at] + [line] + section[at..];
            && |result| == |section| + 1 && result[at] == line && result[..at] == section[..at]
            && (forall i :: 0 <= i < at ==> result[i] == section[i])
  {
  }

  lemma SectionWithoutMids(section: seq<string>)
    requires IsSection(section) && !HasMid(section[1..])
    ensures MidsOf(section) == [] && WithoutMids(section) == section
  {
    MediaNotMid(section[0]);
    NoMids(section[1..]);
  }

  lemma MidLastLine(section: seq<string>, index: nat, offers: seq<OfferedSection>)
    requires IsSection(section)
    ensures MidSection(section, index, offers) != []
    ensures Last(MidSection(section, index, offers)) == [] <==> Last(section) == []
  {
    var at := MidPosition(section);
    if at == |section| {
      assert |section| == 1 ==> Last(section) == section[0];
    }
  }

  lemma {:induction false} MidSectionsShape(sections: seq<seq<string>>, index: nat, offers: seq<OfferedSection>)
    requires AllSections(sections)
    ensures var result := MidSections(sections, index, offers);
            && AllSections(result)
            && MidSections(result, index, offers) == result
            && |Concat(result)| >= |Concat(sections)|
            && (sections != [] ==> (Last(Last(result)) == [] <==> Last(Last(sections)) == []))
  {
    if sections != [] {
      MidSectionExact(sections[0], index, offers);
      MidLastLine(sections[0], index, offers);
      MidSectionsShape(sections[1..], index + 1, offers);
      var head, tail := MidSection(sections[0], index, offers), MidSections(sections[1..], index + 1, offers);
      MidCons(head, tail, index, offers);
      assert MidSection(head, index, offers) == head;
      if |sections| > 1 {
        assert Last([head] + tail) == Last(tail) && Last(sections) == Last(sections[1..]);
      }
    }
  }

  lemma MidUnfold(sections: seq<seq<string>>, index: nat, offers: seq<OfferedSection>)
    requires AllSections(sections) && sections != []
    ensures |MidSections(sections, index, offers)| == 1 + |MidSections(sections[1..], index + 1, offers)|
    ensures MidSections(sections, index, offers)[0] == MidSection(sections[0], index, offers)
    ensures MidSections(sections, index, offers)[1..] == MidSections(sections[1..], index + 1, offers)
  {
  }

  lemma MidTailAt(sections: seq<seq<string>>, index: nat, offers: seq<OfferedSection>, i: nat)
    requires AllSections(sections) && 0 < i < |sections|
    ensures MidSections(sections, index, offers)[i] == MidSections(sections[1..], index + 1, offers)[i - 1]
  {
    MidUnfold(sections, index, offers);
    var all := MidSections(sections, index, offers);
    assert all[i] == all[1..][i - 1];
  }

  lemma {:induction false} MidPositionalFor(sections: seq<seq<string>>, index: nat, offers: seq<OfferedSection>, i: nat,
                                            section: seq<string>, position: nat, edited: seq<string>)
    requires AllSections(sections) && i < |sections| && section == sections[i] && position == index + i
    requires IsSection(section) && edited == MidSection(section, position, offers)
    ensures MidSections(sections, index, offers)[i] == edited
  {
    if i == 0 {
      MidUnfold(sections, index, offers);
    } else {
      assert sections[1..][i - 1] == section;
      MidPositionalFor(sections[1..], index + 1, offers, i - 1, section, position, edited);
      MidTailAt(sections, index, offers, i);
    }
  }

  /** Section i of the answer is edited by its own position alone. */
  lemma MidPositional(sections: seq<seq<string>>, index: nat, offers: seq<OfferedSection>, i: nat)
    requires AllSections(sections) && i < |sections|
    ensures MidSections(sections, index, offers)[i] == MidSection(sections[i], index + i, offers)
  {
    MidPositionalFor(sections, index, offers, i, sections[i], index + i, MidSection(sections[i], index + i, offers));
  }

  lemma MidLinesShape(lines: seq<string>, offers: seq<OfferedSection>)
    requires lines != []
    ensures var sections := MidSections(SectionsOf(lines), 0, offers);
            && AllSections(sections)
            && Parse(MidLines(lines, offers)) == Doc(Parse(lines).preamble, sections)
    ensures MidLines(MidLines(lines, offers), offers) == MidLines(lines, offers)
    ensures |MidLines(lines, offers)| >= |lines|
    ensures EndsBlank(MidLines(lines, offers)) == EndsBlank(lines)
  {
    var sections := MidSections(SectionsOf(lines), 0, offers);
    MidSectionsShape(SectionsOf(lines), 0, offers);
    RebuildSections(lines, sections);
    assert lines == Parse(lines).preamble + Concat(SectionsOf(lines));
    LastRebuild(lines, sections);
  }

  // ---- inserted lines, as flags over the output ----

  /** Which lines of the edited section are new. */
  function InsertedFlags(section: seq<string>, index: nat, offers: seq<OfferedSection>): seq<bool>
    requires IsSection(section)
  {
    if NeedsMid(section, index, offers) then
      var at := MidPosition(section);
      seq(|section| + 1, i => i == at)
    else seq(|section|, i => false)
  }

  function AllFlags(sections: seq<seq<string>>, index: nat, offers: seq<OfferedSection>): seq<bool>
    requires AllSections(sections)
  {
    if sections == [] then []
    else InsertedFlags(sections[0], index, offers) + AllFlags(sections[1..], index + 1, offers)
  }

  /** The lines that are new in the answer to an offer. */
  function NewLines(lines: seq<string>, offers: seq<OfferedSection>): seq<bool> {
    seq(|Parse(lines).preamble|, i => false) + AllFlags(SectionsOf(lines), 0, offers)
  }

  predicate AllFalse(flags: seq<bool>) {
    forall i :: 0 <= i < |flags| ==> !flags[i]
  }

  lemma KeptBefore(a: seq<string>, line: string, before: seq<bool>)
    requires |a| == |before| && AllFalse(before)
    ensures Kept(a + [line], before + [true]) == a
  {
    KeptAppend(a, before, [line], [true]);
    KeptAll(a, before);
    assert Kept([line], [true]) == [];
  }

  lemma KeptBetween(a: seq<string>, b: seq<string>, line: string, before: seq<bool>, after: seq<bool>)
    requires |a| == |before| && |b| == |after| && AllFalse(before) && AllFalse(after)
    ensures Kept(a + [line] + b, before + [true] + after) == a + b
  {
    KeptBefore(a, line, before);
    KeptAll(b, after);
    KeptAppend(a + [line], before + [true], b, after);
  }

  /** Dropping one inserted line. */
  lemma KeptOne(section: seq<string>, at: nat, line: string, flags: seq<bool>)
    requires at <= |section|
    requires |flags| == |section| + 1 && forall i :: 0 <= i < |flags| ==> flags[i] == (i == at)
    ensures Kept(section[..at] + [line] + section[at..], flags) == section
  {
    assert flags == flags[..at] + [true] + flags[at + 1..];
    assert section[..at] + section[at..] == section;
    KeptBetween(section[..at], section[at..], line, flags[..at], flags[at + 1..]);
  }

  lemma KeptInserted(section: seq<string>, index: nat, offers: seq<OfferedSection>)
    requires IsSection(section)
    ensures |InsertedFlags(section, index, offers)| == |MidSection(section, index, offers)|
    ensures Kept(MidSection(section, index, offers), InsertedFlags(section, index, offers)) == section
  {
    var flags := InsertedFlags(section, index, offers);
    if NeedsMid(section, index, offers) {
      KeptOne(section, MidPosition(section), MID + offers[index].mid, flags);
    } else {
      KeptAll(section, flags);
    }
  }

  lemma {:induction false} KeptSections(sections: seq<seq<string>>, index: nat, offers: seq<OfferedSection>)
    requires AllSections(sections)
    ensures |AllFlags(sections, index, offers)| == |Concat(MidSections(sections, index, offers))|
    ensures Kept(Concat(MidSections(sections, index, offers)), AllFlags(sections, index, offers)) == Concat(sections)
  {
    if sections != [] {
      KeptInserted(sections[0], index, offers);
      KeptSections(sections[1..], index + 1, offers);
      var head, tail := MidSection(sections[0], index, offers), MidSections(sections[1..], index + 1, offers);
      ConcatCons(head, tail);
      KeptAppend(head, InsertedFlags(sections[0], index, offers), Concat(tail),
          AllFlags(sections[1..], index + 1, offers));
    }
  }

  /** Deleting the inserted lines gives the answer's lines back exactly. */
  lemma MidInsertOnly(lines: seq<string>, offers: seq<OfferedSection>)
    ensures |NewLines(lines, offers)| == |MidLines(lines, offers)|
    ensures Kept(MidLines(lines, offers), NewLines(lines, offers)) == lines
  {
    var preamble := Parse(lines).preamble;
    var none := seq(|preamble|, i => false);
    KeptSections(SectionsOf(lines), 0, offers);
    KeptAll(preamble, none);
    KeptAppend(preamble, none, Concat(MidSections(SectionsOf(lines), 0, offers)),
        AllFlags(SectionsOf(lines), 0, offers));
  }

  // ---- texts ----

  predicate CleanMids(offers: seq<OfferedSection>) {
    forall i :: 0 <= i < |offers| ==> Clean(offers[i].mid)
  }

  lemma TrimClean(line: string, prefix: string)
    requires Clean(line)
    ensures Clean(TrimPrefix(line, prefix))
  {
    assert forall c :: c in TrimPrefix(line, prefix) ==> c in line;
  }

  lemma {:induction false} FirstMidClean(lines: seq<string>)
    requires AllClean(lines)
    ensures Clean(FirstMid(lines))
  {
    if lines != [] {
      TrimClean(lines[0], MID);
      FirstMidClean(lines[1..]);
    }
  }

  lemma OffersClean(offer: string)
    requires WellFramed(offer)
    ensures CleanMids(OffersOf(offer))
  {
    var sections := SectionsOf(Lines(offer));
    CleanSectionsOf(Lines(offer));
    forall i | 0 <= i < |sections|
      ensures Clean(OffersOf(offer)[i].mid)
    {
      OfferAt(sections, i);
      assert AllClean(sections[i]);
      FirstMidClean(sections[i][1..]);
    }
  }

  lemma MidSectionClean(section: seq<string>, index: nat, offers: seq<OfferedSection>)
    requires IsSection(section) && AllClean(section) && CleanMids(offers)
    ensures AllClean(MidSection(section, index, offers))
  {
    if NeedsMid(section, index, offers) {
      var line := MID + offers[index].mid;
      assert Clean(line);
    }
  }

  lemma {:induction false} MidSectionsClean(sections: seq<seq<string>>, index: nat, offers: seq<OfferedSection>)
    requires AllSections(sections) && CleanSections(sections) && CleanMids(offers)
    ensures CleanSections(MidSections(sections, index, offers))
  {
    if sections != [] {
      MidSectionClean(sections[0], index, offers);
      MidSectionsClean(sections[1..], index + 1, offers);
    }
  }

  /** On well-framed texts the output is well framed and splits into exactly the edited lines. */
  lemma MidTextLines(offer: string, answer: string)
    requires WellFramed(offer) && WellFramed(answer)
    ensures var result := MidText(offer, answer);
            && WellFramed(result)
            && LineSeparator(result) == LineSeparator(answer)
            && Lines(result) == MidLines(Lines(answer), OffersOf(offer))
  {
    var lines, offers, sep := Lines(answer), OffersOf(offer), LineSeparator(answer);
    LinesStable(answer);
    MidLinesShape(lines, offers);
    OffersClean(offer);
    CleanSectionsOf(lines);
    MidSectionsClean(SectionsOf(lines), 0, offers);
    CleanRebuild(lines, MidSections(SectionsOf(lines), 0, offers));
    CleanStable(MidLines(lines, offers), sep);
    RoundTrip(MidLines(lines, offers), sep);
  }

  /** A second run changes nothing. */
  lemma MidIdempotent(offer: string, answer: string)
    requires WellFramed(offer) && WellFramed(answer)
    ensures MidText(offer, MidText(offer, answer)) == MidText(offer, answer)
  {
    MidTextLines(offer, answer);
    MidLinesShape(Lines(answer), OffersOf(offer));
  }

  /** The final-newline state is kept. */
  lemma MidFinalNewline(offer: string, answer: string)
    requires WellFramed(offer) && WellFramed(answer)
    ensures FinalNewline(MidText(offer, answer)) == FinalNewline(answer)
  {
    MidTextLines(offer, answer);
    MidLinesShape(Lines(answer), OffersOf(offer));
    FinalNewlineLines(answer);
    FinalNewlineLines(MidText(offer, answer));
  }
}
