/** What the MID rewriter reads and writes, in the tokens and numerals of the text alone. */
module MediaMidsExact {
  import opened GoText
  import opened Tokens
  import opened Numerals
  import opened Sections
  import opened MediaMids
  import opened MediaMidsProperties

  /** A port below 2^16, or that and a positive number of ports below 2^32. */
  ghost predicate PortToken(token: string) {
    || (exists n: nat :: n < 65_536 && ZeroPadded(token, n))
    || (exists port: string, count: string :: token == port + "/" + count && PortOf(port) && CountOf(count))
  }

  ghost predicate PortOf(port: string) {
    exists n: nat :: n < 65_536 && ZeroPadded(port, n)
  }

  ghost predicate CountOf(count: string) {
    exists n: nat :: 0 < n < 4_294_967_296 && ZeroPadded(count, n)
  }

  /** At least four tokens, a media type, a port. */
  ghost predicate MediaTokens(tokens: seq<string>) {
    |tokens| >= 4 && "m=" <= tokens[0] && |tokens[0]| > 2 && PortToken(tokens[1])
  }

  lemma PortMeans(port: string)
    ensures ParseUint(port, 0x1_0000).Some? <==> PortOf(port)
    ensures ParseUint(port, 0x1_0000).Some? ==> port != [] && !Contains(port, "/")
  {
    if ParseUint(port, 0x1_0000).Some? {
      ParseUintMeans(port, 0x1_0000, ParseUint(port, 0x1_0000).value);
      DigitsNoSlash(port);
    }
    if PortOf(port) {
      var n: nat :| n < 65_536 && ZeroPadded(port, n);
      ParseUintMeans(port, 0x1_0000, n);
    }
  }

  lemma CountMeans(count: string)
    ensures ParseUint(count, 0x1_0000_0000).Some? && ParseUint(count, 0x1_0000_0000).value > 0 <==> CountOf(count)
    ensures CountOf(count) ==> !Contains(count, "/")
  {
    if ParseUint(count, 0x1_0000_0000).Some? {
      ParseUintMeans(count, 0x1_0000_0000, ParseUint(count, 0x1_0000_0000).value);
    }
    if CountOf(count) {
      var n: nat :| 0 < n < 4_294_967_296 && ZeroPadded(count, n);
      ParseUintMeans(count, 0x1_0000_0000, n);
      DigitsNoSlash(count);
    }
  }

  lemma DigitsNoSlash(s: string)
    requires IsDigits(s)
    ensures !Contains(s, "/")
  {
    ContainsMeans(s, "/");
    forall i: nat | i <= |s|
      ensures !OccursAt(s, "/", i)
    {
      assert i < |s| ==> s[i..][0] == s[i];
    }
  }

  /** The check of the port token, as the source makes it on the pieces around slashes. */
  predicate PartsOk(parts: seq<string>)
    requires parts != []
  {
    && |parts| <= 2 && ParseUint(parts[0], 0x1_0000).Some?
    && (|parts| == 2 ==> ParseUint(parts[1], 0x1_0000_0000).Some? && ParseUint(parts[1], 0x1_0000_0000).value > 0)
  }

  lemma OnePort(token: string)
    requires PortOf(token)
    ensures PartsOk(Split(token, "/"))
  {
    PortMeans(token);
    SplitAppend(token, "/", []);
  }

  lemma SplitTwo(port: string, count: string)
    requires !Contains(port, "/") && !Contains(count, "/")
    ensures Split(port + "/" + count, "/") == [port] + [count]
  {
    SplitAppend(port, "/", count);
    SplitAppend(count, "/", []);
  }

  lemma PairOk(port: string, count: string)
    requires ParseUint(port, 0x1_0000).Some?
    requires ParseUint(count, 0x1_0000_0000).Some? && ParseUint(count, 0x1_0000_0000).value > 0
    ensures PartsOk([port] + [count])
  {
    var parts := [port] + [count];
    assert parts[0] == port && parts[1] == count;
  }

  lemma TwoParts(port: string, count: string)
    requires PortOf(port) && CountOf(count)
    ensures PartsOk(Split(port + "/" + count, "/"))
  {
    PortMeans(port);
    CountMeans(count);
    SplitTwo(port, count);
    PairOk(port, count);
  }

  lemma PartsMean(token: string)
    requires PartsOk(Split(token, "/"))
    ensures PortToken(token)
  {
    var parts := Split(token, "/");
    JoinSplit(token, "/");
    PortMeans(parts[0]);
    if |parts| == 1 {
      assert PortOf(token);
    } else {
      CountMeans(parts[1]);
      assert Join(parts, "/") == parts[0] + "/" + parts[1];
    }
  }

  lemma PortTokenMeans(token: string)
    ensures PartsOk(Split(token, "/")) <==> PortToken(token)
  {
    if PartsOk(Split(token, "/")) {
      PartsMean(token);
    } else if PortOf(token) {
      OnePort(token);
    } else if port: string, count: string :| token == port + "/" + count && PortOf(port) && CountOf(count) {
      TwoParts(port, count);
    }
  }

  /** `alexaMediaLineFields` accepts exactly these m-lines. */
  lemma MediaLineExactly(line: string)
    ensures MediaLineFields(line).Some? <==> MediaTokens(Fields(line))
  {
    var tokens := Fields(line);
    if |tokens| >= 4 {
      PrefixSlice(tokens[0], "m=");
      TrimMeans(tokens[0], "m=");
      PortTokenMeans(tokens[1]);
      PortMeans(Split(tokens[1], "/")[0]);
    }
  }

  lemma ZeroIsPort()
    ensures PortToken("0")
  {
    assert "0" == Zeros(0) + Shown(0);
    assert ZeroPadded("0", 0);
  }

  lemma TypeMeans(line: string)
    ensures MediaType(line) == if MediaTokens(Fields(line)) then Fields(line)[0][2..] else ""
  {
    MediaLineExactly(line);
    if MediaTokens(Fields(line)) {
      TrimMeans(Fields(line)[0], "m=");
      PrefixSlice(Fields(line)[0], "m=");
    }
  }

  /** Exactly these sections gain the offered MID: rejected, of the offered type, without a MID, offered with one. */
  lemma NeedsMidExactly(section: seq<string>, index: nat, offers: seq<OfferedSection>)
    requires IsSection(section)
    ensures NeedsMid(section, index, offers) <==>
            var tokens := Fields(section[0]);
            && index < |offers| && offers[index].mid != ""
            && |tokens| >= 4 && "m=" <= tokens[0] && |tokens[0]| > 2 && tokens[1] == "0"
            && tokens[0][2..] == offers[index].mediaType
            && (forall i :: 1 <= i < |section| ==> !("a=mid:" <= section[i]))
  {
    MediaLineExactly(section[0]);
    TypeMeans(section[0]);
    ZeroIsPort();
    forall i | 1 <= i < |section|
      ensures IsMid(section[1..][i - 1]) <==> "a=mid:" <= section[i]
    {
      PrefixSlice(section[i], "a=mid:");
    }
    NoMidMeans(section);
  }

  lemma NoMidMeans(section: seq<string>)
    requires IsSection(section)
    ensures HasMid(section[1..]) <==> exists i :: 1 <= i < |section| && IsMid(section[i])
  {
    if i :| 1 <= i < |section| && IsMid(section[i]) {
      assert section[1..][i - 1] == section[i];
    }
    if HasMid(section[1..]) {
      var i :| 0 <= i < |section[1..]| && IsMid(section[1..][i]);
      assert section[i + 1] == section[1..][i];
    }
  }

  lemma {:induction false} FirstMidIs(lines: seq<string>, i: nat)
    requires i < |lines| && "a=mid:" <= lines[i] && forall j :: 0 <= j < i ==> !("a=mid:" <= lines[j])
    ensures FirstMid(lines) == lines[i][6..]
  {
    PrefixSlice(lines[0], "a=mid:");
    if i > 0 {
      FirstMidIs(lines[1..], i - 1);
    } else {
      TrimMeans(lines[0], "a=mid:");
    }
  }

  lemma {:induction false} NoFirstMid(lines: seq<string>)
    requires forall j :: 0 <= j < |lines| ==> !("a=mid:" <= lines[j])
    ensures FirstMid(lines) == ""
  {
    if lines != [] {
      PrefixSlice(lines[0], "a=mid:");
      NoFirstMid(lines[1..]);
    }
  }

  /** Line j of the section is its first MID line. */
  predicate FirstMidAt(section: seq<string>, j: int) {
    && 1 <= j < |section| && "a=mid:" <= section[j]
    && (forall k :: 1 <= k < j ==> !("a=mid:" <= section[k]))
  }

  /** What is read of offer section i: the type of a well-formed m-line, and the rest of the first MID line. */
  lemma OfferExactly(offer: string, i: nat)
    requires i < |SectionsOf(Lines(offer))|
    ensures |OffersOf(offer)| == |SectionsOf(Lines(offer))|
    ensures var section, offered := SectionsOf(Lines(offer))[i], OffersOf(offer)[i];
            && offered.mediaType == (if MediaTokens(Fields(section[0])) then Fields(section[0])[0][2..] else "")
            && ((forall j :: 1 <= j < |section| ==> !("a=mid:" <= section[j])) ==> offered.mid == "")
            && (forall j :: FirstMidAt(section, j) ==> offered.mid == section[j][6..])
  {
    var sections := SectionsOf(Lines(offer));
    var section := sections[i];
    OfferAt(sections, i);
    TypeMeans(section[0]);
    assert forall j :: 1 <= j < |section| ==> section[1..][j - 1] == section[j];
    if forall j :: 1 <= j < |section| ==> !("a=mid:" <= section[j]) {
      NoFirstMid(section[1..]);
    }
    forall j | FirstMidAt(section, j)
      ensures FirstMid(section[1..]) == section[j][6..]
    {
      FirstMidIs(section[1..], j - 1);
    }
  }

  /** The line `a=mid:` and the offered MID goes right before the first `a=` line of its section, or to its end. */
  lemma MidGoesFirst(section: seq<string>, index: nat, offers: seq<OfferedSection>)
    requires IsSection(section) && NeedsMid(section, index, offers)
    ensures exists at :: 1 <= at <= |section|
              && MidSection(section, index, offers) == section[..at] + ["a=mid:" + offers[index].mid] + section[at..]
              && (forall i :: 1 <= i < at ==> !("a=" <= section[i]))
              && (at < |section| ==> "a=" <= section[at] || (at == |section| - 1 && section[at] == []))
              && (at == |section| > 1 ==> section[at - 1] != [])
  {
    var at := MidPosition(section);
    PositionFacts(section);
    forall i | 0 <= i < |section|
      ensures IsAttribute(section[i]) <==> "a=" <= section[i]
    {
      PrefixSlice(section[i], "a=");
    }
    assert MidSection(section, index, offers) == section[..at] + ["a=mid:" + offers[index].mid] + section[at..];
  }
}
