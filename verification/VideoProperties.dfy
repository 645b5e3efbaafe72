/** What the rejected-video rewriter promises about each section, and its idempotence. */
module VideoProperties {
  import opened GoText
  import opened Sequences
  import opened Tokens
  import opened Sections
  import opened VideoPayloads
  import opened VideoLoop

  /** A usable payload is one space/tab token. */
  predicate IsToken(payload: string) {
    payload != [] && forall c :: c in payload ==> !IsBlank(c)
  }

  // ---- the m-line ----

  lemma JoinTokens(head: string, sep: string, word: string, tail: string)
    requires sep == [] || forall c :: c in sep ==> IsBlank(c)
    requires tail == [] || IsBlank(tail[0])
    requires IsToken(word)
    requires (head + sep) == [] || IsBlank((head + sep)[|head + sep| - 1])
    ensures BlankFields(head + sep + word + tail) == BlankFields(head + sep) + [word] + BlankFields(tail)
  {
    FieldsWord(word, tail, IsBlank);
    FieldsConcat(head + sep, word + tail, IsBlank);
    Regroup(head + sep, word, tail);
  }

  lemma {:induction false} BlanksOnly(s: string)
    requires BlankFields(s) == []
    ensures forall c :: c in s ==> IsBlank(c)
  {
    if s != [] {
      BlanksOnly(s[1..]);
      assert s == [s[0]] + s[1..];
    }
  }

  lemma {:induction false} NoBlankFields(s: string)
    requires forall c :: c in s ==> IsBlank(c)
    ensures BlankFields(s) == []
  {
    if s != [] {
      assert forall c :: c in s[1..] ==> c in s;
      assert s[0] in s;
      NoBlankFields(s[1..]);
    }
  }

  lemma SameMiddle(line: string, start: nat, end: nat, word: string)
    requires start <= end <= |line| && line[start..end] == word
    ensures line[..start] + word + line[end..] == line
  {
  }

  lemma TokensAround(head: string, word: string, tail: string)
    requires IsToken(word) && (tail == [] || IsBlank(tail[0])) && (head == [] || IsBlank(head[|head| - 1]))
    ensures BlankFields(head + word + tail) == BlankFields(head) + [word] + BlankFields(tail)
  {
    assert head + [] == head;
    JoinTokens(head, [], word, tail);
  }

  lemma RestOf(fields: seq<string>, k: nat, rest: seq<string>)
    requires k < |fields| && fields == fields[..k] + [fields[k]] + rest
    ensures rest == fields[k + 1..]
  {
  }

  /** The text around span k: the tokens before it, and the tokens after it. */
  lemma SpanCut(line: string, k: nat)
    requires k < |Spans(line)|
    ensures |Spans(line)| == |BlankFields(line)|
    ensures var (start, end) := Spans(line)[k];
            && BlankFields(line[..start]) == BlankFields(line)[..k]
            && line[start..end] == BlankFields(line)[k]
            && BlankFields(line[end..]) == BlankFields(line)[k + 1..]
            && (start > 0 ==> IsBlank(line[start - 1]))
            && (end < |line| ==> IsBlank(line[end]))
  {
    var (start, end) := Spans(line)[k];
    assert line[0..] == line && line[0..start] == line[..start];
    SpanText(line, 0, k);
    SpanBefore(line, 0, k);
    var word := BlankFields(line)[k];
    assert word in BlankFields(line);
    SameMiddle(line, start, end, word);
    TokensAround(line[..start], word, line[end..]);
    RestOf(BlankFields(line), k, BlankFields(line[end..]));
  }

  /**
   * An eligible m-line keeps its first three tokens and gets the payload as its only format; it is still a
   * `m=video ` line, and a second rewrite leaves it alone.
   */
  lemma MLineTokens(line: string, payload: string)
    requires IsToken(payload) && NormalizeMLine(line, payload).Some?
    ensures var result := NormalizeMLine(line, payload).value;
            && |BlankFields(line)| >= 3
            && BlankFields(line)[0] == "m=video" && BlankFields(line)[1] == "0"
            && (|BlankFields(line)| == 3 || (|BlankFields(line)| == 4 && BlankFields(line)[3] == "0"))
            && BlankFields(result) == BlankFields(line)[..3] + [payload]
  {
    MLineEligible(line, payload);
    FirstTokens(line);
    if |Spans(line)| == 4 {
      FourthReplaced(line, payload);
    } else {
      FourthAdded(line, payload);
    }
  }

  lemma FourthReplaced(line: string, payload: string)
    requires IsToken(payload) && |Spans(line)| == |BlankFields(line)| == 4
    ensures var (start, end) := Spans(line)[3];
            BlankFields(line[..start] + payload + line[end..]) == BlankFields(line)[..3] + [payload]
  {
    SpanCut(line, 3);
    var head := line[..Spans(line)[3].0];
    JoinTokens(head, [], payload, line[Spans(line)[3].1..]);
    assert head + [] == head;
  }

  lemma FourthAdded(line: string, payload: string)
    requires IsToken(payload) && |Spans(line)| == |BlankFields(line)| == 3
    ensures var head, trailing := line[..Spans(line)[2].1], line[Spans(line)[2].1..];
            var sep := if trailing != [] then trailing else " ";
            BlankFields(head + sep + payload) == BlankFields(line)[..3] + [payload]
  {
    SpanCut(line, 2);
    var head, trailing := line[..Spans(line)[2].1], line[Spans(line)[2].1..];
    BlanksOnly(trailing);
    ThreeTokens(line, head, trailing, payload);
  }

  lemma FirstTokens(line: string)
    ensures |Spans(line)| == |BlankFields(line)|
    ensures forall k :: 0 <= k < |Spans(line)| ==> line[Spans(line)[k].0..Spans(line)[k].1] == BlankFields(line)[k]
  {
    SpanCount(line, 0);
    assert line[0..] == line;
    forall k | 0 <= k < |Spans(line)|
      ensures line[Spans(line)[k].0..Spans(line)[k].1] == BlankFields(line)[k]
    {
      SpanCut(line, k);
    }
  }

  /** An rtpmap line with a payload and an encoding maps the payload; every other line maps nothing. */
  lemma RtpMapTokens(line: string)
    ensures RtpMapPayload(line) ==
            (if HasPrefix(line, RTPMAP) && |BlankFields(TrimPrefix(line, RTPMAP))| >= 2
             then Some(BlankFields(TrimPrefix(line, RTPMAP))[0]) else None)
  {
    FirstTokens(TrimPrefix(line, RTPMAP));
  }

  /** The m-line is of `video`, has port zero, and lists no format or just `0`. */
  predicate RejectedVideo(tokens: seq<string>) {
    |tokens| >= 3 && tokens[0] == "m=video" && tokens[1] == "0" && (tokens[3..] == [] || tokens[3..] == ["0"])
  }

  /** Exactly these m-lines are rewritten, and only when a payload was offered. */
  lemma MLineEligible(line: string, payload: string)
    ensures NormalizeMLine(line, payload).Some? <==> payload != [] && RejectedVideo(BlankFields(line))
  {
    FirstTokens(line);
  }

  lemma {:induction false} JoinLast(words: seq<string>, word: string)
    requires words != []
    ensures JoinFields(words + [word]) == JoinFields(words) + " " + word
  {
    var rest := words[1..];
    assert (words + [word])[1..] == rest + [word];
    assert JoinFields(words + [word]) == words[0] + " " + JoinFields(rest + [word]);
    if rest == [] {
      assert JoinFields(rest + [word]) == word;
    } else {
      JoinLast(rest, word);
      Regroup3(words[0] + " ", JoinFields(rest), " ", word);
    }
  }

  lemma BlankFrom(line: string, end: nat)
    requires end <= |line| && BlankFields(line[end..]) == []
    ensures forall k :: end <= k < |line| ==> IsBlank(line[k])
  {
    BlanksOnly(line[end..]);
    forall k | end <= k < |line|
      ensures IsBlank(line[k])
    {
      assert line[k] == line[end..][k - end];
    }
  }

  /** A line that does not end in a blank has nothing after its last token. */
  lemma NothingTrails(line: string, end: nat)
    requires line != [] && end <= |line| && BlankFields(line[end..]) == [] && !IsBlank(line[|line| - 1])
    ensures end == |line|
  {
    BlankFrom(line, end);
  }

  lemma {:induction false} JoinEndsInWord(words: seq<string>)
    requires words != [] && Words(words)
    ensures var line := JoinFields(words); line != [] && !IsBlank(line[|line| - 1])
  {
    if |words| == 1 {
      assert words[0][|words[0]| - 1] in words[0];
    } else {
      JoinEndsInWord(words[1..]);
      JoinFirst(words, " ");
    }
  }

  /** A single-spaced m-line of three words gets the payload as its fourth word. */
  lemma MLineOfThree(words: seq<string>, payload: string)
    requires |words| == 3 && Words(words) && words[0] == "m=video" && words[1] == "0" && payload != []
    ensures NormalizeMLine(JoinFields(words), payload) == Some(JoinFields(words + [payload]))
  {
    var line := JoinFields(words);
    FieldsOfWords(words);
    FirstTokens(line);
    SpanCut(line, 2);
    JoinEndsInWord(words);
    NothingTrails(line, Spans(line)[2].1);
    JoinLast(words, payload);
    MLineGrows(line, words, payload);
  }

  lemma MLineGrows(line: string, words: seq<string>, payload: string)
    requires BlankFields(line) == words && |words| == 3 && words[0] == "m=video" && words[1] == "0" && payload != []
    requires |Spans(line)| == 3 && Spans(line)[2].1 == |line|
    ensures NormalizeMLine(line, payload) == Some(line + " " + payload)
  {
    FirstTokens(line);
    assert line[..|line|] == line;
  }

  lemma ThreeTokens(line: string, head: string, trailing: string, payload: string)
    requires line == head + trailing && head != []
    requires forall c :: c in trailing ==> IsBlank(c)
    requires IsToken(payload)
    ensures BlankFields(head + (if trailing != [] then trailing else " ") + payload) == BlankFields(line) + [payload]
  {
    var sep := if trailing != [] then trailing else " ";
    NoBlankFields(trailing);
    NoBlankFields(sep);
    assert sep[0] in sep && sep[|sep| - 1] in sep;
    FieldsConcat(head, sep, IsBlank);
    if trailing == [] {
      assert line == head;
    }
    JoinTokens(head, sep, payload, []);
    assert head + sep + payload + [] == head + sep + payload;
  }

  /** The bytes up to the third token are kept. */
  lemma MLineHead(line: string, payload: string)
    requires payload != [] && NormalizeMLine(line, payload).Some?
    ensures var end := Spans(line)[2].1;
            && end <= |NormalizeMLine(line, payload).value|
            && NormalizeMLine(line, payload).value[..end] == line[..end]
            && end >= 8
  {
    SpanOrder(line, 0, 0);
    SpanOrder(line, 0, 1);
    var spans := Spans(line);
    if |spans| == 4 {
      SpanOrder(line, 0, 2);
    }
  }

  lemma MLineStaysVideo(line: string, payload: string)
    requires IsVideo(line) && payload != [] && NormalizeMLine(line, payload).Some?
    ensures IsVideo(NormalizeMLine(line, payload).value)
  {
    MLineHead(line, payload);
    PrefixSlice(line, "m=video ");
    var result := NormalizeMLine(line, payload).value;
    PrefixSlice(result, "m=video ");
    assert result[..8] == line[..8];
  }

  /** Rewriting a rewritten m-line is not eligible, or changes nothing (the payload `0` case). */
  lemma MLineTwice(line: string, payload: string)
    requires IsToken(payload) && NormalizeMLine(line, payload).Some?
    ensures var result := NormalizeMLine(line, payload).value;
            NormalizeMLine(result, payload) == if payload == "0" then Some(result) else None
  {
    var result := NormalizeMLine(line, payload).value;
    MLineTokens(line, payload);
    var spans := Spans(result);
    SpanCount(result, 0);
    assert result[0..] == result;
    SpanCut(result, 0);
    SpanCut(result, 1);
    SpanCut(result, 3);
    SameMiddle(result, spans[3].0, spans[3].1, payload);
  }

  // ---- the section body ----

  function Filter(lines: seq<string>, keep: string -> bool): seq<string> {
    if lines == [] then [] else (if keep(lines[0]) then [lines[0]] else []) + Filter(lines[1..], keep)
  }

  lemma {:induction false} FilterAppend(a: seq<string>, b: seq<string>, keep: string -> bool)
    ensures Filter(a + b, keep) == Filter(a, keep) + Filter(b, keep)
  {
    if a == [] {
      assert a + b == b;
    } else {
      assert (a + b)[1..] == a[1..] + b;
      FilterAppend(a[1..], b, keep);
    }
  }

  lemma FilterCons(line: string, rest: seq<string>, keep: string -> bool)
    ensures Filter([line] + rest, keep) == (if keep(line) then [line] else []) + Filter(rest, keep)
  {
    assert ([line] + rest)[1..] == rest;
  }

  lemma FilterMiddle(before: seq<string>, line: string, after: seq<string>, keep: string -> bool)
    ensures Filter(before + [line] + after, keep) ==
            Filter(before, keep) + (if keep(line) then [line] else []) + Filter(after, keep)
  {
    FilterAppend(before, [line] + after, keep);
    FilterCons(line, after, keep);
    assert before + ([line] + after) == before + [line] + after;
  }

  lemma FilterInsert(lines: seq<string>, at: nat, line: string, keep: string -> bool)
    requires at <= |lines| && !keep(line)
    ensures Filter(Insert(lines, at, line), keep) == Filter(lines, keep)
  {
    FilterCut(lines[..at], line, lines[at..], keep);
    assert lines == lines[..at] + lines[at..];
  }

  lemma FilterCut(before: seq<string>, line: string, after: seq<string>, keep: string -> bool)
    requires !keep(line)
    ensures Filter(before + [line] + after, keep) == Filter(before + after, keep)
  {
    FilterMiddle(before, line, after, keep);
    FilterAppend(before, after, keep);
    assert Filter(before, keep) + [] == Filter(before, keep);
  }

  lemma {:induction false} FilterNone(lines: seq<string>, keep: string -> bool)
    requires forall i :: 0 <= i < |lines| ==> !keep(lines[i])
    ensures Filter(lines, keep) == []
  {
    if lines != [] {
      FilterNone(lines[1..], keep);
    }
  }

  lemma {:induction false} FilterSome(lines: seq<string>, keep: string -> bool, i: nat)
    requires i < |lines| && keep(lines[i])
    ensures Filter(lines, keep) != []
  {
    if i > 0 {
      FilterSome(lines[1..], keep, i - 1);
    }
  }

  /** Replacing lines the filter drops by lines it drops changes nothing. */
  lemma {:induction false} FilterInactivate(lines: seq<string>, keep: string -> bool)
    requires forall l :: IsDirection(l) ==> !keep(l)
    ensures Filter(Inactivate(lines), keep) == Filter(lines, keep)
  {
    if lines != [] {
      assert Inactivate(lines)[1..] == Inactivate(lines[1..]);
      FilterInactivate(lines[1..], keep);
    }
  }

  lemma DirectionNotMap(line: string, payload: string)
    requires IsDirection(line)
    ensures !MapsPayload(line, payload)
  {
    NotPrefix(line, RTPMAP, if line == "a=recvonly" then 3 else 2);
  }

  /** The rtpmap lines of a payload; the lines that are neither those nor directions. */
  function Maps(lines: seq<string>, payload: string): seq<string> {
    Filter(lines, l => MapsPayload(l, payload))
  }

  function Others(lines: seq<string>, payload: string): seq<string> {
    Filter(lines, l => !IsDirection(l) && !MapsPayload(l, payload))
  }

  lemma MapStep(body: seq<string>, offered: OfferedVideo, last: bool)
    requires GoodOffer(offered)
    ensures var mapped := WithRtpMap(body, offered, last);
            && Others(mapped, offered.payload) == Others(body, offered.payload)
            && Maps(mapped, offered.payload) ==
                 (if Maps(body, offered.payload) == [] && offered.rtpmap != [] then [offered.rtpmap]
                  else Maps(body, offered.payload))
            && |mapped| <= |body| + 1
  {
    var isMap := l => MapsPayload(l, offered.payload);
    var isOther := l => !IsDirection(l) && !MapsPayload(l, offered.payload);
    if HasRtpMap(body, offered.payload) {
      var i :| 0 <= i < |body| && MapsPayload(body[i], offered.payload);
      FilterSome(body, isMap, i);
    } else {
      FilterNone(body, isMap);
      if offered.rtpmap != [] {
        var at := MapPosition(body, last);
        FilterInsert(body, at, offered.rtpmap, isOther);
        FilterMiddle(body[..at], offered.rtpmap, body[at..], isMap);
        FilterNone(body[..at], isMap);
        FilterNone(body[at..], isMap);
      }
    }
  }

  /** A copied rtpmap comes right before the first attribute line of its section, or at its end. */
  lemma MapComesFirst(body: seq<string>, offered: OfferedVideo, last: bool)
    requires offered.rtpmap != [] && !HasRtpMap(body, offered.payload)
    ensures exists at :: 0 <= at <= |body|
              && WithRtpMap(body, offered, last) == body[..at] + [offered.rtpmap] + body[at..]
              && (forall i :: 0 <= i < at ==> !IsAttribute(body[i]))
              && (at < |body| ==> IsAttribute(body[at]) || (last && at == |body| - 1 && body[at] == []))
  {
    var at := MapPosition(body, last);
    assert WithRtpMap(body, offered, last) == body[..at] + [offered.rtpmap] + body[at..];
  }

  /** A missing direction comes last in its section, before the empty last line of the text only. */
  lemma InactiveComesLast(body: seq<string>, last: bool)
    requires !HasDirection(body)
    ensures exists at :: 0 <= at <= |body|
              && WithInactive(body, last) == body[..at] + [INACTIVE] + body[at..]
              && (at < |body| ==> last && body[at..] == [[]])
  {
    var at := EndPosition(body, last);
    assert WithInactive(body, last) == body[..at] + [INACTIVE] + body[at..];
  }

  predicate OnlyInactive(body: seq<string>) {
    INACTIVE in body && forall l :: l in body ==> !IsActiveDirection(l)
  }

  lemma DirectionOnly(body: seq<string>, last: bool)
    ensures OnlyInactive(WithInactive(body, last))
    ensures |WithInactive(body, last)| <= |body| + 1
  {
    if HasDirection(body) {
      var i :| 0 <= i < |body| && IsDirection(body[i]);
      assert Inactivate(body)[i] == INACTIVE;
    } else {
      assert Insert(body, EndPosition(body, last), INACTIVE)[EndPosition(body, last)] == INACTIVE;
    }
  }

  lemma DirectionStep(body: seq<string>, last: bool, keep: string -> bool)
    requires forall l :: IsDirection(l) ==> !keep(l)
    ensures Filter(WithInactive(body, last), keep) == Filter(body, keep)
  {
    if HasDirection(body) {
      FilterInactivate(body, keep);
    } else {
      FilterInsert(body, EndPosition(body, last), INACTIVE, keep);
    }
  }

  lemma DirectionKeeps(body: seq<string>, payload: string, last: bool)
    ensures Others(WithInactive(body, last), payload) == Others(body, payload)
    ensures Maps(WithInactive(body, last), payload) == Maps(body, payload)
  {
    forall l | IsDirection(l)
      ensures !MapsPayload(l, payload)
    {
      DirectionNotMap(l, payload);
    }
    DirectionStep(body, last, l => MapsPayload(l, payload));
    DirectionStep(body, last, l => !IsDirection(l) && !MapsPayload(l, payload));
  }

  /**
   * A section changes only if it is a `m=video ` section rejected with an empty or `0` format list. Then its m-line
   * changes in the format field alone, it ends up inactive, gains the offered rtpmap exactly when it had none for the
   * payload, and keeps every other line.
   */
  lemma VideoSectionExact(section: seq<string>, offered: OfferedVideo, last: bool)
    requires IsSection(section) && GoodOffer(offered) && (offered.payload == [] || IsToken(offered.payload))
    ensures var result := VideoSection(section, offered, last);
            var fields := BlankFields(section[0]);
            if IsVideo(section[0]) && NormalizeMLine(section[0], offered.payload).Some? then
              && |fields| >= 3 && fields[1] == "0" && (|fields| == 3 || fields[3..] == ["0"])
              && BlankFields(result[0]) == fields[..3] + [offered.payload]
              && OnlyInactive(result[1..])
              && Others(result[1..], offered.payload) == Others(section[1..], offered.payload)
              && Maps(result[1..], offered.payload) ==
                   (if Maps(section[1..], offered.payload) == [] && offered.rtpmap != [] then [offered.rtpmap]
                    else Maps(section[1..], offered.payload))
              && |result| <= |section| + 2
            else result == section
  {
    if IsVideo(section[0]) && NormalizeMLine(section[0], offered.payload).Some? {
      MLineTokens(section[0], offered.payload);
      var mapped := WithRtpMap(section[1..], offered, last);
      MapStep(section[1..], offered, last);
      DirectionOnly(mapped, last);
      DirectionKeeps(mapped, offered.payload, last);
      var result := VideoSection(section, offered, last);
      assert result[1..] == WithInactive(mapped, last);
    }
  }

  // ---- shape and idempotence ----

  lemma VideoSectionShape(section: seq<string>, offered: OfferedVideo, last: bool)
    requires IsSection(section) && GoodOffer(offered)
    ensures var result := VideoSection(section, offered, last);
            && IsSection(result)
            && IsVideo(result[0]) == IsVideo(section[0])
            && (!IsVideo(section[0]) ==> result == section)
  {
    if IsVideo(section[0]) && NormalizeMLine(section[0], offered.payload).Some? {
      EditedNoMedia(section[1..], offered, last);
      MLineStaysVideo(section[0], offered.payload);
      var result := VideoSection(section, offered, last);
      VideoIsMedia(result[0]);
      assert result[1..] == WithInactive(WithRtpMap(section[1..], offered, last), last);
    }
  }

  lemma InactiveStays(body: seq<string>, last: bool)
    requires OnlyInactive(body)
    ensures WithInactive(body, last) == body
  {
    var i :| 0 <= i < |body| && body[i] == INACTIVE;
    assert IsDirection(body[i]);
    assert forall j :: 0 <= j < |body| ==> body[j] in body;
  }

  lemma MapStays(body: seq<string>, offered: OfferedVideo, last: bool)
    requires Maps(body, offered.payload) != [] || offered.rtpmap == []
    ensures WithRtpMap(body, offered, last) == body
  {
    if !HasRtpMap(body, offered.payload) {
      FilterNone(body, l => MapsPayload(l, offered.payload));
    }
  }

  /** Editing an edited section changes nothing, also when the selected payload is itself `0`. */
  lemma VideoSectionTwice(section: seq<string>, offered: OfferedVideo, last: bool)
    requires IsSection(section) && GoodOffer(offered) && (offered.payload == [] || IsToken(offered.payload))
    ensures IsSection(VideoSection(section, offered, last))
    ensures VideoSection(VideoSection(section, offered, last), offered, last) == VideoSection(section, offered, last)
  {
    VideoSectionShape(section, offered, last);
    if IsVideo(section[0]) && NormalizeMLine(section[0], offered.payload).Some? {
      var result := VideoSection(section, offered, last);
      VideoSectionExact(section, offered, last);
      MLineTwice(section[0], offered.payload);
      if offered.payload == "0" {
        MapStays(result[1..], offered, last);
        InactiveStays(result[1..], last);
        assert result == [result[0]] + result[1..];
      }
    }
  }
}
