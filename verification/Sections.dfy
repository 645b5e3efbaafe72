/** The partition of SDP lines into the session-level preamble and the media sections. */
module Sections {
  import opened GoText

  predicate IsMedia(line: string) {
    HasPrefix(line, "m=")
  }

  predicate IsAttribute(line: string) {
    HasPrefix(line, "a=")
  }

  predicate NoMedia(lines: seq<string>) {
    forall i :: 0 <= i < |lines| ==> !IsMedia(lines[i])
  }

  /** A media section: its m-line and the lines up to the next m-line. */
  predicate IsSection(section: seq<string>) {
    section != [] && IsMedia(section[0]) && NoMedia(section[1..])
  }

  predicate AllSections(sections: seq<seq<string>>) {
    forall i :: 0 <= i < |sections| ==> IsSection(sections[i])
  }

  datatype Doc = Doc(preamble: seq<string>, sections: seq<seq<string>>)

  predicate IsDoc(doc: Doc) {
    NoMedia(doc.preamble) && AllSections(doc.sections)
  }

  function Concat(sections: seq<seq<string>>): seq<string> {
    if sections == [] then [] else sections[0] + Concat(sections[1..])
  }

  function Flat(doc: Doc): seq<string> {
    doc.preamble + Concat(doc.sections)
  }

  function Parse(lines: seq<string>): (doc: Doc)
    ensures IsDoc(doc)
    ensures Flat(doc) == lines
  {
    if lines == [] then Doc([], [])
    else
      var doc := Parse(lines[1..]);
      if IsMedia(lines[0]) then
        assert ([lines[0]] + doc.preamble)[1..] == doc.preamble;
        assert ([[lines[0]] + doc.preamble] + doc.sections)[1..] == doc.sections;
        Doc([], [[lines[0]] + doc.preamble] + doc.sections)
      else Doc([lines[0]] + doc.preamble, doc.sections)
  }

  function SectionsOf(lines: seq<string>): (sections: seq<seq<string>>)
    ensures AllSections(sections)
  {
    Parse(lines).sections
  }

  /** The lines a per-section edit produces: the preamble is kept. */
  function Rebuild(lines: seq<string>, sections: seq<seq<string>>): seq<string> {
    Parse(lines).preamble + Concat(sections)
  }

  /** The partition is the only one: flattening a document and parsing it gives it back. */
  lemma {:induction false} ParseFlat(doc: Doc)
    requires IsDoc(doc)
    ensures Parse(Flat(doc)) == doc
    decreases |doc.preamble|, |doc.sections|
  {
    var lines := Flat(doc);
    if doc.preamble != [] {
      var rest := Doc(doc.preamble[1..], doc.sections);
      ParseFlat(rest);
      assert lines[1..] == Flat(rest);
    } else if doc.sections != [] {
      var section := doc.sections[0];
      ParseSection(section, doc.sections[1..]);
    }
  }

  lemma {:induction false} ParseSection(section: seq<string>, sections: seq<seq<string>>)
    requires IsSection(section) && AllSections(sections)
    ensures Parse(section + Concat(sections)) == Doc([], [section] + sections)
    decreases |sections|, 1
  {
    var tail := section[1..];
    ParseTail(tail, sections);
    assert (section + Concat(sections))[1..] == tail + Concat(sections);
    assert [section[0]] + tail == section;
  }

  lemma {:induction false} ParseTail(tail: seq<string>, sections: seq<seq<string>>)
    requires NoMedia(tail) && AllSections(sections)
    ensures Parse(tail + Concat(sections)) == Doc(tail, sections)
    decreases |sections|, 0, |tail|
  {
    if tail != [] {
      ParseTail(tail[1..], sections);
      assert (tail + Concat(sections))[1..] == tail[1..] + Concat(sections);
    } else if sections != [] {
      ParseSection(sections[0], sections[1..]);
      assert [] + Concat(sections) == sections[0] + Concat(sections[1..]);
    }
  }

  lemma RebuildSections(lines: seq<string>, sections: seq<seq<string>>)
    requires AllSections(sections)
    ensures Parse(Rebuild(lines, sections)) == Doc(Parse(lines).preamble, sections)
  {
    ParseFlat(Doc(Parse(lines).preamble, sections));
  }

  lemma ConcatCons(section: seq<string>, rest: seq<seq<string>>)
    ensures Concat([section] + rest) == section + Concat(rest)
  {
    assert ([section] + rest)[1..] == rest;
  }

  lemma {:induction false} ConcatAppend(a: seq<seq<string>>, b: seq<seq<string>>)
    ensures Concat(a + b) == Concat(a) + Concat(b)
  {
    if a == [] {
      assert a + b == b;
    } else {
      assert (a + b)[1..] == a[1..] + b;
      ConcatAppend(a[1..], b);
    }
  }

  /** The first attribute line of a section body, or its length. */
  function FirstAttribute(body: seq<string>): (at: nat)
    ensures at <= |body|
    ensures forall i :: 0 <= i < at ==> !IsAttribute(body[i])
    ensures at < |body| ==> IsAttribute(body[at])
  {
    if body == [] || IsAttribute(body[0]) then 0 else 1 + FirstAttribute(body[1..])
  }

  /** `end` is where the scan for the next m-line after `start` stops. */
  predicate IsSectionEnd(lines: seq<string>, start: nat, end: nat) {
    && start < end <= |lines|
    && IsMedia(lines[start])
    && (forall i :: start < i < end ==> !IsMedia(lines[i]))
    && (end < |lines| ==> IsMedia(lines[end]))
  }

  /** The scan "from an m-line to the next m-line" finds exactly the next section of the partition. */
  lemma ScanSection(lines: seq<string>, start: nat, end: nat)
    requires IsSectionEnd(lines, start, end)
    ensures Parse(lines[start..]) == Doc([], [lines[start..end]] + SectionsOf(lines[end..]))
    ensures Parse(lines[end..]).preamble == []
  {
    var rest := Parse(lines[end..]);
    if end < |lines| {
      assert lines[end..][0] == lines[end];
    }
    var section := lines[start..end];
    assert section[1..] == lines[start + 1..end];
    assert lines[start..] == section + Concat(rest.sections);
    ParseSection(section, rest.sections);
  }

  /** The first m-line at or after `start`, or the number of lines. */
  function NextMedia(lines: seq<string>, start: nat): (end: nat)
    requires start <= |lines|
    ensures start <= end <= |lines|
    ensures forall i :: start <= i < end ==> !IsMedia(lines[i])
    ensures end < |lines| ==> IsMedia(lines[end])
    decreases |lines| - start
  {
    if start == |lines| || IsMedia(lines[start]) then start else NextMedia(lines, start + 1)
  }

  /** The scan to the next m-line, `server.go:224-227`, `337-340` and `469-472`. */
  method FindSectionEnd(lines: seq<string>, start: nat) returns (end: nat)
    requires start < |lines| && IsMedia(lines[start])
    ensures IsSectionEnd(lines, start, end)
  {
    end := start + 1;
    while end < |lines| && !IsMedia(lines[end])
      invariant start + 1 <= end <= |lines|
      invariant forall i :: start + 1 <= i < end ==> !IsMedia(lines[i])
    {
      end := end + 1;
    }
  }

  /** A line before the first m-line belongs to the preamble. */
  lemma ScanPreamble(lines: seq<string>, i: nat)
    requires i < |lines| && !IsMedia(lines[i])
    ensures Parse(lines[i..]) == Doc([lines[i]] + Parse(lines[i + 1..]).preamble, SectionsOf(lines[i + 1..]))
  {
    assert lines[i..][1..] == lines[i + 1..];
  }

  lemma Grown(lines: seq<string>, n: nat, rest: seq<string>)
    requires n < |lines|
    ensures lines[..n] + ([lines[n]] + rest) == lines[..n + 1] + rest
  {
  }

  /** One more line of the preamble; `rest` is what follows it. */
  lemma SkipOne(lines: seq<string>, n: nat, rest: Doc)
    requires n < |lines| && !IsMedia(lines[n]) && rest == Parse(lines[n + 1..])
    requires Parse(lines) == Doc(lines[..n] + Parse(lines[n..]).preamble, SectionsOf(lines[n..]))
    ensures Parse(lines) == Doc(lines[..n + 1] + rest.preamble, rest.sections)
  {
    ScanPreamble(lines, n);
    Grown(lines, n, rest.preamble);
  }

  lemma {:induction false} SkipPreamble(lines: seq<string>, n: nat)
    requires n <= |lines| && forall i :: 0 <= i < n ==> !IsMedia(lines[i])
    ensures Parse(lines) == Doc(lines[..n] + Parse(lines[n..]).preamble, SectionsOf(lines[n..]))
  {
    if n == 0 {
      assert lines[0..] == lines;
    } else {
      SkipPreamble(lines, n - 1);
      SkipOne(lines, n - 1, Parse(lines[n..]));
    }
  }

  lemma {:induction false} ConcatLines(sections: seq<seq<string>>, line: string)
    ensures line in Concat(sections) <==> exists i :: 0 <= i < |sections| && line in sections[i]
  {
    if sections != [] {
      ConcatLines(sections[1..], line);
      if exists i :: 0 <= i < |sections| && line in sections[i] {
        var i :| 0 <= i < |sections| && line in sections[i];
        assert i > 0 ==> sections[1..][i - 1] == sections[i];
      }
    }
  }

  predicate CleanSections(sections: seq<seq<string>>) {
    forall i :: 0 <= i < |sections| ==> AllClean(sections[i])
  }

  lemma {:induction false} CleanConcat(sections: seq<seq<string>>)
    ensures AllClean(Concat(sections)) <==> CleanSections(sections)
  {
    if sections != [] {
      CleanConcat(sections[1..]);
      var head, tail := sections[0], Concat(sections[1..]);
      CleanAppend(head, tail);
      assert CleanSections(sections) <==> AllClean(head) && CleanSections(sections[1..]) by {
        if AllClean(head) && CleanSections(sections[1..]) {
          forall i | 0 <= i < |sections|
            ensures AllClean(sections[i])
          {
            assert i > 0 ==> sections[i] == sections[1..][i - 1];
          }
        }
        assert CleanSections(sections) ==> AllClean(sections[0]);
      }
    }
  }

  lemma CleanAppend(a: seq<string>, b: seq<string>)
    ensures AllClean(a + b) <==> AllClean(a) && AllClean(b)
  {
    if AllClean(a + b) {
      forall i | 0 <= i < |a|
        ensures Clean(a[i])
      {
        assert (a + b)[i] == a[i];
      }
      forall i | 0 <= i < |b|
        ensures Clean(b[i])
      {
        assert (a + b)[|a| + i] == b[i];
      }
    }
  }

  /** The lines whose flag is not set, in order. */
  function Kept(lines: seq<string>, remove: seq<bool>): seq<string>
    requires |lines| == |remove|
  {
    if lines == [] then []
    else (if remove[0] then [] else [lines[0]]) + Kept(lines[1..], remove[1..])
  }

  lemma {:induction false} KeptAppend(a: seq<string>, ra: seq<bool>, b: seq<string>, rb: seq<bool>)
    requires |a| == |ra| && |b| == |rb|
    ensures Kept(a + b, ra + rb) == Kept(a, ra) + Kept(b, rb)
  {
    if a == [] {
      assert a + b == b && ra + rb == rb;
    } else {
      assert (a + b)[1..] == a[1..] + b && (ra + rb)[1..] == ra[1..] + rb;
      KeptAppend(a[1..], ra[1..], b, rb);
    }
  }

  lemma {:induction false} KeptAll(lines: seq<string>, remove: seq<bool>)
    requires |lines| == |remove| && forall i :: 0 <= i < |lines| ==> !remove[i]
    ensures Kept(lines, remove) == lines
  {
    if lines != [] {
      KeptAll(lines[1..], remove[1..]);
    }
  }

  lemma ExtendKept(lines: seq<string>, a: nat, b: nat, remove: seq<bool>)
    requires a <= b <= |lines| == |remove|
    ensures Kept(lines[..b], remove[..b]) == Kept(lines[..a], remove[..a]) + Kept(lines[a..b], remove[a..b])
  {
    assert lines[..b] == lines[..a] + lines[a..b] && remove[..b] == remove[..a] + remove[a..b];
    KeptAppend(lines[..a], remove[..a], lines[a..b], remove[a..b]);
  }

  lemma KeptNext(lines: seq<string>, remove: seq<bool>, i: nat)
    requires i < |lines| == |remove|
    ensures Kept(lines[..i + 1], remove[..i + 1]) ==
            Kept(lines[..i], remove[..i]) + (if remove[i] then [] else [lines[i]])
  {
    ExtendKept(lines, i, i + 1, remove);
    assert lines[i..i + 1] == [lines[i]] && remove[i..i + 1] == [remove[i]];
    assert Kept([lines[i]], [remove[i]]) == if remove[i] then [] else [lines[i]];
  }

  lemma CleanSectionsOf(lines: seq<string>)
    requires AllClean(lines)
    ensures AllClean(Parse(lines).preamble) && CleanSections(SectionsOf(lines))
  {
    CleanAppend(Parse(lines).preamble, Concat(SectionsOf(lines)));
    CleanConcat(SectionsOf(lines));
  }

  lemma CleanRebuild(lines: seq<string>, sections: seq<seq<string>>)
    requires AllClean(lines) && CleanSections(sections)
    ensures AllClean(Rebuild(lines, sections))
  {
    CleanSectionsOf(lines);
    CleanConcat(sections);
    CleanAppend(Parse(lines).preamble, Concat(sections));
  }

  function Last<T>(s: seq<T>): T
    requires s != []
  {
    s[|s| - 1]
  }

  /** The last line of a document with sections is the last line of its last section. */
  lemma {:induction false} LastConcat(sections: seq<seq<string>>)
    requires sections != [] && forall i :: 0 <= i < |sections| ==> sections[i] != []
    ensures Concat(sections) != [] && Last(Concat(sections)) == Last(Last(sections))
  {
    if |sections| > 1 {
      LastConcat(sections[1..]);
    }
  }

  lemma LastRebuild(lines: seq<string>, sections: seq<seq<string>>)
    requires AllSections(sections) && |sections| == |SectionsOf(lines)|
    requires sections != [] ==> (Last(Last(sections)) == [] <==> Last(Last(SectionsOf(lines))) == [])
    requires sections == [] ==> sections == SectionsOf(lines)
    requires |Concat(sections)| >= |Concat(SectionsOf(lines))| && lines != []
    ensures var result := Rebuild(lines, sections);
            result != [] && EndsBlank(result) == EndsBlank(lines)
  {
    if sections != [] {
      LastConcat(sections);
      LastConcat(SectionsOf(lines));
      assert lines == Parse(lines).preamble + Concat(SectionsOf(lines));
    }
  }
}
