/** What is printed is read back, and the two sides as the programs run them. */
module MultipartRoundTrip {
  import opened Basics
  import opened Multipart

  // ------------------------------------------------------------------ one part

  predicate IsPlain(h: Header) {
    && QUOTE !in h.name && CR !in h.name
    && (h.file.Some? ==> QUOTE !in h.file.value.0 && CR !in h.file.value.0 && CR !in h.file.value.1)
  }

  lemma NoReturns()
    ensures CR !in DISPOSITION && CR !in FILENAME && CR !in TYPE[1..] && TYPE[0] == CR && |TYPE| == 16
  {
  }

  /** A carriage return in a printed header is followed, two bytes on, by none. */
  lemma HeaderIsOneLine(h: Header, i: nat)
    requires IsPlain(h) && i < |PrintHeader(h)|
    ensures PrintHeader(h)[i] == CR ==> i + 2 < |PrintHeader(h)| && PrintHeader(h)[i + 2] != CR
  {
    hide Ascii;
    NoReturns();
    var head := DISPOSITION + h.name + [QUOTE];
    if h.file.None? {
      assert PrintHeader(h) == head;
      assert PrintHeader(h)[i] in head;
    } else {
      var (filename, media) := h.file.value;
      var before := head + FILENAME + filename + [QUOTE];
      assert CR !in before;
      assert PrintHeader(h) == before + [CR] + (TYPE[1..] + media);
      assert CR !in TYPE[1..] + media;
      OnlyOne(before, TYPE[1..] + media, i);
      assert i == |before| ==> PrintHeader(h)[i + 2] == (TYPE[1..] + media)[1];
    }
  }

  lemma OnlyOne(a: Bytes, b: Bytes, i: nat)
    requires CR !in a && CR !in b && i < |a + [CR] + b|
    ensures (a + [CR] + b)[i] == CR <==> i == |a|
  {
    if i < |a| {
      assert (a + [CR] + b)[i] == a[i];
    } else if i > |a| {
      assert (a + [CR] + b)[i] == b[i - |a| - 1];
    }
  }

  lemma HeaderEnds(h: Header, rest: Bytes)
    requires IsPlain(h)
    ensures Find(PrintHeader(h) + CRLF + CRLF + rest, CRLF + CRLF, 0) == Some(|PrintHeader(h)|)
  {
    var header := PrintHeader(h);
    var b := header + CRLF + CRLF + rest;
    assert OccursAt(b, CRLF + CRLF, |header|) by { assert b[|header|..|header| + 4] == CRLF + CRLF; }
    forall i: nat | i < |header| ensures !OccursAt(b, CRLF + CRLF, i) {
      if OccursAt(b, CRLF + CRLF, i) { NotInHeader(h, rest, i); }
    }
  }

  lemma NotInHeader(h: Header, rest: Bytes, i: nat)
    requires IsPlain(h) && i < |PrintHeader(h)|
    ensures !OccursAt(PrintHeader(h) + CRLF + CRLF + rest, CRLF + CRLF, i)
  {
    hide PrintHeader, IsPlain;
    var header := PrintHeader(h);
    var b := header + CRLF + CRLF + rest;
    HeaderIsOneLine(h, i);
    assert b[i] == header[i] && (i + 2 < |header| ==> b[i + 2] == header[i + 2]);
    if OccursAt(b, CRLF + CRLF, i) { TwoReturns(b, i); }
  }

  lemma TwoReturns(b: Bytes, i: nat)
    requires OccursAt(b, CRLF + CRLF, i)
    ensures i + 4 <= |b| && b[i] == CR && b[i + 2] == CR
  {
    assert b[i] == b[i..i + 4][0] == (CRLF + CRLF)[0] == CR;
    assert b[i + 2] == b[i..i + 4][2] == (CRLF + CRLF)[2] == CR;
  }

  lemma InnerOf(inner: Bytes)
    ensures var section := CRLF + inner + CRLF;
            && |section| == |inner| + 4 && section[2..|section| - 2] == inner
            && section[..2] == CRLF && section[|section| - 2..] == CRLF
  {
  }

  lemma HeaderAndValue(header: Bytes, value: Bytes)
    ensures var inner := header + CRLF + CRLF + value;
            inner[..|header|] == header && inner[|header| + 4..] == value
    ensures CRLF + header + CRLF + CRLF + value + CRLF == CRLF + (header + CRLF + CRLF + value) + CRLF
  {
  }

  lemma DivideSection(p: Part)
    requires IsPlain(p.header) && |PrintHeader(p.header)| <= MAX_HEADER
    ensures Divide(Section(p)) == Some((PrintHeader(p.header), p.value))
  {
    hide PrintHeader, Find, IsPlain;
    var header := PrintHeader(p.header);
    HeaderAndValue(header, p.value);
    InnerOf(header + CRLF + CRLF + p.value);
    HeaderEnds(p.header, p.value);
  }

  lemma HeaderRoundTrip(h: Header)
    requires IsPlain(h)
    ensures ParseHeader(PrintHeader(h)) == Some(h)
  {
    if h.file.None? { FieldHeader(h.name); } else { FileHeader(h.name, h.file.value.0, h.file.value.1); }
  }

  lemma SectionIsClean(p: Part, marker: Bytes)
    requires IsMarker(marker) && !Contains(PrintHeader(p.header), marker) && !Contains(p.value, marker)
    ensures !Contains(Section(p), marker) && Section(p)[|Section(p)| - 1] == LF
  {
    hide PrintHeader;
    var header := PrintHeader(p.header);
    NothingInNothing(marker);
    CleanAcrossLine([], header, marker);
    CleanAcrossLine([] + CRLF + header, [], marker);
    CleanAcrossLine([] + CRLF + header + CRLF + [], p.value, marker);
    CleanAcrossLine([] + CRLF + header + CRLF + [] + CRLF + p.value, [], marker);
    assert Section(p) == [] + CRLF + header + CRLF + [] + CRLF + p.value + CRLF + [];
  }

  // --------------------------------------------------------- any number of parts

  /** A part that the parser can take, apart from what came before it. */
  predicate IsReadable(p: Part, codec: Codec) {
    && IsPlain(p.header) && |PrintHeader(p.header)| <= 2048
    && if p.header.name == FILE then
         p.header.file.Some? && p.header.file.value.0 != [] && p.header.file.value.1 in {WAV, XWAV}
       else p.header.name in {LANGUAGE, FORMAT, CONTEXT} && |p.value| <= 128 && codec.decode(p.value).Some?
  }

  /** What the parts say, one after the other. */
  function Meaning(r: Reading, parts: seq<Part>, codec: Codec): Reading
    decreases parts
  {
    if parts == [] then r
    else
      var p := parts[0];
      var text := if codec.decode(p.value).Some? then Strip(codec.decode(p.value).value) else "";
      Meaning(if p.header.name == FILE then r.(wav := Some(p.value)) else r.(fields := r.fields[p.header.name := text]),
              parts[1..], codec)
  }

  /** No name comes twice, or again. */
  predicate AreDistinct(r: Reading, parts: seq<Part>) {
    && (forall i, j :: 0 <= i < j < |parts| ==> parts[i].header.name != parts[j].header.name)
    && forall i :: 0 <= i < |parts| ==>
         if parts[i].header.name == FILE then r.wav.None? else parts[i].header.name !in r.fields
  }

  lemma {:induction false} PartsAreRead(r: Reading, parts: seq<Part>, sections: seq<Bytes>, codec: Codec)
    requires |sections| == |parts| && forall i :: 0 <= i < |parts| ==> sections[i] == Section(parts[i]) && IsReadable(parts[i], codec)
    requires AreDistinct(r, parts)
    ensures ReadSections(r, sections, codec) == Some(Meaning(r, parts, codec))
    decreases parts
  {
    hide Section, PrintHeader, Divide, ParseHeader, Strip, IsPlain, Ascii;
    if parts != [] {
      var p := parts[0];
      DivideSection(p);
      HeaderRoundTrip(p.header);
      var next := ReadSection(r, sections[0], codec);
      assert next.Some?;
      PartsAreRead(next.value, parts[1..], sections[1..], codec);
    }
  }

  predicate IsClean(p: Part, marker: Bytes)
    requires marker != []
  {
    Find(PrintHeader(p.header), marker, 0).None? && Find(p.value, marker, 0).None?
  }

  lemma ClosingIsClean(marker: Bytes)
    requires IsMarker(marker) && |marker| >= 3
    ensures !Contains(CLOSING, marker)
  {
    forall i: nat ensures !OccursAt(CLOSING, marker, i) {
      if i + |marker| <= |CLOSING| { assert CLOSING[i..i + |marker|][2 - i] in {CR, LF}; }
    }
  }

  lemma SectionAt(parts: seq<Part>, marker: Bytes, k: nat)
    requires IsMarker(marker) && |marker| >= 3 && k < |parts| + 2
    requires forall i :: 0 <= i < |parts| ==> IsClean(parts[i], marker)
    ensures var section := Sections(parts)[k];
            !Contains(section, marker) && (k < |parts| + 1 ==> section == [] || section[|section| - 1] == LF)
  {
    hide Section, PrintHeader;
    if k == 0 {
      NothingInNothing(marker);
    } else if k <= |parts| {
      assert IsClean(parts[k - 1], marker);
      SectionIsClean(parts[k - 1], marker);
    } else {
      ClosingIsClean(marker);
    }
  }

  lemma SectionsSplit(parts: seq<Part>, marker: Bytes)
    requires IsMarker(marker) && |marker| >= 3 && forall i :: 0 <= i < |parts| ==> IsClean(parts[i], marker)
    ensures Split(Join(Sections(parts), marker), marker) == Sections(parts)
  {
    hide Contains, IsClean, Split, Join, Section;
    assert |Sections(parts)| == |parts| + 2;
    var sections := Sections(parts);
    hide Sections;
    forall k | 0 <= k < |sections|
      ensures !Contains(sections[k], marker) && (k < |sections| - 1 ==> sections[k] == [] || sections[k][|sections[k]| - 1] == LF)
    {
      SectionAt(parts, marker, k);
    }
    SplitOfJoin(sections, marker);
  }

  /** For any parts, up to the limit on their number, whose headers and values do not contain the marker:
      parsing what was printed gives back what the parts say, under any boundary there may be. */
  lemma RoundTrip(parts: seq<Part>, boundary: Bytes, codec: Codec)
    requires 1 <= |parts| <= 8
    requires forall i :: 0 <= i < |parts| ==> IsClean(parts[i], Marker(boundary)) && IsReadable(parts[i], codec)
    requires AreDistinct(Reading(map[], None), parts) && Meaning(Reading(map[], None), parts, codec).wav.Some?
    ensures var meaning := Meaning(Reading(map[], None), parts, codec);
            Parse(Print(parts, boundary), boundary, codec)
            == if IsBoundary(boundary) then Parsed(meaning.fields, meaning.wav.value) else Invalid
  {
    hide Section, Sections, IsFramed, IsClean, IsReadable, Split, Join, Meaning, AreDistinct, ReadSections;
    if IsBoundary(boundary) {
      BoundaryMakesMarker(boundary);
      SectionsSplit(parts, Marker(boundary));
      InnerSections(parts);
      var sections := Sections(parts);
      PartsAreRead(Reading(map[], None), parts, sections[1..|sections| - 1], codec);
    }
  }

  lemma BoundaryMakesMarker(boundary: Bytes)
    requires IsBoundary(boundary)
    ensures IsMarker(Marker(boundary)) && |Marker(boundary)| >= 3
  {
  }

  lemma InnerSections(parts: seq<Part>)
    requires 1 <= |parts| <= MAX_PARTS
    ensures |Sections(parts)| == |parts| + 2 && IsFramed(Sections(parts))
    ensures forall i :: 0 <= i < |parts| ==> Sections(parts)[1..|parts| + 1][i] == Section(parts[i])
  {
    hide Section;
  }
}
