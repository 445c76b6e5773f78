/** The other direction of the round trip: whatever the parser accepts is a body that could have been
    printed, and its result is what that body says. */
module MultipartInverse {
  import opened Basics
  import opened Multipart
  import opened MultipartRoundTrip

  /** A part the parser may accept: one WAV file with a name, or one of three short text fields. */
  predicate IsAcceptable(p: Part, codec: Codec) {
    && |PrintHeader(p.header)| <= 2048
    && if p.header.name == FILE then
         p.header.file.Some? && p.header.file.value.0 != [] && p.header.file.value.1 in {WAV, XWAV}
       else p.header.name in {LANGUAGE, FORMAT, CONTEXT} && |p.value| <= 128 && codec.decode(p.value).Some?
  }

  /** Reading a header and printing it again gives the same bytes. */
  lemma HeaderOfParse(b: Bytes)
    ensures ParseHeader(b).Some? ==> PrintHeader(ParseHeader(b).value) == b
  {
    hide Ascii, After, Quoted, PrintHeader;
    if ParseHeader(b).Some? {
      AfterIsRest(b, DISPOSITION);
      var rest := After(b, DISPOSITION).value;
      QuotedIsSplit(rest);
      var (name, tail) := Quoted(rest).value;
      if tail == [] {
        FieldOfParse(name);
      } else {
        AfterIsRest(tail, FILENAME);
        var file := After(tail, FILENAME).value;
        QuotedIsSplit(file);
        var (filename, more) := Quoted(file).value;
        AfterIsRest(more, TYPE);
        FileOfParse(name, filename, After(more, TYPE).value);
      }
    }
  }

  lemma FieldOfParse(name: Bytes)
    ensures PrintHeader(Header(name, None)) == DISPOSITION + (name + [QUOTE] + [])
  {
  }

  lemma FileOfParse(name: Bytes, filename: Bytes, media: Bytes)
    ensures PrintHeader(Header(name, Some((filename, media))))
         == DISPOSITION + (name + [QUOTE] + (FILENAME + (filename + [QUOTE] + (TYPE + media))))
  {
    hide Ascii;
    var tail := FILENAME + filename + [QUOTE] + TYPE + media;
    assert tail == FILENAME + (filename + [QUOTE] + (TYPE + media));
    assert DISPOSITION + name + [QUOTE] + tail == DISPOSITION + (name + [QUOTE] + tail);
  }

  lemma AfterIsRest(b: Bytes, prefix: Bytes)
    ensures After(b, prefix).Some? ==> b == prefix + After(b, prefix).value
  {
  }

  lemma QuotedIsSplit(b: Bytes)
    ensures Quoted(b).Some? ==> b == Quoted(b).value.0 + [QUOTE] + Quoted(b).value.1
  {
    var at := Find(b, [QUOTE], 0);
    if at.Some? {
      assert b[at.value..at.value + 1] == [QUOTE];
      assert b == b[..at.value] + b[at.value..at.value + 1] + b[at.value + 1..];
    }
  }

  /** A section that divides is its header, an empty line, its value and a line's end. */
  lemma DivideOfSection(section: Bytes)
    ensures Divide(section).Some? ==>
              var (header, value) := Divide(section).value;
              section == CRLF + header + CRLF + CRLF + value + CRLF && |header| <= 2048
  {
    if Divide(section).Some? {
      var part := section[2..|section| - 2];
      var at := Find(part, CRLF + CRLF, 0).value;
      assert part == part[..at] + (CRLF + CRLF) + part[at + 4..] by {
        assert part[at..at + 4] == CRLF + CRLF;
      }
      assert section == section[..2] + part + section[|section| - 2..];
      Regroup(part[..at], part[at + 4..]);
    }
  }

  lemma Regroup(header: Bytes, value: Bytes)
    ensures CRLF + (header + (CRLF + CRLF) + value) + CRLF == CRLF + header + CRLF + CRLF + value + CRLF
  {
  }

  /** One round of the parser's loop read an acceptable part, new to what was read before. */
  lemma SectionOfRead(r: Reading, section: Bytes, codec: Codec) returns (p: Part)
    requires ReadSection(r, section, codec).Some?
    ensures section == Section(p) && IsAcceptable(p, codec)
    ensures if p.header.name == FILE then r.wav.None? else p.header.name !in r.fields
    ensures ReadSection(r, section, codec).value ==
              if p.header.name == FILE then r.(wav := Some(p.value))
              else r.(fields := r.fields[p.header.name := Strip(codec.decode(p.value).value)])
  {
    hide PrintHeader, ParseHeader, Divide, Ascii, Strip;
    var (header, value) := Divide(section).value;
    DivideOfSection(section);
    HeaderOfParse(header);
    p := Part(ParseHeader(header).value, value);
  }

  lemma {:induction false} SectionsOfRead(r: Reading, sections: seq<Bytes>, codec: Codec) returns (parts: seq<Part>)
    requires ReadSections(r, sections, codec).Some?
    ensures |parts| == |sections|
    ensures forall i :: 0 <= i < |parts| ==> sections[i] == Section(parts[i]) && IsAcceptable(parts[i], codec)
    ensures AreDistinct(r, parts) && ReadSections(r, sections, codec) == Some(Meaning(r, parts, codec))
    decreases sections
  {
    hide Section, IsAcceptable, ReadSection, Strip, Ascii;
    if sections == [] {
      parts := [];
    } else {
      var p := SectionOfRead(r, sections[0], codec);
      PartDecodes(p, codec);
      var next := ReadSection(r, sections[0], codec).value;
      var rest := SectionsOfRead(next, sections[1..], codec);
      parts := [p] + rest;
      assert parts[1..] == rest;
    }
  }

  lemma PartDecodes(p: Part, codec: Codec)
    requires IsAcceptable(p, codec)
    ensures p.header.name != FILE ==> codec.decode(p.value).Some?
  {
    hide Ascii, PrintHeader;
  }

  /** A body may be closed with or without an end of line, and its boundary is any seventy visible characters
      or fewer, but not none. */
  lemma RoundTripEitherWay(parts: seq<Part>, closing: Bytes, boundary: Bytes, codec: Codec)
    requires 1 <= |parts| <= 8 && closing in {DASHES, DASHES + CRLF}
    requires forall i :: 0 <= i < |parts| ==> IsClean(parts[i], Marker(boundary)) && IsReadable(parts[i], codec)
    requires AreDistinct(Reading(map[], None), parts) && Meaning(Reading(map[], None), parts, codec).wav.Some?
    ensures var meaning := Meaning(Reading(map[], None), parts, codec);
            var body := Join([[]] + seq(|parts|, i requires 0 <= i < |parts| => Section(parts[i])) + [closing], DASHES + boundary);
            Parse(body, boundary, codec) == if 1 <= |boundary| <= 70 && (forall i :: 0 <= i < |boundary| ==> 33 <= boundary[i] <= 126)
                                            then Parsed(meaning.fields, meaning.wav.value) else Invalid
  {
    hide Section, Sections, IsFramed, IsClean, IsReadable, Split, Join, Meaning, AreDistinct, ReadSections, Contains;
    if IsBoundary(boundary) { ClosedEitherWay(parts, closing, boundary, codec); }
  }

  lemma ClosedEitherWay(parts: seq<Part>, closing: Bytes, boundary: Bytes, codec: Codec)
    requires IsBoundary(boundary) && 1 <= |parts| <= 8 && closing in {DASHES, DASHES + CRLF}
    requires forall i :: 0 <= i < |parts| ==> IsClean(parts[i], Marker(boundary)) && IsReadable(parts[i], codec)
    requires AreDistinct(Reading(map[], None), parts) && Meaning(Reading(map[], None), parts, codec).wav.Some?
    ensures var meaning := Meaning(Reading(map[], None), parts, codec);
            var body := Join([[]] + seq(|parts|, i requires 0 <= i < |parts| => Section(parts[i])) + [closing], DASHES + boundary);
            Parse(body, boundary, codec) == Parsed(meaning.fields, meaning.wav.value)
  {
    hide Section, Sections, IsFramed, IsClean, IsReadable, Split, Join, Meaning, AreDistinct, ReadSections, Contains;
    BoundaryMakesMarker(boundary);
    var sections := [[]] + seq(|parts|, i requires 0 <= i < |parts| => Section(parts[i])) + [closing];
    assert |sections| == |parts| + 2;
    forall k | 0 <= k < |sections|
      ensures !Contains(sections[k], Marker(boundary)) && (k < |sections| - 1 ==> sections[k] == [] || sections[k][|sections[k]| - 1] == LF)
    {
      if k <= |parts| { SectionsBut(parts, closing, k); SectionAt(parts, Marker(boundary), k); } else { DashesAreClean(boundary); ClosingIsClean(Marker(boundary)); }
    }
    SplitOfJoin(sections, Marker(boundary));
    FramedEitherWay(parts, closing);
    PartsAreRead(Reading(map[], None), parts, sections[1..|sections| - 1], codec);
  }

  lemma SectionsBut(parts: seq<Part>, closing: Bytes, k: nat)
    requires k <= |parts|
    ensures ([[]] + seq(|parts|, i requires 0 <= i < |parts| => Section(parts[i])) + [closing])[k] == Sections(parts)[k]
    ensures |Sections(parts)| == |parts| + 2
  {
    hide Section;
  }

  lemma DashesAreClean(boundary: Bytes)
    requires boundary != []
    ensures !Contains(DASHES, Marker(boundary)) && |Marker(boundary)| >= 3
  {
  }

  lemma FramedEitherWay(parts: seq<Part>, closing: Bytes)
    requires 1 <= |parts| <= 8 && closing in {DASHES, DASHES + CRLF}
    ensures var sections := [[]] + seq(|parts|, i requires 0 <= i < |parts| => Section(parts[i])) + [closing];
            && IsFramed(sections) && |sections| == |parts| + 2
            && forall i :: 0 <= i < |parts| ==> sections[1..|sections| - 1][i] == Section(parts[i])
  {
    hide Section;
  }

  /** Whatever the parser accepts is one to eight acceptable parts, no name twice, one of them the file,
      between markers that stand nowhere else, closed in one of the two ways; and its result is what those
      parts say. Everything else is refused. */
  lemma ParsedWasPrinted(body: Bytes, boundary: Bytes, codec: Codec) returns (parts: seq<Part>, closing: Bytes)
    requires Parse(body, boundary, codec).Parsed?
    ensures 1 <= |boundary| <= 70 && forall i :: 0 <= i < |boundary| ==> 33 <= boundary[i] <= 126
    ensures 1 <= |parts| <= 8 && closing in {DASHES, DASHES + CRLF}
    ensures body == Join([[]] + seq(|parts|, i requires 0 <= i < |parts| => Section(parts[i])) + [closing], DASHES + boundary)
    ensures forall i :: 0 <= i < |parts| ==> IsAcceptable(parts[i], codec) && !Contains(Section(parts[i]), DASHES + boundary)
    ensures AreDistinct(Reading(map[], None), parts)
    ensures var meaning := Meaning(Reading(map[], None), parts, codec);
            meaning.wav.Some? && Parse(body, boundary, codec) == Parsed(meaning.fields, meaning.wav.value)
  {
    hide Section, IsAcceptable, ReadSections, Split, Join, Contains, Meaning, AreDistinct;
    var sections := Split(body, Marker(boundary));
    JoinOfSplit(body, Marker(boundary));
    var inner := sections[1..|sections| - 1];
    parts := SectionsOfRead(Reading(map[], None), inner, codec);
    closing := sections[|sections| - 1];
    assert sections == [[]] + seq(|parts|, i requires 0 <= i < |parts| => Section(parts[i])) + [closing];
    forall i | 0 <= i < |parts| ensures !Contains(Section(parts[i]), DASHES + boundary) {
      SplitIsClean(body, Marker(boundary), i + 1);
      assert Section(parts[i]) == inner[i] == sections[i + 1];
    }
  }
}
