/** The multipart body of a speech request: the printer on one side, the parser on the other
    (section 5.1.1 of RFC 2046, section 4 of RFC 7578). */
module Multipart {
  import opened Basics

  const CR: byte := 13
  const LF: byte := 10
  const DASH: byte := 45
  const QUOTE: byte := 34
  const CRLF: Bytes := [CR, LF]
  const DASHES: Bytes := [DASH, DASH]

  const MAX_PARTS := 8
  const MAX_HEADER := 2048
  const MAX_FIELD := 128

  // ---------------------------------------------------------------- searching

  predicate OccursAt(body: Bytes, marker: Bytes, i: nat) {
    i + |marker| <= |body| && body[i..i + |marker|] == marker
  }

  ghost predicate Contains(body: Bytes, marker: Bytes) {
    exists i :: OccursAt(body, marker, i)
  }

  /** The first place at or after `from` where the marker occurs. */
  function Find(body: Bytes, marker: Bytes, from: nat): (at: Option<nat>)
    ensures at.Some? ==> at.value >= from && OccursAt(body, marker, at.value)
    ensures at.Some? ==> forall i :: from <= i < at.value ==> !OccursAt(body, marker, i)
    ensures at.None? ==> forall i :: from <= i ==> !OccursAt(body, marker, i)
    decreases |body| - from
  {
    if from > |body| then None
    else if OccursAt(body, marker, from) then Some(from)
    else Find(body, marker, from + 1)
  }

  /** `bytes.split` */
  function Split(body: Bytes, marker: Bytes): (sections: seq<Bytes>)
    requires marker != []
    ensures |sections| >= 1
    decreases |body|
  {
    var at := Find(body, marker, 0);
    if at.None? then [body] else [body[..at.value]] + Split(body[at.value + |marker|..], marker)
  }

  /** The sections with the marker between them. */
  function Join(sections: seq<Bytes>, marker: Bytes): Bytes
    requires sections != []
  {
    if |sections| == 1 then sections[0] else sections[0] + marker + Join(sections[1..], marker)
  }

  /** Splitting loses nothing. */
  lemma {:induction false} JoinOfSplit(body: Bytes, marker: Bytes)
    requires marker != []
    ensures Join(Split(body, marker), marker) == body
    decreases |body|
  {
    var at := Find(body, marker, 0);
    hide Find;
    if at.Some? {
      var rest := body[at.value + |marker|..];
      JoinOfSplit(rest, marker);
      assert Split(body, marker) == [body[..at.value]] + Split(rest, marker);
      assert Split(body, marker)[1..] == Split(rest, marker);
      CutAt(body, marker, at.value);
    }
  }

  lemma CutAt(body: Bytes, marker: Bytes, i: nat)
    requires OccursAt(body, marker, i)
    ensures body == body[..i] + marker + body[i + |marker|..]
  {
    assert body[i..] == body[i..i + |marker|] + body[i + |marker|..];
  }

  lemma OccursInLonger(body: Bytes, n: nat, marker: Bytes, i: nat)
    requires n <= |body| && OccursAt(body[..n], marker, i) && marker != []
    ensures OccursAt(body, marker, i) && i < n
  {
    assert body[..n][i..i + |marker|] == body[i..i + |marker|];
  }

  /** No section of a split contains the marker. */
  lemma {:induction false} SplitIsClean(body: Bytes, marker: Bytes, k: nat)
    requires marker != [] && k < |Split(body, marker)|
    ensures !Contains(Split(body, marker)[k], marker)
    decreases |body|
  {
    var at := Find(body, marker, 0);
    if at.Some? {
      if k == 0 {
        forall i: nat ensures !OccursAt(body[..at.value], marker, i) {
          if OccursAt(body[..at.value], marker, i) { OccursInLonger(body, at.value, marker, i); }
        }
      } else {
        SplitIsClean(body[at.value + |marker|..], marker, k - 1);
      }
    }
  }

  // ---------------------------------------------- where a marker cannot be found

  predicate IsMarker(marker: Bytes) {
    marker != [] && CR !in marker && LF !in marker
  }

  /** An occurrence cannot reach across a byte the marker does not have. */
  lemma NotAcross(a: Bytes, c: byte, b: Bytes, marker: Bytes, i: nat)
    requires c !in marker && OccursAt(a + [c] + b, marker, i)
    ensures i + |marker| <= |a| || i > |a|
  {
    var body := a + [c] + b;
    assert body[|a|] == c;
    if i <= |a| < i + |marker| { ByteOfOccurrence(body, marker, i, |a|); }
  }

  lemma ByteOfOccurrence(body: Bytes, marker: Bytes, i: nat, k: nat)
    requires OccursAt(body, marker, i) && i <= k < i + |marker|
    ensures body[k] in marker
  {
    assert body[k] == body[i..i + |marker|][k - i];
  }

  lemma CleanAcross(a: Bytes, c: byte, b: Bytes, marker: Bytes)
    requires c !in marker && !Contains(a, marker) && !Contains(b, marker)
    ensures !Contains(a + [c] + b, marker)
  {
    var body := a + [c] + b;
    forall i: nat ensures !OccursAt(body, marker, i) {
      if OccursAt(body, marker, i) {
        NotAcross(a, c, b, marker, i);
        if i > |a| {
          assert body[i..i + |marker|] == b[i - |a| - 1..i - |a| - 1 + |marker|];
          assert OccursAt(b, marker, i - |a| - 1);
        } else {
          assert body[i..i + |marker|] == a[i..i + |marker|];
          assert OccursAt(a, marker, i);
        }
      }
    }
  }

  lemma CleanAcrossLine(a: Bytes, b: Bytes, marker: Bytes)
    requires IsMarker(marker) && !Contains(a, marker) && !Contains(b, marker)
    ensures !Contains(a + CRLF + b, marker)
  {
    NothingInNothing(marker);
    CleanAcross(a, CR, [], marker);
    assert a + [CR] + [] == a + [CR];
    CleanAcross(a + [CR], LF, b, marker);
    assert a + CRLF + b == a + [CR] + [LF] + b;
  }

  lemma NothingInNothing(marker: Bytes)
    requires marker != []
    ensures !Contains([], marker)
  {
  }

  /** A section that ends its line: the marker after it is the first one, wherever the section came from. */
  lemma FirstIsHere(section: Bytes, marker: Bytes, rest: Bytes)
    requires IsMarker(marker) && !Contains(section, marker) && (section == [] || section[|section| - 1] == LF)
    ensures Find(section + marker + rest, marker, 0) == Some(|section|)
  {
    var body := section + marker + rest;
    assert OccursAt(body, marker, |section|) by { assert body[|section|..|section| + |marker|] == marker; }
    forall i: nat | i < |section| ensures !OccursAt(body, marker, i) {
      if OccursAt(body, marker, i) { InsideSection(section, marker, rest, i); }
    }
  }

  /** An occurrence that begins in a section ending its line lies inside it. */
  lemma InsideSection(section: Bytes, marker: Bytes, rest: Bytes, i: nat)
    requires IsMarker(marker) && i < |section| && section[|section| - 1] == LF && OccursAt(section + marker + rest, marker, i)
    ensures OccursAt(section, marker, i)
  {
    var a, body := section[..|section| - 1], section + marker + rest;
    assert section == a + [LF];
    assert body == a + [LF] + (marker + rest);
    NotAcross(a, LF, marker + rest, marker, i);
    assert body[i..i + |marker|] == section[i..i + |marker|];
  }

  /** For any number of sections that end their lines and are free of the marker, splitting undoes
      joining. */
  lemma {:induction false} SplitOfJoin(sections: seq<Bytes>, marker: Bytes)
    requires IsMarker(marker) && sections != []
    requires forall k :: 0 <= k < |sections| ==> !Contains(sections[k], marker)
    requires forall k :: 0 <= k < |sections| - 1 ==> sections[k] == [] || sections[k][|sections[k]| - 1] == LF
    ensures Split(Join(sections, marker), marker) == sections
  {
    hide Find, OccursAt, Contains;
    if |sections| == 1 {
      NotFound(sections[0], marker);
    } else {
      var rest := Join(sections[1..], marker);
      FirstIsHere(sections[0], marker, rest);
      var body := sections[0] + marker + rest;
      assert body[..|sections[0]|] == sections[0] && body[|sections[0]| + |marker|..] == rest;
      SplitOfJoin(sections[1..], marker);
      assert sections == [sections[0]] + sections[1..];
    }
  }

  lemma NotFound(body: Bytes, marker: Bytes)
    requires !Contains(body, marker)
    ensures Find(body, marker, 0).None?
  {
  }

  // ------------------------------------------------------------------ headers

  predicate IsAscii(s: string) {
    forall i :: 0 <= i < |s| ==> s[i] < 128 as char
  }

  function Ascii(s: string): (b: Bytes)
    requires IsAscii(s)
    ensures |b| == |s| && forall i :: 0 <= i < |s| ==> b[i] as int == s[i] as int
  {
    seq(|s|, i requires 0 <= i < |s| => (s[i] as int) as byte)
  }

  const DISPOSITION: Bytes := Ascii("Content-Disposition: form-data; name=\"")
  const FILENAME: Bytes := Ascii("; filename=\"")
  const TYPE: Bytes := CRLF + Ascii("Content-Type: ")

  const FILE: Bytes := Ascii("file")
  const LANGUAGE: Bytes := Ascii("language")
  const FORMAT: Bytes := Ascii("response_format")
  const CONTEXT: Bytes := Ascii("no_context")
  const WAV: Bytes := Ascii("audio/wav")
  const XWAV: Bytes := Ascii("audio/x-wav")

  /** What a part's header says: the field's name, and for the file its own name and type. */
  datatype Header = Header(name: Bytes, file: Option<(Bytes, Bytes)>)

  function PrintHeader(h: Header): Bytes {
    DISPOSITION + h.name + [QUOTE]
    + if h.file.None? then [] else FILENAME + h.file.value.0 + [QUOTE] + TYPE + h.file.value.1
  }

  function After(b: Bytes, prefix: Bytes): Option<Bytes> {
    if |prefix| <= |b| && b[..|prefix|] == prefix then Some(b[|prefix|..]) else None
  }

  /** Up to the next quote, and what follows it. */
  function Quoted(b: Bytes): Option<(Bytes, Bytes)> {
    var at := Find(b, [QUOTE], 0);
    if at.None? then None else Some((b[..at.value], b[at.value + 1..]))
  }

  /** A parser for the headers the printer writes; any other header is refused. */
  function ParseHeader(b: Bytes): Option<Header> {
    var name := After(b, DISPOSITION);
    if name.None? || Quoted(name.value).None? then None
    else
      var (field, rest) := Quoted(name.value).value;
      if rest == [] then Some(Header(field, None))
      else
        var file := After(rest, FILENAME);
        if file.None? || Quoted(file.value).None? then None
        else
          var media := After(Quoted(file.value).value.1, TYPE);
          if media.None? then None else Some(Header(field, Some((Quoted(file.value).value.0, media.value))))
  }

  lemma AfterPrefix(prefix: Bytes, rest: Bytes)
    ensures After(prefix + rest, prefix) == Some(rest)
  {
    assert (prefix + rest)[..|prefix|] == prefix && (prefix + rest)[|prefix|..] == rest;
  }

  lemma QuotedText(text: Bytes, rest: Bytes)
    requires QUOTE !in text
    ensures Quoted(text + [QUOTE] + rest) == Some((text, rest))
  {
    var b := text + [QUOTE] + rest;
    assert OccursAt(b, [QUOTE], |text|) by { assert b[|text|..|text| + 1] == [QUOTE]; }
    forall i: nat | i < |text| ensures !OccursAt(b, [QUOTE], i) {
      assert b[i..i + 1] == [text[i]];
    }
    assert b[..|text|] == text && b[|text| + 1..] == rest;
  }

  lemma FieldHeader(name: Bytes)
    requires QUOTE !in name
    ensures ParseHeader(PrintHeader(Header(name, None))) == Some(Header(name, None))
  {
    assert PrintHeader(Header(name, None)) == DISPOSITION + (name + [QUOTE] + []);
    AfterPrefix(DISPOSITION, name + [QUOTE] + []);
    QuotedText(name, []);
  }

  lemma FileHeader(name: Bytes, filename: Bytes, media: Bytes)
    requires QUOTE !in name && QUOTE !in filename
    ensures ParseHeader(PrintHeader(Header(name, Some((filename, media))))) == Some(Header(name, Some((filename, media))))
  {
    hide After, Quoted, Ascii;
    var tail := FILENAME + (filename + [QUOTE] + (TYPE + media));
    assert PrintHeader(Header(name, Some((filename, media)))) == DISPOSITION + (name + [QUOTE] + tail);
    AfterPrefix(DISPOSITION, name + [QUOTE] + tail);
    QuotedText(name, tail);
    AfterPrefix(FILENAME, filename + [QUOTE] + (TYPE + media));
    QuotedText(filename, TYPE + media);
    AfterPrefix(TYPE, media);
  }

  // -------------------------------------------------------------------- parts

  datatype Part = Part(header: Header, value: Bytes)

  /** What stands between two markers. */
  function Section(p: Part): Bytes {
    CRLF + PrintHeader(p.header) + CRLF + CRLF + p.value + CRLF
  }

  const CLOSING: Bytes := DASHES + CRLF

  function Sections(parts: seq<Part>): seq<Bytes> {
    [[]] + seq(|parts|, i requires 0 <= i < |parts| => Section(parts[i])) + [CLOSING]
  }

  function Marker(boundary: Bytes): Bytes {
    DASHES + boundary
  }

  /** The body that carries the parts. */
  function Print(parts: seq<Part>, boundary: Bytes): Bytes {
    Join(Sections(parts), Marker(boundary))
  }

  /** Text in a field, and UTF-8 on the way to bytes and back. */
  datatype Codec = Codec(encode: string -> Bytes, decode: Bytes -> Option<string>)

  /** The two are inverse to each other; text is encoded character by character, the first 128 as
      themselves and the others without a byte below 128. */
  ghost predicate IsUtf8(c: Codec) {
    && (forall s {:trigger c.encode(s)} :: c.decode(c.encode(s)) == Some(s))
    && (forall b {:trigger c.decode(b)} :: c.decode(b).Some? ==> c.encode(c.decode(b).value) == b)
    && (forall s, t {:trigger c.encode(s + t)} :: c.encode(s + t) == c.encode(s) + c.encode(t))
    && (forall s {:trigger c.encode(s)} :: IsAscii(s) ==> c.encode(s) == Ascii(s))
    && forall x: char, k {:trigger c.encode([x])[k]} :: x >= 128 as char && 0 <= k < |c.encode([x])| ==> c.encode([x])[k] >= 128
  }

  predicate IsSpace(c: char) {
    '\t' <= c <= '\r' || 28 as char <= c <= ' ' || c == 0x85 as char || c == 0xa0 as char || c == 0x1680 as char
    || 0x2000 as char <= c <= 0x200a as char || c == 0x2028 as char || c == 0x2029 as char || c == 0x202f as char
    || c == 0x205f as char || c == 0x3000 as char
  }

  /** `str.strip` */
  function Strip(s: string): string {
    if s != [] && IsSpace(s[0]) then Strip(s[1..])
    else if s != [] && IsSpace(s[|s| - 1]) then Strip(s[..|s| - 1])
    else s
  }

  datatype Result = Parsed(fields: map<Bytes, string>, wav: Bytes) | Invalid

  /** What has been read so far. */
  datatype Reading = Reading(fields: map<Bytes, string>, wav: Option<Bytes>)

  /** The header and the value of a section, at its first empty line. */
  function Divide(section: Bytes): Option<(Bytes, Bytes)> {
    if |section| < 4 || section[..2] != CRLF || section[|section| - 2..] != CRLF then None
    else
      var part := section[2..|section| - 2];
      var at := Find(part, CRLF + CRLF, 0);
      if at.None? || at.value > MAX_HEADER then None else Some((part[..at.value], part[at.value + 4..]))
  }

  /** One round of the parser's loop. */
  function ReadSection(r: Reading, section: Bytes, codec: Codec): Option<Reading> {
    var divided := Divide(section);
    if divided.None? || ParseHeader(divided.value.0).None? then None
    else
      var header, value := ParseHeader(divided.value.0).value, divided.value.1;
      if header.name == FILE then
        if r.wav.Some? || header.file.None? || header.file.value.0 == [] || header.file.value.1 !in {WAV, XWAV} then None
        else Some(r.(wav := Some(value)))
      else if header.name !in {LANGUAGE, FORMAT, CONTEXT} || header.name in r.fields || |value| > MAX_FIELD
           || codec.decode(value).None? then None
      else Some(r.(fields := r.fields[header.name := Strip(codec.decode(value).value)]))
  }

  function ReadSections(r: Reading, sections: seq<Bytes>, codec: Codec): Option<Reading>
    decreases sections
  {
    if sections == [] then Some(r)
    else
      var next := ReadSection(r, sections[0], codec);
      if next.None? then None else ReadSections(next.value, sections[1..], codec)
  }

  predicate IsFramed(sections: seq<Bytes>) {
    3 <= |sections| <= MAX_PARTS + 2 && sections[0] == [] && sections[|sections| - 1] in {DASHES, CLOSING}
  }

  /** What the parser asks of a boundary. */
  predicate IsBoundary(boundary: Bytes) {
    1 <= |boundary| <= 70 && forall i :: 0 <= i < |boundary| ==> 33 <= boundary[i] <= 126
  }

  /** `_parse_multipart`, from the boundary on. */
  function Parse(body: Bytes, boundary: Bytes, codec: Codec): Result {
    var sections := Split(body, Marker(boundary));
    if !IsBoundary(boundary) || !IsFramed(sections) then Invalid
    else
      var read := ReadSections(Reading(map[], None), sections[1..|sections| - 1], codec);
      if read.None? || read.value.wav.None? then Invalid else Parsed(read.value.fields, read.value.wav.value)
  }
}
