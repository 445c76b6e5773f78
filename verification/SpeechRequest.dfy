/** The one body the speech client builds, and the loops of the two programs. */
module SpeechRequest {
  import opened Basics
  import opened Multipart
  import opened MultipartRoundTrip

  const AUDIO: Bytes := Ascii("audio.wav")

  function Field(name: Bytes, value: Bytes): Part {
    Part(Header(name, None), value)
  }

  function SpeechParts(language: Bytes, wav: Bytes): seq<Part> {
    [Field(LANGUAGE, language), Field(FORMAT, Ascii("json")), Field(CONTEXT, Ascii("true")),
     Part(Header(FILE, Some((AUDIO, WAV))), wav)]
  }

  // ------------------------------------------------- no header contains a marker

  predicate NoDashes(b: Bytes) {
    forall i :: 0 <= i < |b| - 1 ==> b[i] != DASH || b[i + 1] != DASH
  }

  lemma NoDashesNoMarker(b: Bytes, boundary: Bytes)
    requires NoDashes(b)
    ensures !Contains(b, Marker(boundary))
  {
    var marker := Marker(boundary);
    forall i: nat ensures !OccursAt(b, marker, i) {
      if OccursAt(b, marker, i) { MarkerBeginsWithDashes(b, boundary, i); }
    }
  }

  lemma MarkerBeginsWithDashes(b: Bytes, boundary: Bytes, i: nat)
    requires OccursAt(b, Marker(boundary), i)
    ensures i + 1 < |b| && b[i] == DASH && b[i + 1] == DASH
  {
    var found := b[i..i + |Marker(boundary)|];
    assert b[i] == found[0] && b[i + 1] == found[1];
  }

  lemma NoDashesJoin(a: Bytes, b: Bytes)
    requires NoDashes(a) && NoDashes(b) && (a == [] || b == [] || a[|a| - 1] != DASH || b[0] != DASH)
    ensures NoDashes(a + b)
  {
  }

  lemma NoDashesInConstants()
    ensures NoDashes(DISPOSITION) && NoDashes(FILENAME) && NoDashes(TYPE)
    ensures DISPOSITION[|DISPOSITION| - 1] == QUOTE && FILENAME[|FILENAME| - 1] == QUOTE && TYPE[|TYPE| - 1] != DASH
    ensures FILENAME[0] != DASH && TYPE[0] != DASH && |DISPOSITION| <= 40 && |FILENAME| <= 12 && |TYPE| <= 16
  {
  }

  lemma NoDashesInHeader(h: Header)
    requires NoDashes(h.name) && |h.name| <= 100
    requires h.file.Some? ==> NoDashes(h.file.value.0) && NoDashes(h.file.value.1) && |h.file.value.0| <= 100 && |h.file.value.1| <= 100
    ensures NoDashes(PrintHeader(h)) && |PrintHeader(h)| <= MAX_HEADER
  {
    hide NoDashes, Ascii;
    NoDashesInConstants();
    NoDashesJoin(DISPOSITION, h.name);
    OneByte(QUOTE);
    NoDashesJoin(DISPOSITION + h.name, [QUOTE]);
    var head := DISPOSITION + h.name + [QUOTE];
    if h.file.Some? {
      var (filename, media) := h.file.value;
      NoDashesJoin(head, FILENAME);
      NoDashesJoin(head + FILENAME, filename);
      NoDashesJoin(head + FILENAME + filename, [QUOTE]);
      NoDashesJoin(head + FILENAME + filename + [QUOTE], TYPE);
      NoDashesJoin(head + FILENAME + filename + [QUOTE] + TYPE, media);
      assert PrintHeader(h) == head + FILENAME + filename + [QUOTE] + TYPE + media;
    } else {
      assert PrintHeader(h) == head;
    }
  }

  lemma OneByte(b: byte)
    ensures NoDashes([b])
  {
  }

  lemma NamesArePlain()
    ensures NoDashes(LANGUAGE) && NoDashes(FORMAT) && NoDashes(CONTEXT) && NoDashes(FILE) && NoDashes(AUDIO) && NoDashes(WAV)
    ensures QUOTE !in LANGUAGE && QUOTE !in FORMAT && QUOTE !in CONTEXT && QUOTE !in FILE && QUOTE !in AUDIO
    ensures CR !in LANGUAGE && CR !in FORMAT && CR !in CONTEXT && CR !in FILE && CR !in AUDIO && CR !in WAV
    ensures |LANGUAGE| == 8 && |FORMAT| == 15 && |CONTEXT| == 10 && |FILE| == 4 && |AUDIO| == 9 && |WAV| == 9
    ensures IsAscii("json") && IsAscii("true") && NoDashes(Ascii("json")) && NoDashes(Ascii("true"))
    ensures Strip("json") == "json" && Strip("true") == "true"
  {
    hide NoDashes;
    FieldNamesArePlain();
    FileNamesArePlain();
    ValuesArePlain();
  }

  lemma FieldNamesArePlain()
    ensures NoDashes(LANGUAGE) && NoDashes(FORMAT) && NoDashes(CONTEXT)
    ensures QUOTE !in LANGUAGE && QUOTE !in FORMAT && QUOTE !in CONTEXT && CR !in LANGUAGE && CR !in FORMAT && CR !in CONTEXT
  {
  }

  lemma FileNamesArePlain()
    ensures NoDashes(FILE) && NoDashes(AUDIO) && NoDashes(WAV)
    ensures QUOTE !in FILE && QUOTE !in AUDIO && CR !in FILE && CR !in AUDIO && CR !in WAV
  {
  }

  lemma ValuesArePlain()
    ensures IsAscii("json") && IsAscii("true") && NoDashes(Ascii("json")) && NoDashes(Ascii("true"))
    ensures Strip("json") == "json" && Strip("true") == "true"
  {
  }

  // ----------------------------------------------------------------- round trip

  lemma FieldIsFine(name: Bytes, value: Bytes, boundary: Bytes, codec: Codec)
    requires NoDashes(name) && QUOTE !in name && CR !in name && |name| <= 100 && name != FILE
    requires name in {LANGUAGE, FORMAT, CONTEXT} && !Contains(value, Marker(boundary))
    ensures IsClean(Field(name, value), Marker(boundary))
    ensures |value| <= 128 && codec.decode(value).Some? ==> IsReadable(Field(name, value), codec)
  {
    hide Ascii, PrintHeader;
    NoDashesInHeader(Header(name, None));
    NoDashesNoMarker(PrintHeader(Header(name, None)), boundary);
  }

  lemma FileIsFine(wav: Bytes, boundary: Bytes, codec: Codec)
    requires !Contains(wav, Marker(boundary))
    ensures var p := Part(Header(FILE, Some((AUDIO, WAV))), wav); IsClean(p, Marker(boundary)) && IsReadable(p, codec)
  {
    hide Ascii, PrintHeader, NoDashes;
    NamesArePlain();
    NoDashesInHeader(Header(FILE, Some((AUDIO, WAV))));
    NoDashesNoMarker(PrintHeader(Header(FILE, Some((AUDIO, WAV)))), boundary);
  }

  lemma PartsAreClean(language: Bytes, wav: Bytes, boundary: Bytes, codec: Codec)
    requires !Contains(language, Marker(boundary)) && !Contains(wav, Marker(boundary))
    ensures forall i :: 0 <= i < 4 ==> IsClean(SpeechParts(language, wav)[i], Marker(boundary))
    ensures |language| <= 128 && codec.decode(language).Some?
            && codec.decode(Ascii("json")).Some? && codec.decode(Ascii("true")).Some? ==>
            forall i :: 0 <= i < 4 ==> IsReadable(SpeechParts(language, wav)[i], codec)
  {
    hide IsClean, IsReadable, NoDashes, Ascii, Contains;
    NamesArePlain();
    NoDashesNoMarker(Ascii("json"), boundary);
    NoDashesNoMarker(Ascii("true"), boundary);
    FieldIsFine(LANGUAGE, language, boundary, codec);
    FieldIsFine(FORMAT, Ascii("json"), boundary, codec);
    FieldIsFine(CONTEXT, Ascii("true"), boundary, codec);
    FileIsFine(wav, boundary, codec);
  }

  lemma OccursInMiddle(body: Bytes, from: nat, to: nat, marker: Bytes, i: nat)
    requires from <= to <= |body| && OccursAt(body[from..to], marker, i)
    ensures OccursAt(body, marker, from + i)
  {
    var inner := body[from..to];
    forall k | 0 <= k < |marker| ensures body[from + i..from + i + |marker|][k] == marker[k] {
      assert inner[i..i + |marker|][k] == inner[i + k];
    }
    assert body[from + i..from + i + |marker|] == marker;
  }

  lemma ValueIsClean(section: Bytes, marker: Bytes)
    requires marker != [] && !Contains(section, marker)
    ensures Divide(section).Some? ==> !Contains(Divide(section).value.1, marker)
  {
    if Divide(section).Some? {
      var value := Divide(section).value.1;
      var from := |section| - 2 - |value|;
      assert value == section[from..|section| - 2];
      forall i: nat ensures !OccursAt(value, marker, i) {
        if OccursAt(value, marker, i) { OccursInMiddle(section, from, |section| - 2, marker, i); }
      }
    }
  }

  // ------------------------------------------------ what the parser can return

  /** Without the white space around it, the same marker is in the text. */
  lemma {:induction false} StripCuts(s: string) returns (i: nat, j: nat)
    ensures i <= j <= |s| && Strip(s) == s[i..j]
    ensures (forall k :: 0 <= k < i ==> IsSpace(s[k])) && forall k :: j <= k < |s| ==> IsSpace(s[k])
    decreases |s|
  {
    hide IsSpace;
    if s != [] && IsSpace(s[0]) {
      i, j := StripCuts(s[1..]);
      assert s[1..][i..j] == s[i + 1..j + 1];
      forall k | 0 <= k < i + 1 ensures IsSpace(s[k]) { if k > 0 { assert s[k] == s[1..][k - 1]; } }
      forall k | j + 1 <= k < |s| ensures IsSpace(s[k]) { assert s[k] == s[1..][k - 1]; }
      i, j := i + 1, j + 1;
    } else if s != [] && IsSpace(s[|s| - 1]) {
      i, j := StripCuts(s[..|s| - 1]);
      assert s[..|s| - 1][i..j] == s[i..j];
    } else {
      i, j := 0, |s|;
      assert s[0..|s|] == s;
    }
  }

  /** No byte of a marker comes from white space. */
  predicate IsVisible(b: byte) {
    33 <= b <= 126
  }

  lemma {:induction false} SpaceIsInvisible(s: string, codec: Codec)
    requires IsUtf8(codec) && forall k :: 0 <= k < |s| ==> IsSpace(s[k])
    ensures forall k :: 0 <= k < |codec.encode(s)| ==> !IsVisible(codec.encode(s)[k])
  {
    if s == [] {
      assert codec.encode([]) == Ascii([]);
    } else {
      SpaceIsInvisible(s[1..], codec);
      assert s == [s[0]] + s[1..];
      OneSpace(s[0], codec);
    }
  }

  lemma OneSpace(x: char, codec: Codec)
    requires IsUtf8(codec) && IsSpace(x)
    ensures forall k :: 0 <= k < |codec.encode([x])| ==> !IsVisible(codec.encode([x])[k])
  {
    if x < 128 as char { assert codec.encode([x]) == Ascii([x]); }
  }

  /** A marker of visible bytes cannot begin in, or reach into, what has none. */
  lemma MarkerIsInMiddle(a: Bytes, m: Bytes, b: Bytes, marker: Bytes)
    requires marker != [] && forall k :: 0 <= k < |marker| ==> IsVisible(marker[k])
    requires (forall k :: 0 <= k < |a| ==> !IsVisible(a[k])) && forall k :: 0 <= k < |b| ==> !IsVisible(b[k])
    ensures Contains(a + m + b, marker) <==> Contains(m, marker)
  {
    var body := a + m + b;
    assert body[|a|..|a| + |m|] == m;
    forall i: nat | OccursAt(body, marker, i) ensures i >= |a| && OccursAt(m, marker, i - |a|) {
      VisibleAt(body, marker, i, 0);
      VisibleAt(body, marker, i, |marker| - 1);
      OnlyMiddleIsVisible(a, m, b, i);
      OnlyMiddleIsVisible(a, m, b, i + |marker| - 1);
      assert m[i - |a|..i - |a| + |marker|] == body[i..i + |marker|];
    }
    forall i: nat | OccursAt(m, marker, i) ensures OccursAt(body, marker, |a| + i) {
      OccursInMiddle(body, |a|, |a| + |m|, marker, i);
    }
  }

  lemma OnlyMiddleIsVisible(a: Bytes, m: Bytes, b: Bytes, i: nat)
    requires (forall k :: 0 <= k < |a| ==> !IsVisible(a[k])) && forall k :: 0 <= k < |b| ==> !IsVisible(b[k])
    requires i < |a + m + b| && IsVisible((a + m + b)[i])
    ensures |a| <= i < |a| + |m|
  {
    ByteOfThree(a, m, b, i);
  }

  lemma ByteOfThree(a: Bytes, m: Bytes, b: Bytes, i: nat)
    requires i < |a + m + b|
    ensures (a + m + b)[i] == if i < |a| then a[i] else if i < |a| + |m| then m[i - |a|] else b[i - |a| - |m|]
  {
  }

  lemma VisibleAt(body: Bytes, marker: Bytes, i: nat, k: nat)
    requires OccursAt(body, marker, i) && k < |marker| && IsVisible(marker[k])
    ensures IsVisible(body[i + k])
  {
    assert body[i..i + |marker|][k] == body[i + k];
  }

  lemma MarkerIsVisible(boundary: Bytes)
    requires IsBoundary(boundary)
    ensures forall k :: 0 <= k < |Marker(boundary)| ==> IsVisible(Marker(boundary)[k])
  {
  }

  /** Stripping a text neither adds nor removes a marker. */
  lemma StripKeepsMarker(s: string, boundary: Bytes, codec: Codec)
    requires IsUtf8(codec) && IsBoundary(boundary)
    ensures Contains(codec.encode(Strip(s)), Marker(boundary)) <==> Contains(codec.encode(s), Marker(boundary))
  {
    hide Strip, IsSpace, Contains, Marker, IsVisible;
    var i, j := StripCuts(s);
    var before, after := s[..i], s[j..];
    assert s == before + s[i..j] + after;
    EncodedInThree(before, s[i..j], after, codec);
    forall k | 0 <= k < |before| ensures IsSpace(before[k]) { assert before[k] == s[k]; }
    forall k | 0 <= k < |after| ensures IsSpace(after[k]) { assert after[k] == s[j + k]; }
    SpaceIsInvisible(before, codec);
    SpaceIsInvisible(after, codec);
    MarkerIsVisible(boundary);
    NotEmpty(boundary);
    MarkerIsInMiddle(codec.encode(before), codec.encode(s[i..j]), codec.encode(after), Marker(boundary));
  }

  lemma NotEmpty(boundary: Bytes)
    ensures Marker(boundary) != []
  {
  }

  lemma EncodedInThree(a: string, m: string, b: string, codec: Codec)
    requires IsUtf8(codec)
    ensures codec.encode(a + m + b) == codec.encode(a) + codec.encode(m) + codec.encode(b)
  {
  }

  /** Neither the recording nor any field contains the marker. */
  ghost predicate ReadsClean(r: Reading, boundary: Bytes, codec: Codec) {
    && (r.wav.Some? ==> !Contains(r.wav.value, Marker(boundary)))
    && forall n :: n in r.fields ==> !Contains(codec.encode(r.fields[n]), Marker(boundary))
  }

  lemma FieldIsClean(value: Bytes, boundary: Bytes, codec: Codec)
    requires IsUtf8(codec) && IsBoundary(boundary) && !Contains(value, Marker(boundary)) && codec.decode(value).Some?
    ensures !Contains(codec.encode(Strip(codec.decode(value).value)), Marker(boundary))
  {
    hide Contains, Strip;
    StripKeepsMarker(codec.decode(value).value, boundary, codec);
  }

  lemma ReadSectionIsClean(r: Reading, section: Bytes, boundary: Bytes, codec: Codec)
    requires IsUtf8(codec) && IsBoundary(boundary) && !Contains(section, Marker(boundary)) && ReadsClean(r, boundary, codec)
    ensures var read := ReadSection(r, section, codec); read.Some? ==> ReadsClean(read.value, boundary, codec)
  {
    hide ParseHeader, Strip, Divide, Contains, IsUtf8;
    NotEmpty(boundary);
    ValueIsClean(section, Marker(boundary));
    if ReadSection(r, section, codec).Some? && codec.decode(Divide(section).value.1).Some? {
      FieldIsClean(Divide(section).value.1, boundary, codec);
    }
  }

  lemma {:induction false} ReadIsClean(r: Reading, sections: seq<Bytes>, boundary: Bytes, codec: Codec)
    requires IsUtf8(codec) && IsBoundary(boundary) && ReadsClean(r, boundary, codec)
    requires forall k :: 0 <= k < |sections| ==> !Contains(sections[k], Marker(boundary))
    ensures var read := ReadSections(r, sections, codec); read.Some? ==> ReadsClean(read.value, boundary, codec)
    decreases sections
  {
    hide ReadSection, ReadsClean, Contains, IsUtf8;
    if sections != [] && ReadSection(r, sections[0], codec).Some? {
      ReadSectionIsClean(r, sections[0], boundary, codec);
      ReadIsClean(ReadSection(r, sections[0], codec).value, sections[1..], boundary, codec);
    }
  }

  /** Nothing the parser returns contains the marker. */
  lemma ParsedIsClean(body: Bytes, boundary: Bytes, codec: Codec)
    requires IsUtf8(codec) && IsBoundary(boundary)
    ensures var result := Parse(body, boundary, codec);
            result.Parsed? ==>
              && !Contains(result.wav, Marker(boundary))
              && forall n :: n in result.fields ==> !Contains(codec.encode(result.fields[n]), Marker(boundary))
  {
    hide ReadSections, Contains, IsUtf8;
    var sections := Split(body, Marker(boundary));
    forall k | 0 <= k < |sections| ensures !Contains(sections[k], Marker(boundary)) {
      SplitIsClean(body, Marker(boundary), k);
    }
    if IsFramed(sections) {
      ReadIsClean(Reading(map[], None), sections[1..|sections| - 1], boundary, codec);
    }
  }

  /** The fields as the server sees them. */
  function SpeechFields(language: string): map<Bytes, string> {
    map[LANGUAGE := Strip(language), FORMAT := "json", CONTEXT := "true"]
  }

  lemma SpeechMeaning(language: string, wav: Bytes, codec: Codec)
    requires IsUtf8(codec)
    ensures var parts := SpeechParts(codec.encode(language), wav);
            && Meaning(Reading(map[], None), parts, codec) == Reading(SpeechFields(language), Some(wav))
            && AreDistinct(Reading(map[], None), parts)
  {
    hide Ascii, Strip, NoDashes;
    NamesArePlain();
    assert codec.encode("json") == Ascii("json") && codec.encode("true") == Ascii("true");
    var parts, start := SpeechParts(codec.encode(language), wav), Reading(map[], None);
    assert parts[1..][1..] == parts[2..] && parts[2..][1..] == parts[3..] && parts[3..][1..] == [];
    var one := Reading(map[LANGUAGE := Strip(language)], None);
    assert Meaning(start, parts, codec) == Meaning(one, parts[1..], codec);
    var two := one.(fields := one.fields[FORMAT := "json"]);
    assert Meaning(one, parts[1..], codec) == Meaning(two, parts[2..], codec);
    var three := two.(fields := two.fields[CONTEXT := "true"]);
    assert Meaning(two, parts[2..], codec) == Meaning(three, parts[3..], codec);
    assert Meaning(three, parts[3..], codec) == three.(wav := Some(wav));
  }

  lemma LongLanguageIsRefused(language: Bytes, wav: Bytes, boundary: Bytes, codec: Codec)
    requires IsBoundary(boundary) && !Contains(language, Marker(boundary)) && !Contains(wav, Marker(boundary))
    requires |language| > 128
    ensures Parse(Print(SpeechParts(language, wav), boundary), boundary, codec) == Invalid
  {
    hide Contains, IsClean, Section, Split, Join, Divide, ParseHeader, Ascii, NoDashes, PrintHeader;
    var parts := SpeechParts(language, wav);
    BoundaryMakesMarker(boundary);
    PartsAreClean(language, wav, boundary, codec);
    SectionsSplit(parts, Marker(boundary));
    NamesArePlain();
    NoDashesInHeader(parts[0].header);
    DivideSection(parts[0]);
    HeaderRoundTrip(parts[0].header);
    var sections := Sections(parts);
    assert sections[1..|sections| - 1][0] == Section(parts[0]);
  }

  /** For every recording and every language: the server reads exactly what the client wrote, if and only
      if the language fits its field and neither it nor the recording contains the marker. */
  lemma SpeechRoundTripExactlyWhen(language: string, wav: Bytes, boundary: Bytes, codec: Codec)
    requires IsUtf8(codec) && IsBoundary(boundary)
    ensures var text := codec.encode(language);
            Parse(Print(SpeechParts(text, wav), boundary), boundary, codec) == Parsed(SpeechFields(language), wav)
            <==> |text| <= 128 && !Contains(text, Marker(boundary)) && !Contains(wav, Marker(boundary))
  {
    hide Contains, IsClean, IsReadable, Parse, Print, SpeechParts, Ascii, Strip, Meaning, AreDistinct, IsUtf8;
    var text := codec.encode(language);
    BoundaryMakesMarker(boundary);
    ParsedIsClean(Print(SpeechParts(text, wav), boundary), boundary, codec);
    StripKeepsMarker(language, boundary, codec);
    assert LANGUAGE in SpeechFields(language) && SpeechFields(language)[LANGUAGE] == Strip(language) by { NamesDiffer(language); }
    if !Contains(wav, Marker(boundary)) && !Contains(text, Marker(boundary)) {
      if |text| > 128 {
        LongLanguageIsRefused(text, wav, boundary, codec);
      } else {
        PartsAreClean(text, wav, boundary, codec);
        SpeechMeaning(language, wav, codec);
        TextsDecode(language, codec);
        FourParts(text, wav);
        RoundTrip(SpeechParts(text, wav), boundary, codec);
      }
    }
  }

  lemma NamesDiffer(language: string)
    ensures LANGUAGE in SpeechFields(language) && SpeechFields(language)[LANGUAGE] == Strip(language)
  {
    hide Strip;
    NamesArePlain();
  }

  lemma FourParts(language: Bytes, wav: Bytes)
    ensures |SpeechParts(language, wav)| == 4
  {
  }

  lemma TextsDecode(language: string, codec: Codec)
    requires IsUtf8(codec)
    ensures codec.decode(codec.encode(language)) == Some(language)
    ensures IsAscii("json") && codec.decode(Ascii("json")) == Some("json")
    ensures IsAscii("true") && codec.decode(Ascii("true")) == Some("true")
  {
    assert codec.decode(codec.encode("json")) == Some("json") && codec.decode(codec.encode("true")) == Some("true");
  }

  /** The white space taken off a field. */
  lemma WhiteSpace(c: char)
    ensures IsSpace(c) <==>
      (9 <= c as int <= 13 || 28 <= c as int <= 32 || 0x2000 <= c as int <= 0x200a
       || c as int in {0x85, 0xa0, 0x1680, 0x2028, 0x2029, 0x202f, 0x205f, 0x3000})
  {
  }

  // ------------------------------------------------------------------ the loops

  lemma JoinedMore(chunks: seq<Bytes>, more: seq<Bytes>)
    ensures Joined(chunks + more) == Joined(chunks) + Joined(more)
  {
    JoinedSplit(chunks + more, |chunks|);
    assert (chunks + more)[..|chunks|] == chunks && (chunks + more)[|chunks|..] == more;
  }

  lemma JoinedThree(a: Bytes, b: Bytes, c: Bytes)
    ensures Joined([a, b, c]) == a + b + c
  {
    assert [a, b, c][1..] == [b, c] && [b, c][1..] == [c] && [c][1..] == [];
    assert Joined([c]) == c;
    assert Joined([b, c]) == b + c;
    assert a + (b + c) == a + b + c;
  }

  /** `add_field`: four chunks, the last two given as one. */
  method AddPart(chunks: seq<Bytes>, p: Part, boundary: Bytes) returns (more: seq<Bytes>)
    ensures Joined(more) == Joined(chunks) + Marker(boundary) + Section(p)
  {
    hide PrintHeader, Marker, Joined;
    var opening, header, ending := Marker(boundary) + CRLF, PrintHeader(p.header) + CRLF + CRLF, p.value + CRLF;
    more := chunks + [opening, header, ending];
    JoinedMore(chunks, [opening, header, ending]);
    JoinedThree(opening, header, ending);
    assert opening + header + ending == Marker(boundary) + Section(p);
    assert Joined(chunks) + (Marker(boundary) + Section(p)) == Joined(chunks) + Marker(boundary) + Section(p);
  }

  /** `_build_multipart_request`, with the recording and the boundary as they come. */
  method Build(wav: Bytes, language: string, boundary: Bytes, codec: Codec) returns (body: Bytes)
    ensures body == Print(SpeechParts(codec.encode(language), wav), boundary)
  {
    hide Section, PrintHeader, Ascii;
    var parts := SpeechParts(codec.encode(language), wav);
    var chunks: seq<Bytes> := [];
    var i := 0;
    while i < |parts|
      invariant 0 <= i <= |parts| && Joined(chunks) == Opening(parts[..i], boundary)
    {
      assert parts[..i + 1][..i] == parts[..i];
      chunks := AddPart(chunks, parts[i], boundary);
      i := i + 1;
    }
    assert parts[..|parts|] == parts;
    body := Joined(chunks) + Marker(boundary) + CLOSING;
    OpeningIsPrint(parts, boundary);
  }

  /** The body up to the last marker. */
  function Opening(parts: seq<Part>, boundary: Bytes): Bytes {
    if parts == [] then []
    else Opening(parts[..|parts| - 1], boundary) + Marker(boundary) + Section(parts[|parts| - 1])
  }

  lemma {:induction false} JoinLast(sections: seq<Bytes>, last: Bytes, marker: Bytes)
    requires sections != []
    ensures Join(sections + [last], marker) == Join(sections, marker) + marker + last
  {
    if |sections| == 1 {
      assert (sections + [last])[1..] == [last];
    } else {
      JoinLast(sections[1..], last, marker);
      assert (sections + [last])[1..] == sections[1..] + [last];
    }
  }

  lemma {:induction false} OpeningIsJoin(parts: seq<Part>, boundary: Bytes)
    ensures Opening(parts, boundary)
         == Join([[]] + seq(|parts|, i requires 0 <= i < |parts| => Section(parts[i])), Marker(boundary))
  {
    hide Section;
    var sections := [[]] + seq(|parts|, i requires 0 <= i < |parts| => Section(parts[i]));
    if parts != [] {
      var n := |parts| - 1;
      OpeningIsJoin(parts[..n], boundary);
      var before := [[]] + seq(n, i requires 0 <= i < n => Section(parts[..n][i]));
      assert sections == before + [Section(parts[n])];
      JoinLast(before, Section(parts[n]), Marker(boundary));
    }
  }

  lemma OpeningIsPrint(parts: seq<Part>, boundary: Bytes)
    ensures Opening(parts, boundary) + Marker(boundary) + CLOSING == Print(parts, boundary)
  {
    hide Section, Opening;
    OpeningIsJoin(parts, boundary);
    JoinLast([[]] + seq(|parts|, i requires 0 <= i < |parts| => Section(parts[i])), CLOSING, Marker(boundary));
  }

  /** `_parse_multipart`, section by section. */
  method ParseBody(body: Bytes, boundary: Bytes, codec: Codec) returns (result: Result)
    ensures result == Parse(body, boundary, codec)
  {
    hide Split, ReadSection;
    if !IsBoundary(boundary) { return Invalid; }
    var sections := Split(body, Marker(boundary));
    if !IsFramed(sections) { return Invalid; }
    var inner := sections[1..|sections| - 1];
    var read, i := Reading(map[], None), 0;
    while i < |inner|
      invariant 0 <= i <= |inner|
      invariant ReadSections(Reading(map[], None), inner, codec) == ReadSections(read, inner[i..], codec)
    {
      assert inner[i..][0] == inner[i] && inner[i..][1..] == inner[i + 1..];
      var next := ReadSection(read, inner[i], codec);
      if next.None? { return Invalid; }
      read, i := next.value, i + 1;
    }
    if read.wav.None? { return Invalid; }
    return Parsed(read.fields, read.wav.value);
  }
}
