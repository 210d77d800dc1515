/** Which bytes are accepted as a header, said without the decoder. */
module HeaderAcceptance {
  import opened Common
  import opened Numerals
  import opened BinaryHeader

  /** Reading as ASCII keeps seven bits of every byte. */
  lemma TextIs(bytes: Bytes, i: nat)
    requires i < |bytes|
    ensures |Text(bytes)| == |bytes|
    ensures Text(bytes)[i] as int == if bytes[i] < 128 then bytes[i] else bytes[i] - 128
  {
  }

  // ---------------------------------------------------------------- the version text

  /** One to three digits that spell `n`. */
  ghost predicate Spells(digits: string, n: nat) {
    1 <= |digits| <= 3 && AllDigits(digits) && NumeralValue(digits) == n
  }

  /** The numbers, each in one to three digits, with dots between them. */
  ghost predicate IsDotted(s: string, parts: seq<nat>)
    decreases |parts|
  {
    if |parts| <= 1 then |parts| == 1 && Spells(s, parts[0])
    else exists head, rest :: s == head + "." + rest && Spells(head, parts[0]) && IsDotted(rest, parts[1..])
  }

  lemma {:induction false} LeadingDigitsAre(digits: string, rest: string)
    requires AllDigits(digits) && (rest == "" || !IsDigit(rest[0]))
    ensures LeadingDigits(digits + rest) == |digits|
  {
    var s := digits + rest;
    if digits == "" {
      assert s == rest;
    } else {
      assert s[1..] == digits[1..] + rest;
      LeadingDigitsAre(digits[1..], rest);
    }
  }

  lemma ParseLast(s: string, value: nat)
    requires Spells(s, value)
    ensures ParseParts(s, 1) == Some([value])
  {
    LeadingDigitsAre(s, "");
    assert s + "" == s && s[..|s|] == s;
  }

  lemma ParseStep(s: string, head: string, rest: string, value: nat, n: nat)
    requires s == head + "." + rest && Spells(head, value) && n > 1 && ParseParts(rest, n - 1).Some?
    ensures ParseParts(s, n) == Some([value] + ParseParts(rest, n - 1).value)
  {
    assert s == head + ("." + rest);
    LeadingDigitsAre(head, "." + rest);
    assert s[..|head|] == head && s[|head|] == '.' && s[|head| + 1..] == rest;
  }

  lemma DottedSplits(s: string, parts: seq<nat>) returns (head: string, rest: string)
    requires IsDotted(s, parts) && |parts| > 1
    ensures s == head + "." + rest && Spells(head, parts[0]) && IsDotted(rest, parts[1..])
  {
    head, rest :| s == head + "." + rest && Spells(head, parts[0]) && IsDotted(rest, parts[1..]);
  }

  lemma OneIsParsed(s: string, parts: seq<nat>)
    requires |parts| == 1 && Spells(s, parts[0])
    ensures ParseParts(s, 1) == Some(parts)
  {
    ParseLast(s, parts[0]);
    assert parts == [parts[0]];
  }

  lemma OneMoreIsParsed(s: string, head: string, rest: string, parts: seq<nat>, n: nat)
    requires n == |parts| > 1 && s == head + "." + rest && Spells(head, parts[0]) && ParseParts(rest, n - 1) == Some(parts[1..])
    ensures ParseParts(s, n) == Some(parts)
  {
    ParseStep(s, head, rest, parts[0], n);
    assert parts == [parts[0]] + parts[1..];
  }

  lemma {:induction false} DottedIsParsed(s: string, parts: seq<nat>, n: nat)
    requires IsDotted(s, parts) && n == |parts|
    ensures ParseParts(s, n) == Some(parts)
    decreases n
  {
    if n == 1 {
      OneIsParsed(s, parts);
    } else {
      var head, rest := DottedSplits(s, parts);
      DottedIsParsed(rest, parts[1..], n - 1);
      OneMoreIsParsed(s, head, rest, parts, n);
    }
  }

  lemma ParseSplits(s: string, n: nat) returns (head: string, rest: string, value: nat)
    requires n > 1 && ParseParts(s, n).Some?
    ensures s == head + "." + rest && Spells(head, value) && ParseParts(rest, n - 1).Some?
    ensures ParseParts(s, n).value == [value] + ParseParts(rest, n - 1).value
  {
    var k := LeadingDigits(s);
    head, rest, value := s[..k], s[k + 1..], NumeralValue(s[..k]);
    assert s == s[..k] + [s[k]] + s[k + 1..];
  }

  lemma DottedCons(s: string, head: string, rest: string, value: nat, parts: seq<nat>)
    requires s == head + "." + rest && Spells(head, value) && IsDotted(rest, parts)
    ensures IsDotted(s, [value] + parts)
  {
    assert ([value] + parts)[1..] == parts && |parts| >= 1;
  }

  lemma {:induction false} ParsedIsDotted(s: string, n: nat)
    requires n > 0 && ParseParts(s, n).Some?
    ensures IsDotted(s, ParseParts(s, n).value)
    decreases n
  {
    if n == 1 {
      var k := LeadingDigits(s);
      assert s[..k] == s && Spells(s, NumeralValue(s));
    } else {
      var head, rest, value := ParseSplits(s, n);
      ParsedIsDotted(rest, n - 1);
      DottedCons(s, head, rest, value, ParseParts(rest, n - 1).value);
    }
  }

  /** The magic text, a word for the version that may be left out, and four numbers. */
  ghost predicate NamesVersion(line: string, text: string, parts: seq<nat>) {
    && |parts| == 4 && IsDotted(text, parts)
    && (line == MAGIC + " " + text || line == MAGIC + " Version " + text || line == MAGIC + ", Version " + text)
  }

  lemma DottedBeginsWithDigit(text: string, parts: seq<nat>)
    requires IsDotted(text, parts)
    ensures text != "" && IsDigit(text[0])
  {
    if |parts| > 1 {
      var head, rest :| text == head + "." + rest && Spells(head, parts[0]) && IsDotted(rest, parts[1..]);
      assert text[0] == head[0];
    }
  }

  /** The word may be left out; a digit after the blank rules out a longer one. */
  lemma VersionTextAfter(line: string, rest: string, word: string, text: string)
    requires line == MAGIC + rest && rest == word + (" " + text) && text != "" && IsDigit(text[0])
    requires word == "" || word == SPACE_VERSION || word == COMMA_VERSION
    ensures VersionText(line) == Some(text)
  {
    assert line[|MAGIC|..] == rest;
    assert rest[|word|..] == " " + text && (" " + text)[1..] == text;
    assert COMMA_VERSION[0] == ',' && SPACE_VERSION[0] == ' ' && SPACE_VERSION[1] == 'V';
    if word == "" {
      assert rest == " " + text && rest[0] == ' ' && rest[1] == text[0];
    } else if word == SPACE_VERSION {
      assert rest[0] == ' ';
    }
  }

  lemma NamedIsVersionText(line: string, text: string, parts: seq<nat>)
    requires NamesVersion(line, text, parts)
    ensures VersionText(line) == Some(text) && ParseParts(text, 4) == Some(parts)
  {
    DottedBeginsWithDigit(text, parts);
    DottedIsParsed(text, parts, 4);
    if line == MAGIC + " " + text {
      Assoc(MAGIC, " ", text);
      assert "" + (" " + text) == " " + text;
      VersionTextAfter(line, " " + text, "", text);
    } else if line == MAGIC + " Version " + text {
      WordIs(MAGIC, SPACE_VERSION, " Version ", text);
      VersionTextAfter(line, SPACE_VERSION + (" " + text), SPACE_VERSION, text);
    } else {
      WordIs(MAGIC, COMMA_VERSION, ", Version ", text);
      VersionTextAfter(line, COMMA_VERSION + (" " + text), COMMA_VERSION, text);
    }
  }

  lemma WordIs(magic: string, word: string, spaced: string, text: string)
    requires spaced == word + " "
    ensures magic + spaced + text == magic + (word + (" " + text))
  {
    assert word + (" " + text) == spaced + text;
  }

  lemma VersionTextSplits(line: string) returns (rest: string, word: string)
    requires VersionText(line).Some?
    ensures line == MAGIC + rest && (word == "" || word == SPACE_VERSION || word == COMMA_VERSION)
    ensures word <= rest && rest[|word|..] != "" && rest[|word|..][0] == ' ' && VersionText(line).value == rest[|word|..][1..]
  {
    rest := line[|MAGIC|..];
    word := if StartsWith(rest, COMMA_VERSION) then COMMA_VERSION else if StartsWith(rest, SPACE_VERSION) then SPACE_VERSION else "";
  }

  lemma RestIs(rest: string, word: string, text: string)
    requires word <= rest && rest[|word|..] != "" && rest[|word|..][0] == ' ' && text == rest[|word|..][1..]
    ensures rest == word + (" " + text)
  {
    assert " " + text == rest[|word|..];
  }

  lemma WordIsNamed(line: string, rest: string, word: string, text: string)
    requires line == MAGIC + rest && rest == word + (" " + text)
    requires word == "" || word == SPACE_VERSION || word == COMMA_VERSION
    ensures line == MAGIC + " " + text || line == MAGIC + " Version " + text || line == MAGIC + ", Version " + text
  {
    if word == "" {
      assert "" + (" " + text) == " " + text;
      Assoc(MAGIC, " ", text);
    } else if word == SPACE_VERSION {
      WordIs(MAGIC, SPACE_VERSION, " Version ", text);
    } else {
      WordIs(MAGIC, COMMA_VERSION, ", Version ", text);
    }
  }

  lemma VersionTextIsNamed(line: string, text: string, parts: seq<nat>)
    requires VersionText(line) == Some(text) && ParseParts(text, 4) == Some(parts)
    ensures NamesVersion(line, text, parts)
  {
    var rest, word := VersionTextSplits(line);
    RestIs(rest, word, text);
    WordIsNamed(line, rest, word, text);
    ParsedIsDotted(text, 4);
  }

  // ---------------------------------------------------------------- the bytes after the line

  /** The first block: a length from 6 to 30 in its low byte, and as many printable characters. */
  predicate HasBlock(bytes: Bytes, at: nat) {
    && at + 4 <= |bytes| && 6 <= bytes[at] <= 30 && bytes[at + 1] == 0 && bytes[at + 2] == 0 && bytes[at + 3] == 0
    && at + 4 + bytes[at] <= |bytes| && forall i :: at + 4 <= i < at + 4 + bytes[at] ==> ' ' as int <= bytes[i] <= '~' as int
  }

  /** The version in reverse, and either no blocks or a first block. */
  predicate HasFields(bytes: Bytes, at: nat, parts: seq<nat>)
    requires |parts| == 4
  {
    && at + 8 <= |bytes| && bytes[at..at + 4] == [parts[3], parts[2], parts[1], parts[0]]
    && (bytes[at + 4..at + 8] == [0, 0, 0, 0] || HasBlock(bytes, at + 8))
  }

  lemma LittleEndianIs(bytes: Bytes, at: nat)
    requires at + 4 <= |bytes|
    ensures LittleEndian(bytes, at) == 0 <==> bytes[at..at + 4] == [0, 0, 0, 0]
    ensures LittleEndian(bytes, at) <= 255 <==> bytes[at + 1] == 0 && bytes[at + 2] == 0 && bytes[at + 3] == 0
    ensures LittleEndian(bytes, at) <= 255 ==> LittleEndian(bytes, at) == bytes[at]
  {
    assert bytes[at..at + 4] == [bytes[at], bytes[at + 1], bytes[at + 2], bytes[at + 3]];
  }

  lemma BlockIff(bytes: Bytes, at: nat, observed: Observed)
    requires !observed.status.FieldsObserved?
    ensures DecodeBlock(bytes, at, observed).status.FieldsObserved? <==> HasBlock(bytes, at)
    ensures HasBlock(bytes, at) ==>
              DecodeBlock(bytes, at, observed).block ==
              Some(Block(at + 4, bytes[at], Text(bytes[at + 4..at + 4 + bytes[at]]), at + 4 + bytes[at]))
  {
    if at + 4 <= |bytes| {
      LittleEndianIs(bytes, at);
    }
  }

  lemma FieldsIff(bytes: Bytes, at: nat, parts: seq<nat>, observed: Observed)
    requires !observed.status.FieldsObserved? && |parts| == 4 && !SomeTooLarge(parts)
    ensures DecodeFields(bytes, at, parts, observed).status.FieldsObserved? <==> HasFields(bytes, at, parts)
  {
    if at + 8 <= |bytes| {
      VersionIsReversedIff(bytes, at, parts);
      LittleEndianIs(bytes, at + 4);
      var version, count := ReadField(bytes, at), ReadField(bytes, at + 4);
      BlockIff(bytes, at + 8, observed.(binaryVersion := Some(version), numBlocks := Some(count)));
    }
  }

  // ---------------------------------------------------------------- acceptance

  /** A line that names a version 4.x within bytes, followed by the fields that go with it. */
  ghost predicate IsHeader(bytes: Bytes, newline: nat, text: string, parts: seq<nat>)
    requires newline < |bytes|
  {
    && NamesVersion(LineOf(bytes, newline), text, parts) && (forall i :: 0 <= i < 4 ==> parts[i] <= 255)
    && parts[0] == 4 && HasFields(bytes, newline + 1, parts)
  }

  lemma NewlineIs(bytes: Bytes, newline: nat)
    requires newline < |bytes| && newline < 160 && bytes[newline] == 10 && forall k :: 0 <= k < newline ==> bytes[k] != 10
    ensures Newline(bytes, 0) == Some(newline)
  {
    var r := Newline(bytes, 0);
    assert r.Some?;
    assert r.value <= newline;
  }

  lemma HeaderIsAccepted(bytes: Bytes, newline: nat, text: string, parts: seq<nat>)
    requires newline < |bytes| && IsHeader(bytes, newline, text, parts)
    ensures DecodeLine(bytes, newline).status.FieldsObserved?
  {
    var line := LineOf(bytes, newline);
    NamedIsVersionText(line, text, parts);
    FieldsIff(bytes, newline + 1, parts, BLANK.(headerLine := Some(line), asciiVersion := Some(text)));
  }

  lemma AcceptedIsHeader(bytes: Bytes, newline: nat) returns (text: string, parts: seq<nat>)
    requires newline < |bytes| && DecodeLine(bytes, newline).status.FieldsObserved?
    ensures IsHeader(bytes, newline, text, parts)
  {
    var line := LineOf(bytes, newline);
    text := VersionText(line).value;
    parts := ParseParts(text, 4).value;
    VersionTextIsNamed(line, text, parts);
    FieldsIff(bytes, newline + 1, parts, BLANK.(headerLine := Some(line), asciiVersion := Some(text)));
  }

  /** Bytes that begin with the magic text are accepted exactly if their first line and what follows it are a header. */
  lemma AcceptedIff(bytes: Bytes, newline: nat)
    requires HasMagic(bytes) && newline < |bytes| && newline < 160
    requires bytes[newline] == 10 && forall k :: 0 <= k < newline ==> bytes[k] != 10
    ensures Decode(bytes, 0).Some?
    ensures Decode(bytes, 0).value.status.FieldsObserved? <==> exists text, parts :: IsHeader(bytes, newline, text, parts)
  {
    NewlineIs(bytes, newline);
    assert Decode(bytes, 0) == Some(DecodeLine(bytes, newline));
    if DecodeLine(bytes, newline).status.FieldsObserved? {
      var text, parts := AcceptedIsHeader(bytes, newline);
    }
    if text, parts :| IsHeader(bytes, newline, text, parts) {
      HeaderIsAccepted(bytes, newline, text, parts);
    }
  }

  /** Without a newline in the first 160 bytes, or as many as there are, 160 are asked for. */
  lemma NoLineAsks(bytes: Bytes)
    requires HasMagic(bytes) && forall k :: 0 <= k < |bytes| && k < 160 ==> bytes[k] != 10
    ensures Decode(bytes, 0).Some? && Decode(bytes, 0).value.required == Some(160)
  {
  }
}
