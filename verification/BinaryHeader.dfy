/**
 Decoding the header of a NetImmerse 4.x file from a prefix of its bytes.

 The decoder reads a text line with the version, the version and block count in binary, and the name of
 the first block.  When the prefix is too short it says how many bytes it wants.
 */
module BinaryHeader {
  import opened Common
  import opened Numerals

  type Byte = b: int | 0 <= b < 256

  type Bytes = seq<Byte>

  const MAGIC: string := "NetImmerse File Format"
  const LINE_MAX: nat := 160
  const NEWLINE: Byte := 10

  datatype Status = FieldsObserved | NeedMoreBytes | UnsupportedVersion | InvalidHeader

  datatype Field = Field(offset: nat, size: nat, value: nat, raw: Bytes)

  datatype Block = Block(typeOffset: nat, typeLength: nat, name: string, payloadOffset: nat)

  datatype Observed = Observed(status: Status, headerLine: Option<string>, asciiVersion: Option<string>,
                               binaryVersion: Option<Field>, numBlocks: Option<Field>, typeLength: Option<Field>,
                               block: Option<Block>, required: Option<nat>)

  const BLANK := Observed(NeedMoreBytes, None, None, None, None, None, None, None)

  // ---------------------------------------------------------------- text and numbers

  predicate HasMagic(bytes: Bytes) {
    |bytes| >= |MAGIC| && forall i :: 0 <= i < |MAGIC| ==> bytes[i] == MAGIC[i] as int
  }

  /** Reading bytes as ASCII drops the high bit. */
  function Text(bytes: Bytes): string {
    seq(|bytes|, i requires 0 <= i < |bytes| => (bytes[i] % 128) as char)
  }

  /** Position of the first newline at or after `from`, within the longest line allowed. */
  function Newline(bytes: Bytes, from: nat): (r: Option<nat>)
    ensures r.Some? ==> from <= r.value < |bytes| && r.value < LINE_MAX && bytes[r.value] == NEWLINE
    ensures r.Some? ==> forall k :: from <= k < r.value ==> bytes[k] != NEWLINE
    ensures r.None? ==> forall k :: from <= k < |bytes| && k < LINE_MAX ==> bytes[k] != NEWLINE
    decreases |bytes| - from
  {
    if from >= |bytes| || from >= LINE_MAX then None
    else if bytes[from] == NEWLINE then Some(from)
    else Newline(bytes, from + 1)
  }

  function StripReturn(s: string): string {
    if s != "" && s[|s| - 1] == '\r' then s[..|s| - 1] else s
  }

  const COMMA_VERSION: string := ", Version"
  const SPACE_VERSION: string := " Version"

  /** What follows the optional word `Version` and a space. */
  function VersionText(line: string): Option<string> {
    if !StartsWith(line, MAGIC) then None else
    var rest := line[|MAGIC|..];
    var rest := if StartsWith(rest, COMMA_VERSION) then rest[|COMMA_VERSION|..]
                else if StartsWith(rest, SPACE_VERSION) then rest[|SPACE_VERSION|..] else rest;
    if rest != "" && rest[0] == ' ' then Some(rest[1..]) else None
  }

  function LeadingDigits(s: string): (n: nat)
    ensures n <= |s| && AllDigits(s[..n])
    ensures n < |s| ==> !IsDigit(s[n])
  {
    if s == "" || !IsDigit(s[0]) then 0 else
    var n := LeadingDigits(s[1..]);
    assert s[..n + 1] == [s[0]] + s[1..][..n];
    n + 1
  }

  /** `n` numbers of one to three digits, separated by dots, and nothing else. */
  function ParseParts(s: string, n: nat): (r: Option<seq<nat>>)
    ensures r.Some? ==> |r.value| == n
    decreases n
  {
    if n == 0 then None else
    var k := LeadingDigits(s);
    if !(1 <= k <= 3) then None else
    var value := NumeralValue(s[..k]);
    if n == 1 then (if k == |s| then Some([value]) else None)
    else if k == |s| || s[k] != '.' then None
    else
      var rest := ParseParts(s[k + 1..], n - 1);
      if rest.Some? then Some([value] + rest.value) else None
  }

  function LittleEndian(bytes: Bytes, at: nat): nat
    requires at + 4 <= |bytes|
  {
    var b0: int, b1: int, b2: int, b3: int := bytes[at], bytes[at + 1], bytes[at + 2], bytes[at + 3];
    b0 + 0x100 * b1 + 0x1_0000 * b2 + 0x100_0000 * b3
  }

  function Expected(parts: seq<nat>): nat
    requires |parts| == 4
  {
    parts[0] * 0x100_0000 + parts[1] * 0x1_0000 + parts[2] * 0x100 + parts[3]
  }

  predicate SomeTooLarge(parts: seq<nat>) {
    exists i :: 0 <= i < |parts| && parts[i] > 255
  }

  predicate Printable(b: Byte) {
    32 <= b <= 126
  }

  function ReadField(bytes: Bytes, at: nat): Field
    requires at + 4 <= |bytes|
  {
    Field(at, 4, LittleEndian(bytes, at), bytes[at..at + 4])
  }

  // ---------------------------------------------------------------- decoding

  /** The length and name of the first block. */
  function DecodeBlock(bytes: Bytes, at: nat, observed: Observed): Observed {
    if |bytes| < at + 4 then observed.(required := Some(at + 4)) else
    var length := ReadField(bytes, at);
    var seen := observed.(typeLength := Some(length));
    var start, end := at + 4, at + 4 + length.value;
    if length.value < 6 || length.value > 30 then seen.(status := InvalidHeader)
    else if |bytes| < end then seen.(required := Some(end))
    else if exists i :: start <= i < end && !Printable(bytes[i]) then seen.(status := InvalidHeader)
    else seen.(status := FieldsObserved, block := Some(Block(start, length.value, Text(bytes[start..end]), end)))
  }

  /** The binary version, which must agree with the text, and the block count. */
  function DecodeFields(bytes: Bytes, at: nat, parts: seq<nat>, observed: Observed): Observed
    requires |parts| == 4
  {
    if |bytes| < at + 8 then observed.(required := Some(at + 8)) else
    var seen := observed.(binaryVersion := Some(ReadField(bytes, at)), numBlocks := Some(ReadField(bytes, at + 4)));
    if LittleEndian(bytes, at) != Expected(parts) then seen.(status := InvalidHeader)
    else if LittleEndian(bytes, at + 4) == 0 then seen.(status := FieldsObserved)
    else DecodeBlock(bytes, at + 8, seen)
  }

  function LineOf(bytes: Bytes, newline: nat): string
    requires newline < |bytes|
  {
    StripReturn(Text(bytes[..newline]))
  }

  function DecodeLine(bytes: Bytes, newline: nat): Observed
    requires newline < |bytes|
  {
    var line := LineOf(bytes, newline);
    var seen := BLANK.(headerLine := Some(line));
    var text := VersionText(line);
    var parts := if text.Some? then ParseParts(text.value, 4) else None;
    if parts.None? || SomeTooLarge(parts.value) then seen.(status := InvalidHeader) else
    var known := seen.(asciiVersion := text);
    if parts.value[0] != 4 then known.(status := UnsupportedVersion)
    else DecodeFields(bytes, newline + 1, parts.value, known)
  }

  function Decode(bytes: Bytes, offset: int): Option<Observed> {
    if offset != 0 || !HasMagic(bytes) then None else
    var newline := Newline(bytes, 0);
    if newline.None? then Some(BLANK.(required := Some(LINE_MAX))) else Some(DecodeLine(bytes, newline.value))
  }

  method FindNewline(bytes: Bytes) returns (newline: Option<nat>)
    ensures newline == Newline(bytes, 0)
  {
    var i := 0;
    while i < |bytes| && i < LINE_MAX
      invariant i <= |bytes| && Newline(bytes, 0) == Newline(bytes, i)
    {
      if bytes[i] == NEWLINE {
        return Some(i);
      }
      i := i + 1;
    }
    return None;
  }

  /** One record is filled in as far as the bytes go: first the line. */
  method DecodeKnownBinaryHeader(bytes: Bytes, offset: int) returns (result: Option<Observed>)
    ensures result == Decode(bytes, offset)
  {
    if offset != 0 || !HasMagic(bytes) {
      return None;
    }
    var observed := BLANK;
    var newline := FindNewline(bytes);
    if newline.None? {
      observed := observed.(required := Some(LINE_MAX));
      return Some(observed);
    }
    observed := FillLine(bytes, newline.value);
    return Some(observed);
  }

  method FillLine(bytes: Bytes, newline: nat) returns (observed: Observed)
    requires newline < |bytes|
    ensures observed == DecodeLine(bytes, newline)
  {
    observed := BLANK;
    var line := LineOf(bytes, newline);
    observed := observed.(headerLine := Some(line));
    var text := VersionText(line);
    var parts := if text.Some? then ParseParts(text.value, 4) else None;
    if parts.None? || SomeTooLarge(parts.value) {
      observed := observed.(status := InvalidHeader);
      return;
    }
    observed := observed.(asciiVersion := text);
    if parts.value[0] != 4 {
      observed := observed.(status := UnsupportedVersion);
      return;
    }
    observed := FillFields(bytes, newline + 1, parts.value, observed);
  }

  method FillFields(bytes: Bytes, versionAt: nat, parts: seq<nat>, line: Observed) returns (observed: Observed)
    requires |parts| == 4
    ensures observed == DecodeFields(bytes, versionAt, parts, line)
  {
    observed := line;
    var countAt, firstTypeAt := versionAt + 4, versionAt + 8;
    if |bytes| < firstTypeAt {
      observed := observed.(required := Some(firstTypeAt));
      return;
    }
    var version, count := ReadField(bytes, versionAt), ReadField(bytes, countAt);
    observed := observed.(binaryVersion := Some(version), numBlocks := Some(count));
    if version.value != Expected(parts) {
      observed := observed.(status := InvalidHeader);
      return;
    }
    if count.value == 0 {
      observed := observed.(status := FieldsObserved);
      return;
    }
    observed := FillBlock(bytes, firstTypeAt, observed);
  }

  method FillBlock(bytes: Bytes, firstTypeAt: nat, fields: Observed) returns (observed: Observed)
    ensures observed == DecodeBlock(bytes, firstTypeAt, fields)
  {
    observed := fields;
    if |bytes| < firstTypeAt + 4 {
      observed := observed.(required := Some(firstTypeAt + 4));
      return;
    }
    var length := ReadField(bytes, firstTypeAt);
    observed := observed.(typeLength := Some(length));
    if length.value < 6 || length.value > 30 {
      observed := observed.(status := InvalidHeader);
      return;
    }
    var typeAt := firstTypeAt + 4;
    var end := typeAt + length.value;
    if |bytes| < end {
      observed := observed.(required := Some(end));
      return;
    }
    if exists i :: typeAt <= i < end && !Printable(bytes[i]) {
      observed := observed.(status := InvalidHeader);
      return;
    }
    observed := observed.(status := FieldsObserved,
                          block := Some(Block(typeAt, length.value, Text(bytes[typeAt..end]), end)));
  }

  // ---------------------------------------------------------------- the binary version

  /** The binary version agrees with the text exactly when its bytes are the four components in reverse. */
  lemma VersionIsReversedIff(bytes: Bytes, at: nat, parts: seq<nat>)
    requires at + 4 <= |bytes| && |parts| == 4 && !SomeTooLarge(parts)
    ensures LittleEndian(bytes, at) == Expected(parts) <==>
            bytes[at..at + 4] == [parts[3], parts[2], parts[1], parts[0]]
  {
    assert parts[0] <= 255 && parts[1] <= 255 && parts[2] <= 255 && parts[3] <= 255;
    var raw := bytes[at..at + 4];
    assert raw == [bytes[at], bytes[at + 1], bytes[at + 2], bytes[at + 3]];
    if LittleEndian(bytes, at) == Expected(parts) {
      assert bytes[at] == parts[3];
      assert bytes[at + 1] == parts[2];
      assert bytes[at + 2] == parts[1];
      assert bytes[at + 3] == parts[0];
    }
  }

  // ---------------------------------------------------------------- more bytes

  lemma SameField(bytes: Bytes, more: Bytes, at: nat)
    requires at + 4 <= |bytes|
    ensures ReadField(bytes + more, at) == ReadField(bytes, at)
    ensures LittleEndian(bytes + more, at) == LittleEndian(bytes, at)
  {
    assert (bytes + more)[at..at + 4] == bytes[at..at + 4];
  }

  /** `after` is what a longer prefix yields: the same, unless more was wanted and has arrived. */
  ghost predicate Refines(before: Observed, after: Observed, length: nat, longer: nat) {
    if before.required.None? then after == before
    else
      var wanted := before.required.value;
      && length < wanted && (after == before <==> longer < wanted)
      && (after.required.Some? && longer >= wanted ==> longer < after.required.value)
  }

  ghost predicate AsksOrAnswers(observed: Observed) {
    observed.status.NeedMoreBytes? <==> observed.required.Some?
  }

  lemma BlockRefines(bytes: Bytes, more: Bytes, at: nat, observed: Observed)
    requires observed.required.None? && observed.status.NeedMoreBytes? && observed.typeLength.None?
    ensures Refines(DecodeBlock(bytes, at, observed), DecodeBlock(bytes + more, at, observed), |bytes|, |bytes + more|)
    ensures AsksOrAnswers(DecodeBlock(bytes, at, observed))
  {
    if |bytes| >= at + 4 {
      SameField(bytes, more, at);
      var end := at + 4 + LittleEndian(bytes, at);
      if |bytes| >= end {
        assert (bytes + more)[at + 4..end] == bytes[at + 4..end];
        assert forall i :: at + 4 <= i < end ==> (bytes + more)[i] == bytes[i];
      }
    }
  }

  lemma FieldsRefine(bytes: Bytes, more: Bytes, at: nat, parts: seq<nat>, observed: Observed)
    requires |parts| == 4 && observed.required.None? && observed.status.NeedMoreBytes?
    requires observed.typeLength.None? && observed.binaryVersion.None?
    ensures Refines(DecodeFields(bytes, at, parts, observed), DecodeFields(bytes + more, at, parts, observed),
                    |bytes|, |bytes + more|)
    ensures AsksOrAnswers(DecodeFields(bytes, at, parts, observed))
  {
    if |bytes| >= at + 8 {
      SameField(bytes, more, at);
      SameField(bytes, more, at + 4);
      var seen := observed.(binaryVersion := Some(ReadField(bytes, at)), numBlocks := Some(ReadField(bytes, at + 4)));
      BlockRefines(bytes, more, at + 8, seen);
    }
  }

  lemma LineRefines(bytes: Bytes, more: Bytes, newline: nat)
    requires newline < |bytes|
    ensures Refines(DecodeLine(bytes, newline), DecodeLine(bytes + more, newline), |bytes|, |bytes + more|)
    ensures AsksOrAnswers(DecodeLine(bytes, newline))
  {
    assert (bytes + more)[..newline] == bytes[..newline];
    var line := LineOf(bytes, newline);
    var text := VersionText(line);
    if text.Some? && ParseParts(text.value, 4).Some? {
      var known := BLANK.(headerLine := Some(line), asciiVersion := text);
      FieldsRefine(bytes, more, newline + 1, ParseParts(text.value, 4).value, known);
    }
  }

  lemma {:induction false} SameNewline(bytes: Bytes, more: Bytes, from: nat)
    requires Newline(bytes, from).Some?
    ensures Newline(bytes + more, from) == Newline(bytes, from)
    decreases |bytes| - from
  {
    if bytes[from] != NEWLINE {
      SameNewline(bytes, more, from + 1);
    }
  }

  /**
   Once the header line is complete, a verdict stands however many bytes follow, and a request for bytes
   asks for more than there are, is repeated until that many are there, and is then settled or raised.
   */
  lemma MoreBytesRefine(bytes: Bytes, more: Bytes)
    requires HasMagic(bytes) && Newline(bytes, 0).Some?
    ensures Decode(bytes, 0).Some? && Decode(bytes + more, 0).Some?
    ensures AsksOrAnswers(Decode(bytes, 0).value)
    ensures Refines(Decode(bytes, 0).value, Decode(bytes + more, 0).value, |bytes|, |bytes + more|)
  {
    SameNewline(bytes, more, 0);
    LineRefines(bytes, more, Newline(bytes, 0).value);
  }

  /** A verdict other than a request for bytes stands, whatever follows. */
  lemma VerdictStands(bytes: Bytes, more: Bytes)
    requires Decode(bytes, 0).Some? && !Decode(bytes, 0).value.status.NeedMoreBytes?
    ensures Decode(bytes + more, 0) == Decode(bytes, 0)
  {
    MoreBytesRefine(bytes, more);
  }

  /** A request asks for bytes not yet there exactly when the header line is complete or fewer than 160 bytes are there. */
  lemma RequestAsksForMoreIff(bytes: Bytes)
    requires Decode(bytes, 0).Some? && Decode(bytes, 0).value.status.NeedMoreBytes?
    ensures Decode(bytes, 0).value.required.Some?
    ensures Decode(bytes, 0).value.required.value > |bytes| <==> Newline(bytes, 0).Some? || |bytes| < LINE_MAX
  {
    if Newline(bytes, 0).Some? {
      MoreBytesRefine(bytes, []);
    }
  }

  /** Without a newline in the first 160 bytes the same request is repeated for ever. */
  lemma LongLineAsksForEver(bytes: Bytes, more: Bytes)
    requires HasMagic(bytes) && |bytes| >= LINE_MAX && Newline(bytes, 0).None?
    ensures Decode(bytes + more, 0) == Decode(bytes, 0) == Some(BLANK.(required := Some(LINE_MAX)))
  {
    var all := bytes + more;
    forall k | 0 <= k < LINE_MAX
      ensures all[k] != NEWLINE
    {
      assert all[k] == bytes[k];
    }
  }

  ghost predicate AgreesWithMagic(bytes: Bytes) {
    forall i :: 0 <= i < |bytes| && i < |MAGIC| ==> bytes[i] == MAGIC[i] as int
  }

  function MagicBytes(n: nat): Bytes
    requires n <= |MAGIC|
  {
    seq(n, i requires 0 <= i < n => Ascii(MAGIC[i]))
  }

  function Ascii(c: char): Byte {
    c as int % 128
  }

  /** Bytes that are no header yet can become one exactly when they are the beginning of the magic text. */
  lemma NoHeaderIsFinalIff(bytes: Bytes)
    requires Decode(bytes, 0).None?
    ensures (forall more: Bytes :: Decode(bytes + more, 0).None?) <==> !AgreesWithMagic(bytes)
  {
    if AgreesWithMagic(bytes) {
      assert |bytes| < |MAGIC|;
      var more: Bytes := MagicBytes(|MAGIC|)[|bytes|..];
      assert HasMagic(bytes + more);
      assert Decode(bytes + more, 0).Some?;
    } else {
      var i :| 0 <= i < |bytes| && i < |MAGIC| && bytes[i] != MAGIC[i] as int;
      forall more: Bytes
        ensures Decode(bytes + more, 0).None?
      {
        assert (bytes + more)[i] == bytes[i];
      }
    }
  }

  // ---------------------------------------------------------------- an encoder the decoder inverts

  datatype Style = Bare | Spaced | Comma

  /** A 4.x header; the name of the first block is written only if there is a block. */
  datatype Header = Header(style: Style, carriageReturn: bool, minor: Byte, patch: Byte, build: Byte, count: nat, name: string)

  predicate IsPrintable(name: string) {
    forall i :: 0 <= i < |name| ==> ' ' <= name[i] <= '~'
  }

  predicate ValidHeader(h: Header) {
    h.count < 0x1_0000_0000 && 6 <= |h.name| <= 30 && IsPrintable(h.name)
  }

  function ToBytes(s: string): Bytes {
    seq(|s|, i requires 0 <= i < |s| => Ascii(s[i]))
  }

  function PrintVersion(parts: seq<nat>): string
    requires |parts| == 4
  {
    Decimal(parts[0]) + "." + (Decimal(parts[1]) + "." + (Decimal(parts[2]) + "." + Decimal(parts[3])))
  }

  function StyleText(style: Style): string {
    match style
    case Bare => ""
    case Spaced => SPACE_VERSION
    case Comma => COMMA_VERSION
  }

  function Parts(h: Header): seq<nat> {
    [4, h.minor, h.patch, h.build]
  }

  function HeaderLine(h: Header): string {
    MAGIC + StyleText(h.style) + " " + PrintVersion(Parts(h))
  }

  function FourBytes(n: nat): (r: Bytes)
    ensures |r| == 4
  {
    [n % 0x100, n / 0x100 % 0x100, n / 0x1_0000 % 0x100, n / 0x100_0000 % 0x100]
  }

  function Written(h: Header): string {
    HeaderLine(h) + if h.carriageReturn then "\r" else ""
  }

  function BlockBytes(h: Header): Bytes {
    if h.count == 0 then [] else FourBytes(|h.name|) + ToBytes(h.name)
  }

  function Tail(h: Header): Bytes {
    [h.build, h.patch, h.minor, 4] + FourBytes(h.count) + BlockBytes(h)
  }

  function Encode(h: Header): Bytes {
    ToBytes(Written(h)) + [NEWLINE] + Tail(h)
  }

  // ---------------------------------------------------------------- the line

  /** Characters of a header line: ASCII and no control characters. */
  predicate PlainText(s: string) {
    forall i :: 0 <= i < |s| ==> ' ' <= s[i] <= '~'
  }

  lemma {:induction false} DigitsArePlain(s: string)
    requires AllDigits(s)
    ensures PlainText(s)
  {
  }

  lemma DecimalOfByte(n: nat)
    requires n <= 255
    ensures 1 <= |Decimal(n)| <= 3 && AllDigits(Decimal(n)) && NumeralValue(Decimal(n)) == n && PlainText(Decimal(n))
  {
    assert n >= 10 ==> |Decimal(n / 10)| <= 2;
    DecimalIsCanonical(n);
    DigitsArePlain(Decimal(n));
  }

  lemma VersionIsPlain(parts: seq<nat>)
    requires |parts| == 4 && !SomeTooLarge(parts)
    ensures PlainText(PrintVersion(parts)) && |PrintVersion(parts)| <= 15 && IsDigit(PrintVersion(parts)[0])
  {
    DecimalOfByte(parts[0]);
    DecimalOfByte(parts[1]);
    DecimalOfByte(parts[2]);
    DecimalOfByte(parts[3]);
    JoinIsPlain(Decimal(parts[2]), Decimal(parts[3]));
    JoinIsPlain(Decimal(parts[1]), Decimal(parts[2]) + "." + Decimal(parts[3]));
    JoinIsPlain(Decimal(parts[0]), Decimal(parts[1]) + "." + (Decimal(parts[2]) + "." + Decimal(parts[3])));
  }

  lemma JoinIsPlain(a: string, b: string)
    requires PlainText(a) && PlainText(b)
    ensures PlainText(a + "." + b)
  {
  }

  lemma {:induction false} LeadingDigitsAre(digits: string, rest: string)
    requires AllDigits(digits) && (rest != "" ==> !IsDigit(rest[0]))
    ensures LeadingDigits(digits + rest) == |digits|
    decreases |digits|
  {
    if digits == "" {
      assert digits + rest == rest;
    } else {
      assert (digits + rest)[1..] == digits[1..] + rest;
      LeadingDigitsAre(digits[1..], rest);
    }
  }

  lemma ParsePrinted(parts: seq<nat>, first: string, printed: string)
    requires |parts| > 1 && Spells(first, parts[0]) && ParseParts(printed, |parts| - 1) == Some(parts[1..])
    ensures ParseParts(first + "." + printed, |parts|) == Some(parts)
  {
    ParseFirst(first, printed, |parts|);
    assert [parts[0]] + parts[1..] == parts;
  }

  lemma ParseLast(last: string)
    requires AllDigits(last) && 1 <= |last| <= 3
    ensures ParseParts(last, 1) == Some([NumeralValue(last)])
  {
    LeadingDigitsAre(last, "");
    assert last + "" == last && last[..|last|] == last;
  }

  lemma ParseFirst(first: string, printed: string, n: nat)
    requires AllDigits(first) && 1 <= |first| <= 3 && n >= 2
    ensures ParseParts(first + "." + printed, n) ==
            var rest := ParseParts(printed, n - 1);
            if rest.Some? then Some([NumeralValue(first)] + rest.value) else None
  {
    var s := first + "." + printed;
    assert s == first + ("." + printed);
    LeadingDigitsAre(first, "." + printed);
    assert s[..|first|] == first && s[|first| + 1..] == printed;
  }

  /** Reading the printed version gives its components. */
  lemma ParseInvertsPrint(parts: seq<nat>)
    requires |parts| == 4 && !SomeTooLarge(parts)
    ensures ParseParts(PrintVersion(parts), 4) == Some(parts)
  {
    DecimalOfByte(parts[0]);
    DecimalOfByte(parts[1]);
    DecimalOfByte(parts[2]);
    DecimalOfByte(parts[3]);
    ParseFour(parts, Decimal(parts[0]), Decimal(parts[1]), Decimal(parts[2]), Decimal(parts[3]));
  }

  predicate Spells(s: string, n: nat) {
    1 <= |s| <= 3 && AllDigits(s) && NumeralValue(s) == n
  }

  lemma ParseTwo(parts: seq<nat>, a: string, b: string)
    requires |parts| == 2 && Spells(a, parts[0]) && Spells(b, parts[1])
    ensures ParseParts(a + "." + b, 2) == Some(parts)
  {
    ParseLast(b);
    assert [parts[1]] == parts[1..];
    ParsePrinted(parts, a, b);
  }

  lemma ParseThree(parts: seq<nat>, a: string, b: string, c: string)
    requires |parts| == 3 && Spells(a, parts[0]) && Spells(b, parts[1]) && Spells(c, parts[2])
    ensures ParseParts(a + "." + (b + "." + c), 3) == Some(parts)
  {
    ParseTwo(parts[1..], b, c);
    ParsePrinted(parts, a, b + "." + c);
  }

  lemma ParseFour(parts: seq<nat>, a: string, b: string, c: string, d: string)
    requires |parts| == 4 && Spells(a, parts[0]) && Spells(b, parts[1]) && Spells(c, parts[2]) && Spells(d, parts[3])
    ensures ParseParts(a + "." + (b + "." + (c + "." + d)), 4) == Some(parts)
  {
    ParseThree(parts[1..], b, c, d);
    ParsePrinted(parts, a, b + "." + (c + "." + d));
  }

  lemma VersionTextAfter(style: Style, text: string)
    requires text != "" && IsDigit(text[0])
    ensures VersionText(MAGIC + StyleText(style) + " " + text) == Some(text)
  {
    var word, version := StyleText(style), " " + text;
    var line := MAGIC + word + " " + text;
    assert line[|MAGIC|..] == word + version && (word + version)[|word|..] == version && version[1..] == text;
    match style
    case Bare =>
      assert word + version == version;
      assert version[1] != SPACE_VERSION[1] && version[0] != COMMA_VERSION[0];
    case Spaced =>
      assert (word + version)[0] != COMMA_VERSION[0];
    case Comma =>
  }

  lemma VersionTextOf(h: Header)
    ensures VersionText(HeaderLine(h)) == Some(PrintVersion(Parts(h)))
  {
    VersionIsPlain(Parts(h));
    VersionTextAfter(h.style, PrintVersion(Parts(h)));
  }

  // ---------------------------------------------------------------- the bytes

  lemma TextInvertsBytes(s: string)
    requires forall i :: 0 <= i < |s| ==> s[i] as int < 128
    ensures Text(ToBytes(s)) == s
  {
  }

  lemma {:induction false} NewlineAt(bytes: Bytes, from: nat, n: nat)
    requires from <= n < |bytes| && n < LINE_MAX && bytes[n] == NEWLINE
    requires forall k :: from <= k < n ==> bytes[k] != NEWLINE
    ensures Newline(bytes, from) == Some(n)
  {
  }

  lemma FourBytesRead(n: nat)
    requires n < 0x1_0000_0000
    ensures LittleEndian(FourBytes(n), 0) == n
  {
    var a, b, c := n / 0x100, n / 0x1_0000, n / 0x100_0000;
    assert n == a * 0x100 + n % 0x100;
    assert a == b * 0x100 + a % 0x100;
    assert b == c * 0x100 + b % 0x100;
    assert c % 0x100 == c;
  }

  lemma FieldAt(before: Bytes, four: Bytes, after: Bytes)
    requires |four| == 4
    ensures LittleEndian(before + four + after, |before|) == LittleEndian(four, 0)
    ensures (before + four + after)[|before|..|before| + 4] == four
  {
  }

  lemma LineIsPlain(h: Header)
    ensures PlainText(HeaderLine(h)) && |MAGIC| <= |HeaderLine(h)| <= 60
  {
    VersionIsPlain(Parts(h));
    assert PlainText(MAGIC) && PlainText(StyleText(h.style));
  }

  lemma WrittenIsAscii(h: Header)
    ensures |MAGIC| <= |Written(h)| <= 61
    ensures forall k :: 0 <= k < |Written(h)| ==> Written(h)[k] as int < 128 && Written(h)[k] as int != NEWLINE
    ensures Written(h)[..|MAGIC|] == MAGIC && StripReturn(Written(h)) == HeaderLine(h)
  {
    LineIsPlain(h);
    var line, plain := Written(h), HeaderLine(h);
    if h.carriageReturn {
      assert line == plain + "\r" && line[..|line| - 1] == plain;
    } else {
      assert line == plain;
    }
  }

  /** The decoder finds the line the encoder wrote. */
  lemma FindsLine(line: string, tail: Bytes)
    requires |MAGIC| <= |line| < LINE_MAX && line[..|MAGIC|] == MAGIC
    requires forall k :: 0 <= k < |line| ==> line[k] as int < 128 && line[k] as int != NEWLINE
    ensures var bytes := ToBytes(line) + [NEWLINE] + tail;
            && HasMagic(bytes) && Newline(bytes, 0) == Some(|line|) && LineOf(bytes, |line|) == StripReturn(line)
  {
    var bytes := ToBytes(line) + [NEWLINE] + tail;
    forall k | 0 <= k < |line|
      ensures bytes[k] == line[k] as int
    {
      assert bytes[k] == ToBytes(line)[k];
    }
    NewlineAt(bytes, 0, |line|);
    assert bytes[..|line|] == ToBytes(line);
    TextInvertsBytes(line);
    forall k | 0 <= k < |MAGIC|
      ensures bytes[k] == MAGIC[k] as int
    {
      assert line[..|MAGIC|][k] == line[k];
    }
  }

  lemma DecodesBlock(before: Bytes, name: string, more: Bytes, observed: Observed)
    requires 6 <= |name| <= 30 && IsPrintable(name)
    ensures var bytes := before + FourBytes(|name|) + (ToBytes(name) + more);
            var at := |before|;
            DecodeBlock(bytes, at, observed) ==
            observed.(typeLength := Some(Field(at, 4, |name|, FourBytes(|name|))), status := FieldsObserved,
                      block := Some(Block(at + 4, |name|, name, at + 4 + |name|)))
  {
    var after := ToBytes(name) + more;
    var bytes := before + FourBytes(|name|) + after;
    FieldAt(before, FourBytes(|name|), after);
    FourBytesRead(|name|);
    var start, end := |before| + 4, |before| + 4 + |name|;
    assert bytes[start..end] == ToBytes(name);
    TextInvertsBytes(name);
    forall i | start <= i < end
      ensures Printable(bytes[i])
    {
      assert bytes[i] == ToBytes(name)[i - start];
    }
  }

  lemma FieldsOf(before: Bytes, h: Header, more: Bytes)
    requires ValidHeader(h)
    ensures var bytes := before + Tail(h) + more;
            && |bytes| >= |before| + 8
            && ReadField(bytes, |before|) == Field(|before|, 4, Expected(Parts(h)), [h.build, h.patch, h.minor, 4])
            && ReadField(bytes, |before| + 4) == Field(|before| + 4, 4, h.count, FourBytes(h.count))
            && bytes == before + [h.build, h.patch, h.minor, 4] + FourBytes(h.count) + (BlockBytes(h) + more)
  {
    var version: Bytes := [h.build, h.patch, h.minor, 4];
    var bytes := before + Tail(h) + more;
    assert bytes == before + version + (FourBytes(h.count) + BlockBytes(h) + more);
    FieldAt(before, version, FourBytes(h.count) + BlockBytes(h) + more);
    assert bytes == (before + version) + FourBytes(h.count) + (BlockBytes(h) + more);
    FieldAt(before + version, FourBytes(h.count), BlockBytes(h) + more);
    FourBytesRead(h.count);
  }

  ghost predicate BlockReads(name: string, block: Block, length: nat) {
    block.name == name && block.typeLength == |name| && block.typeOffset + |name| == length && block.payloadOffset == length
  }

  /** The observations that give back a header encoded in `length` bytes. */
  ghost predicate Reads(h: Header, o: Observed, length: nat) {
    && o.status == FieldsObserved && o.required == None
    && o.headerLine == Some(HeaderLine(h)) && o.asciiVersion == Some(PrintVersion(Parts(h)))
    && o.binaryVersion.Some? && o.binaryVersion.value.value == Expected(Parts(h))
    && o.numBlocks.Some? && o.numBlocks.value.value == h.count
    && (h.count == 0 ==> o.block == None)
    && (h.count > 0 ==> o.block.Some? && BlockReads(h.name, o.block.value, length))
  }

  function LineSeen(h: Header): Observed {
    BLANK.(headerLine := Some(HeaderLine(h)), asciiVersion := Some(PrintVersion(Parts(h))))
  }

  lemma DecodesFields(before: Bytes, h: Header, more: Bytes)
    requires ValidHeader(h)
    ensures Reads(h, DecodeFields(before + Tail(h) + more, |before|, Parts(h), LineSeen(h)), |before| + |Tail(h)|)
  {
    FieldsOf(before, h, more);
    if h.count > 0 {
      var bytes := before + Tail(h) + more;
      var start := before + [h.build, h.patch, h.minor, 4] + FourBytes(h.count);
      assert bytes == start + FourBytes(|h.name|) + (ToBytes(h.name) + more);
      var seen := LineSeen(h).(binaryVersion := Some(ReadField(bytes, |before|)),
                               numBlocks := Some(ReadField(bytes, |before| + 4)));
      DecodesBlock(start, h.name, more, seen);
    }
  }

  lemma DecodesLine(bytes: Bytes, newline: nat, text: string, parts: seq<nat>)
    requires HasMagic(bytes) && Newline(bytes, 0) == Some(newline)
    requires VersionText(LineOf(bytes, newline)) == Some(text) && ParseParts(text, 4) == Some(parts)
    requires parts[0] == 4 && !SomeTooLarge(parts)
    ensures Decode(bytes, 0) ==
            Some(DecodeFields(bytes, newline + 1, parts,
                              BLANK.(headerLine := Some(LineOf(bytes, newline)), asciiVersion := Some(text))))
  {
  }

  lemma EncodedLine(h: Header, tail: Bytes)
    ensures var bytes := ToBytes(Written(h)) + [NEWLINE] + tail;
            && HasMagic(bytes) && Newline(bytes, 0) == Some(|Written(h)|)
            && LineOf(bytes, |Written(h)|) == HeaderLine(h)
  {
    WrittenIsAscii(h);
    FindsLine(Written(h), tail);
  }

  /** `bytes` begin with the line of the header, newline included, of `length` bytes. */
  ghost predicate BeginsWithLine(h: Header, bytes: Bytes, length: nat) {
    && 0 < length <= |bytes| && HasMagic(bytes)
    && Newline(bytes, 0) == Some(length - 1) && LineOf(bytes, length - 1) == HeaderLine(h)
  }

  lemma DecodesTo(h: Header, bytes: Bytes, length: nat)
    requires BeginsWithLine(h, bytes, length)
    ensures Decode(bytes, 0) == Some(DecodeFields(bytes, length, Parts(h), LineSeen(h)))
  {
    VersionTextOf(h);
    ParseInvertsPrint(Parts(h));
    DecodesLine(bytes, length - 1, PrintVersion(Parts(h)), Parts(h));
  }

  lemma DecodesAll(h: Header, line: Bytes, more: Bytes)
    requires ValidHeader(h) && BeginsWithLine(h, line + Tail(h) + more, |line|)
    ensures var result := Decode(line + Tail(h) + more, 0);
            result.Some? && Reads(h, result.value, |line| + |Tail(h)|)
  {
    DecodesTo(h, line + Tail(h) + more, |line|);
    DecodesFields(line, h, more);
  }

  lemma EncodedIs(h: Header, line: Bytes, more: Bytes)
    requires line == ToBytes(Written(h)) + [NEWLINE]
    ensures Encode(h) + more == line + Tail(h) + more && line + Tail(h) + more == line + (Tail(h) + more)
    ensures |Encode(h)| == |line| + |Tail(h)| && |line| == |Written(h)| + 1
  {
  }

  /** Decoding inverts encoding for every 4.x version, block count and printable name, whatever bytes follow. */
  lemma DecodeInvertsEncode(h: Header, more: Bytes)
    requires ValidHeader(h)
    ensures Decode(Encode(h) + more, 0).Some? && Reads(h, Decode(Encode(h) + more, 0).value, |Encode(h)|)
  {
    var line := ToBytes(Written(h)) + [NEWLINE];
    EncodedIs(h, line, more);
    EncodedLine(h, Tail(h) + more);
    DecodesAll(h, line, more);
  }
}
