/**
 Tool arguments: values from a model are coerced to the tool's schema, unknown ones dropped, and the rest
 validated.  A dispatch prepares its arguments again after an approval that edits them and after the write
 hook, so coercing twice must be coercing once.

 JSON text, numerals and trimming are a `Host`; `Sound` is what coercion relies on.
 */
module ToolArgs {
  import opened Common

  datatype Json =
    | Null
    | Bool(b: bool)
    | Num(n: real)
    | Str(s: string)
    | Arr(items: seq<Json>)
    | Obj(fields: map<string, Json>)

  /** The `type` of a schema; a name that is no JSON type fits no value. */
  datatype Kind = AString | ANumber | AnInteger | ABoolean | AnObject | AnArray | Unknown

  datatype Property = Property(name: string, schema: Schema)

  datatype Properties = Properties(list: seq<Property>)

  datatype Schema = Schema(kind: Option<Kind>, oneOf: Option<seq<Json>>, minimum: Option<real>, maximum: Option<real>,
                           minLength: Option<nat>, maxLength: Option<nat>, items: Option<Schema>,
                           properties: Option<Properties>, required: seq<string>, closed: bool, anyOf: seq<Schema>)

  /** `parse` reads JSON text, `show` prints a number, `number` reads a trimmed numeral. */
  datatype Host = Host(parse: string -> Option<Json>, show: real -> string, number: string -> Option<real>,
                       trim: string -> string)

  predicate Whole(n: real) {
    n == n.Floor as real
  }

  /** `Math.trunc` rounds towards zero. */
  function Trunc(n: real): real {
    if n >= 0.0 then n.Floor as real else -((-n).Floor as real)
  }

  lemma TruncIsWhole(n: real)
    ensures Whole(Trunc(n)) && Trunc(Trunc(n)) == Trunc(n) && (Whole(n) ==> Trunc(n) == n)
  {
    if n < 0.0 {
      var k := (-n).Floor;
      assert (-(k as real)).Floor == -k && (k as real).Floor == k;
      if Whole(n) {
        assert (-(n.Floor as real)).Floor == -n.Floor;
      }
    }
  }

  // ---------------------------------------------------------------- validation

  /** Whether `typeof` gives the schema's type; null is an object there, and a whole number an integer. */
  predicate HasKind(v: Json, kind: Kind) {
    match kind
    case AString => v.Str?
    case ANumber => v.Num?
    case AnInteger => v.Num? && Whole(v.n)
    case ABoolean => v.Bool?
    case AnObject => v.Obj? || v.Null?
    case AnArray => v.Arr?
    case Unknown => false
  }

  /** Objects and arrays are compared by identity, so an enumeration never lists them. */
  predicate Listed(v: Json, values: seq<Json>) {
    !v.Arr? && !v.Obj? && v in values
  }

  predicate InLimits(v: Json, s: Schema) {
    && (s.oneOf.Some? ==> Listed(v, s.oneOf.value))
    && (v.Num? && s.minimum.Some? ==> v.n >= s.minimum.value)
    && (v.Num? && s.maximum.Some? ==> v.n <= s.maximum.value)
    && (v.Str? && s.minLength.Some? ==> |v.s| >= s.minLength.value)
    && (v.Str? && s.maxLength.Some? ==> |v.s| <= s.maxLength.value)
  }

  predicate IsDeclared(name: string, properties: seq<Property>) {
    exists i :: 0 <= i < |properties| && properties[i].name == name
  }

  /** A value is valid for a union when a branch accepts it; unions inside a branch are ignored. */
  predicate Valid(v: Json, s: Schema)
    decreases s, 1
  {
    if s.anyOf != [] then exists i :: 0 <= i < |s.anyOf| && ValidPlain(v, s.anyOf[i]) else ValidPlain(v, s)
  }

  predicate ValidPlain(v: Json, s: Schema)
    decreases s, 0
  {
    && (s.kind.Some? ==> HasKind(v, s.kind.value)) && InLimits(v, s)
    && (v.Arr? && s.items.Some? ==> forall i :: 0 <= i < |v.items| ==> Valid(v.items[i], s.items.value))
    && (s.kind == Some(AnObject) && s.properties.Some? && v.Obj? ==>
          && (forall name :: name in s.required ==> name in v.fields)
          && (s.closed ==> forall name :: name in v.fields ==> IsDeclared(name, s.properties.value.list))
          && (forall i :: 0 <= i < |s.properties.value.list| && s.properties.value.list[i].name in v.fields ==>
                Valid(v.fields[s.properties.value.list[i].name], s.properties.value.list[i].schema)))
  }

  // ---------------------------------------------------------------- coercion

  predicate OpensJson(s: string) {
    s != "" && (s[0] == '[' || s[0] == '{' || s[0] == '"')
  }

  /** Text that may be JSON, possibly encoded twice. */
  function TryParse(h: Host, s: string): Option<Json> {
    if !OpensJson(s) then None
    else match h.parse(s)
         case Some(Str(text)) =>
           var inner := h.trim(text);
           if inner != "" && (inner[0] == '[' || inner[0] == '{') then h.parse(inner) else Some(Str(text))
         case other => other
  }

  predicate IsCompound(v: Option<Json>) {
    v.Some? && (v.value.Arr? || v.value.Obj?)
  }

  /** An item that is text of an array or object becomes that. */
  function DecodeItem(h: Host, item: Json): Json {
    if item.Str? && IsCompound(TryParse(h, item.s)) then TryParse(h, item.s).value else item
  }

  function DecodeItems(h: Host, items: seq<Json>): seq<Json> {
    seq(|items|, i requires 0 <= i < |items| => DecodeItem(h, items[i]))
  }

  function CoerceArray(h: Host, v: Json): Json {
    match v
    case Arr(items) => Arr(DecodeItems(h, items))
    case Str(s) =>
      (match TryParse(h, h.trim(s))
       case Some(Arr(items)) => Arr(DecodeItems(h, items))
       case Some(Obj(fields)) => Arr([Obj(fields)])
       case _ => v)
    case Obj(_) => Arr([v])
    case _ => v
  }

  function CoerceNumber(h: Host, v: Json, whole: bool): Json {
    match v
    case Str(s) =>
      if h.trim(s) != "" && h.number(h.trim(s)).Some? then
        var n := h.number(h.trim(s)).value;
        Num(if whole then Trunc(n) else n)
      else v
    case Num(n) => Num(if whole then Trunc(n) else n)
    case _ => v
  }

  function CoercePlain(h: Host, v: Json, s: Schema): Json
    decreases s, 0
  {
    match s.kind
    case Some(AnArray) =>
      var whole := CoerceArray(h, v);
      if whole.Arr? && s.items.Some?
      then Arr(seq(|whole.items|, i requires 0 <= i < |whole.items| => Coerce(h, whole.items[i], s.items.value)))
      else whole
    case Some(AnObject) =>
      if v.Str? && TryParse(h, h.trim(v.s)).Some? && TryParse(h, h.trim(v.s)).value.Obj?
      then TryParse(h, h.trim(v.s)).value else v
    case Some(AString) =>
      if v.Num? then Str(h.show(v.n)) else if v.Bool? then Str(if v.b then "true" else "false") else v
    case Some(AnInteger) => CoerceNumber(h, v, true)
    case Some(ANumber) => CoerceNumber(h, v, false)
    case _ => v
  }

  /** A branch of a union takes a value when what it makes of it has the branch's type. */
  predicate Takes(h: Host, v: Json, branch: Schema)
    decreases branch, 1
  {
    branch.kind.None? || HasKind(CoercePlain(h, v, branch), branch.kind.value)
  }

  /** The first branch that takes the value, from the `i`-th on. */
  function FirstTaking(h: Host, v: Json, branches: seq<Schema>, i: nat): (r: nat)
    requires i <= |branches|
    ensures i <= r <= |branches| && (r < |branches| ==> Takes(h, v, branches[r]))
    ensures forall j :: i <= j < r ==> !Takes(h, v, branches[j])
    decreases branches, |branches| - i
  {
    if i == |branches| || Takes(h, v, branches[i]) then i else FirstTaking(h, v, branches, i + 1)
  }

  function Coerce(h: Host, v: Json, s: Schema): Json
    decreases s, 2
  {
    var i := FirstTaking(h, v, s.anyOf, 0);
    if i < |s.anyOf| then CoercePlain(h, v, s.anyOf[i])
    else if (exists j :: 0 <= j < |s.anyOf| && s.anyOf[j].kind == Some(AnArray)) && CoerceArray(h, v).Arr? then CoerceArray(h, v)
    else CoercePlain(h, v, s)
  }

  // ---------------------------------------------------------------- coercing twice

  /** Text in which neither the whole nor its trimmed form opens JSON, and which is no numeral. */
  predicate Bare(h: Host, s: string) {
    !OpensJson(s) && !OpensJson(h.trim(s))
  }

  /** Printed numbers and booleans are no JSON arrays, objects or strings, and "true" is no numeral. */
  ghost predicate Sound(h: Host) {
    && (forall n :: Bare(h, h.show(n)))
    && Bare(h, "true") && Bare(h, "false")
    && h.number(h.trim("true")) == None && h.number(h.trim("false")) == None
  }

  lemma DecodeTwice(h: Host, items: seq<Json>)
    ensures DecodeItems(h, DecodeItems(h, items)) == DecodeItems(h, items)
  {
    var once := DecodeItems(h, items);
    forall i | 0 <= i < |once|
      ensures DecodeItem(h, once[i]) == once[i]
    {
    }
  }

  /** Items that decoding leaves alone stay so under any schema: new text is printed, and printed text is bare. */
  lemma CoercedStaysDecoded(h: Host, item: Json, s: Schema)
    requires Sound(h) && DecodeItem(h, item) == item
    ensures DecodeItem(h, Coerce(h, item, s)) == Coerce(h, item, s)
  {
    var i := FirstTaking(h, item, s.anyOf, 0);
    if i < |s.anyOf| {
      PlainStaysDecoded(h, item, s.anyOf[i]);
    } else {
      PlainStaysDecoded(h, item, s);
    }
  }

  lemma PlainStaysDecoded(h: Host, item: Json, s: Schema)
    requires Sound(h) && DecodeItem(h, item) == item
    ensures DecodeItem(h, CoercePlain(h, item, s)) == CoercePlain(h, item, s)
  {
    if s.kind == Some(AString) && item.Num? {
      assert Bare(h, h.show(item.n));
    }
  }

  lemma {:induction false} PlainTwice(h: Host, v: Json, s: Schema)
    requires Sound(h)
    ensures CoercePlain(h, CoercePlain(h, v, s), s) == CoercePlain(h, v, s)
    decreases s, 0
  {
    match s.kind
    case Some(AnArray) => ArrayTwice(h, v, s);
    case Some(AnInteger) => NumberTwice(h, v, true);
    case Some(ANumber) => NumberTwice(h, v, false);
    case _ =>
  }

  lemma NumberTwice(h: Host, v: Json, whole: bool)
    ensures CoerceNumber(h, CoerceNumber(h, v, whole), whole) == CoerceNumber(h, v, whole)
  {
    if CoerceNumber(h, v, whole).Num? {
      TruncIsWhole(if v.Num? then v.n else h.number(h.trim(v.s)).value);
    }
  }

  function CoerceItems(h: Host, items: seq<Json>, s: Schema): seq<Json> {
    seq(|items|, i requires 0 <= i < |items| => Coerce(h, items[i], s))
  }

  lemma {:induction false} ArrayTwice(h: Host, v: Json, s: Schema)
    requires Sound(h) && s.kind == Some(AnArray)
    ensures CoercePlain(h, CoercePlain(h, v, s), s) == CoercePlain(h, v, s)
    decreases s, 0, 0
  {
    var whole := CoerceArray(h, v);
    if whole.Arr? {
      ArrayIsDecoded(h, v);
      if s.items.Some? {
        var items := CoerceItems(h, whole.items, s.items.value);
        assert CoercePlain(h, v, s) == Arr(items);
        forall i | 0 <= i < |items|
          ensures DecodeItem(h, items[i]) == items[i] && Coerce(h, items[i], s.items.value) == items[i]
        {
          assert DecodeItems(h, whole.items)[i] == DecodeItem(h, whole.items[i]);
          CoercedStaysDecoded(h, whole.items[i], s.items.value);
          CoerceTwice(h, whole.items[i], s.items.value);
        }
        assert DecodeItems(h, items) == items && CoerceItems(h, items, s.items.value) == items;
        assert CoerceArray(h, Arr(items)) == Arr(items);
      }
    }
  }

  lemma ArrayIsDecoded(h: Host, v: Json)
    requires CoerceArray(h, v).Arr?
    ensures DecodeItems(h, CoerceArray(h, v).items) == CoerceArray(h, v).items
  {
    match v
    case Arr(items) => DecodeTwice(h, items);
    case Str(s) =>
      if TryParse(h, h.trim(s)).value.Arr? {
        DecodeTwice(h, TryParse(h, h.trim(s)).value.items);
      }
    case _ =>
  }

  /** A branch that does not take a value does not take what another schema makes of it. */
  lemma StaysRejected(h: Host, v: Json, branch: Schema, s: Schema)
    requires Sound(h) && !Takes(h, v, branch)
    ensures !Takes(h, CoercePlain(h, v, s), branch)
  {
    var c := CoercePlain(h, v, s);
    if s.kind == Some(AString) && v.Num? {
      assert Bare(h, h.show(v.n));
    }
    if s.kind == Some(AnInteger) && c.Num? {
      TruncIsWhole(if v.Num? then v.n else h.number(h.trim(v.s)).value);
    }
    match branch.kind.value
    case AnInteger => WholeIsTaken(h, v, branch);
    case _ =>
  }

  lemma WholeIsTaken(h: Host, v: Json, branch: Schema)
    requires branch.kind == Some(AnInteger)
    ensures Takes(h, v, branch) <==> CoerceNumber(h, v, true).Num?
  {
    if CoerceNumber(h, v, true).Num? {
      TruncIsWhole(if v.Num? then v.n else h.number(h.trim(v.s)).value);
    }
  }

  lemma FirstTakingIs(h: Host, v: Json, branches: seq<Schema>, i: nat, r: nat)
    requires i <= r <= |branches| && (r < |branches| ==> Takes(h, v, branches[r]))
    requires forall j :: i <= j < r ==> !Takes(h, v, branches[j])
    ensures FirstTaking(h, v, branches, i) == r
    decreases r - i
  {
    if i < r {
      FirstTakingIs(h, v, branches, i + 1, r);
    }
  }

  lemma ArrayBranchTakes(h: Host, v: Json, branch: Schema)
    requires branch.kind == Some(AnArray)
    ensures Takes(h, v, branch) <==> CoerceArray(h, v).Arr?
  {
  }

  /** With no branch to take the value the schema's own type decides: the last resort for arrays is never reached. */
  lemma NoneTakes(h: Host, v: Json, s: Schema)
    requires FirstTaking(h, v, s.anyOf, 0) == |s.anyOf|
    ensures Coerce(h, v, s) == CoercePlain(h, v, s)
  {
    forall j | 0 <= j < |s.anyOf| && s.anyOf[j].kind == Some(AnArray)
      ensures !CoerceArray(h, v).Arr?
    {
      assert !Takes(h, v, s.anyOf[j]);
      ArrayBranchTakes(h, v, s.anyOf[j]);
    }
  }

  /** For every schema and value, unions and nesting included, coercing twice is coercing once. */
  lemma {:induction false} CoerceTwice(h: Host, v: Json, s: Schema)
    requires Sound(h)
    ensures Coerce(h, Coerce(h, v, s), s) == Coerce(h, v, s)
    decreases s, 1
  {
    var i := FirstTaking(h, v, s.anyOf, 0);
    if i < |s.anyOf| {
      var c := CoercePlain(h, v, s.anyOf[i]);
      PlainTwice(h, v, s.anyOf[i]);
      forall j | 0 <= j < i
        ensures !Takes(h, c, s.anyOf[j])
      {
        StaysRejected(h, v, s.anyOf[j], s.anyOf[i]);
      }
      FirstTakingIs(h, c, s.anyOf, 0, i);
    } else {
      var c := CoercePlain(h, v, s);
      NoneTakes(h, v, s);
      PlainTwice(h, v, s);
      forall j | 0 <= j < |s.anyOf|
        ensures !Takes(h, c, s.anyOf[j])
      {
        StaysRejected(h, v, s.anyOf[j], s);
      }
      FirstTakingIs(h, c, s.anyOf, 0, |s.anyOf|);
      NoneTakes(h, c, s);
    }
  }

  // ---------------------------------------------------------------- what a value turns into

  /** The whole number next to `n` on the side of zero. */
  predicate IsTruncated(n: real, t: real) {
    && t == t.Floor as real
    && (if n >= 0.0 then 0.0 <= t <= n && n - t < 1.0 else n <= t <= 0.0 && t - n < 1.0)
  }

  /** Where text is wanted, numbers are printed and booleans spelled; text stays. */
  lemma TextIs(h: Host, s: Schema, n: real, text: string)
    requires s.kind == Some(AString)
    ensures CoercePlain(h, Num(n), s) == Str(h.show(n))
    ensures CoercePlain(h, Bool(true), s) == Str("true") && CoercePlain(h, Bool(false), s) == Str("false")
    ensures CoercePlain(h, Str(text), s) == Str(text) && CoercePlain(h, Null, s) == Null
  {
  }

  /** Where a number is wanted, numerals are read, and for an integer cut towards zero; other text stays. */
  lemma NumberIs(h: Host, s: Schema, n: real, text: string)
    requires s.kind == Some(ANumber) || s.kind == Some(AnInteger)
    ensures h.trim(text) != "" && h.number(h.trim(text)) == Some(n) ==>
              CoercePlain(h, Str(text), s) == CoercePlain(h, Num(n), s)
    ensures h.trim(text) == "" || h.number(h.trim(text)) == None ==> CoercePlain(h, Str(text), s) == Str(text)
    ensures s.kind == Some(ANumber) ==> CoercePlain(h, Num(n), s) == Num(n)
    ensures s.kind == Some(AnInteger) ==>
              CoercePlain(h, Num(n), s).Num? && IsTruncated(n, CoercePlain(h, Num(n), s).n)
  {
    TruncIsWhole(n);
  }

  /** Text of an array or object reads as that, encoded once or, as a JSON string, twice. */
  lemma EncodedTwiceIs(h: Host, once: string, twice: string, v: Json)
    requires !v.Str? && h.parse(once) == Some(v) && once != "" && (once[0] == '[' || once[0] == '{')
    requires h.parse(twice) == Some(Str(once)) && twice != "" && twice[0] == '"' && h.trim(once) == once
    ensures TryParse(h, once) == Some(v) && TryParse(h, twice) == Some(v)
  {
  }

  /** Other text reads as nothing, and a JSON string of other text as that text. */
  lemma OtherTextIs(h: Host, text: string, quoted: string, inner: string)
    requires text == "" || text[0] !in "[{\"" || h.parse(text) == None
    requires h.parse(quoted) == Some(Str(inner)) && quoted != "" && quoted[0] == '"'
    requires h.trim(inner) == "" || h.trim(inner)[0] !in "[{"
    ensures TryParse(h, text) == None && TryParse(h, quoted) == Some(Str(inner))
  {
  }

  /** A host as coercion relies on: here one that reads no text but the empty object. */
  lemma SoundHostExists() returns (h: Host)
    ensures Sound(h) && h.parse("{}") == Some(Obj(map[])) && TryParse(h, "{}") == Some(Obj(map[]))
  {
    h := Host(text => if text == "{}" then Some(Obj(map[])) else None, n => "0", text => None, text => text);
    assert forall n: real :: h.show(n) == "0" && h.trim("0") == "0";
    assert h.trim("true") == "true" && h.trim("false") == "false";
  }

  /** Where an object is wanted, text that reads as one becomes it; nothing else changes. */
  lemma ObjectIs(h: Host, s: Schema, text: string, fields: map<string, Json>)
    requires s.kind == Some(AnObject)
    ensures TryParse(h, h.trim(text)) == Some(Obj(fields)) ==> CoercePlain(h, Str(text), s) == Obj(fields)
    ensures !(TryParse(h, h.trim(text)).Some? && TryParse(h, h.trim(text)).value.Obj?) ==>
              CoercePlain(h, Str(text), s) == Str(text)
    ensures CoercePlain(h, Obj(fields), s) == Obj(fields)
  {
  }

  /** An item as an array takes it: what its text encodes, if that is an array or object, coerced by the item schema. */
  predicate TakenAs(h: Host, s: Schema, item: Json, taken: Json) {
    var read := if item.Str? then TryParse(h, item.s) else None;
    var decoded := if read.Some? && (read.value.Arr? || read.value.Obj?) then read.value else item;
    taken == if s.items.Some? then Coerce(h, decoded, s.items.value) else decoded
  }

  /** Item by item, none lost or added. */
  ghost predicate AllTaken(h: Host, s: Schema, items: seq<Json>, v: Json) {
    v.Arr? && |v.items| == |items| && forall i :: 0 <= i < |items| ==> TakenAs(h, s, items[i], v.items[i])
  }

  lemma ItemsAre(h: Host, s: Schema, items: seq<Json>)
    requires s.kind == Some(AnArray)
    ensures AllTaken(h, s, items, CoercePlain(h, Arr(items), s))
  {
    var v := CoercePlain(h, Arr(items), s);
    forall i | 0 <= i < |items|
      ensures TakenAs(h, s, items[i], v.items[i])
    {
      assert v.items[i] == if s.items.Some? then Coerce(h, DecodeItem(h, items[i]), s.items.value) else DecodeItem(h, items[i]);
    }
  }

  /** Where an array is wanted, an object becomes one of one item, and so does text of an object; text of an array is read. */
  lemma ArrayIs(h: Host, s: Schema, text: string, items: seq<Json>, fields: map<string, Json>)
    requires s.kind == Some(AnArray)
    ensures TryParse(h, h.trim(text)) == Some(Arr(items)) ==> CoercePlain(h, Str(text), s) == CoercePlain(h, Arr(items), s)
    ensures TryParse(h, h.trim(text)) == Some(Obj(fields)) ==> CoercePlain(h, Str(text), s) == CoercePlain(h, Obj(fields), s)
    ensures CoercePlain(h, Obj(fields), s) ==
            Arr([if s.items.Some? then Coerce(h, Obj(fields), s.items.value) else Obj(fields)])
  {
    assert CoercePlain(h, Obj(fields), s).items[0] ==
           if s.items.Some? then Coerce(h, Obj(fields), s.items.value) else Obj(fields);
  }

  /** In a union the first branch that takes a value decides; without one, the schema's own type. */
  lemma UnionIs(h: Host, v: Json, s: Schema, i: nat)
    requires i <= |s.anyOf| && forall j :: 0 <= j < i ==> !Takes(h, v, s.anyOf[j])
    requires i < |s.anyOf| ==> Takes(h, v, s.anyOf[i])
    ensures Coerce(h, v, s) == CoercePlain(h, v, if i < |s.anyOf| then s.anyOf[i] else s)
  {
    FirstTakingIs(h, v, s.anyOf, 0, i);
    if i == |s.anyOf| {
      NoneTakes(h, v, s);
    }
  }

  // ---------------------------------------------------------------- what coercion does to valid values

  /** No array the schema describes holds text that is itself an array or object. */
  predicate NothingEncoded(h: Host, v: Json, s: Schema)
    decreases s
  {
    s.kind == Some(AnArray) && v.Arr? ==>
      && (forall i :: 0 <= i < |v.items| ==> DecodeItem(h, v.items[i]) == v.items[i])
      && (s.items.Some? ==> forall i :: 0 <= i < |v.items| ==> NothingEncoded(h, v.items[i], s.items.value))
  }

  /** No union in the schema of the value or of its items. */
  predicate NoUnion(s: Schema)
    decreases s
  {
    s.anyOf == [] && (s.items.Some? ==> NoUnion(s.items.value))
  }

  /** A valid value is left alone exactly when no array it is made of holds encoded text. */
  lemma {:induction false} ValidIsKeptIff(h: Host, v: Json, s: Schema)
    requires Valid(v, s) && NoUnion(s)
    ensures Coerce(h, v, s) == v <==> NothingEncoded(h, v, s)
    decreases s, 0
  {
    assert Coerce(h, v, s) == CoercePlain(h, v, s);
    if s.kind == Some(AnArray) {
      var whole := DecodeItems(h, v.items);
      if s.items.Some? {
        ItemsAreKeptIff(h, v.items, s.items.value);
        assert CoercePlain(h, v, s) == Arr(CoerceItems(h, whole, s.items.value));
      } else {
        assert whole == v.items <==> forall i :: 0 <= i < |v.items| ==> DecodeItem(h, v.items[i]) == v.items[i];
      }
    } else if s.kind == Some(AnInteger) {
      TruncIsWhole(v.n);
    }
  }

  /** Decoding an item makes it compound, which no schema turns back into text. */
  lemma DecodedStaysCompound(h: Host, item: Json, s: Schema)
    requires NoUnion(s) && (item.Arr? || item.Obj?)
    ensures !Coerce(h, item, s).Str?
  {
  }

  lemma {:induction false} ItemsAreKeptIff(h: Host, items: seq<Json>, s: Schema)
    requires NoUnion(s) && forall i :: 0 <= i < |items| ==> Valid(items[i], s)
    ensures CoerceItems(h, DecodeItems(h, items), s) == items <==>
            forall i :: 0 <= i < |items| ==> DecodeItem(h, items[i]) == items[i] && NothingEncoded(h, items[i], s)
    decreases s, 1
  {
    var coerced := CoerceItems(h, DecodeItems(h, items), s);
    forall i | 0 <= i < |items|
      ensures coerced[i] == items[i] <==> DecodeItem(h, items[i]) == items[i] && NothingEncoded(h, items[i], s)
    {
      assert coerced[i] == Coerce(h, DecodeItem(h, items[i]), s);
      if DecodeItem(h, items[i]) == items[i] {
        ValidIsKeptIff(h, items[i], s);
      } else {
        DecodedStaysCompound(h, DecodeItem(h, items[i]), s);
      }
    }
  }

  function Plain(kind: Kind): Schema {
    Schema(Some(kind), None, None, None, None, None, None, None, [], false, [])
  }

  /** A list of texts one of which reads like an object is valid as it comes, and refused once coerced. */
  lemma EncodedItemIsRefused(h: Host)
    requires h.parse("{}") == Some(Obj(map[]))
    ensures var s := Plain(AnArray).(items := Some(Plain(AString)));
            var v := Arr([Str("{}")]);
            Valid(v, s) && !Valid(Coerce(h, v, s), s)
  {
    var s := Plain(AnArray).(items := Some(Plain(AString)));
    var v := Arr([Str("{}")]);
    assert DecodeItem(h, Str("{}")) == Obj(map[]);
    assert Coerce(h, v, s) == CoercePlain(h, v, s);
    assert CoercePlain(h, v, s).items[0] == Coerce(h, Obj(map[]), Plain(AString)) == Obj(map[]);
  }

  // ---------------------------------------------------------------- unions

  /** A valid value other than an array is left alone by a union exactly when the first branch to take it is of its type. */
  lemma UnionKeepsIff(h: Host, v: Json, s: Schema)
    requires s.anyOf != [] && Valid(v, s) && !v.Arr?
    ensures FirstTaking(h, v, s.anyOf, 0) < |s.anyOf|
    ensures var branch := s.anyOf[FirstTaking(h, v, s.anyOf, 0)];
            Coerce(h, v, s) == v <==> (branch.kind.Some? ==> HasKind(v, branch.kind.value))
  {
    var k :| 0 <= k < |s.anyOf| && ValidPlain(v, s.anyOf[k]);
    OwnKindTakes(h, v, s.anyOf[k]);
    var branch := s.anyOf[FirstTaking(h, v, s.anyOf, 0)];
    if branch.kind.Some? && HasKind(v, branch.kind.value) {
      OwnKindTakes(h, v, branch);
    }
  }

  lemma OwnKindTakes(h: Host, v: Json, branch: Schema)
    requires branch.kind.Some? ==> HasKind(v, branch.kind.value)
    ensures Takes(h, v, branch) && (!v.Arr? ==> CoercePlain(h, v, branch) == v)
  {
    if branch.kind == Some(AnInteger) {
      TruncIsWhole(v.n);
    }
  }

  /** A valid number is silently truncated when an integer branch comes first. */
  lemma UnionTruncates(h: Host)
    ensures var s := Plain(AString).(kind := None, anyOf := [Plain(AnInteger), Plain(ANumber)]);
            Valid(Num(5.5), s) && Coerce(h, Num(5.5), s) == Num(5.0)
  {
    var s := Plain(AString).(kind := None, anyOf := [Plain(AnInteger), Plain(ANumber)]);
    assert ValidPlain(Num(5.5), s.anyOf[1]);
    assert Trunc(5.5) == 5.0 && Takes(h, Num(5.5), s.anyOf[0]);
  }

  // ---------------------------------------------------------------- whole argument objects

  type Args = map<string, Json>

  /** Each property is declared once. */
  ghost predicate WellFormed(properties: seq<Property>) {
    forall i, j :: 0 <= i < j < |properties| ==> properties[i].name != properties[j].name
  }

  function SchemaFor(properties: seq<Property>, name: string): Option<Schema> {
    if properties == [] then None
    else if properties[0].name == name then Some(properties[0].schema)
    else SchemaFor(properties[1..], name)
  }

  function Coerced(h: Host, properties: seq<Property>, name: string, v: Json): Json {
    match SchemaFor(properties, name)
    case Some(s) => Coerce(h, v, s)
    case None => v
  }

  /** Coerces the declared arguments and, for a closed schema, drops the others. */
  function Prepared(h: Host, properties: seq<Property>, closed: bool, args: Args): Args {
    map name | name in args && (closed ==> SchemaFor(properties, name).Some?) :: Coerced(h, properties, name, args[name])
  }

  method CoerceArgsToSchema(h: Host, properties: seq<Property>, args: Args) returns (out: Args)
    requires WellFormed(properties)
    ensures out == Prepared(h, properties, false, args)
  {
    out := args;
    var i := 0;
    while i < |properties|
      invariant 0 <= i <= |properties| && out.Keys == args.Keys
      invariant forall name :: name in args ==> out[name] == Coerced(h, properties[..i], name, args[name])
    {
      var name := properties[i].name;
      forall other | other in args
        ensures SchemaFor(properties[..i + 1], other) ==
                if other == name then Some(properties[i].schema) else SchemaFor(properties[..i], other)
        ensures SchemaFor(properties[..i], name) == None
      {
        SchemaForSnoc(properties[..i], properties[i], other);
        NotYetDeclared(properties[..i], name);
        assert properties[..i] + [properties[i]] == properties[..i + 1];
      }
      if name in out {
        out := out[name := Coerce(h, out[name], properties[i].schema)];
      }
      i := i + 1;
    }
    assert properties[..|properties|] == properties;
  }

  lemma {:induction false} SchemaForSnoc(properties: seq<Property>, last: Property, name: string)
    ensures SchemaFor(properties + [last], name) ==
            if SchemaFor(properties, name).Some? then SchemaFor(properties, name)
            else if last.name == name then Some(last.schema) else None
  {
    if properties == [] {
      assert properties + [last] == [last];
    } else {
      assert (properties + [last])[1..] == properties[1..] + [last];
      SchemaForSnoc(properties[1..], last, name);
    }
  }

  lemma {:induction false} NotYetDeclared(properties: seq<Property>, name: string)
    requires forall p :: p in properties ==> p.name != name
    ensures SchemaFor(properties, name) == None
  {
    if properties != [] {
      assert properties[0] in properties;
      NotYetDeclared(properties[1..], name);
    }
  }

  method PruneArgsToSchema(h: Host, properties: seq<Property>, args: Args) returns (out: Args)
    ensures out == map name | name in args && SchemaFor(properties, name).Some? :: args[name]
  {
    out := map[];
    var rest := args.Keys;
    while rest != {}
      invariant rest <= args.Keys
      invariant out == map name | name in args && name !in rest && SchemaFor(properties, name).Some? :: args[name]
      decreases |rest|
    {
      var name :| name in rest;
      if SchemaFor(properties, name).Some? {
        out := out[name := args[name]];
      }
      rest := rest - {name};
    }
  }

  /** Preparing arguments that have been prepared changes nothing, so they are valid again if they were. */
  lemma PreparedStays(h: Host, properties: seq<Property>, closed: bool, args: Args)
    requires Sound(h)
    ensures Prepared(h, properties, closed, Prepared(h, properties, closed, args)) == Prepared(h, properties, closed, args)
  {
    var once := Prepared(h, properties, closed, args);
    forall name | name in once
      ensures Coerced(h, properties, name, once[name]) == once[name]
    {
      if SchemaFor(properties, name).Some? {
        CoerceTwice(h, args[name], SchemaFor(properties, name).value);
      }
    }
  }

  /** The parameters of a tool. */
  datatype Parameters = Parameters(properties: seq<Property>, required: seq<string>, closed: bool, anyOf: seq<Schema>)

  predicate ValidArgs(p: Parameters, args: Args) {
    && (p.anyOf != [] ==> exists i :: 0 <= i < |p.anyOf| && ValidPlain(Obj(args), p.anyOf[i]))
    && (forall name :: name in p.required ==> name in args)
    && (p.closed ==> forall name :: name in args ==> SchemaFor(p.properties, name).Some?)
    && (forall name :: name in args && SchemaFor(p.properties, name).Some? ==>
          Valid(args[name], SchemaFor(p.properties, name).value))
  }

  ghost predicate Unencoded(h: Host, properties: seq<Property>, args: Args) {
    forall name :: name in args && SchemaFor(properties, name).Some? ==>
      NothingEncoded(h, args[name], SchemaFor(properties, name).value)
  }

  /** Valid arguments reach the tool as they came exactly when no list among them holds encoded text. */
  lemma ValidArgsAreKeptIff(h: Host, p: Parameters, args: Args)
    requires ValidArgs(p, args)
    requires forall name :: name in args && SchemaFor(p.properties, name).Some? ==> NoUnion(SchemaFor(p.properties, name).value)
    ensures Prepared(h, p.properties, p.closed, args) == args <==> Unencoded(h, p.properties, args)
  {
    var out := Prepared(h, p.properties, p.closed, args);
    assert out.Keys == args.Keys;
    forall name | name in args && SchemaFor(p.properties, name).Some?
      ensures out[name] == args[name] <==> NothingEncoded(h, args[name], SchemaFor(p.properties, name).value)
    {
      ValidIsKeptIff(h, args[name], SchemaFor(p.properties, name).value);
    }
  }
}
