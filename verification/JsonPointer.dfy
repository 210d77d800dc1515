/**
 JSON Pointers (RFC 6901, sections 3 and 4): printing tokens, parsing them back, and resolving a
 pointer against own properties only.
 */
module JsonPointer {
  import opened Common
  import opened Numerals

  datatype Json =
    | Null
    | Bool(b: bool)
    | Number(n: real)
    | Str(s: string)
    | Arr(items: seq<Json>)
    | Obj(fields: seq<Field>)

  datatype Field = Field(key: string, value: Json)

  datatype PointerError = TooLong | NoLeadingSlash | TooDeep | BadEscape | BadIndex | IndexNotFound | KeyNotFound

  datatype Result<+T> = Ok(value: T) | Err(error: PointerError)

  const MAX_LENGTH: nat := 4096
  const MAX_TOKENS: nat := 64
  const MAX_SAFE_INTEGER: nat := 9_007_199_254_740_991

  // ---------------------------------------------------------------- tokens

  /** Every occurrence of `c` replaced by `text`. */
  function ReplaceAll(s: string, c: char, text: string): string {
    if s == "" then "" else (if s[0] == c then text else [s[0]]) + ReplaceAll(s[1..], c, text)
  }

  function EscapeToken(token: string): string {
    ReplaceAll(ReplaceAll(token, '~', "~0"), '/', "~1")
  }

  predicate IsEscape(s: string, i: nat) {
    i + 1 < |s| && s[i] == '~' && (s[i + 1] == '0' || s[i + 1] == '1')
  }

  /** A tilde that does not begin `~0` or `~1`. */
  predicate HasBadEscape(encoded: string) {
    exists i :: 0 <= i < |encoded| && encoded[i] == '~' && !IsEscape(encoded, i)
  }

  function Decode(encoded: string): string {
    if encoded == "" then ""
    else if IsEscape(encoded, 0) then [if encoded[1] == '0' then '~' else '/'] + Decode(encoded[2..])
    else [encoded[0]] + Decode(encoded[1..])
  }

  /** One character, escaped. */
  function EscapeChar(c: char): string {
    if c == '~' then "~0" else if c == '/' then "~1" else [c]
  }

  lemma {:induction false} ReplaceAllConcat(a: string, b: string, c: char, text: string)
    ensures ReplaceAll(a + b, c, text) == ReplaceAll(a, c, text) + ReplaceAll(b, c, text)
  {
    if a == "" {
      assert a + b == b;
    } else {
      ReplaceAllConcat(a[1..], b, c, text);
      assert (a + b)[0] == a[0] && (a + b)[1..] == a[1..] + b;
      Assoc(if a[0] == c then text else [a[0]], ReplaceAll(a[1..], c, text), ReplaceAll(b, c, text));
    }
  }

  /** The two replacement passes together escape character by character. */
  lemma EscapeByChar(token: string)
    requires token != ""
    ensures EscapeToken(token) == EscapeChar(token[0]) + EscapeToken(token[1..])
  {
    var head := if token[0] == '~' then "~0" else [token[0]];
    var rest := ReplaceAll(token[1..], '~', "~0");
    assert ReplaceAll(token, '~', "~0") == head + rest;
    ReplaceAllConcat(head, rest, '/', "~1");
    assert ReplaceAll(head, '/', "~1") == EscapeChar(token[0]) by {
      assert head[1..] == (if token[0] == '~' then "0" else "");
      assert ReplaceAll("", '/', "~1") == "";
      assert "0"[1..] == "";
      assert ReplaceAll("0", '/', "~1") == "0";
    }
  }

  lemma BadEscapeTail(head: string, rest: string)
    requires |head| == 2 ==> IsEscape(head, 0)
    requires |head| == 1 ==> head[0] != '~'
    requires 1 <= |head| <= 2
    ensures HasBadEscape(head + rest) <==> HasBadEscape(rest)
  {
    var s := head + rest;
    if HasBadEscape(rest) {
      var i :| 0 <= i < |rest| && rest[i] == '~' && !IsEscape(rest, i);
      assert s[i + |head|] == '~' && !IsEscape(s, i + |head|);
    }
    if HasBadEscape(s) {
      var i :| 0 <= i < |s| && s[i] == '~' && !IsEscape(s, i);
      assert i >= |head|;
      assert rest[i - |head|] == '~' && !IsEscape(rest, i - |head|);
    }
  }

  /** Decoding an escaped token gives the token; the escaped form is valid and holds no separator. */
  lemma {:induction false} DecodeInvertsEscape(token: string)
    ensures Decode(EscapeToken(token)) == token
    ensures !HasBadEscape(EscapeToken(token))
    ensures '/' !in EscapeToken(token)
  {
    if token != "" {
      DecodeInvertsEscape(token[1..]);
      EscapeByChar(token);
      var head, rest := EscapeChar(token[0]), EscapeToken(token[1..]);
      var encoded := head + rest;
      BadEscapeTail(head, rest);
      if |head| == 2 {
        assert IsEscape(encoded, 0) && encoded[2..] == rest;
      } else {
        assert !IsEscape(encoded, 0) && encoded[1..] == rest;
      }
      assert token == [token[0]] + token[1..];
    }
  }

  /** Escaping a decoded token gives back the spelling, for every valid one without a separator. */
  lemma {:induction false} EscapeInvertsDecode(encoded: string)
    requires !HasBadEscape(encoded) && '/' !in encoded
    ensures EscapeToken(Decode(encoded)) == encoded
    decreases |encoded|
  {
    if encoded != "" {
      var n := if IsEscape(encoded, 0) then 2 else 1;
      var head, rest := encoded[..n], encoded[n..];
      assert encoded == head + rest;
      assert !IsEscape(encoded, 0) ==> encoded[0] != '~';
      BadEscapeTail(head, rest);
      EscapeInvertsDecode(rest);
      var token := Decode(encoded);
      assert token[1..] == Decode(rest);
      EscapeByChar(token);
      assert EscapeChar(token[0]) == head;
    }
  }

  // ---------------------------------------------------------------- splitting

  function Split(s: string): (parts: seq<string>)
    ensures parts != []
  {
    if s == "" then [""]
    else
      var rest := Split(s[1..]);
      if s[0] == '/' then [""] + rest else [[s[0]] + rest[0]] + rest[1..]
  }

  lemma {:induction false} SplitPlain(token: string)
    requires '/' !in token
    ensures Split(token) == [token]
  {
    if token != "" {
      SplitPlain(token[1..]);
      assert [token[0]] + token[1..] == token;
    }
  }

  lemma {:induction false} SplitAppend(s: string, token: string)
    requires '/' !in token
    ensures Split(s + "/" + token) == Split(s) + [token]
  {
    var joined := s + "/" + token;
    if s == "" {
      SplitPlain(token);
      assert joined[0] == '/' && joined[1..] == token;
    } else {
      SplitAppend(s[1..], token);
      assert joined[0] == s[0] && joined[1..] == s[1..] + "/" + token;
      var rest := Split(s[1..]);
      assert (rest + [token])[0] == rest[0] && (rest + [token])[1..] == rest[1..] + [token];
    }
  }

  // ---------------------------------------------------------------- resolving

  function Lookup(fields: seq<Field>, key: string): Option<Json> {
    if fields == [] then None
    else if fields[0].key == key then Some(fields[0].value) else Lookup(fields[1..], key)
  }

  /** The child of `node` that a decoded token names. */
  function Child(node: Json, token: string): Result<Json> {
    match node
    case Arr(items) =>
      if !IsCanonical(token) then Err(BadIndex)
      else if NumeralValue(token) > MAX_SAFE_INTEGER || NumeralValue(token) >= |items| then Err(IndexNotFound)
      else Ok(items[NumeralValue(token)])
    case Obj(fields) => (match Lookup(fields, token) case Some(v) => Ok(v) case None => Err(KeyNotFound))
    case _ => Err(KeyNotFound)
  }

  function Step(node: Json, encoded: string): Result<Json> {
    if HasBadEscape(encoded) then Err(BadEscape) else Child(node, Decode(encoded))
  }

  function Walk(node: Json, encoded: seq<string>): Result<Json>
    decreases |encoded|
  {
    if encoded == [] then Ok(node)
    else match Step(node, encoded[0])
         case Ok(child) => Walk(child, encoded[1..])
         case Err(e) => Err(e)
  }

  /** `bytes` is the length of the pointer once serialised as a JSON string. */
  function Resolve(root: Json, pointer: string, bytes: string -> nat): Result<Json> {
    if |pointer| > MAX_LENGTH || bytes(pointer) > MAX_LENGTH then Err(TooLong)
    else if pointer == "" then Ok(root)
    else if pointer[0] != '/' then Err(NoLeadingSlash)
    else if |Split(pointer[1..])| > MAX_TOKENS then Err(TooDeep)
    else Walk(root, Split(pointer[1..]))
  }

  method ResolvePointer(root: Json, pointer: string, bytes: string -> nat) returns (result: Result<Json>)
    ensures result == Resolve(root, pointer, bytes)
  {
    if |pointer| > MAX_LENGTH || bytes(pointer) > MAX_LENGTH {
      return Err(TooLong);
    }
    if pointer == "" {
      return Ok(root);
    }
    if pointer[0] != '/' {
      return Err(NoLeadingSlash);
    }
    var tokens := Split(pointer[1..]);
    if |tokens| > MAX_TOKENS {
      return Err(TooDeep);
    }
    var selected := root;
    var i := 0;
    while i < |tokens|
      invariant 0 <= i <= |tokens|
      invariant Walk(selected, tokens[i..]) == Walk(root, tokens)
    {
      assert tokens[i..][0] == tokens[i] && tokens[i..][1..] == tokens[i + 1..];
      if HasBadEscape(tokens[i]) {
        return Err(BadEscape);
      }
      var child := Child(selected, Decode(tokens[i]));
      if child.Err? {
        return child;
      }
      selected := child.value;
      i := i + 1;
    }
    result := Ok(selected);
  }

  // ---------------------------------------------------------------- children that are handed out

  /** The keys a view lists: array positions, or an object's own keys. */
  function OwnKeys(node: Json): seq<string> {
    match node
    case Arr(items) => seq(|items|, i requires 0 <= i => Decimal(i))
    case Obj(fields) => seq(|fields|, i requires 0 <= i < |fields| => fields[i].key)
    case _ => []
  }

  function ChildAt(node: Json, i: nat): Json
    requires i < |OwnKeys(node)|
  {
    match node
    case Arr(items) => items[i]
    case Obj(fields) => fields[i].value
  }

  /** No object has the same key twice, as parsing guarantees. */
  ghost predicate UniqueKeys(node: Json) {
    node.Obj? ==> forall i, j :: 0 <= i < j < |node.fields| ==> node.fields[i].key != node.fields[j].key
  }

  function ChildPointer(pointer: string, key: string): string {
    pointer + "/" + EscapeToken(key)
  }

  lemma {:induction false} LookupFinds(fields: seq<Field>, i: nat)
    requires i < |fields| && forall a, b :: 0 <= a < b < |fields| ==> fields[a].key != fields[b].key
    ensures Lookup(fields, fields[i].key) == Some(fields[i].value)
  {
    if i > 0 {
      assert fields[0].key != fields[i].key;
      LookupFinds(fields[1..], i - 1);
    }
  }

  lemma {:induction false} WalkAppend(node: Json, encoded: seq<string>, last: string)
    requires Walk(node, encoded).Ok?
    ensures Walk(node, encoded + [last]) == Step(Walk(node, encoded).value, last)
    decreases |encoded|
  {
    if encoded == [] {
      assert [] + [last] == [last] && [last][1..] == [];
    } else {
      assert (encoded + [last])[0] == encoded[0] && (encoded + [last])[1..] == encoded[1..] + [last];
      WalkAppend(Step(node, encoded[0]).value, encoded[1..], last);
    }
  }

  function Depth(pointer: string): nat {
    if pointer == "" then 0 else |Split(pointer[1..])|
  }

  /** Every child pointer a view hands out resolves, within the limits, to exactly that child. */
  lemma ChildPointerResolves(root: Json, pointer: string, bytes: string -> nat, i: nat)
    requires Resolve(root, pointer, bytes).Ok?
    requires var node := Resolve(root, pointer, bytes).value;
             && i < |OwnKeys(node)| && UniqueKeys(node)
             && (node.Arr? ==> |node.items| <= MAX_SAFE_INTEGER)
    requires var child := ChildPointer(pointer, OwnKeys(Resolve(root, pointer, bytes).value)[i]);
             |child| <= MAX_LENGTH && bytes(child) <= MAX_LENGTH && Depth(pointer) < MAX_TOKENS
    ensures var node := Resolve(root, pointer, bytes).value;
            Resolve(root, ChildPointer(pointer, OwnKeys(node)[i]), bytes) == Ok(ChildAt(node, i))
  {
    var node := Resolve(root, pointer, bytes).value;
    var key := OwnKeys(node)[i];
    var child := ChildPointer(pointer, key);
    var encoded := EscapeToken(key);
    DecodeInvertsEscape(key);
    ChildByKey(node, i);
    if pointer == "" {
      assert child[0] == '/' && child[1..] == encoded;
      SplitPlain(encoded);
      assert [encoded][1..] == [];
      assert Walk(ChildAt(node, i), []) == Ok(ChildAt(node, i));
    } else {
      assert child[0] == '/' && child[1..] == pointer[1..] + "/" + encoded;
      SplitAppend(pointer[1..], encoded);
      WalkAppend(root, Split(pointer[1..]), encoded);
    }
  }

  lemma ChildByKey(node: Json, i: nat)
    requires i < |OwnKeys(node)| && UniqueKeys(node) && (node.Arr? ==> |node.items| <= MAX_SAFE_INTEGER)
    ensures Child(node, OwnKeys(node)[i]) == Ok(ChildAt(node, i))
  {
    match node {
      case Arr(items) => DecimalIsCanonical(i);
      case Obj(fields) => LookupFinds(fields, i);
      case _ =>
    }
  }

  // ---------------------------------------------------------------- whole pointers

  function Print(tokens: seq<string>): string {
    if tokens == [] then "" else Print(tokens[..|tokens| - 1]) + "/" + EscapeToken(tokens[|tokens| - 1])
  }

  /** The decoded tokens of a pointer, or nothing when it is malformed. */
  function Parse(pointer: string): Option<seq<string>> {
    if pointer == "" then Some([])
    else if pointer[0] != '/' then None
    else
      var encoded := Split(pointer[1..]);
      if exists i :: 0 <= i < |encoded| && HasBadEscape(encoded[i]) then None
      else Some(seq(|encoded|, i requires 0 <= i < |encoded| => Decode(encoded[i])))
  }

  lemma ParseOne(token: string)
    ensures Parse("/" + EscapeToken(token)) == Some([token])
  {
    var encoded := EscapeToken(token);
    var all := "/" + encoded;
    DecodeInvertsEscape(token);
    SplitPlain(encoded);
    assert all[1..] == encoded;
    assert Parse(all).value == [token];
  }

  lemma ParseLonger(p: string, tokens: seq<string>, token: string)
    requires p != "" && Parse(p) == Some(tokens)
    ensures Parse(p + "/" + EscapeToken(token)) == Some(tokens + [token])
  {
    var last := EscapeToken(token);
    var all := p + "/" + last;
    DecodeInvertsEscape(token);
    assert all[0] == '/' && all[1..] == p[1..] + "/" + last;
    SplitAppend(p[1..], last);
    var encoded := Split(p[1..]);
    forall i | 0 <= i < |encoded + [last]|
      ensures !HasBadEscape((encoded + [last])[i]) && Decode((encoded + [last])[i]) == (tokens + [token])[i]
    {
      if i < |encoded| {
        assert tokens[i] == Decode(encoded[i]);
      }
    }
    assert Parse(all).value == tokens + [token];
  }

  lemma {:induction false} ParseInvertsPrint(tokens: seq<string>)
    ensures Parse(Print(tokens)) == Some(tokens)
  {
    if tokens != [] {
      var front, last := tokens[..|tokens| - 1], tokens[|tokens| - 1];
      ParseInvertsPrint(front);
      if Print(front) == "" {
        ParseOne(last);
        assert tokens == [last];
      } else {
        ParseLonger(Print(front), front, last);
        assert front + [last] == tokens;
      }
    }
  }

  function Join(parts: seq<string>): string {
    if parts == [] then "" else Join(parts[..|parts| - 1]) + "/" + parts[|parts| - 1]
  }

  lemma {:induction false} JoinCons(head: string, rest: seq<string>)
    ensures Join([head] + rest) == "/" + head + Join(rest)
    decreases |rest|
  {
    var all := [head] + rest;
    if rest == [] {
      assert all[..0] == [];
      assert Join(all) == "" + "/" + head;
    } else {
      assert all[..|all| - 1] == [head] + rest[..|rest| - 1];
      JoinCons(head, rest[..|rest| - 1]);
    }
  }

  lemma {:induction false} SplitIsPlain(s: string)
    ensures forall i :: 0 <= i < |Split(s)| ==> '/' !in Split(s)[i]
  {
    if s != "" {
      SplitIsPlain(s[1..]);
    }
  }

  lemma {:induction false} SplitJoins(s: string)
    ensures Join(Split(s)) == "/" + s
  {
    if s == "" {
      assert [""][..0] == [];
      assert Join([""]) == Join([]) + "/" + "";
    } else {
      SplitJoins(s[1..]);
      var rest := Split(s[1..]);
      assert s == [s[0]] + s[1..];
      if s[0] == '/' {
        JoinCons("", rest);
      } else {
        SplitJoinsPlain(s[0], s[1..], rest);
      }
    }
  }

  lemma SplitJoinsPlain(c: char, s: string, parts: seq<string>)
    requires parts != [] && Join(parts) == "/" + s
    ensures Join([[c] + parts[0]] + parts[1..]) == "/" + ([c] + s)
  {
    JoinCons([c] + parts[0], parts[1..]);
    JoinCons(parts[0], parts[1..]);
    assert parts == [parts[0]] + parts[1..];
    WidenHead(c, parts[0], Join(parts[1..]), s);
  }

  lemma WidenHead(c: char, a: string, b: string, s: string)
    requires "/" + a + b == "/" + s
    ensures "/" + ([c] + a) + b == "/" + ([c] + s)
  {
    assert a + b == ("/" + a + b)[1..];
    assert s == ("/" + s)[1..];
    assert [c] + a + b == [c] + s;
  }

  lemma {:induction false} JoinPrints(encoded: seq<string>, tokens: seq<string>)
    requires |encoded| == |tokens|
    requires forall i :: 0 <= i < |encoded| ==> EscapeToken(tokens[i]) == encoded[i]
    ensures Print(tokens) == Join(encoded)
    decreases |tokens|
  {
    if tokens != [] {
      JoinPrints(encoded[..|encoded| - 1], tokens[..|tokens| - 1]);
    }
  }

  /** A well-formed pointer is the printed form of its tokens: printing and parsing are inverse both ways. */
  lemma PrintInvertsParse(pointer: string)
    requires Parse(pointer).Some?
    ensures Print(Parse(pointer).value) == pointer
  {
    if pointer != "" {
      var encoded := Split(pointer[1..]);
      SplitJoins(pointer[1..]);
      SplitIsPlain(pointer[1..]);
      var tokens := Parse(pointer).value;
      forall i | 0 <= i < |encoded|
        ensures EscapeToken(tokens[i]) == encoded[i]
      {
        EscapeInvertsDecode(encoded[i]);
      }
      JoinPrints(encoded, tokens);
      assert pointer == [pointer[0]] + pointer[1..];
    }
  }
}
