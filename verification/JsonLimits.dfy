/** The limits of JSON views in numbers, what a pointer resolves to, and how a string falls into code points. */
module JsonLimits {
  import opened Common
  import opened Numerals
  import opened JsonPointer
  import Paging = JsonPaging

  // ---------------------------------------------------------------- pointers

  /** Going down by decoded tokens. */
  function Descend(node: Json, tokens: seq<string>): Result<Json>
    decreases |tokens|
  {
    if tokens == [] then Ok(node)
    else match Child(node, tokens[0])
         case Ok(child) => Descend(child, tokens[1..])
         case Err(e) => Err(e)
  }

  /** An array is entered by the one spelling of each index that is there. */
  lemma ItemIs(items: seq<Json>, n: nat)
    ensures Child(Arr(items), Decimal(n)) ==
            if n < |items| && n <= 9_007_199_254_740_991 then Ok(items[n]) else Err(IndexNotFound)
  {
    DecimalIsCanonical(n);
  }

  lemma NoIndexIs(items: seq<Json>, token: string)
    requires forall n: nat :: token != Decimal(n)
    ensures Child(Arr(items), token) == Err(BadIndex)
  {
    if IsCanonical(token) {
      CanonicalIsDecimal(token);
    }
  }

  /** An object is entered by the keys it has, and nothing else can be entered. */
  lemma {:induction false} FieldIs(fields: seq<Field>, token: string, i: nat)
    requires UniqueKeys(Obj(fields))
    ensures i < |fields| && fields[i].key == token ==> Child(Obj(fields), token) == Ok(fields[i].value)
    ensures (forall j :: 0 <= j < |fields| ==> fields[j].key != token) ==> Child(Obj(fields), token) == Err(KeyNotFound)
  {
    if i < |fields| {
      LookupFinds(fields, i);
    }
    if forall j :: 0 <= j < |fields| ==> fields[j].key != token {
      LookupMisses(fields, token);
    }
  }

  lemma {:induction false} LookupMisses(fields: seq<Field>, key: string)
    requires forall j :: 0 <= j < |fields| ==> fields[j].key != key
    ensures Lookup(fields, key) == None
  {
    if fields != [] {
      LookupMisses(fields[1..], key);
    }
  }

  lemma LeafIs(node: Json, token: string)
    requires !node.Arr? && !node.Obj?
    ensures Child(node, token) == Err(KeyNotFound)
  {
  }

  function Decoded(encoded: seq<string>): seq<string> {
    seq(|encoded|, i requires 0 <= i < |encoded| => Decode(encoded[i]))
  }

  lemma {:induction false} WalkIs(node: Json, encoded: seq<string>)
    ensures if exists i :: 0 <= i < |encoded| && HasBadEscape(encoded[i]) then Walk(node, encoded).Err?
            else Walk(node, encoded) == Descend(node, Decoded(encoded))
    decreases |encoded|
  {
    if encoded != [] {
      assert Decoded(encoded)[1..] == Decoded(encoded[1..]);
      assert encoded == [encoded[0]] + encoded[1..];
      if Step(node, encoded[0]).Ok? {
        WalkIs(Step(node, encoded[0]).value, encoded[1..]);
      }
    }
  }

  /**
   A pointer within 4096 characters and bytes, of at most 64 well-formed tokens, leads where its tokens
   lead; no other is resolved.
   */
  lemma ResolveIs(root: Json, pointer: string, bytes: string -> nat)
    ensures |pointer| > 4096 || bytes(pointer) > 4096 ==> Resolve(root, pointer, bytes) == Err(TooLong)
    ensures |pointer| <= 4096 && bytes(pointer) <= 4096 ==>
              match Parse(pointer)
              case Some(tokens) => Resolve(root, pointer, bytes) == if |tokens| > 64 then Err(TooDeep) else Descend(root, tokens)
              case None =>
                Resolve(root, pointer, bytes).Err? && (pointer[0] != '/' ==> Resolve(root, pointer, bytes) == Err(NoLeadingSlash))
  {
    if pointer != "" && pointer[0] == '/' {
      WalkIs(root, Split(pointer[1..]));
    }
  }

  // ---------------------------------------------------------------- pages

  /** A page may take 24 000 bytes. */
  lemma BudgetIs(size: Option<nat>)
    ensures Paging.Fits(size) <==> size.Some? && size.value <= 24_000
  {
  }

  lemma {:induction false} SumSplits(a: seq<nat>, b: seq<nat>)
    ensures Paging.Sum(a + b) == Paging.Sum(a) + Paging.Sum(b)
    decreases |b|
  {
    if b == [] {
      assert a + b == a;
    } else {
      var all := a + b;
      assert all[..|all| - 1] == a + b[..|b| - 1];
      SumSplits(a, b[..|b| - 1]);
    }
  }

  /** The printed count, the printed next offset or "null", and one more cost for each code point. */
  lemma StringSizeIs(base: nat, costs: seq<nat>, offset: nat, total: nat, count: nat)
    requires count < |costs|
    ensures var next := if offset + count < total then Decimal(offset + count) else "null";
            Paging.StringSize(base, costs, offset, total, count) ==
            base + |Decimal(count)| + |next| + Paging.Sum(costs[..count])
    ensures Paging.Sum(costs[..count + 1]) == Paging.Sum(costs[..count]) + costs[count]
    ensures Paging.StringFits(base, costs, offset, total, count) <==>
            Paging.StringSize(base, costs, offset, total, count) <= 24_000
  {
    assert costs[..count + 1][..count] == costs[..count];
  }

  // ---------------------------------------------------------------- code points

  predicate IsHigh(unit: Paging.Unit) {
    0xD800 <= unit <= 0xDBFF
  }

  predicate IsLow(unit: Paging.Unit) {
    0xDC00 <= unit <= 0xDFFF
  }

  predicate IsCodePoint(part: seq<Paging.Unit>) {
    |part| == 1 || (|part| == 2 && IsHigh(part[0]) && IsLow(part[1]))
  }

  /** Single units and surrogate pairs, no pair left apart. */
  ghost predicate AreCodePoints(parts: seq<seq<Paging.Unit>>) {
    && (forall i :: 0 <= i < |parts| ==> IsCodePoint(parts[i]))
    && forall i :: 0 < i < |parts| && |parts[i - 1]| == 1 && IsHigh(parts[i - 1][0]) ==> !IsLow(parts[i][0])
  }

  lemma FirstUnit(units: seq<Paging.Unit>)
    requires units != []
    ensures var parts := Paging.CodePoints(units); parts != [] && parts[0] != [] && parts[0][0] == units[0]
  {
  }

  lemma AreCodePointsCons(part: seq<Paging.Unit>, rest: seq<seq<Paging.Unit>>)
    requires IsCodePoint(part) && AreCodePoints(rest)
    requires rest != [] && |part| == 1 && IsHigh(part[0]) ==> !IsLow(rest[0][0])
    ensures AreCodePoints([part] + rest)
  {
    var all := [part] + rest;
    forall i | 0 < i < |all| && |all[i - 1]| == 1 && IsHigh(all[i - 1][0])
      ensures !IsLow(all[i][0])
    {
      assert all[i] == rest[i - 1];
    }
  }

  /** The parts a string page counts are the code points of the string. */
  lemma {:induction false} CodePointsAre(units: seq<Paging.Unit>)
    ensures AreCodePoints(Paging.CodePoints(units))
    decreases |units|
  {
    if units != [] {
      var n := if Paging.IsPair(units) then 2 else 1;
      CodePointsAre(units[n..]);
      if units[n..] != [] {
        FirstUnit(units[n..]);
      }
      AreCodePointsCons(units[..n], Paging.CodePoints(units[n..]));
    }
  }
}
