/** Shortening tool bodies in place: observation masking and body elision.  Neither moves a message. */
module Masking {
  import opened Common
  import opened Conversation
  import opened Numerals

  /** Where an archived body can be read again. */
  datatype Pointer = Pointer(hash: string, path: string)

  /** The outcome of archiving the body of message `i`: a pointer, or nothing when the write fails. */
  type Archive = nat -> Option<Pointer>

  const MASKED := "[observation masked"
  const ELIDED := "[TOOL_BODY_ELIDED"
  const MIN_MASK_CHARS: nat := 400

  /** Bodies that are already shortened, or that report an error, are left alone. */
  predicate Untouchable(body: string) {
    StartsWith(body, MASKED) || StartsWith(body, ELIDED) || StartsWith(body, "ERROR:")
  }

  predicate Maskable(m: Message) {
    m.Tool? && !Untouchable(m.body)
  }

  function Preview(body: string, limit: nat): string {
    seq(if |body| < limit then |body| else limit,
        k requires 0 <= k < |body| => if body[k] == '\n' then ' ' else body[k])
    + if |body| > limit then "…" else ""
  }

  function MaskedBody(body: string, archived: Option<Pointer>): string {
    if |body| >= MIN_MASK_CHARS && archived.Some? then
      MASKED + " — context full; hash=" + archived.value.hash + "]\nRecover with read_artifact({ hash: \""
      + archived.value.hash + "\" }) or path: " + archived.value.path + "\nPreview: " + Preview(body, 300)
    else MASKED + " — context full]"
  }

  function MaskOne(m: Message, archived: Option<Pointer>): Message {
    if Maskable(m) then m.(body := MaskedBody(m.body, archived)) else m
  }

  function ElidedBody(name: string, body: string, pointer: Pointer): string {
    ELIDED + " tool=" + name + " original_chars=" + Decimal(|body|) + " hash="
    + pointer.hash + "]\nFull body: " + pointer.path + "\nPreview: " + Preview(body, 400)
  }

  // ---------------------------------------------------------------- masking down to the budget

  /** The list with the maskable bodies before `cut` masked. */
  function MaskedUpTo(conv: seq<Message>, cut: nat, archive: Archive): seq<Message>
    requires cut <= |conv|
  {
    seq(|conv|, i requires 0 <= i < |conv| => if i < cut then MaskOne(conv[i], archive(i)) else conv[i])
  }

  /** Masking stops at `cut`: it is the first point at which a body was masked and the rest fits. */
  ghost predicate MaskCut(conv: seq<Message>, cut: nat, limit: nat, archive: Archive, over: seq<Message> -> bool) {
    && cut <= limit <= |conv|
    && (cut < limit ==> cut > 0 && Maskable(conv[cut - 1]) && !over(MaskedUpTo(conv, cut, archive)))
    && (forall c :: 0 < c < cut && Maskable(conv[c - 1]) ==> over(MaskedUpTo(conv, c, archive)))
  }

  lemma MaskStep(conv: seq<Message>, i: nat, archive: Archive)
    requires i < |conv|
    ensures MaskedUpTo(conv, i, archive)[i] == conv[i]
    ensures MaskedUpTo(conv, i + 1, archive) == MaskedUpTo(conv, i, archive)[i := MaskOne(conv[i], archive(i))]
  {
  }

  method FallbackMaskObservations(conv: seq<Message>, keepMessages: nat, archive: Archive, over: seq<Message> -> bool)
    returns (masked: seq<Message>)
    ensures exists cut :: MaskCut(conv, cut, if |conv| < keepMessages then 0 else |conv| - keepMessages, archive, over)
                          && masked == MaskedUpTo(conv, cut, archive)
  {
    masked := conv;
    assert MaskedUpTo(conv, 0, archive) == conv;
    var limit := if |conv| < keepMessages then 0 else |conv| - keepMessages;
    var i := 0;
    while i < limit
      invariant 0 <= i <= limit
      invariant masked == MaskedUpTo(conv, i, archive)
      invariant forall c :: 0 < c <= i && Maskable(conv[c - 1]) ==> over(MaskedUpTo(conv, c, archive))
    {
      var m := masked[i];
      MaskStep(conv, i, archive);
      if Maskable(m) {
        masked := masked[i := m.(body := MaskedBody(m.body, archive(i)))];
        if !over(masked) {
          assert MaskCut(conv, i + 1, limit, archive, over);
          return;
        }
      }
      i := i + 1;
    }
    assert MaskCut(conv, limit, limit, archive, over);
  }

  // ---------------------------------------------------------------- elision

  function AddNames(names: map<string, string>, calls: seq<ToolCall>): map<string, string>
    decreases |calls|
  {
    if calls == [] then names else AddNames(names[calls[0].id := calls[0].name], calls[1..])
  }

  /** Tool names by call id; a later call with the same id wins. */
  function NamesIn(conv: seq<Message>, names: map<string, string>): map<string, string>
    decreases |conv|
  {
    if conv == [] then names
    else NamesIn(conv[1..], if conv[0].Assistant? then AddNames(names, conv[0].calls) else names)
  }

  method CollectNames(conv: seq<Message>) returns (names: map<string, string>)
    ensures names == NamesIn(conv, map[])
  {
    names := map[];
    var i := 0;
    while i < |conv|
      invariant 0 <= i <= |conv|
      invariant NamesIn(conv[i..], names) == NamesIn(conv, map[])
    {
      assert conv[i..][1..] == conv[i + 1..];
      if conv[i].Assistant? {
        var calls := conv[i].calls;
        ghost var before := names;
        var k := 0;
        while k < |calls|
          invariant 0 <= k <= |calls|
          invariant AddNames(names, calls[k..]) == AddNames(before, calls)
        {
          assert calls[k..][1..] == calls[k + 1..];
          names := names[calls[k].id := calls[k].name];
          k := k + 1;
        }
      }
      i := i + 1;
    }
  }

  function ToolName(names: map<string, string>, id: string): string {
    if id in names then names[id] else "tool"
  }

  /** Message `i` after an elision pass with a length floor and the pass's own filter. */
  function ElideMessage(m: Message, i: nat, names: map<string, string>, minChars: nat,
                        wanted: (nat, string) -> bool, archive: Archive): Message
  {
    if m.Tool? && !Untouchable(m.body) && |m.body| >= minChars && wanted(i, ToolName(names, m.callId)) && archive(i).Some?
    then m.(body := ElidedBody(ToolName(names, m.callId), m.body, archive(i).value))
    else m
  }

  function ElideOne(conv: seq<Message>, i: nat, minChars: nat, wanted: (nat, string) -> bool, archive: Archive): Message
    requires i < |conv|
  {
    ElideMessage(conv[i], i, NamesIn(conv, map[]), minChars, wanted, archive)
  }

  /** How many of the first `n` messages an elision pass rewrites. */
  function ElidedCount(conv: seq<Message>, n: nat, minChars: nat, wanted: (nat, string) -> bool, archive: Archive): nat
    requires n <= |conv|
  {
    if n == 0 then 0
    else ElidedCount(conv, n - 1, minChars, wanted, archive)
         + if ElideOne(conv, n - 1, minChars, wanted, archive) == conv[n - 1] then 0 else 1
  }

  function Elided(conv: seq<Message>, minChars: nat, wanted: (nat, string) -> bool, archive: Archive): seq<Message> {
    seq(|conv|, i requires 0 <= i < |conv| => ElideOne(conv, i, minChars, wanted, archive))
  }

  // ---------------------------------------------------------------- what shortening keeps

  /** The same message up to the text of a tool body. */
  ghost predicate SameButBody(m: Message, n: Message) {
    m == n || (m.Tool? && n.Tool? && m.callId == n.callId)
  }

  ghost predicate SameShape(a: seq<Message>, b: seq<Message>) {
    |a| == |b| && forall i :: 0 <= i < |a| ==> SameButBody(a[i], b[i])
  }

  lemma {:induction false} ShapeKeepsPairing(open: set<string>, a: seq<Message>, b: seq<Message>)
    requires SameShape(a, b)
    ensures Paired(open, a) <==> Paired(open, b)
    decreases |a|
  {
    if a != [] {
      assert SameButBody(a[0], b[0]);
      assert SameShape(a[1..], b[1..]) by {
        forall i | 0 <= i < |a[1..]| ensures SameButBody(a[1..][i], b[1..][i]) {
          assert SameButBody(a[i + 1], b[i + 1]);
        }
      }
      ShapeKeepsPairing(if a[0].System? || a[0].Tool? then open else CallIds(a[0]), a[1..], b[1..]);
    }
  }

  /** Calls with the ids of their results, in order, ignoring what the results say. */
  datatype Skeleton = Skeleton(call: Message, resultIds: seq<string>)

  function ResultIds(results: seq<Message>): seq<string> {
    if results == [] then []
    else (if results[0].Tool? then [results[0].callId] else []) + ResultIds(results[1..])
  }

  function Skeletons(es: seq<Exchange>): (r: seq<Skeleton>)
    ensures |r| == |es|
    ensures forall k :: 0 <= k < |es| ==> r[k] == Skeleton(es[k].call, ResultIds(es[k].results))
  {
    seq(|es|, k requires 0 <= k < |es| => Skeleton(es[k].call, ResultIds(es[k].results)))
  }

  lemma TailsSameShape(a: seq<Message>, b: seq<Message>)
    requires SameShape(a, b) && a != []
    ensures SameShape(a[1..], b[1..])
  {
    forall i | 0 <= i < |a[1..]| ensures SameButBody(a[1..][i], b[1..][i]) {
      assert SameButBody(a[i + 1], b[i + 1]);
    }
  }

  lemma {:induction false} ShapeKeepsResults(ids: set<string>, a: seq<Message>, b: seq<Message>)
    requires SameShape(a, b)
    ensures ResultIds(Results(ids, a)) == ResultIds(Results(ids, b))
  {
    if a != [] {
      assert SameButBody(a[0], b[0]);
      TailsSameShape(a, b);
      ShapeKeepsResults(ids, a[1..], b[1..]);
      if a[0].Tool? && a[0].callId in ids {
        var ra, rb := Results(ids, a[1..]), Results(ids, b[1..]);
        assert ([a[0]] + ra)[1..] == ra && ([b[0]] + rb)[1..] == rb;
      } else if !Opens(a[0]) {
        assert Results(ids, a) == Results(ids, a[1..]) && Results(ids, b) == Results(ids, b[1..]);
      }
    }
  }

  lemma {:induction false} ShapeKeepsSkeletons(a: seq<Message>, b: seq<Message>)
    requires SameShape(a, b)
    ensures Skeletons(Exchanges(a)) == Skeletons(Exchanges(b))
  {
    if a != [] {
      assert SameButBody(a[0], b[0]);
      TailsSameShape(a, b);
      ShapeKeepsSkeletons(a[1..], b[1..]);
      if IsCall(a[0]) {
        ShapeKeepsResults(CallIds(a[0]), a[1..], b[1..]);
        SkeletonsCons(Exchange(a[0], Results(CallIds(a[0]), a[1..])), Exchanges(a[1..]));
        SkeletonsCons(Exchange(b[0], Results(CallIds(b[0]), b[1..])), Exchanges(b[1..]));
      }
    }
  }

  lemma SkeletonsCons(e: Exchange, es: seq<Exchange>)
    ensures Skeletons([e] + es) == [Skeleton(e.call, ResultIds(e.results))] + Skeletons(es)
  {
  }

  lemma MaskingKeepsShape(conv: seq<Message>, cut: nat, archive: Archive)
    requires cut <= |conv|
    ensures SameShape(conv, MaskedUpTo(conv, cut, archive))
    ensures forall i :: 0 <= i < |conv| && !Maskable(conv[i]) ==> MaskedUpTo(conv, cut, archive)[i] == conv[i]
  {
    forall i | 0 <= i < |conv|
      ensures SameButBody(conv[i], MaskedUpTo(conv, cut, archive)[i])
      ensures !Maskable(conv[i]) ==> MaskedUpTo(conv, cut, archive)[i] == conv[i]
    {
      assert MaskedUpTo(conv, cut, archive)[i] == if i < cut then MaskOne(conv[i], archive(i)) else conv[i];
    }
  }

  /** Names come from call messages, which shortening leaves alone. */
  lemma {:induction false} ShapeKeepsNames(a: seq<Message>, b: seq<Message>, names: map<string, string>)
    requires SameShape(a, b)
    ensures NamesIn(a, names) == NamesIn(b, names)
    decreases |a|
  {
    if a != [] {
      assert SameButBody(a[0], b[0]);
      TailsSameShape(a, b);
      ShapeKeepsNames(a[1..], b[1..], if a[0].Assistant? then AddNames(names, a[0].calls) else names);
    }
  }

  /** A second pass with the same settings and the same archive outcomes changes nothing. */
  lemma ElisionIsFixedPoint(conv: seq<Message>, minChars: nat, wanted: (nat, string) -> bool, archive: Archive)
    ensures SameShape(conv, Elided(conv, minChars, wanted, archive))
    ensures Elided(Elided(conv, minChars, wanted, archive), minChars, wanted, archive) ==
            Elided(conv, minChars, wanted, archive)
  {
    var once := Elided(conv, minChars, wanted, archive);
    ShapeKeepsNames(conv, once, map[]);
    forall i | 0 <= i < |conv|
      ensures ElideOne(once, i, minChars, wanted, archive) == once[i]
    {
      if once[i] != conv[i] {
        assert ELIDED <= once[i].body;
      }
    }
  }
}
