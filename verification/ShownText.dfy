/**
 The conversation read message by message: which messages make up a round, and what the model reads in place
 of what was shortened: the digest lines of a round, masked and elided bodies, and blocks of the warm tier.
 */
module ShownText {
  import opened Common
  import opened Conversation
  import opened Masking
  import opened Numerals
  import opened Tiers

  // ---------------------------------------------------------------- rounds

  /** Message `k` answers one of the ids before the next user or assistant message. */
  ghost predicate IsAnswer(conv: seq<Message>, ids: set<string>, from: nat, k: nat) {
    && from <= k < |conv| && conv[k].Tool? && conv[k].callId in ids
    && forall m :: from <= m < k ==> !conv[m].User? && !conv[m].Assistant?
  }

  lemma {:induction false} ResultIdxsAre(conv: seq<Message>, ids: set<string>, from: nat, k: nat)
    requires from <= |conv|
    ensures k in ResultIdxs(conv, ids, from) <==> IsAnswer(conv, ids, from, k)
    decreases |conv| - from
  {
    if from < |conv| && !Opens(conv[from]) {
      ResultIdxsAre(conv, ids, from + 1, k);
    }
  }

  /** Message `k` answers a call of message `i`. */
  ghost predicate AnswersCall(conv: seq<Message>, i: nat, k: nat)
    requires i < |conv| && conv[i].Assistant?
  {
    IsAnswer(conv, set c | c in conv[i].calls :: c.id, i + 1, k)
  }

  /** A round: a call message with the indices of its answers, whether one is an error, and whether it thinks or plans. */
  ghost predicate IsRound(conv: seq<Message>, i: nat, round: Round) {
    && i < |conv| && conv[i].Assistant? && |conv[i].calls| > 0 && round.assistantIdx == i
    && (forall k: nat :: k in round.resultIdxs <==> AnswersCall(conv, i, k))
    && (round.hasError <==> exists k: nat :: AnswersCall(conv, i, k) && "ERROR:" <= conv[k].body)
    && (round.hasThinkOrPlan <==> exists c :: c in conv[i].calls && c.name in ["think", "plan", "hypothesize"])
    && round.lines == Lines(conv, conv[i].calls)
  }

  lemma RoundAtIs(conv: seq<Message>, i: nat)
    requires i < |conv| && conv[i].Assistant? && conv[i].calls != []
    ensures IsRound(conv, i, RoundAt(conv, i))
  {
    var round := RoundAt(conv, i);
    forall k: nat
      ensures k in round.resultIdxs <==> AnswersCall(conv, i, k)
    {
      ResultIdxsAre(conv, CallIds(conv[i]), i + 1, k);
    }
  }

  /** Every assistant message that makes calls begins one round, and nothing else does. */
  lemma {:induction false} RoundsAre(conv: seq<Message>, from: nat)
    requires from <= |conv|
    ensures forall round :: round in RoundsFrom(conv, from) ==>
              from <= round.assistantIdx && IsRound(conv, round.assistantIdx, round)
    ensures forall i :: from <= i < |conv| && conv[i].Assistant? && |conv[i].calls| > 0 ==>
              exists round :: round in RoundsFrom(conv, from) && round.assistantIdx == i
    ensures forall a, b :: 0 <= a < b < |RoundsFrom(conv, from)| ==>
              RoundsFrom(conv, from)[a].assistantIdx < RoundsFrom(conv, from)[b].assistantIdx
    decreases |conv| - from
  {
    if from < |conv| {
      RoundsAre(conv, from + 1);
      var rest := RoundsFrom(conv, from + 1);
      if conv[from].Assistant? && |conv[from].calls| > 0 {
        RoundAtIs(conv, from);
        RoundsCons(RoundAt(conv, from), rest, from);
      } else {
        assert RoundsFrom(conv, from) == rest;
      }
    }
  }

  lemma RoundsCons(round: Round, rest: seq<Round>, from: nat)
    requires round.assistantIdx == from && forall r :: r in rest ==> from < r.assistantIdx
    requires forall a, b :: 0 <= a < b < |rest| ==> rest[a].assistantIdx < rest[b].assistantIdx
    ensures forall a, b :: 0 <= a < b < |[round] + rest| ==> ([round] + rest)[a].assistantIdx < ([round] + rest)[b].assistantIdx
  {
  }

  /** The results an exchange has are the messages at the indices its round has, in order. */
  lemma {:induction false} ResultsAre(conv: seq<Message>, ids: set<string>, from: nat, k: nat)
    requires from <= |conv| && k < |ResultIdxs(conv, ids, from)|
    ensures |Results(ids, conv[from..])| == |ResultIdxs(conv, ids, from)|
    ensures ResultIdxs(conv, ids, from)[k] < |conv|
    ensures Results(ids, conv[from..])[k] == conv[ResultIdxs(conv, ids, from)[k]]
    decreases |conv| - from
  {
    var later := ResultIdxs(conv, ids, from + 1);
    assert conv[from..][1..] == conv[from + 1..];
    if conv[from].Tool? && conv[from].callId in ids {
      if k > 0 {
        ResultsAre(conv, ids, from + 1, k - 1);
      } else if later != [] {
        ResultsAre(conv, ids, from + 1, 0);
      } else {
        NoResults(conv, ids, from + 1);
      }
    } else {
      ResultsAre(conv, ids, from + 1, k);
    }
  }

  lemma {:induction false} NoResults(conv: seq<Message>, ids: set<string>, from: nat)
    requires from <= |conv| && ResultIdxs(conv, ids, from) == []
    ensures Results(ids, conv[from..]) == []
    decreases |conv| - from
  {
    if from < |conv| && !Opens(conv[from]) {
      assert conv[from..][1..] == conv[from + 1..];
      NoResults(conv, ids, from + 1);
    }
  }

  /** A skeleton names every result of its exchange. */
  lemma {:induction false} ResultIdsAre(results: seq<Message>, k: nat)
    requires k < |results| && forall m :: m in results ==> m.Tool?
    ensures |ResultIds(results)| == |results| && ResultIds(results)[k] == results[k].callId
  {
    assert results[0] in results;
    if |results| > 1 {
      assert forall m :: m in results[1..] ==> m in results;
      ResultIdsAre(results[1..], if k == 0 then 0 else k - 1);
    }
  }

  // ---------------------------------------------------------------- names of tools

  function AllCalls(conv: seq<Message>): seq<ToolCall> {
    if conv == [] then [] else (if conv[0].Assistant? then conv[0].calls else []) + AllCalls(conv[1..])
  }

  lemma {:induction false} AddNamesJoin(names: map<string, string>, a: seq<ToolCall>, b: seq<ToolCall>)
    ensures AddNames(names, a + b) == AddNames(AddNames(names, a), b)
    decreases |a|
  {
    if a == [] {
      assert a + b == b;
    } else {
      assert (a + b)[1..] == a[1..] + b;
      AddNamesJoin(names[a[0].id := a[0].name], a[1..], b);
    }
  }

  lemma {:induction false} NamesAreAdded(conv: seq<Message>, names: map<string, string>)
    ensures NamesIn(conv, names) == AddNames(names, AllCalls(conv))
    decreases |conv|
  {
    if conv != [] {
      var calls := if conv[0].Assistant? then conv[0].calls else [];
      NamesAreAdded(conv[1..], AddNames(names, calls));
      AddNamesJoin(names, calls, AllCalls(conv[1..]));
    }
  }

  lemma {:induction false} AddNamesAre(names: map<string, string>, calls: seq<ToolCall>, id: string)
    ensures id in AddNames(names, calls) <==> id in names || exists k :: 0 <= k < |calls| && calls[k].id == id
    ensures forall k :: 0 <= k < |calls| && calls[k].id == id && (forall j :: k < j < |calls| ==> calls[j].id != id) ==>
              AddNames(names, calls)[id] == calls[k].name
    ensures id in names && (forall k :: 0 <= k < |calls| ==> calls[k].id != id) ==> AddNames(names, calls)[id] == names[id]
    decreases |calls|
  {
    if calls != [] {
      AddNamesAre(names[calls[0].id := calls[0].name], calls[1..], id);
      assert forall k :: 0 < k < |calls| ==> calls[k] == calls[1..][k - 1];
    }
  }

  /** A tool is named by the last call with the id, wherever it is; without one it is "tool". */
  lemma ToolNameIs(conv: seq<Message>, id: string)
    ensures var (calls, name) := (AllCalls(conv), ToolName(NamesIn(conv, map[]), id));
            && (forall k :: 0 <= k < |calls| && calls[k].id == id && (forall j :: k < j < |calls| ==> calls[j].id != id) ==>
                  name == calls[k].name)
            && ((forall k :: 0 <= k < |calls| ==> calls[k].id != id) ==> name == "tool")
  {
    NamesAreAdded(conv, map[]);
    AddNamesAre(map[], AllCalls(conv), id);
  }

  // ---------------------------------------------------------------- digest lines

  /** The first tool message with the id, wherever it is in the list. */
  lemma {:induction false} FirstResultIs(conv: seq<Message>, id: string) returns (i: nat)
    ensures forall j :: 0 <= j < i < |conv| ==> conv[j].Tool? ==> conv[j].callId != id
    ensures i < |conv| ==> conv[i].Tool? && conv[i].callId == id && FirstResult(conv, id) == Some(conv[i].body)
    ensures i >= |conv| ==> FirstResult(conv, id) == None && forall m :: m in conv && m.Tool? ==> m.callId != id
  {
    if conv == [] || (conv[0].Tool? && conv[0].callId == id) {
      i := 0;
    } else {
      var k := FirstResultIs(conv[1..], id);
      i := k + 1;
      assert conv == [conv[0]] + conv[1..];
      assert forall j :: 0 < j < |conv| ==> conv[j] == conv[1..][j - 1];
    }
  }

  /** A round shows a line for each of its calls: the call and the first result for its id. */
  lemma {:induction false} LinesAre(conv: seq<Message>, calls: seq<ToolCall>, k: nat)
    requires k < |calls|
    ensures |Lines(conv, calls)| == |calls|
    ensures var line := Lines(conv, calls)[k];
            line.name == calls[k].name && line.arguments == calls[k].arguments && line.result == FirstResult(conv, calls[k].id)
  {
    if |calls| > 1 {
      LinesAre(conv, calls[1..], if k == 0 then 0 else k - 1);
    }
  }

  // ---------------------------------------------------------------- masked and elided bodies

  /** The first `limit` characters, line breaks turned into blanks, and an ellipsis if there are more. */
  ghost predicate IsPreview(text: string, body: string, limit: nat) {
    && (|body| > limit ==> |text| == limit + 1 && text[limit] == '…')
    && (|body| <= limit ==> |text| == |body|)
    && forall k :: 0 <= k < |text| && k < limit ==> text[k] == if body[k] == '\n' then ' ' else body[k]
  }

  lemma PreviewIs(body: string, limit: nat)
    ensures IsPreview(Preview(body, limit), body, limit)
  {
  }

  /** Results that masking and elision may shorten. */
  predicate MayBeShortened(m: Message) {
    m.Tool? && !(("[observation masked" <= m.body) || ("[TOOL_BODY_ELIDED" <= m.body) || ("ERROR:" <= m.body))
  }

  /** A masked body of 400 characters or more says where to read it again, if it could be archived. */
  ghost predicate IsMasked(text: string, body: string, archived: Option<Pointer>) {
    if |body| >= 400 && archived.Some? then
      exists preview :: IsPreview(preview, body, 300) &&
                        text == "[observation masked" + " — context full; hash=" + archived.value.hash
                                + "]\nRecover with read_artifact({ hash: \"" + archived.value.hash + "\" }) or path: "
                                + archived.value.path + "\nPreview: " + preview
    else text == "[observation masked" + " — context full]"
  }

  lemma MaskedBodyIs(body: string, archived: Option<Pointer>)
    ensures IsMasked(MaskedBody(body, archived), body, archived)
  {
    PreviewIs(body, 300);
  }

  lemma MayBeShortenedIff(m: Message)
    ensures MayBeShortened(m) <==> Maskable(m)
  {
  }

  /** Masking up to `cut` turns the bodies before it that may be shortened into masks, and keeps everything else. */
  lemma MaskedIs(conv: seq<Message>, cut: nat, archive: Archive, i: nat)
    requires cut <= |conv| && i < |conv|
    ensures var masked := MaskedUpTo(conv, cut, archive);
            if i < cut && MayBeShortened(conv[i])
            then masked[i].Tool? && masked[i].callId == conv[i].callId && IsMasked(masked[i].body, conv[i].body, archive(i))
            else masked[i] == conv[i]
  {
    MayBeShortenedIff(conv[i]);
    assert MaskedUpTo(conv, cut, archive)[i] == if i < cut then MaskOne(conv[i], archive(i)) else conv[i];
    if conv[i].Tool? {
      MaskedBodyIs(conv[i].body, archive(i));
    }
  }

  /** An elided body names the tool, its length and where to read it again. */
  ghost predicate IsElided(text: string, name: string, body: string, pointer: Pointer) {
    exists preview, chars :: IsPreview(preview, body, 400) && AllDigits(chars) && NumeralValue(chars) == |body| &&
                             text == "[TOOL_BODY_ELIDED" + " tool=" + name + " original_chars=" + chars + " hash=" + pointer.hash
                                     + "]\nFull body: " + pointer.path + "\nPreview: " + preview
  }

  lemma ElidedBodyIs(name: string, body: string, pointer: Pointer)
    ensures IsElided(ElidedBody(name, body, pointer), name, body, pointer)
  {
    PreviewIs(body, 400);
    DecimalIsCanonical(|body|);
  }

  /** A result that may be shortened, is long enough, was archived and passes the filter, by index and tool name. */
  predicate IsWanted(conv: seq<Message>, i: nat, minChars: nat, wanted: (nat, string) -> bool, archive: Archive)
    requires i < |conv|
  {
    && MayBeShortened(conv[i]) && minChars <= |conv[i].body| && archive(i).Some?
    && wanted(i, ToolName(NamesIn(conv, map[]), conv[i].callId))
  }

  /** A rewritten body begins as no body that may be shortened does. */
  lemma RewrittenDiffers(m: Message, name: string, pointer: Pointer)
    requires MayBeShortened(m)
    ensures ElidedBody(name, m.body, pointer) != m.body
  {
    assert ELIDED <= ElidedBody(name, m.body, pointer);
  }

  /** An elision pass rewrites exactly the results that are long enough, wanted and archived. */
  lemma ElidedIff(conv: seq<Message>, i: nat, minChars: nat, wanted: (nat, string) -> bool, archive: Archive)
    requires i < |conv|
    ensures var once := Elided(conv, minChars, wanted, archive)[i];
            if IsWanted(conv, i, minChars, wanted, archive)
            then once != conv[i] && once.Tool? && once.callId == conv[i].callId
                 && IsElided(once.body, ToolName(NamesIn(conv, map[]), conv[i].callId), conv[i].body, archive(i).value)
            else once == conv[i]
  {
    var once := Elided(conv, minChars, wanted, archive)[i];
    assert once == ElideMessage(conv[i], i, NamesIn(conv, map[]), minChars, wanted, archive);
    MayBeShortenedIff(conv[i]);
    if IsWanted(conv, i, minChars, wanted, archive) {
      var name := ToolName(NamesIn(conv, map[]), conv[i].callId);
      ElidedBodyIs(name, conv[i].body, archive(i).value);
      RewrittenDiffers(conv[i], name, archive(i).value);
    }
  }

  lemma RewrittenIff(conv: seq<Message>, i: nat, minChars: nat, wanted: (nat, string) -> bool, archive: Archive)
    requires i < |conv|
    ensures ElideOne(conv, i, minChars, wanted, archive) != conv[i] <==> IsWanted(conv, i, minChars, wanted, archive)
  {
    ElidedIff(conv, i, minChars, wanted, archive);
  }

  function WantedIdxs(conv: seq<Message>, n: nat, minChars: nat, wanted: (nat, string) -> bool, archive: Archive): set<nat>
    requires n <= |conv|
  {
    set i: nat | i < n && IsWanted(conv, i, minChars, wanted, archive)
  }

  lemma WantedStep(conv: seq<Message>, n: nat, minChars: nat, wanted: (nat, string) -> bool, archive: Archive)
    requires 0 < n <= |conv|
    ensures |WantedIdxs(conv, n, minChars, wanted, archive)| ==
            |WantedIdxs(conv, n - 1, minChars, wanted, archive)|
            + if IsWanted(conv, n - 1, minChars, wanted, archive) then 1 else 0
  {
    var before := WantedIdxs(conv, n - 1, minChars, wanted, archive);
    assert WantedIdxs(conv, n, minChars, wanted, archive) ==
           if IsWanted(conv, n - 1, minChars, wanted, archive) then before + {n - 1} else before;
  }

  /** The pass reports how many it rewrote. */
  lemma {:induction false} ElidedCountIs(conv: seq<Message>, n: nat, minChars: nat, wanted: (nat, string) -> bool,
                                         archive: Archive)
    requires n <= |conv|
    ensures ElidedCount(conv, n, minChars, wanted, archive) == |WantedIdxs(conv, n, minChars, wanted, archive)|
  {
    if n > 0 {
      ElidedCountIs(conv, n - 1, minChars, wanted, archive);
      WantedStep(conv, n, minChars, wanted, archive);
      RewrittenIff(conv, n - 1, minChars, wanted, archive);
    }
  }

  // ---------------------------------------------------------------- warm blocks

  lemma SliceOfTail<T>(s: seq<T>, n: nat, a: nat, b: nat)
    requires n + a <= n + b <= |s|
    ensures s[n..][a..b] == s[n + a..n + b]
  {
  }

  /** Block `k` digests rounds `4k` to `4k + 3`, the last one what is left. */
  lemma {:induction false} BlocksAre(rounds: seq<Round>, base: nat, provenance: Provenance, k: nat)
    requires 4 * k < |rounds|
    ensures |Blocks(rounds, base, provenance)| == (|rounds| + 3) / 4
    ensures var last := if 4 * k + 4 <= |rounds| then 4 * k + 4 else |rounds|;
            Blocks(rounds, base, provenance)[k] ==
            Tier2Block(provenance(rounds[4 * k..last], base + 4 * k), base + 4 * k, base + last - 1, rounds[4 * k..last])
    decreases |rounds|
  {
    var n := if |rounds| < 4 then |rounds| else 4;
    if k > 0 {
      BlocksAre(rounds[n..], base + n, provenance, k - 1);
      var last := if 4 * k + 4 <= |rounds| then 4 * k + 4 else |rounds|;
      SliceOfTail(rounds, 4, 4 * (k - 1), last - 4);
    } else {
      assert rounds[0..n] == rounds[..n];
      if n < |rounds| {
        BlocksAre(rounds[n..], base + n, provenance, 0);
      } else {
        assert rounds[n..] == [];
      }
    }
  }
}
