/**
 The conversation list and its division into tool rounds.

 A round is an assistant message that makes tool calls, together with the tool results that
 follow it before the next user or assistant message.  `ExtractRounds` finds rounds by scanning
 the list with indices; `Exchanges` describes the same thing without indices, as the sequence of
 calls each with its own results.
 */
module Conversation {
  import opened Common

  datatype ToolCall = ToolCall(id: string, name: string, arguments: string)

  /** What one digest line shows: the call and the first stored result for its id, if any. */
  datatype ToolLine = ToolLine(name: string, arguments: string, result: Option<string>)

  /** A round with an error is shown with a failure mark wherever its lines are rendered. */
  datatype Round = Round(assistantIdx: nat, resultIdxs: seq<nat>, hasError: bool,
                         hasThinkOrPlan: bool, lines: seq<ToolLine>)

  /** A warm-tier block: up to four rounds, the turn range it covers and its provenance id. */
  datatype Tier2Block = Tier2Block(provenanceId: string, firstTurn: nat, lastTurn: nat, rounds: seq<Round>)

  datatype Content =
    | Text(text: string)
    | ColdSummary(firstTurn: nat, lastTurn: nat, rounds: seq<Round>)
    | WarmSummary(block: Tier2Block)
    | FlatSummary(digest: Option<string>, rounds: seq<Round>)
    | ForcedSummary(anchor: string, rounds: seq<Round>)

  datatype Message =
    | System(content: Content)
    | User(content: Content)
    | Assistant(text: string, calls: seq<ToolCall>)
    | Tool(callId: string, body: string)

  /** User and assistant messages end the stretch in which results of the previous call may appear. */
  predicate Opens(m: Message) {
    m.User? || m.Assistant?
  }

  predicate IsCall(m: Message) {
    m.Assistant? && m.calls != []
  }

  /** The ids whose results may follow `m`. */
  function CallIds(m: Message): set<string> {
    if m.Assistant? then set c | c in m.calls :: c.id else {}
  }

  predicate PlansOrThinks(m: Message) {
    m.Assistant? && exists c :: c in m.calls && (c.name == "think" || c.name == "plan" || c.name == "hypothesize")
  }

  // ---------------------------------------------------------------- rounds, by index

  /** Indices at or after `j`, before the next user or assistant message, that answer one of `ids`. */
  function ResultIdxs(conv: seq<Message>, ids: set<string>, j: nat): seq<nat>
    requires j <= |conv|
    decreases |conv| - j
  {
    if j == |conv| || Opens(conv[j]) then []
    else (if conv[j].Tool? && conv[j].callId in ids then [j] else []) + ResultIdxs(conv, ids, j + 1)
  }

  predicate IsErrorBody(m: Message) {
    m.Tool? && StartsWith(m.body, "ERROR:")
  }

  /** Body of the first tool message anywhere in the list with this id. */
  function FirstResult(conv: seq<Message>, id: string): Option<string> {
    if conv == [] then None
    else if conv[0].Tool? && conv[0].callId == id then Some(conv[0].body)
    else FirstResult(conv[1..], id)
  }

  function Lines(conv: seq<Message>, calls: seq<ToolCall>): seq<ToolLine> {
    if calls == [] then []
    else [ToolLine(calls[0].name, calls[0].arguments, FirstResult(conv, calls[0].id))] + Lines(conv, calls[1..])
  }

  predicate AnyError(conv: seq<Message>, idxs: seq<nat>) {
    exists k :: k in idxs && k < |conv| && IsErrorBody(conv[k])
  }

  function RoundAt(conv: seq<Message>, i: nat): Round
    requires i < |conv| && conv[i].Assistant?
  {
    var idxs := ResultIdxs(conv, CallIds(conv[i]), i + 1);
    Round(i, idxs, AnyError(conv, idxs), PlansOrThinks(conv[i]), Lines(conv, conv[i].calls))
  }

  function RoundsFrom(conv: seq<Message>, i: nat): seq<Round>
    requires i <= |conv|
    decreases |conv| - i
  {
    if i == |conv| then []
    else (if IsCall(conv[i]) then [RoundAt(conv, i)] else []) + RoundsFrom(conv, i + 1)
  }

  method FindResult(conv: seq<Message>, id: string) returns (result: Option<string>)
    ensures result == FirstResult(conv, id)
  {
    var i := 0;
    while i < |conv|
      invariant 0 <= i <= |conv|
      invariant FirstResult(conv, id) == FirstResult(conv[i..], id)
    {
      if conv[i].Tool? && conv[i].callId == id {
        return Some(conv[i].body);
      }
      assert conv[i..][1..] == conv[i + 1..];
      i := i + 1;
    }
    result := None;
  }

  method DigestLines(conv: seq<Message>, calls: seq<ToolCall>) returns (lines: seq<ToolLine>)
    ensures lines == Lines(conv, calls)
  {
    lines := [];
    var k := 0;
    while k < |calls|
      invariant 0 <= k <= |calls|
      invariant lines + Lines(conv, calls[k..]) == Lines(conv, calls)
    {
      var result := FindResult(conv, calls[k].id);
      assert calls[k..][1..] == calls[k + 1..];
      lines := lines + [ToolLine(calls[k].name, calls[k].arguments, result)];
      k := k + 1;
    }
  }

  /** Scans the results that follow the assistant message at `i`. */
  method ScanResults(conv: seq<Message>, i: nat) returns (idxs: seq<nat>, hasError: bool)
    requires i < |conv| && conv[i].Assistant?
    ensures idxs == ResultIdxs(conv, CallIds(conv[i]), i + 1)
    ensures hasError == AnyError(conv, idxs)
  {
    var ids := CallIds(conv[i]);
    idxs, hasError := [], false;
    var j := i + 1;
    while j < |conv| && !Opens(conv[j])
      invariant i < j <= |conv|
      invariant idxs + ResultIdxs(conv, ids, j) == ResultIdxs(conv, ids, i + 1)
      invariant hasError == AnyError(conv, idxs)
    {
      if conv[j].Tool? && conv[j].callId in ids {
        ghost var before := idxs;
        idxs := idxs + [j];
        hasError := hasError || IsErrorBody(conv[j]);
        assert forall k :: k in idxs <==> k in before || k == j;
      }
      j := j + 1;
    }
  }

  method ExtractRounds(conv: seq<Message>) returns (rounds: seq<Round>)
    ensures rounds == RoundsFrom(conv, 0)
  {
    rounds := [];
    var i := 0;
    while i < |conv|
      invariant 0 <= i <= |conv|
      invariant rounds + RoundsFrom(conv, i) == RoundsFrom(conv, 0)
    {
      Assoc(rounds, if IsCall(conv[i]) then [RoundAt(conv, i)] else [], RoundsFrom(conv, i + 1));
      if IsCall(conv[i]) {
        var idxs, hasError := ScanResults(conv, i);
        var lines := DigestLines(conv, conv[i].calls);
        var round := Round(i, idxs, hasError, PlansOrThinks(conv[i]), lines);
        assert round == RoundAt(conv, i);
        rounds := rounds + [round];
      } else {
        assert rounds + [] == rounds;
      }
      i := i + 1;
    }
  }

  // ---------------------------------------------------------------- the same, without indices

  /** A call message and the results that belong to it. */
  datatype Exchange = Exchange(call: Message, results: seq<Message>)

  function Results(ids: set<string>, s: seq<Message>): seq<Message> {
    if s == [] || Opens(s[0]) then []
    else (if s[0].Tool? && s[0].callId in ids then [s[0]] else []) + Results(ids, s[1..])
  }

  function Exchanges(s: seq<Message>): seq<Exchange> {
    if s == [] then []
    else if IsCall(s[0]) then [Exchange(s[0], Results(CallIds(s[0]), s[1..]))] + Exchanges(s[1..])
    else Exchanges(s[1..])
  }

  /** Call messages only, in order. */
  function Calls(s: seq<Message>): seq<Message> {
    if s == [] then [] else (if IsCall(s[0]) then [s[0]] else []) + Calls(s[1..])
  }

  /** Everything that is neither a call nor a tool result, in order. */
  function Others(s: seq<Message>): seq<Message> {
    if s == [] then [] else (if IsCall(s[0]) || s[0].Tool? then [] else [s[0]]) + Others(s[1..])
  }

  /**
   No orphans: every tool result in `s` answers the nearest preceding user or assistant message,
   where `open` is what the message before `s` left open.
   */
  predicate Paired(open: set<string>, s: seq<Message>)
    decreases |s|
  {
    s == [] ||
    match s[0] {
      case System(_) => Paired(open, s[1..])
      case Tool(id, _) => id in open && Paired(open, s[1..])
      case _ => Paired(CallIds(s[0]), s[1..])
    }
  }

  /** The last user or assistant message before `i`, or -1. */
  function Anchor(conv: seq<Message>, i: nat): (a: int)
    requires i <= |conv|
    ensures -1 <= a < i
    ensures a >= 0 ==> Opens(conv[a])
    ensures forall k :: a < k < i ==> !Opens(conv[k])
  {
    if i == 0 then -1 else if Opens(conv[i - 1]) then i - 1 else Anchor(conv, i - 1)
  }

  function OpenAt(conv: seq<Message>, i: nat): set<string>
    requires i <= |conv|
  {
    var a := Anchor(conv, i);
    if a < 0 then {} else CallIds(conv[a])
  }

  /** `Paired` says what it should: each result has a call of its own before it with only results and notes between. */
  lemma {:induction false} PairedIffOwned(conv: seq<Message>, i: nat)
    requires i <= |conv|
    ensures Paired(OpenAt(conv, i), conv[i..]) <==>
            forall j :: i <= j < |conv| && conv[j].Tool? ==>
              exists k :: 0 <= k < j && conv[k].Assistant? && conv[j].callId in CallIds(conv[k]) &&
                          forall m :: k < m < j ==> !Opens(conv[m])
    decreases |conv| - i
  {
    if i < |conv| {
      PairedIffOwned(conv, i + 1);
      assert conv[i..][0] == conv[i] && conv[i..][1..] == conv[i + 1..];
      if conv[i].Tool? {
        var a := Anchor(conv, i);
        if conv[i].callId in OpenAt(conv, i) {
          assert 0 <= a < i && conv[a].Assistant?;
        } else {
          forall k | 0 <= k < i && conv[k].Assistant? && (forall m :: k < m < i ==> !Opens(conv[m]))
            ensures conv[i].callId !in CallIds(conv[k])
          {
            assert k == a;
          }
        }
      }
    }
  }

  lemma CallsConcat(a: seq<Message>, b: seq<Message>)
    ensures Calls(a + b) == Calls(a) + Calls(b)
  {
    if a == [] {
      assert a + b == b;
    } else {
      assert (a + b)[0] == a[0] && (a + b)[1..] == a[1..] + b;
      CallsConcat(a[1..], b);
      Assoc(if IsCall(a[0]) then [a[0]] else [], Calls(a[1..]), Calls(b));
    }
  }

  lemma OthersConcat(a: seq<Message>, b: seq<Message>)
    ensures Others(a + b) == Others(a) + Others(b)
  {
    if a == [] {
      assert a + b == b;
    } else {
      assert (a + b)[0] == a[0] && (a + b)[1..] == a[1..] + b;
      OthersConcat(a[1..], b);
      Assoc(if IsCall(a[0]) || a[0].Tool? then [] else [a[0]], Others(a[1..]), Others(b));
    }
  }

  /** No result at the head of `s` could belong to a call standing before it. */
  ghost predicate StartsFresh(s: seq<Message>) {
    forall ids :: Results(ids, s) == []
  }

  lemma {:induction false} ResultsConcat(ids: set<string>, a: seq<Message>, b: seq<Message>)
    requires StartsFresh(b)
    ensures Results(ids, a + b) == Results(ids, a)
  {
    if a == [] {
      assert a + b == b;
    } else {
      assert (a + b)[1..] == a[1..] + b;
      ResultsConcat(ids, a[1..], b);
    }
  }

  /** Cutting the list where no result can reach back never separates a call from a result. */
  lemma {:induction false} ExchangesConcat(a: seq<Message>, b: seq<Message>)
    requires StartsFresh(b)
    ensures Exchanges(a + b) == Exchanges(a) + Exchanges(b)
  {
    if a == [] {
      assert a + b == b;
    } else {
      assert (a + b)[1..] == a[1..] + b;
      ExchangesConcat(a[1..], b);
      if IsCall(a[0]) {
        ResultsConcat(CallIds(a[0]), a[1..], b);
      }
    }
  }

  lemma {:induction false} PairedConcat(open: set<string>, a: seq<Message>, b: seq<Message>)
    requires b == [] || Opens(b[0])
    ensures Paired(open, a + b) <==> Paired(open, a) && Paired({}, b)
    decreases |a|
  {
    if a == [] {
      assert a + b == b;
      if b != [] {
        assert Paired(open, b) == Paired(CallIds(b[0]), b[1..]);
      }
    } else {
      assert (a + b)[1..] == a[1..] + b;
      PairedConcat(match a[0] case System(_) => open case Tool(_, _) => open case _ => CallIds(a[0]), a[1..], b);
    }
  }

  lemma {:induction false} PairedSuffix(conv: seq<Message>, i: nat)
    requires i <= |conv| && Paired({}, conv)
    ensures Paired(OpenAt(conv, i), conv[i..])
  {
    if i == 0 {
      assert conv[0..] == conv;
    } else {
      PairedSuffix(conv, i - 1);
      assert conv[i - 1..][0] == conv[i - 1] && conv[i - 1..][1..] == conv[i..];
    }
  }
}
