/**
 Replacing old tool rounds by summary messages: which rounds go, how the list is rebuilt around
 them, and how the removed rounds are divided into cold and warm summaries.
 */
module Compression {
  import opened Common
  import opened Conversation

  // ---------------------------------------------------------------- which rounds are compressed

  function Unplanned(rounds: seq<Round>): seq<Round> {
    if rounds == [] then []
    else (if rounds[0].hasThinkOrPlan then [] else [rounds[0]]) + Unplanned(rounds[1..])
  }

  /** Rounds older than the last `keepRecent`, without those that think or plan. */
  function ToCompress(rounds: seq<Round>, keepRecent: nat): seq<Round> {
    if |rounds| <= keepRecent then [] else Unplanned(rounds[..|rounds| - keepRecent])
  }

  method SelectRounds(rounds: seq<Round>, keepRecent: nat) returns (selected: seq<Round>)
    ensures selected == ToCompress(rounds, keepRecent)
  {
    selected := [];
    if |rounds| > keepRecent {
      ghost var aged := rounds[..|rounds| - keepRecent];
      var k := 0;
      while k < |rounds| - keepRecent
        invariant 0 <= k <= |rounds| - keepRecent
        invariant selected + Unplanned(aged[k..]) == Unplanned(aged)
      {
        UnplannedStep(aged[k..], selected);
        assert aged[k..][1..] == aged[k + 1..];
        if !rounds[k].hasThinkOrPlan {
          selected := selected + [rounds[k]];
        }
        k := k + 1;
      }
    }
  }

  lemma UnplannedStep(rest: seq<Round>, selected: seq<Round>)
    requires rest != []
    ensures selected + Unplanned(rest) ==
            (if rest[0].hasThinkOrPlan then selected else selected + [rest[0]]) + Unplanned(rest[1..])
  {
    var later := Unplanned(rest[1..]);
    if rest[0].hasThinkOrPlan {
      assert Unplanned(rest) == later;
    } else {
      assert Unplanned(rest) == [rest[0]] + later;
      Assoc(selected, [rest[0]], later);
    }
  }

  /** Every list index that belongs to one of the rounds. */
  ghost function RoundIdxs(rounds: seq<Round>): set<nat> {
    if rounds == [] then {}
    else {rounds[0].assistantIdx} + (set j | j in rounds[0].resultIdxs) + RoundIdxs(rounds[1..])
  }

  ghost function StartIdxs(rounds: seq<Round>): set<nat> {
    set r | r in rounds :: r.assistantIdx
  }

  method CollectRemoved(rounds: seq<Round>) returns (removed: set<nat>)
    ensures removed == RoundIdxs(rounds)
  {
    removed := {};
    var k := 0;
    while k < |rounds|
      invariant 0 <= k <= |rounds|
      invariant removed + RoundIdxs(rounds[k..]) == RoundIdxs(rounds)
    {
      assert rounds[k..][1..] == rounds[k + 1..];
      removed := removed + {rounds[k].assistantIdx} + set j | j in rounds[k].resultIdxs;
      k := k + 1;
    }
  }

  method FirstRemoved(removed: set<nat>) returns (first: nat)
    requires removed != {}
    ensures first in removed && forall j :: j in removed ==> first <= j
  {
    first :| first in removed;
    var rest := removed;
    while rest != {}
      invariant rest <= removed && first in removed
      invariant forall k :: k in removed && k !in rest ==> first <= k
      decreases rest
    {
      var j :| j in rest;
      rest := rest - {j};
      first := if j < first then j else first;
    }
  }

  // ---------------------------------------------------------------- rebuilding the list

  /** Messages at index `i` and later that are not removed. */
  function Kept(conv: seq<Message>, removed: set<nat>, i: nat): seq<Message>
    requires i <= |conv|
    decreases |conv| - i
  {
    if i == |conv| then []
    else (if i in removed then [] else [conv[i]]) + Kept(conv, removed, i + 1)
  }

  /** The summaries stand where the first removed message was, or in front when nothing kept follows it. */
  function Rebuilt(conv: seq<Message>, removed: set<nat>, first: nat, summaries: seq<Message>): seq<Message>
    requires first <= |conv|
  {
    if Kept(conv, removed, first) == [] then summaries + Kept(conv[..first], removed, 0)
    else Kept(conv[..first], removed, 0) + summaries + Kept(conv, removed, first)
  }

  lemma {:induction false} KeptFront(conv: seq<Message>, front: seq<Message>, removed: set<nat>, i: nat)
    requires i <= |front| <= |conv| && forall k :: 0 <= k < |front| ==> front[k] == conv[k]
    ensures Kept(conv, removed, i) == Kept(front, removed, i) + Kept(conv, removed, |front|)
    decreases |front| - i
  {
    var tail := Kept(conv, removed, |front|);
    if i == |front| {
      assert Kept(front, removed, i) == [];
      Assoc([], tail, []);
    } else {
      KeptFront(conv, front, removed, i + 1);
      var head := if i in removed then [] else [conv[i]];
      KeptStep(conv, removed, i);
      KeptStep(front, removed, i);
      Assoc(head, Kept(front, removed, i + 1), tail);
    }
  }

  lemma KeptStep(conv: seq<Message>, removed: set<nat>, i: nat)
    requires i < |conv|
    ensures Kept(conv, removed, i) == (if i in removed then [] else [conv[i]]) + Kept(conv, removed, i + 1)
  {
  }

  lemma KeptSplit(conv: seq<Message>, removed: set<nat>, i: nat, m: nat)
    requires i <= m <= |conv|
    ensures Kept(conv, removed, i) == Kept(conv[..m], removed, i) + Kept(conv, removed, m)
  {
    KeptFront(conv, conv[..m], removed, i);
  }

  /** `Kept` between two indices, growing at the right end. */
  function KeptRange(conv: seq<Message>, removed: set<nat>, lo: nat, hi: nat): seq<Message>
    requires lo <= hi <= |conv|
  {
    if lo == hi then []
    else KeptRange(conv, removed, lo, hi - 1) + if hi - 1 in removed then [] else [conv[hi - 1]]
  }

  lemma {:induction false} RangeIsKept(conv: seq<Message>, removed: set<nat>, lo: nat, hi: nat)
    requires lo <= hi <= |conv|
    ensures KeptRange(conv, removed, lo, hi) == Kept(conv[..hi], removed, lo)
    decreases hi - lo
  {
    if lo < hi {
      RangeIsKept(conv, removed, lo, hi - 1);
      KeptSplit(conv[..hi], removed, lo, hi - 1);
      assert conv[..hi][..hi - 1] == conv[..hi - 1];
      assert Kept(conv[..hi], removed, hi) == [];
    }
  }

  /** The list built from the messages before `i`, and whether the summaries are in it yet. */
  function Progress(conv: seq<Message>, removed: set<nat>, first: nat, summaries: seq<Message>, i: nat)
    : (r: (seq<Message>, bool))
    requires i <= |conv|
  {
    if i == 0 then ([], false) else
    var (built, inserted) := Progress(conv, removed, first, summaries, i - 1);
    if i - 1 in removed then (built, inserted)
    else if !inserted && i - 1 >= first then (built + summaries + [conv[i - 1]], true)
    else (built + [conv[i - 1]], inserted)
  }

  method RebuildConv(conv: seq<Message>, removed: set<nat>, first: nat, summaries: seq<Message>)
    returns (newConv: seq<Message>)
    requires first < |conv| && first in removed
    ensures newConv == Rebuilt(conv, removed, first, summaries)
  {
    newConv := [];
    var inserted := false;
    var i := 0;
    while i < |conv|
      invariant 0 <= i <= |conv|
      invariant (newConv, inserted) == Progress(conv, removed, first, summaries, i)
    {
      if i !in removed {
        if !inserted && i >= first {
          newConv := newConv + summaries;
          inserted := true;
        }
        newConv := newConv + [conv[i]];
      }
      i := i + 1;
    }
    RebuildEnds(conv, removed, first, summaries);
    if !inserted {
      newConv := summaries + newConv;
    }
  }

  lemma {:induction false} ProgressBefore(conv: seq<Message>, removed: set<nat>, first: nat, summaries: seq<Message>, i: nat)
    requires i <= first < |conv|
    ensures Progress(conv, removed, first, summaries, i) == (KeptRange(conv, removed, 0, i), false)
  {
    if i > 0 {
      ProgressBefore(conv, removed, first, summaries, i - 1);
      assert KeptRange(conv, removed, 0, i - 1) + [] == KeptRange(conv, removed, 0, i - 1);
    }
  }

  /** Past the first removed message: nothing kept since, or the summaries and what was kept since. */
  lemma {:induction false} ProgressAfter(conv: seq<Message>, removed: set<nat>, first: nat, summaries: seq<Message>, i: nat)
    requires first < i <= |conv| && first in removed
    ensures var before, after := KeptRange(conv, removed, 0, first), KeptRange(conv, removed, first, i);
            Progress(conv, removed, first, summaries, i) ==
            if after == [] then (before, false) else (before + summaries + after, true)
  {
    if i == first + 1 {
      ProgressBefore(conv, removed, first, summaries, first);
      assert KeptRange(conv, removed, first, first) == [];
    } else {
      ProgressAfter(conv, removed, first, summaries, i - 1);
      var after := KeptRange(conv, removed, first, i - 1);
      Snoc(KeptRange(conv, removed, 0, first) + summaries, after, conv[i - 1]);
    }
  }

  lemma Snoc(front: seq<Message>, after: seq<Message>, m: Message)
    ensures (front + after) + [m] == front + (after + [m]) && after + [] == after
    ensures after == [] ==> after + [m] == [m]
  {
  }

  lemma RebuildEnds(conv: seq<Message>, removed: set<nat>, first: nat, summaries: seq<Message>)
    requires first < |conv| && first in removed
    ensures var (built, inserted) := Progress(conv, removed, first, summaries, |conv|);
            Rebuilt(conv, removed, first, summaries) == if inserted then built else summaries + built
  {
    ProgressAfter(conv, removed, first, summaries, |conv|);
    RangeIsKept(conv, removed, 0, first);
    RangeIsKept(conv, removed, first, |conv|);
    assert conv[..|conv|] == conv;
  }

  // ---------------------------------------------------------------- what is removed

  /** `rounds` are rounds of `conv`, whatever their error marks. */
  ghost predicate RoundsOf(conv: seq<Message>, rounds: seq<Round>) {
    forall r :: r in rounds ==>
      r.assistantIdx < |conv| && IsCall(conv[r.assistantIdx]) &&
      r.resultIdxs == ResultIdxs(conv, CallIds(conv[r.assistantIdx]), r.assistantIdx + 1)
  }

  /** Dropping the calls at `drop` takes each of them and exactly its own results. */
  ghost predicate Dropped(conv: seq<Message>, drop: set<nat>, j: nat)
    requires j < |conv|
  {
    if conv[j].Tool? then
      var a := Anchor(conv, j);
      a >= 0 && a in drop && conv[j].callId in CallIds(conv[a])
    else j in drop
  }

  lemma {:induction false} ResultIdxsExactly(conv: seq<Message>, ids: set<string>, j: nat)
    requires j <= |conv|
    ensures forall k :: k in ResultIdxs(conv, ids, j) <==>
              j <= k < |conv| && conv[k].Tool? && conv[k].callId in ids && forall m :: j <= m < k ==> !Opens(conv[m])
    decreases |conv| - j
  {
    if j < |conv| && !Opens(conv[j]) {
      ResultIdxsExactly(conv, ids, j + 1);
      forall k
        ensures k in ResultIdxs(conv, ids, j) <==>
                j <= k < |conv| && conv[k].Tool? && conv[k].callId in ids && forall m :: j <= m < k ==> !Opens(conv[m])
      {
        if k in ResultIdxs(conv, ids, j + 1) {
          forall m | j <= m < k ensures !Opens(conv[m]) {}
        }
      }
    }
  }

  lemma {:induction false} RoundIdxsExactly(conv: seq<Message>, rounds: seq<Round>)
    requires RoundsOf(conv, rounds)
    ensures forall j: nat :: j in RoundIdxs(rounds) <==> j < |conv| && Dropped(conv, StartIdxs(rounds), j)
  {
    forall j: nat
      ensures j in RoundIdxs(rounds) <==> j < |conv| && Dropped(conv, StartIdxs(rounds), j)
    {
      RoundIdxsMembers(rounds, j);
      if r :| r in rounds && (j == r.assistantIdx || j in r.resultIdxs) {
        RoundMemberIsDropped(conv, rounds, r, j);
      }
      if j < |conv| && Dropped(conv, StartIdxs(rounds), j) {
        DroppedIsRoundMember(conv, rounds, j);
      }
    }
  }

  lemma RoundMemberIsDropped(conv: seq<Message>, rounds: seq<Round>, r: Round, j: nat)
    requires RoundsOf(conv, rounds) && r in rounds && (j == r.assistantIdx || j in r.resultIdxs)
    ensures j < |conv| && Dropped(conv, StartIdxs(rounds), j)
  {
    ResultIdxsExactly(conv, CallIds(conv[r.assistantIdx]), r.assistantIdx + 1);
    assert r.assistantIdx in StartIdxs(rounds);
    if j in r.resultIdxs {
      assert Anchor(conv, j) == r.assistantIdx;
    }
  }

  lemma DroppedIsRoundMember(conv: seq<Message>, rounds: seq<Round>, j: nat)
    requires RoundsOf(conv, rounds) && j < |conv| && Dropped(conv, StartIdxs(rounds), j)
    ensures exists r :: r in rounds && (j == r.assistantIdx || j in r.resultIdxs)
  {
    var a := if conv[j].Tool? then Anchor(conv, j) else j;
    var r :| r in rounds && r.assistantIdx == a;
    ResultIdxsExactly(conv, CallIds(conv[a]), a + 1);
    assert j == r.assistantIdx || j in r.resultIdxs;
  }

  lemma {:induction false} RoundIdxsMembers(rounds: seq<Round>, j: nat)
    ensures j in RoundIdxs(rounds) <==> exists r :: r in rounds && (j == r.assistantIdx || j in r.resultIdxs)
  {
    if rounds != [] {
      RoundIdxsMembers(rounds[1..], j);
      assert rounds == [rounds[0]] + rounds[1..];
      if j == rounds[0].assistantIdx || j in rounds[0].resultIdxs {
        assert rounds[0] in rounds;
      }
    }
  }

  // ---------------------------------------------------------------- what is kept

  /** Exchanges of `conv[i..]` whose call is not dropped. */
  ghost function KeptExchanges(conv: seq<Message>, drop: set<nat>, i: nat): seq<Exchange>
    requires i <= |conv|
    decreases |conv| - i
  {
    if i == |conv| then []
    else (if IsCall(conv[i]) && i !in drop
          then [Exchange(conv[i], Results(CallIds(conv[i]), conv[i + 1..]))] else []) + KeptExchanges(conv, drop, i + 1)
  }

  /** The set `removed` is what dropping the calls at `drop` removes. */
  ghost predicate Removes(conv: seq<Message>, drop: set<nat>, removed: set<nat>) {
    && (forall i :: i in drop ==> i < |conv| && IsCall(conv[i]))
    && (forall j :: 0 <= j < |conv| ==> (j in removed <==> Dropped(conv, drop, j)))
  }

  ghost predicate AnchorDropped(conv: seq<Message>, drop: set<nat>, i: nat)
    requires i <= |conv|
  {
    Anchor(conv, i) >= 0 && Anchor(conv, i) in drop
  }

  lemma {:induction false} PairedMonotone(open: set<string>, wider: set<string>, s: seq<Message>)
    requires Paired(open, s) && open <= wider
    ensures Paired(wider, s)
  {
    if s != [] && !Opens(s[0]) {
      PairedMonotone(open, wider, s[1..]);
    }
  }

  /** A kept call finds the same results; a dropped one leaves none behind. */
  lemma {:induction false} KeptResults(conv: seq<Message>, drop: set<nat>, removed: set<nat>, i: nat, ids: set<string>)
    requires i <= |conv| && Removes(conv, drop, removed)
    requires Paired(OpenAt(conv, i), conv[i..])
    ensures Results(ids, Kept(conv, removed, i)) == if AnchorDropped(conv, drop, i) then [] else Results(ids, conv[i..])
    decreases |conv| - i
  {
    if i < |conv| {
      assert conv[i..][0] == conv[i] && conv[i..][1..] == conv[i + 1..];
      KeptResults(conv, drop, removed, i + 1, ids);
      var rest := Kept(conv, removed, i + 1);
      if i in removed {
        assert Kept(conv, removed, i) == rest;
      } else {
        assert Kept(conv, removed, i) == [conv[i]] + rest;
        assert ([conv[i]] + rest)[1..] == rest;
      }
    }
  }

  /** Removing whole rounds orphans no result. */
  lemma {:induction false} KeptIsPaired(conv: seq<Message>, drop: set<nat>, removed: set<nat>, i: nat)
    requires i <= |conv| && Removes(conv, drop, removed)
    requires Paired(OpenAt(conv, i), conv[i..])
    ensures Paired(if AnchorDropped(conv, drop, i) then {} else OpenAt(conv, i), Kept(conv, removed, i))
    decreases |conv| - i
  {
    if i < |conv| {
      assert conv[i..][0] == conv[i] && conv[i..][1..] == conv[i + 1..];
      KeptIsPaired(conv, drop, removed, i + 1);
      var rest := Kept(conv, removed, i + 1);
      if i in removed {
        assert Kept(conv, removed, i) == rest;
        PairedMonotone({}, OpenAt(conv, i), rest);
      } else {
        assert Kept(conv, removed, i) == [conv[i]] + rest;
        assert ([conv[i]] + rest)[1..] == rest;
      }
    }
  }

  /** The exchanges left over are those whose call is kept, complete. */
  lemma {:induction false} KeptExchangesAre(conv: seq<Message>, drop: set<nat>, removed: set<nat>, i: nat)
    requires i <= |conv| && Removes(conv, drop, removed)
    requires Paired(OpenAt(conv, i), conv[i..])
    ensures Exchanges(Kept(conv, removed, i)) == KeptExchanges(conv, drop, i)
    decreases |conv| - i
  {
    if i < |conv| {
      assert conv[i..][0] == conv[i] && conv[i..][1..] == conv[i + 1..];
      KeptExchangesAre(conv, drop, removed, i + 1);
      var rest := Kept(conv, removed, i + 1);
      if i in removed {
        assert Kept(conv, removed, i) == rest;
        assert KeptExchanges(conv, drop, i) == KeptExchanges(conv, drop, i + 1);
      } else {
        assert Kept(conv, removed, i) == [conv[i]] + rest;
        assert ([conv[i]] + rest)[1..] == rest;
        if IsCall(conv[i]) {
          KeptResults(conv, drop, removed, i + 1, CallIds(conv[i]));
        }
      }
    }
  }

  /** What is neither a call nor a result is never removed. */
  lemma {:induction false} KeptOthers(conv: seq<Message>, drop: set<nat>, removed: set<nat>, i: nat)
    requires i <= |conv| && Removes(conv, drop, removed)
    ensures Others(Kept(conv, removed, i)) == Others(conv[i..])
    decreases |conv| - i
  {
    if i < |conv| {
      assert conv[i..][0] == conv[i] && conv[i..][1..] == conv[i + 1..];
      KeptOthers(conv, drop, removed, i + 1);
      var rest := Kept(conv, removed, i + 1);
      if i in removed {
        assert Kept(conv, removed, i) == rest;
      } else {
        assert Kept(conv, removed, i) == [conv[i]] + rest;
        assert ([conv[i]] + rest)[1..] == rest;
      }
    }
  }

  lemma KeptCallsStep(conv: seq<Message>, removed: set<nat>, i: nat)
    requires i < |conv|
    ensures Calls(Kept(conv, removed, i)) ==
            (if IsCall(conv[i]) && i !in removed then [conv[i]] else []) + Calls(Kept(conv, removed, i + 1))
  {
    var rest := Kept(conv, removed, i + 1);
    if i in removed {
      assert Kept(conv, removed, i) == rest;
      assert [] + Calls(rest) == Calls(rest);
    } else {
      assert Kept(conv, removed, i) == [conv[i]] + rest;
      assert ([conv[i]] + rest)[1..] == rest;
    }
  }

  lemma KeptExchangesStep(conv: seq<Message>, drop: set<nat>, i: nat)
    requires i < |conv|
    ensures CallsOf(KeptExchanges(conv, drop, i)) ==
            (if IsCall(conv[i]) && i !in drop then [conv[i]] else []) + CallsOf(KeptExchanges(conv, drop, i + 1))
  {
    var tail := KeptExchanges(conv, drop, i + 1);
    if IsCall(conv[i]) && i !in drop {
      var e := Exchange(conv[i], Results(CallIds(conv[i]), conv[i + 1..]));
      assert KeptExchanges(conv, drop, i) == [e] + tail;
      assert ([e] + tail)[1..] == tail;
    } else {
      assert KeptExchanges(conv, drop, i) == tail;
      assert [] + CallsOf(tail) == CallsOf(tail);
    }
  }

  /** Without any assumption on the list, the calls that remain are those not dropped. */
  lemma {:induction false} KeptCalls(conv: seq<Message>, drop: set<nat>, removed: set<nat>, i: nat)
    requires i <= |conv| && Removes(conv, drop, removed)
    ensures Calls(Kept(conv, removed, i)) == CallsOf(KeptExchanges(conv, drop, i))
    decreases |conv| - i
  {
    if i < |conv| {
      KeptCalls(conv, drop, removed, i + 1);
      KeptCallsStep(conv, removed, i);
      KeptExchangesStep(conv, drop, i);
      assert IsCall(conv[i]) ==> (i in removed <==> i in drop);
    }
  }

  function CallsOf(es: seq<Exchange>): seq<Message> {
    if es == [] then [] else [es[0].call] + CallsOf(es[1..])
  }

  // ---------------------------------------------------------------- the result of compressing

  function Planned(es: seq<Exchange>): seq<Exchange> {
    if es == [] then [] else (if PlansOrThinks(es[0].call) then [es[0]] else []) + Planned(es[1..])
  }

  /** What should survive: planning exchanges among the older ones, and the last `keepRecent`. */
  function Surviving(es: seq<Exchange>, keepRecent: nat): seq<Exchange> {
    if |es| <= keepRecent then es else Planned(es[..|es| - keepRecent]) + es[|es| - keepRecent..]
  }

  /** The list with the selected rounds replaced by the summaries. */
  ghost function Recomposed(conv: seq<Message>, selected: seq<Round>, summaries: seq<Message>): seq<Message>
    requires selected != [] && selected[0].assistantIdx <= |conv|
  {
    Rebuilt(conv, RoundIdxs(selected), selected[0].assistantIdx, summaries)
  }

  lemma {:induction false} RoundsAreRounds(conv: seq<Message>, i: nat)
    requires i <= |conv|
    ensures RoundsOf(conv, RoundsFrom(conv, i))
    ensures forall r :: r in RoundsFrom(conv, i) ==> i <= r.assistantIdx
    decreases |conv| - i
  {
    if i < |conv| {
      RoundsAreRounds(conv, i + 1);
      var rest := RoundsFrom(conv, i + 1);
      if IsCall(conv[i]) {
        assert RoundsFrom(conv, i) == [RoundAt(conv, i)] + rest;
      } else {
        assert RoundsFrom(conv, i) == rest;
      }
    }
  }

  ghost predicate Ordered(rounds: seq<Round>) {
    forall k, m :: 0 <= k < m < |rounds| ==> rounds[k].assistantIdx < rounds[m].assistantIdx
  }

  lemma OrderedCons(r: Round, rest: seq<Round>)
    requires Ordered(rest) && forall q :: q in rest ==> r.assistantIdx < q.assistantIdx
    ensures Ordered([r] + rest)
  {
  }

  lemma RoundsCons(conv: seq<Message>, i: nat, rest: seq<Round>)
    requires i < |conv| && rest == RoundsFrom(conv, i + 1)
    requires Ordered(rest) && forall r :: r in rest ==> i < r.assistantIdx
    ensures Ordered(RoundsFrom(conv, i))
  {
    if IsCall(conv[i]) {
      OrderedCons(RoundAt(conv, i), rest);
    }
  }

  lemma {:induction false} RoundsAreOrdered(conv: seq<Message>, i: nat)
    requires i <= |conv|
    ensures Ordered(RoundsFrom(conv, i))
    decreases |conv| - i
  {
    if i < |conv| {
      RoundsAreOrdered(conv, i + 1);
      RoundsAreRounds(conv, i + 1);
      RoundsCons(conv, i, RoundsFrom(conv, i + 1));
    }
  }

  lemma {:induction false} RoundsPlanAsCalls(conv: seq<Message>, i: nat)
    requires i <= |conv|
    ensures |RoundsFrom(conv, i)| == |Calls(conv[i..])|
    ensures forall k :: 0 <= k < |RoundsFrom(conv, i)| ==>
              RoundsFrom(conv, i)[k].hasThinkOrPlan == PlansOrThinks(Calls(conv[i..])[k])
    decreases |conv| - i
  {
    if i < |conv| {
      assert conv[i..][0] == conv[i] && conv[i..][1..] == conv[i + 1..];
      RoundsPlanAsCalls(conv, i + 1);
    }
  }

  lemma {:induction false} UnplannedMembers(rounds: seq<Round>)
    ensures forall r :: r in Unplanned(rounds) <==> r in rounds && !r.hasThinkOrPlan
  {
    if rounds != [] {
      UnplannedMembers(rounds[1..]);
      assert rounds == [rounds[0]] + rounds[1..];
    }
  }

  lemma {:induction false} RoundsCount(conv: seq<Message>, i: nat)
    requires i <= |conv|
    ensures |RoundsFrom(conv, i)| == |Exchanges(conv[i..])|
    ensures forall r :: r in RoundsFrom(conv, i) ==> r.assistantIdx >= i
    decreases |conv| - i
  {
    if i < |conv| {
      assert conv[i..][0] == conv[i] && conv[i..][1..] == conv[i + 1..];
      RoundsCount(conv, i + 1);
    }
  }

  /** `drop` selects, from index `i` on, the calls of the unplanned rounds in `rounds`. */
  ghost predicate Selects(drop: set<nat>, rounds: seq<Round>, i: nat) {
    forall k :: k >= i ==> (k in drop <==> k in StartIdxs(Unplanned(rounds)))
  }

  lemma SelectsTail(drop: set<nat>, r: Round, rest: seq<Round>, i: nat)
    requires Selects(drop, [r] + rest, i) && r.assistantIdx == i
    requires forall q :: q in rest ==> q.assistantIdx > i
    ensures Selects(drop, rest, i + 1)
    ensures i in drop <==> !r.hasThinkOrPlan
  {
    assert ([r] + rest)[1..] == rest;
    UnplannedMembers(rest);
    assert Unplanned([r] + rest) == (if r.hasThinkOrPlan then [] else [r]) + Unplanned(rest);
    assert !r.hasThinkOrPlan ==> r in Unplanned([r] + rest);
  }

  /** Dropping the unplanned ones among the first `m` rounds leaves the planned ones and the rest. */
  lemma {:induction false} SelectionKeeps(conv: seq<Message>, i: nat, m: nat, drop: set<nat>)
    requires i <= |conv| && m <= |RoundsFrom(conv, i)|
    requires Selects(drop, RoundsFrom(conv, i)[..m], i)
    ensures m <= |Exchanges(conv[i..])|
    ensures KeptExchanges(conv, drop, i) == Planned(Exchanges(conv[i..])[..m]) + Exchanges(conv[i..])[m..]
    decreases |conv| - i
  {
    RoundsCount(conv, i);
    if i < |conv| {
      assert conv[i..][0] == conv[i] && conv[i..][1..] == conv[i + 1..];
      RoundsCount(conv, i + 1);
      var rs, es := RoundsFrom(conv, i + 1), Exchanges(conv[i + 1..]);
      if !IsCall(conv[i]) {
        assert RoundsFrom(conv, i) == rs;
        SelectionKeeps(conv, i + 1, m, drop);
      } else {
        var r := RoundAt(conv, i);
        var e := Exchange(conv[i], Results(CallIds(conv[i]), conv[i + 1..]));
        assert RoundsFrom(conv, i) == [r] + rs && Exchanges(conv[i..]) == [e] + es;
        if m == 0 {
          SelectionKeeps(conv, i + 1, 0, drop);
          assert es[..0] == [] && Exchanges(conv[i..])[..0] == [];
          assert i !in drop;
        } else {
          assert ([r] + rs)[..m] == [r] + rs[..m - 1];
          SelectsTail(drop, r, rs[..m - 1], i);
          SelectionKeeps(conv, i + 1, m - 1, drop);
          PlannedCons(e, es, m);
        }
      }
    }
  }

  lemma PlannedCons(e: Exchange, es: seq<Exchange>, m: nat)
    requires 0 < m <= |es| + 1
    ensures Planned(([e] + es)[..m]) + ([e] + es)[m..] ==
            (if PlansOrThinks(e.call) then [e] else []) + (Planned(es[..m - 1]) + es[m - 1..])
  {
    assert ([e] + es)[..m] == [e] + es[..m - 1];
    assert ([e] + es[..m - 1])[1..] == es[..m - 1];
    assert ([e] + es)[m..] == es[m - 1..];
  }

  lemma {:induction false} UnplannedOrder(rounds: seq<Round>)
    requires Ordered(rounds)
    ensures Unplanned(rounds) != [] ==>
              forall r :: r in Unplanned(rounds) ==> Unplanned(rounds)[0].assistantIdx <= r.assistantIdx
  {
    if rounds != [] {
      UnplannedOrder(rounds[1..]);
      UnplannedMembers(rounds[1..]);
      assert forall r :: r in rounds[1..] ==> rounds[0].assistantIdx < r.assistantIdx;
    }
  }

  /** The facts about a non-empty selection that the theorems below rest on. */
  lemma SelectedFacts(conv: seq<Message>, keepRecent: nat)
    requires ToCompress(RoundsFrom(conv, 0), keepRecent) != []
    ensures var rounds := RoundsFrom(conv, 0);
            var selected := ToCompress(rounds, keepRecent);
            && |rounds| > keepRecent
            && selected[0].assistantIdx < |conv|
            && IsCall(conv[selected[0].assistantIdx])
            && Removes(conv, StartIdxs(selected), RoundIdxs(selected))
            && selected[0].assistantIdx in RoundIdxs(selected)
            && selected[0].assistantIdx in StartIdxs(selected)
            && (forall j :: j in RoundIdxs(selected) ==> selected[0].assistantIdx <= j)
            && Selects(StartIdxs(selected), rounds[..|rounds| - keepRecent], 0)
  {
    var selected := ToCompress(RoundsFrom(conv, 0), keepRecent);
    SelectedAreRounds(conv, keepRecent);
    assert selected[0] in selected;
    RoundIdxsExactly(conv, selected);
    NoneBefore(conv, selected, selected[0].assistantIdx);
  }

  /** Both compressions end this way: collect what goes, find where it starts, rebuild around it. */
  method ReplaceRounds(conv: seq<Message>, keepRecent: nat, selected: seq<Round>, summaries: seq<Message>)
    returns (newConv: seq<Message>)
    requires selected == ToCompress(RoundsFrom(conv, 0), keepRecent) != []
    ensures selected[0].assistantIdx < |conv| && newConv == Recomposed(conv, selected, summaries)
  {
    SelectedFacts(conv, keepRecent);
    var removed := CollectRemoved(selected);
    var first := FirstRemoved(removed);
    newConv := RebuildConv(conv, removed, first, summaries);
  }

  lemma SelectedAreRounds(conv: seq<Message>, keepRecent: nat)
    requires ToCompress(RoundsFrom(conv, 0), keepRecent) != []
    ensures var selected := ToCompress(RoundsFrom(conv, 0), keepRecent);
            RoundsOf(conv, selected) && forall r :: r in selected ==> selected[0].assistantIdx <= r.assistantIdx
  {
    RoundsAreRounds(conv, 0);
    RoundsAreOrdered(conv, 0);
    SelectionFromOrdered(conv, RoundsFrom(conv, 0), |RoundsFrom(conv, 0)| - keepRecent);
  }

  lemma SelectionFromOrdered(conv: seq<Message>, rounds: seq<Round>, n: nat)
    requires n <= |rounds| && RoundsOf(conv, rounds) && Ordered(rounds)
    ensures RoundsOf(conv, Unplanned(rounds[..n]))
    ensures forall r :: r in Unplanned(rounds[..n]) ==> Unplanned(rounds[..n])[0].assistantIdx <= r.assistantIdx
    ensures n < |rounds| ==> forall r :: r in Unplanned(rounds[..n]) ==> r.assistantIdx < rounds[|rounds| - 1].assistantIdx
  {
    UnplannedMembers(rounds[..n]);
    UnplannedOrder(rounds[..n]);
  }

  lemma NoneBefore(conv: seq<Message>, rounds: seq<Round>, first: nat)
    requires RoundsOf(conv, rounds) && forall r :: r in rounds ==> first <= r.assistantIdx
    ensures forall j :: j in RoundIdxs(rounds) ==> first <= j
  {
    forall j | j in RoundIdxs(rounds)
      ensures first <= j
    {
      RoundIdxsMembers(rounds, j);
      var r :| r in rounds && (j == r.assistantIdx || j in r.resultIdxs);
      ResultIdxsExactly(conv, CallIds(conv[r.assistantIdx]), r.assistantIdx + 1);
    }
  }

  lemma {:induction false} KeptAll(conv: seq<Message>, removed: set<nat>, first: nat, i: nat)
    requires i <= first <= |conv| && forall j :: j in removed ==> first <= j
    ensures Kept(conv[..first], removed, i) == conv[i..first]
    decreases first - i
  {
    if i < first {
      KeptAll(conv, removed, first, i + 1);
    }
  }

  /** What the compressed list looks like: nothing before the first removed round is touched. */
  lemma RecomposedShape(conv: seq<Message>, keepRecent: nat, summaries: seq<Message>)
    requires ToCompress(RoundsFrom(conv, 0), keepRecent) != []
    ensures var selected := ToCompress(RoundsFrom(conv, 0), keepRecent);
            var first := selected[0].assistantIdx;
            && first < |conv|
            && var rest := Kept(conv, RoundIdxs(selected), first);
               Recomposed(conv, selected, summaries) ==
                 if rest == [] then summaries + conv[..first] else conv[..first] + summaries + rest
  {
    SelectedFacts(conv, keepRecent);
    var selected := ToCompress(RoundsFrom(conv, 0), keepRecent);
    KeptAll(conv, RoundIdxs(selected), selected[0].assistantIdx, 0);
    assert conv[0..selected[0].assistantIdx] == conv[..selected[0].assistantIdx];
  }

  ghost predicate AreNotes(summaries: seq<Message>) {
    summaries != [] && forall m :: m in summaries ==> m.User?
  }

  lemma {:induction false} NotesHoldNoCalls(notes: seq<Message>)
    requires forall m :: m in notes ==> m.User?
    ensures Calls(notes) == []
  {
    if notes != [] {
      assert notes[0] in notes;
      NotesHoldNoCalls(notes[1..]);
    }
  }

  /** The messages left after removing the selected rounds, before any summary is put in. */
  lemma SurvivorsByExchange(conv: seq<Message>, keepRecent: nat)
    requires ToCompress(RoundsFrom(conv, 0), keepRecent) != []
    ensures var selected := ToCompress(RoundsFrom(conv, 0), keepRecent);
            KeptExchanges(conv, StartIdxs(selected), 0) == Surviving(Exchanges(conv), keepRecent)
  {
    SelectedFacts(conv, keepRecent);
    assert conv[0..] == conv;
    RoundsCount(conv, 0);
    SelectionKeeps(conv, 0, |RoundsFrom(conv, 0)| - keepRecent, StartIdxs(ToCompress(RoundsFrom(conv, 0), keepRecent)));
  }

  lemma CallsAround(a: seq<Message>, notes: seq<Message>, b: seq<Message>)
    requires forall m :: m in notes ==> m.User?
    ensures Calls(a + notes + b) == Calls(a + b)
    ensures Calls(notes + a) == Calls(a)
  {
    NotesHoldNoCalls(notes);
    CallsConcat(notes, a);
    CallsConcat(a, notes);
    CallsConcat(a + notes, b);
    CallsConcat(a, b);
  }

  /** The calls left after compressing, whatever the list looks like. */
  lemma CompressionKeepsCalls(conv: seq<Message>, keepRecent: nat, summaries: seq<Message>)
    requires ToCompress(RoundsFrom(conv, 0), keepRecent) != [] && AreNotes(summaries)
    ensures ToCompress(RoundsFrom(conv, 0), keepRecent)[0].assistantIdx <= |conv|
    ensures Calls(Recomposed(conv, ToCompress(RoundsFrom(conv, 0), keepRecent), summaries)) ==
            CallsOf(Surviving(Exchanges(conv), keepRecent))
  {
    SelectedFacts(conv, keepRecent);
    RecomposedShape(conv, keepRecent, summaries);
    SurvivorsByExchange(conv, keepRecent);
    var selected := ToCompress(RoundsFrom(conv, 0), keepRecent);
    var first, removed := selected[0].assistantIdx, RoundIdxs(selected);
    var rest := Kept(conv, removed, first);
    CallsAround(conv[..first], summaries, rest);
    KeptSplit(conv, removed, 0, first);
    KeptAll(conv, removed, first, 0);
    assert conv[0..first] == conv[..first];
    assert rest == [] ==> conv[..first] + rest == conv[..first];
    KeptCalls(conv, StartIdxs(selected), removed, 0);
  }

  lemma {:induction false} NotesInFront(notes: seq<Message>, s: seq<Message>)
    requires forall m :: m in notes ==> m.User?
    ensures Exchanges(notes + s) == Exchanges(s)
    ensures Paired({}, s) ==> Paired({}, notes + s)
    ensures notes != [] ==> StartsFresh(notes + s)
  {
    if notes == [] {
      assert notes + s == s;
    } else {
      assert notes[0] in notes;
      assert (notes + s)[1..] == notes[1..] + s;
      NotesInFront(notes[1..], s);
    }
  }

  /** The two halves around the first removed round, in a paired list. */
  lemma HalvesOfPaired(conv: seq<Message>, drop: set<nat>, removed: set<nat>, first: nat)
    requires Removes(conv, drop, removed) && Paired({}, conv)
    requires first in drop && forall j :: j in removed ==> first <= j
    ensures var rest := Kept(conv, removed, first);
            && Paired({}, conv[..first]) && Paired({}, rest)
            && Exchanges(conv[..first]) + Exchanges(rest) == KeptExchanges(conv, drop, 0)
            && Others(rest) == Others(conv[first..])
  {
    var rest := Kept(conv, removed, first);
    FreshAfterDropped(conv, drop, removed, first);
    assert conv == conv[..first] + conv[first..] && Opens(conv[first]);
    PairedConcat({}, conv[..first], conv[first..]);
    KeptOthers(conv, drop, removed, first);
    assert conv[0..] == conv;
    KeptExchangesAre(conv, drop, removed, 0);
    KeptSplit(conv, removed, 0, first);
    KeptAll(conv, removed, first, 0);
    assert conv[0..first] == conv[..first];
    ExchangesConcat(conv[..first], rest);
  }

  /** What is kept after a dropped call starts without a result of its own. */
  lemma FreshAfterDropped(conv: seq<Message>, drop: set<nat>, removed: set<nat>, first: nat)
    requires Removes(conv, drop, removed) && Paired({}, conv) && first in drop
    ensures Paired({}, Kept(conv, removed, first)) && StartsFresh(Kept(conv, removed, first))
  {
    PairedSuffix(conv, first + 1);
    KeptIsPaired(conv, drop, removed, first + 1);
    assert Dropped(conv, drop, first);
    var rest := Kept(conv, removed, first + 1);
    assert Kept(conv, removed, first) == rest;
    forall ids
      ensures Results(ids, rest) == []
    {
      KeptResults(conv, drop, removed, first + 1, ids);
    }
  }

  /**
   Compressing a list without orphans leaves a list without orphans, in which the exchanges are
   exactly the last `keepRecent` and the older ones that think or plan, each complete, and in which
   every other message is still there.
   */
  lemma CompressionKeepsExchanges(conv: seq<Message>, keepRecent: nat, summaries: seq<Message>)
    requires Paired({}, conv)
    requires ToCompress(RoundsFrom(conv, 0), keepRecent) != [] && AreNotes(summaries)
    ensures ToCompress(RoundsFrom(conv, 0), keepRecent)[0].assistantIdx <= |conv|
    ensures var selected := ToCompress(RoundsFrom(conv, 0), keepRecent);
            var first := selected[0].assistantIdx;
            var result := Recomposed(conv, selected, summaries);
            && Paired({}, result)
            && Exchanges(result) == Surviving(Exchanges(conv), keepRecent)
            && (|| Others(result) == Others(conv[..first]) + summaries + Others(conv[first..])
                || (Others(conv[first..]) == [] && Others(result) == summaries + Others(conv[..first])))
  {
    SelectedFacts(conv, keepRecent);
    RecomposedShape(conv, keepRecent, summaries);
    SurvivorsByExchange(conv, keepRecent);
    var selected := ToCompress(RoundsFrom(conv, 0), keepRecent);
    var first, removed := selected[0].assistantIdx, RoundIdxs(selected);
    HalvesOfPaired(conv, StartIdxs(selected), removed, first);
    AroundNotes(conv[..first], summaries, Kept(conv, removed, first));
  }

  lemma AroundNotes(before: seq<Message>, notes: seq<Message>, rest: seq<Message>)
    requires AreNotes(notes) && Paired({}, before) && Paired({}, rest)
    ensures Paired({}, before + notes + rest) && Paired({}, notes + before)
    ensures Exchanges(before + notes + rest) == Exchanges(before) + Exchanges(rest)
    ensures Exchanges(notes + before) == Exchanges(before)
    ensures Others(before + notes + rest) == Others(before) + notes + Others(rest)
    ensures Others(notes + before) == notes + Others(before)
  {
    assert before + notes + rest == before + (notes + rest);
    NotesInFront(notes, before);
    NotesInFront(notes, rest);
    ExchangesConcat(before, notes + rest);
    PairedAroundNotes(before, notes, rest);
    OthersAroundNotes(before, notes, rest);
  }

  lemma PairedAroundNotes(before: seq<Message>, notes: seq<Message>, rest: seq<Message>)
    requires AreNotes(notes) && Paired({}, before) && Paired({}, notes + rest)
    ensures Paired({}, before + (notes + rest))
  {
    assert notes[0] in notes && (notes + rest)[0] == notes[0];
    PairedConcat({}, before, notes + rest);
  }

  lemma OthersAroundNotes(before: seq<Message>, notes: seq<Message>, rest: seq<Message>)
    requires AreNotes(notes)
    ensures Others(before + (notes + rest)) == Others(before) + notes + Others(rest)
    ensures Others(notes + before) == notes + Others(before)
  {
    OthersOfNotes(notes);
    OthersConcat(notes, before);
    OthersConcat(notes, rest);
    OthersConcat(before, notes + rest);
  }

  lemma {:induction false} OthersOfNotes(notes: seq<Message>)
    requires forall m :: m in notes ==> m.User?
    ensures Others(notes) == notes
  {
    if notes != [] {
      assert notes[0] in notes;
      OthersOfNotes(notes[1..]);
    }
  }

  /** Compressing once is enough: nothing is selected from the result, whatever the list looked like. */
  lemma CompressionIsFixedPoint(conv: seq<Message>, keepRecent: nat, summaries: seq<Message>)
    requires ToCompress(RoundsFrom(conv, 0), keepRecent) != [] && AreNotes(summaries)
    ensures ToCompress(RoundsFrom(conv, 0), keepRecent)[0].assistantIdx <= |conv|
    ensures var result := Recomposed(conv, ToCompress(RoundsFrom(conv, 0), keepRecent), summaries);
            ToCompress(RoundsFrom(result, 0), keepRecent) == []
  {
    CompressionKeepsCalls(conv, keepRecent, summaries);
    EnoughExchanges(conv, keepRecent);
    SurvivorsAreFixed(Exchanges(conv), keepRecent,
                      Recomposed(conv, ToCompress(RoundsFrom(conv, 0), keepRecent), summaries));
  }

  lemma EnoughExchanges(conv: seq<Message>, keepRecent: nat)
    requires ToCompress(RoundsFrom(conv, 0), keepRecent) != []
    ensures |Exchanges(conv)| > keepRecent
  {
    RoundsCount(conv, 0);
    assert conv[0..] == conv;
  }

  lemma SurvivorsAreFixed(es: seq<Exchange>, keepRecent: nat, result: seq<Message>)
    requires |es| > keepRecent && Calls(result) == CallsOf(Surviving(es, keepRecent))
    ensures ToCompress(RoundsFrom(result, 0), keepRecent) == []
  {
    PlannedAllPlan(es[..|es| - keepRecent]);
    NothingMoreToSelect(result, Planned(es[..|es| - keepRecent]), es[|es| - keepRecent..]);
  }

  lemma NothingMoreToSelect(conv: seq<Message>, older: seq<Exchange>, recent: seq<Exchange>)
    requires Calls(conv) == CallsOf(older + recent)
    requires forall k :: 0 <= k < |older| ==> PlansOrThinks(older[k].call)
    ensures ToCompress(RoundsFrom(conv, 0), |recent|) == []
  {
    CallsOfEach(older + recent);
    assert conv[0..] == conv;
    RoundsPlanAsCalls(conv, 0);
    var rounds := RoundsFrom(conv, 0);
    assert |rounds| == |older| + |recent|;
    forall k | 0 <= k < |older|
      ensures rounds[k].hasThinkOrPlan
    {
      assert (older + recent)[k] == older[k];
    }
    AllPlannedNoneSelected(rounds[..|older|]);
  }

  lemma {:induction false} PlannedAllPlan(es: seq<Exchange>)
    ensures forall k :: 0 <= k < |Planned(es)| ==> PlansOrThinks(Planned(es)[k].call)
  {
    if es != [] {
      PlannedAllPlan(es[1..]);
    }
  }

  lemma {:induction false} CallsOfEach(es: seq<Exchange>)
    ensures |CallsOf(es)| == |es| && forall k :: 0 <= k < |es| ==> CallsOf(es)[k] == es[k].call
  {
    if es != [] {
      CallsOfEach(es[1..]);
    }
  }

  lemma {:induction false} AllPlannedNoneSelected(rounds: seq<Round>)
    requires forall k :: 0 <= k < |rounds| ==> rounds[k].hasThinkOrPlan
    ensures Unplanned(rounds) == []
  {
    if rounds != [] {
      AllPlannedNoneSelected(rounds[1..]);
    }
  }

  // ---------------------------------------------------------------- where the summaries stand

  lemma {:induction false} KeptNonEmpty(conv: seq<Message>, removed: set<nat>, i: nat)
    requires i <= |conv|
    ensures Kept(conv, removed, i) != [] <==> exists j :: i <= j < |conv| && j !in removed
    decreases |conv| - i
  {
    if i < |conv| {
      KeptNonEmpty(conv, removed, i + 1);
    }
  }

  /**
   The summaries stand where the first removed round was exactly when a kept message follows it or
   it was at the head of the list; otherwise they are moved to the front.
   */
  lemma SummaryInPlaceIff(conv: seq<Message>, keepRecent: nat, summaries: seq<Message>)
    requires ToCompress(RoundsFrom(conv, 0), keepRecent) != []
    requires summaries != [] && conv != [] && conv[0] != summaries[0]
    ensures var selected := ToCompress(RoundsFrom(conv, 0), keepRecent);
            var first, removed := selected[0].assistantIdx, RoundIdxs(selected);
            && first < |conv|
            && (Recomposed(conv, selected, summaries) == conv[..first] + summaries + Kept(conv, removed, first) <==>
                first == 0 || exists j :: first <= j < |conv| && j !in removed)
  {
    RecomposedShape(conv, keepRecent, summaries);
    var selected := ToCompress(RoundsFrom(conv, 0), keepRecent);
    var first, removed := selected[0].assistantIdx, RoundIdxs(selected);
    KeptNonEmpty(conv, removed, first);
    if Kept(conv, removed, first) == [] {
      InFrontOrInPlace(conv[..first], summaries);
    }
  }

  lemma InFrontOrInPlace(before: seq<Message>, notes: seq<Message>)
    requires notes != [] && (before != [] ==> before[0] != notes[0])
    ensures notes + before == before + notes + [] <==> before == []
  {
    if before == [] {
      assert notes + before == before + notes + [];
    } else {
      assert (notes + before)[0] == notes[0] && (before + notes + [])[0] == before[0];
    }
  }

  /** Keeping at least one recent round is enough for the summaries to stand in place. */
  lemma KeepingOneKeepsPlace(conv: seq<Message>, keepRecent: nat)
    requires ToCompress(RoundsFrom(conv, 0), keepRecent) != [] && keepRecent >= 1
    ensures var selected := ToCompress(RoundsFrom(conv, 0), keepRecent);
            var first, removed := selected[0].assistantIdx, RoundIdxs(selected);
            exists j :: first <= j < |conv| && j !in removed
  {
    SelectedAreRounds(conv, keepRecent);
    var last := LastRoundIsRecent(conv, keepRecent);
    LaterCallIsKept(conv, ToCompress(RoundsFrom(conv, 0), keepRecent), last);
  }

  lemma LaterCallIsKept(conv: seq<Message>, selected: seq<Round>, last: nat)
    requires RoundsOf(conv, selected) && selected != [] && last < |conv| && IsCall(conv[last])
    requires forall r :: r in selected ==> r.assistantIdx < last
    ensures selected[0].assistantIdx < last && last !in RoundIdxs(selected)
  {
    assert selected[0] in selected;
    RoundIdxsExactly(conv, selected);
    assert !Dropped(conv, StartIdxs(selected), last);
  }

  lemma LastOfRounds(conv: seq<Message>, rounds: seq<Round>, keepRecent: nat) returns (last: nat)
    requires RoundsOf(conv, rounds) && Ordered(rounds) && |rounds| > keepRecent >= 1
    ensures last < |conv| && IsCall(conv[last])
    ensures forall r :: r in Unplanned(rounds[..|rounds| - keepRecent]) ==> r.assistantIdx < last
  {
    SelectionFromOrdered(conv, rounds, |rounds| - keepRecent);
    assert rounds[|rounds| - 1] in rounds;
    last := rounds[|rounds| - 1].assistantIdx;
  }

  lemma LastRoundIsRecent(conv: seq<Message>, keepRecent: nat) returns (last: nat)
    requires ToCompress(RoundsFrom(conv, 0), keepRecent) != [] && keepRecent >= 1
    ensures last < |conv| && IsCall(conv[last])
    ensures forall r :: r in ToCompress(RoundsFrom(conv, 0), keepRecent) ==> r.assistantIdx < last
  {
    RoundsAreRounds(conv, 0);
    RoundsAreOrdered(conv, 0);
    last := LastOfRounds(conv, RoundsFrom(conv, 0), keepRecent);
  }

  /** With no recent round kept, a digest of tool work can end up in front of the question that asked for it. */
  lemma SummaryCanMoveToFront()
    ensures var call := Assistant("", [ToolCall("c", "read_file", "{}")]);
            var conv := [User(Text("question")), call, Tool("c", "answer")];
            var note := User(ForcedSummary("", []));
            var selected := ToCompress(RoundsFrom(conv, 0), 0);
            && selected != [] && selected[0].assistantIdx == 1
            && Recomposed(conv, selected, [note]) == [note, User(Text("question"))]
  {
    var call := Assistant("", [ToolCall("c", "read_file", "{}")]);
    var conv := [User(Text("question")), call, Tool("c", "answer")];
    var note := User(ForcedSummary("", []));
    assert ToolCall("c", "read_file", "{}") in call.calls;
    assert CallIds(call) == {"c"};
    assert "read_file"[0] == 'r';
    assert !PlansOrThinks(call);
    assert ResultIdxs(conv, {"c"}, 3) == [];
    assert ResultIdxs(conv, {"c"}, 2) == [2];
    assert RoundsFrom(conv, 3) == [] && RoundsFrom(conv, 2) == [];
    assert RoundsFrom(conv, 1) == [RoundAt(conv, 1)];
    var rounds := RoundsFrom(conv, 0);
    assert rounds == [RoundAt(conv, 1)];
    assert rounds[..1] == rounds;
    assert Unplanned(rounds[1..]) == [];
    assert Unplanned(rounds) == rounds;
    var removed := RoundIdxs(rounds);
    assert RoundIdxs(rounds[1..]) == {};
    assert rounds[0].resultIdxs == [2];
    assert 2 in rounds[0].resultIdxs;
    assert removed == {1, 2};
    assert Kept(conv, removed, 3) == [] && Kept(conv, removed, 2) == [] && Kept(conv, removed, 1) == [];
    assert Kept(conv[..1], removed, 1) == [];
    assert Kept(conv[..1], removed, 0) == [conv[0]];
  }
}
