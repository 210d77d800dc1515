/**
 The per-path queue of file writes: a chain of promises in which each arrival waits for the tail
 it found and becomes the tail that the next arrival waits for.

 A ticket stands for one queued call.  Its tail promise settles once its own gate is open and the
 tail it waited for has settled.
 */
module PathMutex {
  import opened Common

  datatype Phase = Waiting | Running | Done

  datatype Ticket = Ticket(path: string, prev: Option<nat>, gateOpen: bool, phase: Phase)

  /** All tickets ever drawn, in order of arrival, and the map from path to the current tail. */
  datatype State = State(tickets: seq<Ticket>, tails: map<string, nat>)

  datatype Event =
    | Arrive(path: string)
    | Enter(t: nat)                // the promise `t` waited for has settled and its function starts
    | Finish(t: nat, threw: bool)  // its function returns or throws

  /** Whether the tail promise of ticket `t` has settled. */
  predicate TailSettled(tickets: seq<Ticket>, t: nat)
    requires t < |tickets|
    decreases t
  {
    tickets[t].gateOpen &&
    (tickets[t].prev.None? || (tickets[t].prev.value < t && TailSettled(tickets, tickets[t].prev.value)))
  }

  predicate Enabled(st: State, e: Event) {
    match e
    case Arrive(_) => true
    case Enter(t) =>
      && t < |st.tickets| && st.tickets[t].phase.Waiting?
      && (st.tickets[t].prev.None? ||
          (st.tickets[t].prev.value < |st.tickets| && TailSettled(st.tickets, st.tickets[t].prev.value)))
    case Finish(t, _) => t < |st.tickets| && st.tickets[t].phase.Running?
  }

  function Next(st: State, e: Event): State
    requires Enabled(st, e)
  {
    match e
    case Arrive(path) =>
      var prev := if path in st.tails then Some(st.tails[path]) else None;
      State(st.tickets + [Ticket(path, prev, false, Waiting)], st.tails[path := |st.tickets|])
    case Enter(t) => st.(tickets := st.tickets[t := st.tickets[t].(phase := Running)])
    case Finish(t, _) =>
      var path := st.tickets[t].path;
      State(st.tickets[t := st.tickets[t].(gateOpen := true, phase := Done)],
            if path in st.tails && st.tails[path] == t then st.tails - {path} else st.tails)
  }

  /** The queue as the harness keeps it. */
  class FileWriteQueue {
    var tickets: seq<Ticket>
    var fileWritePathTail: map<string, nat>

    ghost function Snapshot(): State
      reads this
    {
      State(tickets, fileWritePathTail)
    }

    ghost predicate Valid()
      reads this
    {
      Inv(Snapshot())
    }

    constructor ()
      ensures Valid() && Snapshot() == State([], map[])
    {
      tickets, fileWritePathTail := [], map[];
    }

    method Draw(path: string) returns (t: nat)
      requires Valid()
      modifies this
      ensures Valid() && t == |old(tickets)| && Snapshot() == Next(old(Snapshot()), Arrive(path))
    {
      InvStep(Snapshot(), Arrive(path));
      t := |tickets|;
      var prev := if path in fileWritePathTail then Some(fileWritePathTail[path]) else None;
      tickets := tickets + [Ticket(path, prev, false, Waiting)];
      fileWritePathTail := fileWritePathTail[path := t];
    }

    /** The call continues past its wait; nothing else runs on its path. */
    method Begin(t: nat)
      requires Valid() && Enabled(Snapshot(), Enter(t))
      modifies this
      ensures Valid() && Snapshot() == Next(old(Snapshot()), Enter(t))
      ensures forall s :: 0 <= s < |tickets| && s != t && tickets[s].path == tickets[t].path ==> !tickets[s].phase.Running?
    {
      InvStep(Snapshot(), Enter(t));
      tickets := tickets[t := tickets[t].(phase := Running)];
      assert Inv(Snapshot());
      forall s | 0 <= s < |tickets| && s != t && tickets[s].path == tickets[t].path
        ensures !tickets[s].phase.Running?
      {
        AtMostOneRuns(Snapshot(), if s < t then s else t, if s < t then t else s);
      }
    }

    /** Runs whether the queued function returned or threw. */
    method Release(t: nat, threw: bool)
      requires Valid() && Enabled(Snapshot(), Finish(t, threw))
      modifies this
      ensures Valid() && Snapshot() == Next(old(Snapshot()), Finish(t, threw))
    {
      InvStep(Snapshot(), Finish(t, threw));
      var path := tickets[t].path;
      tickets := tickets[t := tickets[t].(gateOpen := true, phase := Done)];
      if path in fileWritePathTail && fileWritePathTail[path] == t {
        fileWritePathTail := fileWritePathTail - {path};
      }
    }
  }

  // ---------------------------------------------------------------- the invariant

  /** No ticket of the path lies strictly between `s` and `t`. */
  ghost predicate Adjacent(tickets: seq<Ticket>, s: nat, t: nat)
    requires s < t < |tickets|
  {
    tickets[s].path == tickets[t].path &&
    forall k :: s < k < t ==> tickets[k].path != tickets[t].path
  }

  /** A ticket that waits for nobody, or has started, finds every earlier one of its path done. */
  ghost predicate InTurn(earlier: Ticket, later: Ticket) {
    earlier.path == later.path && (later.prev.None? || !later.phase.Waiting?) ==> earlier.phase.Done?
  }

  /** A gate is open exactly when its function has ended. */
  ghost predicate GatesFit(tickets: seq<Ticket>) {
    forall t :: 0 <= t < |tickets| ==> (tickets[t].gateOpen <==> tickets[t].phase.Done?)
  }

  /** Whoever waits, waits for the ticket of its path just before it. */
  ghost predicate LinksFit(tickets: seq<Ticket>) {
    forall t :: 0 <= t < |tickets| && tickets[t].prev.Some? ==>
      tickets[t].prev.value < t && Adjacent(tickets, tickets[t].prev.value, t)
  }

  ghost predicate TurnsFit(tickets: seq<Ticket>) {
    forall s, t :: 0 <= s < t < |tickets| ==> InTurn(tickets[s], tickets[t])
  }

  /** The map names, for each path with work left, its last ticket, and no other path. */
  ghost predicate TailsFit(st: State) {
    && (forall path :: path in st.tails ==>
          && st.tails[path] < |st.tickets| && st.tickets[st.tails[path]].path == path
          && !st.tickets[st.tails[path]].phase.Done?
          && forall k :: st.tails[path] < k < |st.tickets| ==> st.tickets[k].path != path)
    && (forall t :: 0 <= t < |st.tickets| && !st.tickets[t].phase.Done? ==> st.tickets[t].path in st.tails)
  }

  ghost predicate Inv(st: State) {
    GatesFit(st.tickets) && LinksFit(st.tickets) && TurnsFit(st.tickets) && TailsFit(st)
  }

  ghost predicate FirstInLine(st: State, t: nat)
    requires t < |st.tickets|
  {
    forall s :: 0 <= s < t && st.tickets[s].path == st.tickets[t].path ==> st.tickets[s].phase.Done?
  }

  /** A ticket may start exactly when every earlier one on its path is done, however it ended. */
  lemma EntersIffFirst(st: State, t: nat)
    requires Inv(st) && t < |st.tickets| && st.tickets[t].phase.Waiting?
    ensures Enabled(st, Enter(t)) <==> FirstInLine(st, t)
  {
    if st.tickets[t].prev.Some? {
      var p := st.tickets[t].prev.value;
      assert Adjacent(st.tickets, p, t);
      if st.tickets[p].phase.Done? {
        forall s | 0 <= s < t && st.tickets[s].path == st.tickets[t].path
          ensures st.tickets[s].phase.Done?
        {
          assert s <= p;
          assert s < p ==> InTurn(st.tickets[s], st.tickets[p]);
        }
        DoneIsSettled(st, p);
      }
    }
  }

  lemma {:induction false} DoneIsSettled(st: State, t: nat)
    requires Inv(st) && t < |st.tickets| && st.tickets[t].phase.Done?
    ensures TailSettled(st.tickets, t)
    decreases t
  {
    if st.tickets[t].prev.Some? {
      var p := st.tickets[t].prev.value;
      assert Adjacent(st.tickets, p, t);
      DoneIsSettled(st, p);
    }
  }

  lemma InvStep(st: State, e: Event)
    requires Inv(st) && Enabled(st, e)
    ensures Inv(Next(st, e))
  {
    match e {
      case Arrive(path) => ArriveKeepsInv(st, path);
      case Enter(t) => EnterKeepsInv(st, t);
      case Finish(t, threw) => FinishKeepsInv(st, t, threw);
    }
  }

  lemma SameLinks(a: seq<Ticket>, b: seq<Ticket>, s: nat, t: nat)
    requires |a| == |b| && s < t < |a| && Adjacent(a, s, t)
    requires forall k :: 0 <= k < |a| ==> a[k].path == b[k].path
    ensures Adjacent(b, s, t)
  {
  }

  lemma LinksKept(a: seq<Ticket>, b: seq<Ticket>)
    requires |a| == |b| && forall k :: 0 <= k < |a| ==> a[k].path == b[k].path && a[k].prev == b[k].prev
    requires LinksFit(a)
    ensures LinksFit(b)
  {
    forall t | 0 <= t < |b| && b[t].prev.Some?
      ensures b[t].prev.value < t && Adjacent(b, b[t].prev.value, t)
    {
      SameLinks(a, b, a[t].prev.value, t);
    }
  }

  /** Changing the phase of one ticket that is first in line keeps everybody in turn. */
  lemma TurnsKept(a: seq<Ticket>, t: nat, phase: Phase, open: bool)
    requires TurnsFit(a) && t < |a| && !phase.Waiting? && (a[t].phase.Done? ==> phase.Done?)
    requires forall s :: 0 <= s < t && a[s].path == a[t].path ==> a[s].phase.Done?
    ensures TurnsFit(a[t := a[t].(phase := phase, gateOpen := open)])
  {
    var b := a[t := a[t].(phase := phase, gateOpen := open)];
    forall s, u | 0 <= s < u < |b|
      ensures InTurn(b[s], b[u])
    {
      assert InTurn(a[s], a[u]);
    }
  }

  lemma EnterKeepsInv(st: State, t: nat)
    requires Inv(st) && Enabled(st, Enter(t))
    ensures Inv(Next(st, Enter(t)))
  {
    EntersIffFirst(st, t);
    LinksKept(st.tickets, Next(st, Enter(t)).tickets);
    TurnsKept(st.tickets, t, Running, st.tickets[t].gateOpen);
  }

  lemma EarlierAreDone(st: State, t: nat)
    requires Inv(st) && t < |st.tickets| && !st.tickets[t].phase.Waiting?
    ensures FirstInLine(st, t)
  {
    forall s | 0 <= s < t && st.tickets[s].path == st.tickets[t].path
      ensures st.tickets[s].phase.Done?
    {
      assert InTurn(st.tickets[s], st.tickets[t]);
    }
  }

  lemma FinishKeepsInv(st: State, t: nat, threw: bool)
    requires Inv(st) && Enabled(st, Finish(t, threw))
    ensures Inv(Next(st, Finish(t, threw)))
  {
    EarlierAreDone(st, t);
    LinksKept(st.tickets, Next(st, Finish(t, threw)).tickets);
    TurnsKept(st.tickets, t, Done, true);
    TailsAfterFinish(st, t, threw);
  }

  lemma TailsAfterFinish(st: State, t: nat, threw: bool)
    requires TailsFit(st) && Enabled(st, Finish(t, threw)) && FirstInLine(st, t)
    ensures TailsFit(Next(st, Finish(t, threw)))
  {
  }

  lemma ArriveKeepsInv(st: State, path: string)
    requires Inv(st)
    ensures Inv(Next(st, Arrive(path)))
  {
    var n := |st.tickets|;
    var next := Next(st, Arrive(path));
    assert LinksFit(next.tickets) by {
      forall t | 0 <= t < |next.tickets| && next.tickets[t].prev.Some?
        ensures next.tickets[t].prev.value < t && Adjacent(next.tickets, next.tickets[t].prev.value, t)
      {
        if t < n {
          assert Adjacent(st.tickets, st.tickets[t].prev.value, t);
        }
      }
    }
    assert TurnsFit(next.tickets) by {
      forall s, t | 0 <= s < t < |next.tickets|
        ensures InTurn(next.tickets[s], next.tickets[t])
      {
        if t < n {
          assert InTurn(st.tickets[s], st.tickets[t]);
        }
      }
    }
  }

  lemma AtMostOneRuns(st: State, s: nat, t: nat)
    requires Inv(st) && s < t < |st.tickets| && st.tickets[s].path == st.tickets[t].path
    ensures !(st.tickets[s].phase.Running? && st.tickets[t].phase.Running?)
  {
    assert InTurn(st.tickets[s], st.tickets[t]);
  }

  // ---------------------------------------------------------------- runs

  function Exec(st: State, events: seq<Event>): Option<State>
    decreases |events|
  {
    if events == [] then Some(st)
    else if Enabled(st, events[0]) then Exec(Next(st, events[0]), events[1..])
    else None
  }

  lemma {:induction false} InvHolds(st: State, events: seq<Event>)
    requires Inv(st)
    ensures Exec(st, events).Some? ==> Inv(Exec(st, events).value)
    decreases |events|
  {
    if events != [] && Enabled(st, events[0]) {
      InvStep(st, events[0]);
      InvHolds(Next(st, events[0]), events[1..]);
    }
  }

  /**
   Over every interleaving of arrivals, starts, returns and throws: at most one function per path
   runs, in order of arrival; the next one is free to start as soon as those before it have ended;
   and the map holds no entry for a path whose queue is empty.
   */
  lemma WritesAreSerialized(events: seq<Event>, st: State)
    requires Exec(State([], map[]), events) == Some(st)
    ensures forall s, t :: 0 <= s < t < |st.tickets| && st.tickets[s].path == st.tickets[t].path ==>
              && !(st.tickets[s].phase.Running? && st.tickets[t].phase.Running?)
              && (!st.tickets[t].phase.Waiting? ==> st.tickets[s].phase.Done?)
    ensures forall t :: 0 <= t < |st.tickets| && st.tickets[t].phase.Waiting? && FirstInLine(st, t) ==> Enabled(st, Enter(t))
    ensures forall path :: path in st.tails <==>
              exists t :: 0 <= t < |st.tickets| && st.tickets[t].path == path && !st.tickets[t].phase.Done?
  {
    InvHolds(State([], map[]), events);
    forall s, t | 0 <= s < t < |st.tickets| && st.tickets[s].path == st.tickets[t].path
      ensures !st.tickets[t].phase.Waiting? ==> st.tickets[s].phase.Done?
    {
      assert InTurn(st.tickets[s], st.tickets[t]);
    }
    forall t | 0 <= t < |st.tickets| && st.tickets[t].phase.Waiting? && FirstInLine(st, t)
      ensures Enabled(st, Enter(t))
    {
      EntersIffFirst(st, t);
    }
  }

  // ---------------------------------------------------------------- clearing the map between sends

  function Cleared(st: State): State {
    st.(tails := map[])
  }

  /** At most one function per path runs. */
  ghost predicate Exclusive(tickets: seq<Ticket>) {
    forall s, t :: 0 <= s < t < |tickets| && tickets[s].path == tickets[t].path ==>
      !(tickets[s].phase.Running? && tickets[t].phase.Running?)
  }

  /** Whatever arrives, starts and ends after `st`, writes stay exclusive. */
  ghost predicate StaysExclusive(st: State) {
    forall events :: Exec(st, events).Some? ==> Exclusive(Exec(st, events).value.tickets)
  }

  lemma {:induction false} SettledDependsOnEarlier(a: seq<Ticket>, b: seq<Ticket>, t: nat)
    requires t < |a| && t < |b| && forall k :: 0 <= k <= t ==> a[k] == b[k]
    ensures TailSettled(a, t) == TailSettled(b, t)
    decreases t
  {
    if a[t].prev.Some? && a[t].prev.value < t {
      SettledDependsOnEarlier(a, b, a[t].prev.value);
    }
  }

  lemma {:induction false} FirstUndone(st: State, t: nat) returns (f: nat)
    requires t < |st.tickets| && !st.tickets[t].phase.Done?
    ensures f <= t && !st.tickets[f].phase.Done? && FirstInLine(st, f)
    decreases t
  {
    if s :| 0 <= s < t && st.tickets[s].path == st.tickets[t].path && !st.tickets[s].phase.Done? {
      f := FirstUndone(st, s);
    } else {
      f := t;
    }
  }

  /** After the clear, a new arrival runs beside the ticket that is first in line. */
  function Overtaking(st: State, f: nat): seq<Event>
    requires f < |st.tickets|
  {
    [Arrive(st.tickets[f].path), Enter(|st.tickets|)] + if st.tickets[f].phase.Waiting? then [Enter(f)] else []
  }

  /** With work left on a path, clearing lets two functions run on it, whether or not the first has started. */
  lemma ClearLetsTwoRun(st: State, f: nat)
    requires Inv(st) && f < |st.tickets| && !st.tickets[f].phase.Done? && FirstInLine(st, f)
    ensures var after := Exec(Cleared(st), Overtaking(st, f));
            && after.Some? && |after.value.tickets| == |st.tickets| + 1
            && after.value.tickets[f].path == after.value.tickets[|st.tickets|].path
            && after.value.tickets[f].phase.Running? && after.value.tickets[|st.tickets|].phase.Running?
  {
    var path, n := st.tickets[f].path, |st.tickets|;
    var arrived := Next(Cleared(st), Arrive(path));
    var entered := Next(arrived, Enter(n));
    ExecTwo(Cleared(st), Arrive(path), Enter(n), if st.tickets[f].phase.Waiting? then [Enter(f)] else []);
    assert entered.tickets[n].phase.Running? && entered.tickets[f] == st.tickets[f];
    if st.tickets[f].phase.Waiting? {
      FirstMayEnter(st, entered, f);
      assert [Enter(f)][1..] == [];
      assert Exec(entered, [Enter(f)]) == Some(Next(entered, Enter(f)));
    } else {
      assert Exec(entered, []) == Some(entered);
    }
  }

  lemma ExecTwo(st: State, a: Event, b: Event, rest: seq<Event>)
    requires Enabled(st, a) && Enabled(Next(st, a), b)
    ensures Exec(st, [a, b] + rest) == Exec(Next(Next(st, a), b), rest)
  {
    var all := [a, b] + rest;
    assert all[1..] == [b] + rest && ([b] + rest)[1..] == rest;
  }

  /** New tickets do not keep the first in line from starting. */
  lemma FirstMayEnter(st: State, later: State, f: nat)
    requires Inv(st) && f < |st.tickets| <= |later.tickets| && st.tickets[f].phase.Waiting? && FirstInLine(st, f)
    requires forall k :: 0 <= k < |st.tickets| ==> later.tickets[k] == st.tickets[k]
    ensures Enabled(later, Enter(f))
  {
    EntersIffFirst(st, f);
    if st.tickets[f].prev.Some? {
      assert Adjacent(st.tickets, st.tickets[f].prev.value, f);
      SettledDependsOnEarlier(st.tickets, later.tickets, st.tickets[f].prev.value);
    }
  }

  lemma ExclusiveRuns(st: State, events: seq<Event>)
    requires Inv(st) && Exec(st, events).Some?
    ensures Exclusive(Exec(st, events).value.tickets)
  {
    InvHolds(st, events);
    var end := Exec(st, events).value;
    forall s, t | 0 <= s < t < |end.tickets| && end.tickets[s].path == end.tickets[t].path
      ensures !(end.tickets[s].phase.Running? && end.tickets[t].phase.Running?)
    {
      AtMostOneRuns(end, s, t);
    }
  }

  /**
   Forgetting the tails when a new send starts keeps writes exclusive in every later interleaving exactly
   when no write is queued or running.
   */
  lemma ClearIsSafeIff(st: State)
    requires Inv(st)
    ensures StaysExclusive(Cleared(st)) <==> forall t :: 0 <= t < |st.tickets| ==> st.tickets[t].phase.Done?
  {
    if t :| 0 <= t < |st.tickets| && !st.tickets[t].phase.Done? {
      var f := FirstUndone(st, t);
      ClearLetsTwoRun(st, f);
      var end := Exec(Cleared(st), Overtaking(st, f)).value;
      assert !Exclusive(end.tickets);
    } else {
      forall events | Exec(Cleared(st), events).Some?
        ensures Exclusive(Exec(Cleared(st), events).value.tickets)
      {
        ExclusiveRuns(Cleared(st), events);
      }
    }
  }
}
