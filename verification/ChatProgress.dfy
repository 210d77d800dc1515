/**
 How far the updates of a chat get: the chain is never stuck, its map entry goes when its last call is
 cleaned up, and the file is missing exactly once the chat has been deleted.
 */
module ChatProgress {
  import opened Common
  import opened ChatMetadata

  /** The first call that has not settled. */
  ghost predicate IsNext<J, M>(c: Chain<J, M>, t: nat) {
    t < |c.tickets| && !c.tickets[t].phase.Settled? && AllSettled(c, t)
  }

  lemma {:induction false} FirstUnsettled<J, M>(c: Chain<J, M>, n: nat) returns (t: nat)
    requires n <= |c.tickets| && !AllSettled(c, n)
    ensures IsNext(c, t)
  {
    if AllSettled(c, n - 1) {
      t := n - 1;
    } else {
      t := FirstUnsettled(c, n - 1);
    }
  }

  /** The step with which the next call goes on; what it computes is up to its update. */
  function Onward<J, M>(phase: Phase<M>, t: nat, reply: Reply<M>): Event<J, M> {
    match phase
    case Waiting => Load(t, false)
    case Loaded(_) => Compute(t, reply)
    case _ => Commit(t)
  }

  /** While a call has not settled one of them can go on, and new calls and a deletion are possible at any time. */
  lemma NeverStuck<J, M>(file: Option<M>, events: seq<Event<J, M>>, c: Chain<J, M>, job: J, reply: Reply<M>) returns (t: nat)
    requires Exec(NewChain(file), events) == Some(c)
    ensures !AllSettled(c, |c.tickets|) ==> IsNext(c, t) && Enabled(c, Onward(c.tickets[t].phase, t, reply))
    ensures Enabled(c, Submit(job)) && Enabled(c, Event<J, M>.Delete)
  {
    RunKeepsInv(NewChain<J, M>(file), events);
    t := 0;
    if !AllSettled(c, |c.tickets|) {
      t := FirstUnsettled(c, |c.tickets|);
      if c.tickets[t].phase.Waiting? {
        StartsIffFirst(c, t, false);
      }
    }
  }

  /** How far a step moves on the calls that are there. */
  function StepsLeft<M>(phase: Phase<M>): nat {
    match phase
    case Waiting => 3
    case Loaded(_) => 2
    case Computed(_, _) => 1
    case Settled(_) => 0
  }

  /** Each call takes at most three steps: reading, computing and writing move it on, and nothing else moves any call. */
  lemma StepsAreFew<J, M>(c: Chain<J, M>, e: Event<J, M>, t: nat)
    requires Enabled(c, e) && t < |c.tickets|
    ensures var (before, after) := (c.tickets[t].phase, Next(c, e).tickets[t].phase);
            if (e.Load? || e.Compute? || e.Commit? || e.Fail?) && e.t == t then StepsLeft(after) < StepsLeft(before)
            else after == before
  {
  }

  /** A call whose turn it is gets the record in the file, or settles when there is none it can read. */
  lemma LoadIs<J, M>(c: Chain<J, M>, t: nat, unreadable: bool)
    requires Enabled(c, Load(t, unreadable))
    ensures var next := Next(c, Event<J, M>.Load(t, unreadable));
            && (c.file.Some? && !unreadable ==> next.tickets[t].phase == Loaded(c.file.value))
            && (c.file.None? || unreadable ==> next.tickets[t].phase == Settled(Unread))
            && next.file == c.file && next.writes == c.writes && next.tail == c.tail
  {
  }

  /** A chat's file is missing exactly if it was missing at the start or has been deleted. */
  lemma {:induction false} FileIsGoneIff<J, M>(c: Chain<J, M>, events: seq<Event<J, M>>)
    requires Exec(c, events).Some?
    ensures Exec(c, events).value.file.None? <==> c.file.None? || Event<J, M>.Delete in events
    decreases |events|
  {
    if events != [] {
      FileIsGoneIff(Next(c, events[0]), events[1..]);
      assert events == [events[0]] + events[1..];
    }
  }

  /** The entry names the last call until that call has been cleaned up. */
  function EntryIs(calls: nat, released: bool): Option<nat> {
    if calls == 0 || released then None else Some(calls - 1)
  }

  lemma EntryStep<J, M>(c: Chain<J, M>, e: Event<J, M>, released: bool)
    requires Enabled(c, e) && c.tail == EntryIs(|c.tickets|, released)
    ensures var next := Next(c, e);
            next.tail == EntryIs(|next.tickets|, !e.Submit? && (released || (e.Release? && e.t + 1 == |c.tickets|)))
  {
  }

  lemma {:induction false} EntryRun<J, M>(c: Chain<J, M>, events: seq<Event<J, M>>, released: bool)
    requires Exec(c, events).Some? && c.tail == EntryIs(|c.tickets|, released)
    ensures var last := Exec(c, events).value;
            && |c.tickets| <= |last.tickets|
            && last.tail == EntryIs(|last.tickets|, (released && |last.tickets| == |c.tickets|)
                                                    || exists e :: e in events && e.Release? && e.t + 1 == |last.tickets|)
    decreases |events|
  {
    if events != [] {
      EntryStep(c, events[0], released);
      var e := events[0];
      EntryRun(Next(c, e), events[1..], !e.Submit? && (released || (e.Release? && e.t + 1 == |c.tickets|)));
      assert events == [e] + events[1..];
    }
  }

  /** The map keeps an entry for a chat exactly from its first call until the last one is cleaned up. */
  lemma EntryGoesIff<J, M>(file: Option<M>, events: seq<Event<J, M>>, c: Chain<J, M>)
    requires Exec(NewChain(file), events) == Some(c)
    ensures c.tail.None? <==> c.tickets == [] || exists e :: e in events && e.Release? && e.t + 1 == |c.tickets|
    ensures c.tail.Some? ==> c.tail.value + 1 == |c.tickets|
  {
    EntryRun(NewChain<J, M>(file), events, false);
  }
}
