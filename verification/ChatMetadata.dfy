/**
 Updates of one chat's metadata file: a chain of promises in which each update waits for the one it
 found in the map, reads the file, computes a new record from what it read, and writes it.

 A ticket stands for one call.  Reading, computing and writing are separate steps: other calls arrive,
 writes fail and the chat is deleted in between.
 */
module ChatMetadata {
  import opened Common

  /** What an update function makes of a record: nothing, a new record, or an exception. */
  datatype Reply<+M> = Keep | Replace(record: M) | Throw

  /** How the promise of a call settles; `Rejected` is the one that throws. */
  datatype Outcome = Unread | Kept | Stored | Vanished | Rejected

  datatype Phase<+M> =
    | Waiting
    | Loaded(read: M)
    | Computed(before: M, record: M)
    | Settled(outcome: Outcome)

  datatype Ticket<+J, +M> = Ticket(job: J, prev: Option<nat>, phase: Phase<M>)

  /** A record written: by which call, from what it had read, and the new record. */
  datatype Write<+M> = Write(ticket: nat, before: M, record: M)

  /**
   The calls for one chat in order of arrival, the entry of the map, and the file, missing once the
   chat is deleted.  `initial` and `writes` are its history.
   */
  datatype Chain<+J, +M> = Chain(initial: Option<M>, file: Option<M>, tickets: seq<Ticket<J, M>>, tail: Option<nat>,
                                 writes: seq<Write<M>>)

  datatype Event<+J, +M> =
    | Submit(job: J)
    | Load(t: nat, unreadable: bool)  // the promise waited for has settled and the file is read
    | Compute(t: nat, reply: Reply<M>)
    | Commit(t: nat)                  // the rename takes place, or the chat's directory is gone
    | Fail(t: nat)                    // the write throws for any other reason
    | Release(t: nat)                 // the caller's cleanup of the map
    | Delete

  function NewChain<J, M>(file: Option<M>): Chain<J, M> {
    Chain(file, file, [], None, [])
  }

  predicate IsSettled<J, M>(c: Chain<J, M>, t: nat) {
    t < |c.tickets| && c.tickets[t].phase.Settled?
  }

  predicate Enabled<J, M>(c: Chain<J, M>, e: Event<J, M>) {
    match e
    case Submit(_) => true
    case Load(t, _) =>
      && t < |c.tickets| && c.tickets[t].phase.Waiting?
      && (c.tickets[t].prev.None? || IsSettled(c, c.tickets[t].prev.value))
    case Compute(t, _) => t < |c.tickets| && c.tickets[t].phase.Loaded?
    case Commit(t) => t < |c.tickets| && c.tickets[t].phase.Computed?
    case Fail(t) => t < |c.tickets| && c.tickets[t].phase.Computed?
    case Release(t) => IsSettled(c, t)
    case Delete => true
  }

  function SetPhase<J, M>(c: Chain<J, M>, t: nat, phase: Phase<M>): Chain<J, M>
    requires t < |c.tickets|
  {
    c.(tickets := c.tickets[t := c.tickets[t].(phase := phase)])
  }

  function AfterLoad<M>(file: Option<M>, unreadable: bool): Phase<M> {
    if file.None? || unreadable then Settled(Unread) else Loaded(file.value)
  }

  function AfterCompute<M>(read: M, reply: Reply<M>): Phase<M> {
    match reply
    case Keep => Settled(Kept)
    case Replace(record) => Computed(read, record)
    case Throw => Settled(Rejected)
  }

  function Next<J, M>(c: Chain<J, M>, e: Event<J, M>): Chain<J, M>
    requires Enabled(c, e)
  {
    match e
    case Submit(job) => c.(tickets := c.tickets + [Ticket(job, c.tail, Waiting)], tail := Some(|c.tickets|))
    case Load(t, unreadable) => SetPhase(c, t, AfterLoad(c.file, unreadable))
    case Compute(t, reply) => SetPhase(c, t, AfterCompute(c.tickets[t].phase.read, reply))
    case Commit(t) =>
      var phase := c.tickets[t].phase;
      if c.file.None? then SetPhase(c, t, Settled(Vanished))
      else SetPhase(c, t, Settled(Stored)).(file := Some(phase.record),
                                            writes := c.writes + [Write(t, phase.before, phase.record)])
    case Fail(t) => SetPhase(c, t, Settled(Rejected))
    case Release(t) => if c.tail == Some(t) then c.(tail := None) else c
    case Delete => c.(file := None)
  }

  function Exec<J, M>(c: Chain<J, M>, events: seq<Event<J, M>>): Option<Chain<J, M>>
    decreases |events|
  {
    if events == [] then Some(c)
    else if Enabled(c, events[0]) then Exec(Next(c, events[0]), events[1..])
    else None
  }

  // ---------------------------------------------------------------- one call at a time, in order of arrival

  ghost predicate AllSettled<J, M>(c: Chain<J, M>, n: nat)
    requires n <= |c.tickets|
  {
    forall s :: 0 <= s < n ==> c.tickets[s].phase.Settled?
  }

  /** A call waits for the one just before it, or for nobody when all before it have settled. */
  ghost predicate LinksFit<J, M>(c: Chain<J, M>) {
    forall t: nat :: t < |c.tickets| ==>
      match c.tickets[t].prev
      case None => AllSettled(c, t)
      case Some(p) => p + 1 == t
  }

  /** Whoever has started found every earlier call settled. */
  ghost predicate TurnsFit<J, M>(c: Chain<J, M>) {
    forall t: nat :: t < |c.tickets| && !c.tickets[t].phase.Waiting? ==> AllSettled(c, t)
  }

  /** The map names the last call, or has no entry when nothing is left to do. */
  ghost predicate TailFits<J, M>(c: Chain<J, M>) {
    match c.tail
    case None => AllSettled(c, |c.tickets|)
    case Some(p) => p + 1 == |c.tickets|
  }

  /** What the running call has read is what the file holds, unless the chat was deleted since. */
  ghost predicate Fresh<M>(file: Option<M>, phase: Phase<M>) {
    match phase
    case Loaded(read) => file.None? || file.value == read
    case Computed(before, _) => file.None? || file.value == before
    case _ => true
  }

  ghost predicate ReadsFit<J, M>(c: Chain<J, M>) {
    forall t :: 0 <= t < |c.tickets| ==> Fresh(c.file, c.tickets[t].phase)
  }

  /** The record the writes lead to. */
  function Last<M>(initial: Option<M>, writes: seq<Write<M>>): Option<M> {
    if writes == [] then initial else Some(writes[|writes| - 1].record)
  }

  /** Each write was computed from the record the one before it left, and calls write in order of arrival. */
  ghost predicate Linked<M>(initial: Option<M>, writes: seq<Write<M>>) {
    && (forall i: nat :: i < |writes| ==> Some(writes[i].before) == Last(initial, writes[..i]))
    && (forall i, j :: 0 <= i < j < |writes| ==> writes[i].ticket < writes[j].ticket)
  }

  /** The calls that have written are those whose promise says so. */
  ghost predicate WritesFit<J, M>(c: Chain<J, M>) {
    && (forall i :: 0 <= i < |c.writes| ==>
         c.writes[i].ticket < |c.tickets| && c.tickets[c.writes[i].ticket].phase == Settled(Stored))
    && (forall t: nat :: t < |c.tickets| && c.tickets[t].phase == Settled(Stored) ==>
         exists i :: 0 <= i < |c.writes| && c.writes[i].ticket == t)
  }

  ghost predicate Inv<J, M>(c: Chain<J, M>) {
    && LinksFit(c) && TurnsFit(c) && TailFits(c) && ReadsFit(c)
    && Linked(c.initial, c.writes) && WritesFit(c)
    && (c.file.Some? ==> c.file == Last(c.initial, c.writes))
  }

  /** A call may start exactly when every earlier one has settled, however it ended. */
  lemma StartsIffFirst<J, M>(c: Chain<J, M>, t: nat, unreadable: bool)
    requires Inv(c) && t < |c.tickets| && c.tickets[t].phase.Waiting?
    ensures Enabled(c, Load(t, unreadable)) <==> AllSettled(c, t)
  {
    if c.tickets[t].prev.Some? && IsSettled(c, c.tickets[t].prev.value) {
      assert AllSettled(c, c.tickets[t].prev.value);
    }
  }

  lemma SubmitKeepsInv<J, M>(c: Chain<J, M>, job: J)
    requires Inv(c)
    ensures Inv(Next(c, Submit(job)))
  {
    var next := Next(c, Event<J, M>.Submit(job));
    assert forall t :: 0 <= t < |c.tickets| ==> next.tickets[t] == c.tickets[t];
    forall t: nat | t <= |c.tickets| && AllSettled(c, t)
      ensures AllSettled(next, t)
    {
    }
  }

  /** The one call that is next or under way. */
  ghost predicate Current<J, M>(c: Chain<J, M>, t: nat) {
    t < |c.tickets| && AllSettled(c, t) && !c.tickets[t].phase.Settled?
  }

  lemma CurrentIs<J, M>(c: Chain<J, M>, e: Event<J, M>)
    requires Inv(c) && Enabled(c, e) && (e.Load? || e.Compute? || e.Commit? || e.Fail?)
    ensures Current(c, e.t)
  {
    if e.Load? {
      StartsIffFirst(c, e.t, e.unreadable);
    }
  }

  lemma MoveKeepsOrder<J, M>(c: Chain<J, M>, t: nat, phase: Phase<M>)
    requires LinksFit(c) && TurnsFit(c) && TailFits(c) && Current(c, t) && !phase.Waiting?
    ensures LinksFit(SetPhase(c, t, phase)) && TurnsFit(SetPhase(c, t, phase)) && TailFits(SetPhase(c, t, phase))
  {
    var next := SetPhase(c, t, phase);
    forall u: nat | u <= |c.tickets| && AllSettled(c, u)
      ensures AllSettled(next, u)
    {
      assert u <= t;
    }
    forall u: nat | u < |c.tickets| && !next.tickets[u].phase.Waiting?
      ensures AllSettled(next, u)
    {
      assert AllSettled(c, u);
    }
  }

  lemma MoveKeepsReads<J, M>(c: Chain<J, M>, t: nat, phase: Phase<M>, file: Option<M>)
    requires TurnsFit(c) && ReadsFit(c) && Current(c, t) && Fresh(file, phase)
    ensures ReadsFit(SetPhase(c, t, phase).(file := file))
  {
    var next := SetPhase(c, t, phase).(file := file);
    forall u: nat | u < |c.tickets|
      ensures Fresh(next.file, next.tickets[u].phase)
    {
      if u > t {
        assert c.tickets[u].phase.Waiting? || AllSettled(c, u);
      }
    }
  }

  lemma MoveKeepsWrites<J, M>(c: Chain<J, M>, t: nat, phase: Phase<M>)
    requires WritesFit(c) && Current(c, t) && phase != Settled(Stored)
    ensures WritesFit(SetPhase(c, t, phase))
  {
    var next := SetPhase(c, t, phase);
    forall u: nat | u < |c.tickets| && next.tickets[u].phase == Settled(Stored)
      ensures exists i :: 0 <= i < |next.writes| && next.writes[i].ticket == u
    {
      assert c.tickets[u].phase == Settled(Stored);
    }
  }

  /** The running call moves on without writing. */
  lemma MoveKeepsInv<J, M>(c: Chain<J, M>, t: nat, phase: Phase<M>)
    requires Inv(c) && Current(c, t) && !phase.Waiting? && phase != Settled(Stored) && Fresh(c.file, phase)
    ensures Inv(SetPhase(c, t, phase))
  {
    MoveKeepsOrder(c, t, phase);
    MoveKeepsReads(c, t, phase, c.file);
    MoveKeepsWrites(c, t, phase);
  }

  lemma WriteLinks<M>(initial: Option<M>, writes: seq<Write<M>>, w: Write<M>)
    requires Linked(initial, writes) && Some(w.before) == Last(initial, writes)
    requires forall i :: 0 <= i < |writes| ==> writes[i].ticket < w.ticket
    ensures Linked(initial, writes + [w])
  {
    var all := writes + [w];
    forall i: nat | i < |all|
      ensures Some(all[i].before) == Last(initial, all[..i])
    {
      assert all[..i] == writes[..i];
      assert writes[..|writes|] == writes;
    }
  }

  lemma SettledIsEarlier<J, M>(c: Chain<J, M>, u: nat, t: nat)
    requires TurnsFit(c) && Current(c, t) && IsSettled(c, u)
    ensures u < t
  {
    assert AllSettled(c, u);
  }

  lemma WritersAreEarlier<J, M>(c: Chain<J, M>, t: nat)
    requires TurnsFit(c) && WritesFit(c) && Current(c, t)
    ensures forall i :: 0 <= i < |c.writes| ==> c.writes[i].ticket < t
  {
    forall i | 0 <= i < |c.writes|
      ensures c.writes[i].ticket < t
    {
      SettledIsEarlier(c, c.writes[i].ticket, t);
    }
  }

  lemma CommitLinks<J, M>(c: Chain<J, M>, t: nat)
    requires Inv(c) && Enabled(c, Commit(t)) && Current(c, t) && c.file.Some?
    ensures Linked(c.initial, Next(c, Commit(t)).writes)
  {
    assert Fresh(c.file, c.tickets[t].phase);
    WritersAreEarlier(c, t);
    WriteLinks(c.initial, c.writes, Write(t, c.tickets[t].phase.before, c.tickets[t].phase.record));
  }

  lemma CommitFits<J, M>(c: Chain<J, M>, t: nat)
    requires WritesFit(c) && Enabled(c, Commit(t)) && Current(c, t) && c.file.Some?
    ensures WritesFit(Next(c, Commit(t)))
  {
    var next := Next(c, Event<J, M>.Commit(t));
    forall u: nat | u < |next.tickets| && next.tickets[u].phase == Settled(Stored)
      ensures exists i :: 0 <= i < |next.writes| && next.writes[i].ticket == u
    {
      if u == t {
        assert next.writes[|c.writes|].ticket == t;
      } else {
        var i :| 0 <= i < |c.writes| && c.writes[i].ticket == u;
        assert next.writes[i] == c.writes[i];
      }
    }
  }

  lemma CommitKeepsInv<J, M>(c: Chain<J, M>, t: nat)
    requires Inv(c) && Enabled(c, Commit(t))
    ensures Inv(Next(c, Commit(t)))
  {
    CurrentIs(c, Event<J, M>.Commit(t));
    if c.file.None? {
      MoveKeepsInv(c, t, Settled(Vanished));
    } else {
      var next := Next(c, Event<J, M>.Commit(t));
      MoveKeepsOrder(c, t, Settled(Stored));
      MoveKeepsReads(c, t, Settled(Stored), next.file);
      CommitLinks(c, t);
      CommitFits(c, t);
    }
  }

  lemma ReleaseKeepsInv<J, M>(c: Chain<J, M>, t: nat)
    requires Inv(c) && Enabled(c, Release(t))
    ensures Inv(Next(c, Release(t)))
  {
    assert AllSettled(c, t);
  }

  lemma StepKeepsInv<J, M>(c: Chain<J, M>, e: Event<J, M>)
    requires Inv(c) && Enabled(c, e)
    ensures Inv(Next(c, e))
  {
    match e {
      case Submit(job) => SubmitKeepsInv(c, job);
      case Commit(t) => CommitKeepsInv(c, t);
      case Release(t) => ReleaseKeepsInv(c, t);
      case Delete =>
      case Load(t, unreadable) =>
        CurrentIs(c, e);
        MoveKeepsInv(c, t, AfterLoad(c.file, unreadable));
      case Compute(t, reply) =>
        CurrentIs(c, e);
        assert Fresh(c.file, c.tickets[t].phase);
        MoveKeepsInv(c, t, AfterCompute(c.tickets[t].phase.read, reply));
      case Fail(t) =>
        CurrentIs(c, e);
        MoveKeepsInv(c, t, Settled(Rejected));
    }
  }

  lemma {:induction false} RunKeepsInv<J, M>(c: Chain<J, M>, events: seq<Event<J, M>>)
    requires Inv(c)
    ensures Exec(c, events).Some? ==> Inv(Exec(c, events).value)
    decreases |events|
  {
    if events != [] && Enabled(c, events[0]) {
      StepKeepsInv(c, events[0]);
      RunKeepsInv(Next(c, events[0]), events[1..]);
    }
  }

  /**
   Over every interleaving of arrivals, reads, computations, writes, failures, cleanups and deletion: a
   call is between its read and its write only while every earlier one has settled and no later one has
   started, and every record written was computed from the one written just before it.
   */
  lemma UpdatesAreSerialized<J, M>(file: Option<M>, events: seq<Event<J, M>>, c: Chain<J, M>)
    requires Exec(NewChain(file), events) == Some(c)
    ensures forall s, t :: 0 <= s < t < |c.tickets| && !c.tickets[t].phase.Waiting? ==> c.tickets[s].phase.Settled?
    ensures Linked(file, c.writes) && WritesFit(c)
    ensures c.file.Some? ==> c.file == Last(file, c.writes)
    ensures forall t: nat :: t < |c.tickets| && c.tickets[t].phase.Waiting? && AllSettled(c, t) ==>
              Enabled(c, Event<J, M>.Load(t, false))
    ensures c.tail.None? ==> AllSettled(c, |c.tickets|)
  {
    RunKeepsInv(NewChain<J, M>(file), events);
    InitialIsKept(NewChain<J, M>(file), events);
    forall s: nat, t: nat | s < t < |c.tickets| && !c.tickets[t].phase.Waiting?
      ensures c.tickets[s].phase.Settled?
    {
      assert AllSettled(c, t);
    }
    forall t: nat | t < |c.tickets| && c.tickets[t].phase.Waiting? && AllSettled(c, t)
      ensures Enabled(c, Event<J, M>.Load(t, false))
    {
      StartsIffFirst(c, t, false);
    }
  }

  lemma {:induction false} InitialIsKept<J, M>(c: Chain<J, M>, events: seq<Event<J, M>>)
    ensures Exec(c, events).Some? ==> Exec(c, events).value.initial == c.initial
    decreases |events|
  {
    if events != [] && Enabled(c, events[0]) {
      InitialIsKept(Next(c, events[0]), events[1..]);
    }
  }

  /** Nothing brings a deleted chat back, not even a write that was computed before the deletion. */
  lemma {:induction false} DeletedStaysDeleted<J, M>(c: Chain<J, M>, events: seq<Event<J, M>>)
    requires c.file.None?
    ensures Exec(c, events).Some? ==> Exec(c, events).value.file.None?
    decreases |events|
  {
    if events != [] && Enabled(c, events[0]) {
      DeletedStaysDeleted(Next(c, events[0]), events[1..]);
    }
  }

  // ---------------------------------------------------------------- the fold of the updates

  type Update<!M> = M -> Reply<M>

  /** The update functions do the computing. */
  ghost predicate Honest<M(!new)>(c: Chain<Update<M>, M>, e: Event<Update<M>, M>)
    requires Enabled(c, e)
  {
    e.Compute? ==> e.reply == c.tickets[e.t].job(c.tickets[e.t].phase.read)
  }

  ghost predicate HonestRun<M(!new)>(c: Chain<Update<M>, M>, events: seq<Event<Update<M>, M>>)
    decreases |events|
  {
    events != [] ==> Enabled(c, events[0]) && Honest(c, events[0]) && HonestRun(Next(c, events[0]), events[1..])
  }

  function Apply<M>(record: Option<M>, update: Update<M>): Option<M> {
    if record.Some? && update(record.value).Replace? then Some(update(record.value).record) else record
  }

  /** The record after one more call: its update applied if the call returned without an exception. */
  function After<M>(record: Option<M>, ticket: Ticket<Update<M>, M>): Option<M> {
    if ticket.phase == Settled(Stored) || ticket.phase == Settled(Kept) then Apply(record, ticket.job) else record
  }

  function Fold<M>(initial: Option<M>, tickets: seq<Ticket<Update<M>, M>>): Option<M> {
    if tickets == [] then initial else After(Fold(initial, tickets[..|tickets| - 1]), tickets[|tickets| - 1])
  }

  lemma {:induction false} FoldStops<M>(initial: Option<M>, tickets: seq<Ticket<Update<M>, M>>, n: nat)
    requires n <= |tickets| && forall t :: n <= t < |tickets| ==> !tickets[t].phase.Settled?
    ensures Fold(initial, tickets) == Fold(initial, tickets[..n])
    decreases |tickets|
  {
    if n == |tickets| {
      assert tickets[..n] == tickets;
    } else {
      FoldStops(initial, tickets[..|tickets| - 1], n);
      assert tickets[..|tickets| - 1][..n] == tickets[..n];
    }
  }

  /** Settling the running call adds its update at the end of the fold. */
  lemma FoldAfter<M>(initial: Option<M>, tickets: seq<Ticket<Update<M>, M>>, t: nat, ticket: Ticket<Update<M>, M>)
    requires t < |tickets| && forall u :: t <= u < |tickets| ==> !tickets[u].phase.Settled?
    ensures Fold(initial, tickets[t := ticket]) == After(Fold(initial, tickets), ticket)
  {
    var moved := tickets[t := ticket];
    FoldStops(initial, tickets, t);
    FoldStops(initial, moved, t + 1);
    assert moved[..t + 1][..t] == tickets[..t];
  }

  /** The running call was computed from what it read, and the file is the fold of the calls that have settled. */
  ghost predicate IsFold<M(!new)>(c: Chain<Update<M>, M>) {
    && (forall t :: 0 <= t < |c.tickets| && c.tickets[t].phase.Computed? ==>
          c.tickets[t].job(c.tickets[t].phase.before) == Replace(c.tickets[t].phase.record))
    && (c.file.Some? ==> c.file == Fold(c.initial, c.tickets))
  }

  lemma LaterUnsettled<J, M>(c: Chain<J, M>, t: nat)
    requires TurnsFit(c) && Current(c, t)
    ensures forall u :: t <= u < |c.tickets| ==> !c.tickets[u].phase.Settled?
  {
    forall u: nat | t <= u < |c.tickets|
      ensures !c.tickets[u].phase.Settled?
    {
      if c.tickets[u].phase.Settled? {
        SettledIsEarlier(c, u, t);
      }
    }
  }

  lemma FoldStep<M(!new)>(c: Chain<Update<M>, M>, e: Event<Update<M>, M>)
    requires Inv(c) && IsFold(c) && Enabled(c, e) && Honest(c, e)
    ensures IsFold(Next(c, e))
  {
    var next := Next(c, e);
    match e {
      case Submit(job) => assert next.tickets[..|c.tickets|] == c.tickets;
      case Release(t) =>
      case Delete =>
      case Load(t, _) => MoveKeepsFold(c, e, t);
      case Compute(t, _) => MoveKeepsFold(c, e, t);
      case Commit(t) => MoveKeepsFold(c, e, t);
      case Fail(t) => MoveKeepsFold(c, e, t);
    }
  }

  lemma MoveKeepsFold<M(!new)>(c: Chain<Update<M>, M>, e: Event<Update<M>, M>, t: nat)
    requires Inv(c) && IsFold(c) && Enabled(c, e) && Honest(c, e)
    requires (e.Load? || e.Compute? || e.Commit? || e.Fail?) && e.t == t
    ensures IsFold(Next(c, e))
  {
    var next := Next(c, e);
    CurrentIs(c, e);
    LaterUnsettled(c, t);
    FoldAfter(c.initial, c.tickets, t, next.tickets[t]);
    assert Fresh(c.file, c.tickets[t].phase);
    assert next.tickets == c.tickets[t := next.tickets[t]];
  }

  lemma {:induction false} RunKeepsFold<M(!new)>(c: Chain<Update<M>, M>, events: seq<Event<Update<M>, M>>)
    requires Inv(c) && IsFold(c) && HonestRun(c, events)
    ensures Exec(c, events).Some? && IsFold(Exec(c, events).value)
    decreases |events|
  {
    if events != [] {
      StepKeepsInv(c, events[0]);
      FoldStep(c, events[0]);
      RunKeepsFold(Next(c, events[0]), events[1..]);
    }
  }

  /**
   Over every interleaving, a file that still exists is the fold, in order of arrival, of the updates of
   all calls that returned without an exception: none is lost, none is overwritten by a stale read, and
   those that threw or could not read leave no trace.
   */
  lemma MetadataIsFold<M(!new)>(file: Option<M>, events: seq<Event<Update<M>, M>>, c: Chain<Update<M>, M>)
    requires HonestRun(NewChain(file), events) && Exec(NewChain(file), events) == Some(c)
    ensures c.file.Some? ==> c.file == Fold(file, c.tickets)
  {
    RunKeepsFold(NewChain<Update<M>, M>(file), events);
    InitialIsKept(NewChain<Update<M>, M>(file), events);
  }

  // ---------------------------------------------------------------- the calls, cut at their awaits

  class Records<M> {
    var file: Option<M>
    var tickets: seq<Ticket<Update<M>, M>>
    /** The entry of this chat in the map of promises. */
    var metadataUpdate: Option<nat>
    ghost var initial: Option<M>
    ghost var writes: seq<Write<M>>

    ghost function Snapshot(): Chain<Update<M>, M>
      reads this
    {
      Chain(initial, file, tickets, metadataUpdate, writes)
    }

    constructor (file: Option<M>)
      ensures Snapshot() == NewChain(file)
    {
      this.file, tickets, metadataUpdate := file, [], None;
      initial, writes := file, [];
    }

    method UpdateChatMetadata(update: Update<M>) returns (t: nat)
      modifies this
      ensures t == |old(tickets)| && Snapshot() == Next(old(Snapshot()), Submit(update))
    {
      t := |tickets|;
      tickets := tickets + [Ticket(update, metadataUpdate, Waiting)];
      metadataUpdate := Some(t);
    }

    method ReadChatMetadata(t: nat, unreadable: bool)
      requires Enabled(Snapshot(), Load(t, unreadable))
      modifies this
      ensures Snapshot() == Next(old(Snapshot()), Load(t, unreadable))
    {
      if file.None? || unreadable {
        tickets := tickets[t := tickets[t].(phase := Settled(Unread))];
      } else {
        tickets := tickets[t := tickets[t].(phase := Loaded(file.value))];
      }
    }

    /** The update runs on the record as it was read. */
    method RunUpdate(t: nat)
      requires t < |tickets| && tickets[t].phase.Loaded?
      modifies this
      ensures var c := old(Snapshot());
              Snapshot() == Next(c, Compute(t, c.tickets[t].job(c.tickets[t].phase.read)))
    {
      var update, read := tickets[t].job, tickets[t].phase.read;
      var phase := match update(read)
        case Keep => Settled(Kept)
        case Replace(changed) => Computed(read, changed)
        case Throw => Settled(Rejected);
      tickets := tickets[t := tickets[t].(phase := phase)];
    }

    method WriteMetadataFile(t: nat)
      requires Enabled(Snapshot(), Commit(t))
      modifies this
      ensures Snapshot() == Next(old(Snapshot()), Commit(t))
    {
      var changed := tickets[t].phase.record;
      if file.None? {
        tickets := tickets[t := tickets[t].(phase := Settled(Vanished))];
      } else {
        file := Some(changed);
        writes := writes + [Write(t, tickets[t].phase.before, changed)];
        tickets := tickets[t := tickets[t].(phase := Settled(Stored))];
      }
    }

    method CleanUp(t: nat)
      requires Enabled(Snapshot(), Release(t))
      modifies this
      ensures Snapshot() == Next(old(Snapshot()), Release(t))
    {
      if metadataUpdate == Some(t) {
        metadataUpdate := None;
      }
    }
  }
}
