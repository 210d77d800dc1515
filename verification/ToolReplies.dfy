/**
 What the tool messages of a batch say, over any run: each answers its call with the result its first
 equal call returned, nothing is started once the turn is over, and the turn is never stuck.
 */
module ToolReplies {
  import opened Common
  import opened ToolBatch

  /** The result call `i` returned in the run, if it has. */
  function Settlement(events: seq<Event>, i: nat): Option<Result> {
    if events == [] then None
    else match events[|events| - 1]
         case Settle(index, result) => if index == i then Some(result) else Settlement(events[..|events| - 1], i)
         case _ => Settlement(events[..|events| - 1], i)
  }

  /** Before the duplicates are filled the results are those returned, afterwards those of the first equal calls. */
  ghost predicate ResultsFit(rep: seq<nat>, events: seq<Event>, st: State) {
    if st.filled then forall i :: i in st.results ==> i < |rep| && Settlement(events, rep[i]) == Some(st.results[i])
    else forall i :: Settlement(events, i) == if i in st.results then Some(st.results[i]) else None
  }

  /** Message `k` of the batch is the answer to call `k`. */
  ghost predicate Answers(calls: seq<Call>, rep: seq<nat>, events: seq<Event>, entry: LogEntry, k: nat) {
    && k < |calls| && k < |rep| && Settlement(events, rep[k]).Some?
    && entry == Answer(calls[k].id, Settlement(events, rep[k]).value)
  }

  /** The entry names a call of the batch. */
  ghost predicate Interrupts(calls: seq<Call>, entry: LogEntry) {
    exists call :: call in calls && entry == Interrupted(call.id, call.name)
  }

  lemma {:induction false} InterruptionsInterrupt(calls: seq<Call>, pending: seq<Call>)
    requires forall call :: call in pending ==> call in calls
    ensures forall entry :: entry in Interruptions(pending) ==> Interrupts(calls, entry)
  {
    if pending != [] {
      assert pending[0] in calls;
      InterruptionsInterrupt(calls, pending[1..]);
    }
  }

  lemma {:induction false} WithoutIsPart(pending: seq<Call>, id: string)
    ensures forall call :: call in Without(pending, id) ==> call in pending
  {
    if pending != [] {
      WithoutIsPart(pending[1..], id);
    }
  }

  lemma {:induction false} PutIsPart(pending: seq<Call>, call: Call)
    ensures forall other :: other in Put(pending, call) ==> other in pending || other == call
  {
    if pending != [] {
      PutIsPart(pending[1..], call);
    }
  }

  lemma {:induction false} EnteredIsPart(calls: seq<Call>)
    ensures forall call :: call in Entered(calls) ==> call in calls
    decreases |calls|
  {
    if calls != [] {
      EnteredIsPart(calls[..|calls| - 1]);
      PutIsPart(Entered(calls[..|calls| - 1]), calls[|calls| - 1]);
    }
  }

  ghost predicate LogFits(calls: seq<Call>, rep: seq<nat>, events: seq<Event>, st: State) {
    && |st.rest| <= |calls| == |rep| && st.rest == calls[|calls| - |st.rest|..]
    && |calls| - |st.rest| <= |st.log| && (!st.closed ==> |st.log| == |calls| - |st.rest|)
    && (forall k :: 0 <= k < |calls| - |st.rest| ==> Answers(calls, rep, events, st.log[k], k))
    && (forall k :: |calls| - |st.rest| <= k < |st.log| ==> Interrupts(calls, st.log[k]))
    && (forall call :: call in st.pending ==> call in calls)
    && (st.rest != calls ==> st.filled)
  }

  /** The flags say what has happened. */
  ghost predicate FlagsFit(events: seq<Event>, st: State) {
    && (st.aborted <==> Abort in events)
    && (st.closed <==> Flush in events || Break in events)
    && (st.filled <==> Fill in events)
  }

  lemma FlagsStep(stages: seq<seq<nat>>, rep: seq<nat>, events: seq<Event>, st: State, e: Event)
    requires FlagsFit(events, st) && Enabled(stages, rep, st, e)
    ensures FlagsFit(events + [e], Next(stages, rep, st, e))
  {
  }

  lemma SettlementSnoc(events: seq<Event>, e: Event, i: nat)
    ensures Settlement(events + [e], i) == if e.Settle? && e.index == i then Some(e.result) else Settlement(events, i)
  {
    assert (events + [e])[..|events|] == events;
  }

  lemma ResultsStep(stages: seq<seq<nat>>, rep: seq<nat>, events: seq<Event>, st: State, e: Event)
    requires ResultsFit(rep, events, st) && Enabled(stages, rep, st, e)
    ensures ResultsFit(rep, events + [e], Next(stages, rep, st, e))
  {
    forall i: nat
      ensures Settlement(events + [e], i) == if e.Settle? && e.index == i then Some(e.result) else Settlement(events, i)
    {
      SettlementSnoc(events, e, i);
    }
  }

  lemma LogStep(calls: seq<Call>, stages: seq<seq<nat>>, rep: seq<nat>, events: seq<Event>, st: State, e: Event)
    requires LogFits(calls, rep, events, st) && ResultsFit(rep, events, st) && Enabled(stages, rep, st, e)
    ensures LogFits(calls, rep, events + [e], Next(stages, rep, st, e))
  {
    var next := Next(stages, rep, st, e);
    forall i: nat
      ensures Settlement(events + [e], i) == if e.Settle? && e.index == i then Some(e.result) else Settlement(events, i)
    {
      SettlementSnoc(events, e, i);
    }
    forall k | 0 <= k < |calls| - |next.rest|
      ensures Answers(calls, rep, events + [e], next.log[k], k)
    {
      assert k < |calls| - |st.rest| ==> Answers(calls, rep, events, st.log[k], k);
    }
    InterruptionsInterrupt(calls, st.pending);
    if e.Reply? {
      WithoutIsPart(st.pending, st.rest[0].id);
    }
  }

  ghost predicate Fits(calls: seq<Call>, rep: seq<nat>, events: seq<Event>, st: State) {
    FlagsFit(events, st) && ResultsFit(rep, events, st) && LogFits(calls, rep, events, st)
  }

  lemma FitsStep(calls: seq<Call>, stages: seq<seq<nat>>, rep: seq<nat>, events: seq<Event>, st: State, e: Event)
    requires Fits(calls, rep, events, st) && Enabled(stages, rep, st, e)
    ensures Fits(calls, rep, events + [e], Next(stages, rep, st, e))
  {
    FlagsStep(stages, rep, events, st, e);
    ResultsStep(stages, rep, events, st, e);
    LogStep(calls, stages, rep, events, st, e);
  }

  lemma StartFits(calls: seq<Call>, rep: seq<nat>)
    requires |rep| == |calls|
    ensures Fits(calls, rep, [], Start(calls))
  {
    EnteredIsPart(calls);
  }

  lemma {:induction false} RunFits(calls: seq<Call>, rep: seq<nat>, stages: seq<seq<nat>>, events: seq<Event>, st: State)
    requires |rep| == |calls| && Reaches(calls, rep, stages, events, st)
    ensures Fits(calls, rep, events, st)
    decreases |events|
  {
    if events == [] {
      StartFits(calls, rep);
    } else {
      var n := |events| - 1;
      var before :|
        Reaches(calls, rep, stages, events[..n], before) && Enabled(stages, rep, before, events[n])
        && st == Next(stages, rep, before, events[n]);
      RunFits(calls, rep, stages, events[..n], before);
      FitsStep(calls, stages, rep, events[..n], before, events[n]);
      assert events[..n] + [events[n]] == events;
    }
  }

  /**
   In any run the tool messages are first answers to the calls of the batch in order, each with the
   result returned for the first equal call, and then interruptions of calls of the batch.
   */
  lemma RepliesAreResults(calls: seq<Call>, rep: seq<nat>, stages: seq<seq<nat>>, events: seq<Event>, st: State, k: nat)
    requires |rep| == |calls| && Reaches(calls, rep, stages, events, st) && k < |st.log|
    ensures if k < Replies(events) then Answers(calls, rep, events, st.log[k], k) else Interrupts(calls, st.log[k])
  {
    RunFits(calls, rep, stages, events, st);
    RepliesTake(calls, rep, stages, events, st);
  }

  /** Each reply takes one call off the rest. */
  lemma {:induction false} RepliesTake(calls: seq<Call>, rep: seq<nat>, stages: seq<seq<nat>>, events: seq<Event>, st: State)
    requires Reaches(calls, rep, stages, events, st)
    ensures |st.rest| + Replies(events) == |calls|
    decreases |events|
  {
    if events != [] {
      var n := |events| - 1;
      var before :|
        Reaches(calls, rep, stages, events[..n], before) && Enabled(stages, rep, before, events[n])
        && st == Next(stages, rep, before, events[n]);
      RepliesTake(calls, rep, stages, events[..n], before);
    }
  }

  /** What may still happen after a given event. */
  predicate MayFollow(events: seq<Event>, e: Event) {
    match e
    case Launch => Abort !in events && Break !in events && Fill !in events
    case Settle(i, _) => Settlement(events, i).None? && Fill !in events
    case Fill => Abort !in events && Break !in events && Fill !in events
    case Reply => Abort !in events && Break !in events && Fill in events
    case Abort => true
    case Flush => Abort in events && Flush !in events && Break !in events
    case Break => Abort !in events && Break !in events
  }

  /** Results are filled in only when every stage has been launched. */
  lemma {:induction false} FilledIsLast(calls: seq<Call>, rep: seq<nat>, stages: seq<seq<nat>>, events: seq<Event>, st: State)
    requires Reaches(calls, rep, stages, events, st)
    ensures st.filled ==> st.stage == |stages|
    decreases |events|
  {
    if events != [] {
      var n := |events| - 1;
      var before :|
        Reaches(calls, rep, stages, events[..n], before) && Enabled(stages, rep, before, events[n])
        && st == Next(stages, rep, before, events[n]);
      FilledIsLast(calls, rep, stages, events[..n], before);
    }
  }

  lemma NowMayFollow(calls: seq<Call>, rep: seq<nat>, stages: seq<seq<nat>>, events: seq<Event>, st: State, e: Event)
    requires |rep| == |calls| && Reaches(calls, rep, stages, events, st) && Enabled(stages, rep, st, e)
    ensures MayFollow(events, e)
  {
    RunFits(calls, rep, stages, events, st);
    FilledIsLast(calls, rep, stages, events, st);
  }

  /**
   Once the turn is aborted or broken nothing is dispatched or answered; every call returns once, and the
   handler runs once.
   */
  lemma {:induction false} RunIsOrdered(calls: seq<Call>, rep: seq<nat>, stages: seq<seq<nat>>, events: seq<Event>, st: State,
                                        i: nat)
    requires |rep| == |calls| && Reaches(calls, rep, stages, events, st) && i < |events|
    ensures MayFollow(events[..i], events[i])
    decreases |events|
  {
    var n := |events| - 1;
    var before :|
      Reaches(calls, rep, stages, events[..n], before) && Enabled(stages, rep, before, events[n])
      && st == Next(stages, rep, before, events[n]);
    if i < n {
      RunIsOrdered(calls, rep, stages, events[..n], before, i);
      assert events[..n][..i] == events[..i];
    } else {
      NowMayFollow(calls, rep, stages, events[..n], before, events[n]);
    }
  }

  /** A stage starts, and duplicates are filled in, only when everything launched before has returned. */
  lemma StagesWait(calls: seq<Call>, rep: seq<nat>, stages: seq<seq<nat>>, events: seq<Event>, st: State, e: Event)
    requires AreRepresentatives(calls, rep) && IsSchedule(rep, stages) && Reaches(calls, rep, stages, events, st)
    requires Enabled(stages, rep, st, e) && (e.Launch? || e.Fill?)
    ensures st.stage <= |stages| && forall i :: i in Flatten(stages[..st.stage]) ==> Settlement(events, i).Some?
    ensures e.Fill? ==> st.stage == |stages|
  {
    InvHolds(calls, rep, stages, events, st);
    RunFits(calls, rep, stages, events, st);
    FilledIsLast(calls, rep, stages, events, st);
  }

  /** The step with which the turn goes on. */
  function Onward(stages: seq<seq<nat>>, st: State, i: nat, r: Result): Event {
    if st.aborted then Flush
    else if i in st.launched && i !in st.results then Settle(i, r)
    else if st.stage < |stages| then Launch
    else if !st.filled then Fill
    else Reply
  }

  /** The turn is never stuck: unless it is over it can go on, whatever call `i` returns, and it can always be aborted. */
  lemma NeverStuck(calls: seq<Call>, rep: seq<nat>, stages: seq<seq<nat>>, events: seq<Event>, st: State, r: Result)
    returns (i: nat)
    requires AreRepresentatives(calls, rep) && IsSchedule(rep, stages)
    requires Reaches(calls, rep, stages, events, st)
    ensures !Over(st) ==> Enabled(stages, rep, st, Onward(stages, st, i, r))
    ensures Enabled(stages, rep, st, Abort) && (!st.aborted && !st.closed ==> Enabled(stages, rep, st, Break))
  {
    InvHolds(calls, rep, stages, events, st);
    RunFits(calls, rep, stages, events, st);
    FilledIsLast(calls, rep, stages, events, st);
    i := 0;
    if j :| j in st.launched && j !in st.results {
      i := j;
      LaunchedExist(rep, stages, st.stage, j);
    }
  }

  lemma LaunchedExist(rep: seq<nat>, stages: seq<seq<nat>>, n: nat, i: nat)
    requires IsSchedule(rep, stages) && n <= |stages| && i in Flatten(stages[..n])
    ensures i < |rep|
  {
    FlattenConcat(stages[..n], stages[n..]);
    assert stages[..n] + stages[n..] == stages;
    assert i in Flatten(stages[..n]) + Flatten(stages[n..]);
  }
}
