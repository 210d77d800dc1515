/**
 One batch of tool calls in a turn: duplicates share the first equal call's result, dispatches
 settle in any order, the turn may be aborted, timed out or broken by an error at any point, and
 every call id must get its tool message.
 */
module ToolBatch {
  /** `key` is the dedup key of tool name and arguments. */
  datatype Call = Call(id: string, name: string, key: string)

  datatype Result = Result(ok: bool, text: string)

  datatype LogEntry = Answer(callId: string, result: Result) | Interrupted(callId: string, name: string)

  // ---------------------------------------------------------------- duplicates

  /** The index of the first call with the same key. */
  ghost predicate IsFirstEqual(calls: seq<Call>, i: nat, r: nat)
    requires i < |calls|
  {
    r <= i && calls[r].key == calls[i].key && forall j :: 0 <= j < r ==> calls[j].key != calls[i].key
  }

  ghost predicate AreRepresentatives(calls: seq<Call>, rep: seq<nat>) {
    |rep| == |calls| && forall i :: 0 <= i < |calls| ==> IsFirstEqual(calls, i, rep[i])
  }

  method Representatives(calls: seq<Call>) returns (rep: seq<nat>)
    ensures AreRepresentatives(calls, rep)
  {
    rep := [];
    var firstIdxByKey: map<string, nat> := map[];
    var i := 0;
    while i < |calls|
      invariant 0 <= i <= |calls| && |rep| == i
      invariant forall k :: 0 <= k < i ==> IsFirstEqual(calls, k, rep[k])
      invariant forall k :: 0 <= k < i ==> calls[k].key in firstIdxByKey
      invariant forall key :: key in firstIdxByKey ==>
                  firstIdxByKey[key] < i && IsFirstEqual(calls, firstIdxByKey[key], firstIdxByKey[key])
                  && calls[firstIdxByKey[key]].key == key
    {
      var key := calls[i].key;
      if key in firstIdxByKey {
        rep := rep + [firstIdxByKey[key]];
      } else {
        firstIdxByKey := firstIdxByKey[key := i];
        rep := rep + [i];
      }
      i := i + 1;
    }
  }

  // ---------------------------------------------------------------- the state machine

  /**
   `stages` is the dispatch schedule; `rest` the calls the reply loop has not reached; `pending` the
   entries of the map of unanswered ids, in its order; `log` the tool messages appended since the
   assistant message.
   */
  datatype State = State(stage: nat, launched: seq<nat>, results: map<nat, Result>, filled: bool, rest: seq<Call>,
                         pending: seq<Call>, log: seq<LogEntry>, aborted: bool, closed: bool)

  datatype Event =
    | Launch                              // the next stage starts, if the previous one has settled
    | Settle(index: nat, result: Result)  // a dispatched call returns
    | Fill                                // duplicates take over their representative's result
    | Reply                               // the next tool message is appended
    | Abort                               // the abort signal is raised, by the user or the timeout
    | Flush                               // the handler answers what is still pending
    | Break                               // an error other than an abort ends the turn

  /** Setting the map entry of a call: an id that is there already keeps its place. */
  function Put(pending: seq<Call>, call: Call): seq<Call> {
    if pending == [] then [call]
    else if pending[0].id == call.id then [call] + pending[1..]
    else [pending[0]] + Put(pending[1..], call)
  }

  /** The map once the whole batch is entered. */
  function Entered(calls: seq<Call>): seq<Call> {
    if calls == [] then [] else Put(Entered(calls[..|calls| - 1]), calls[|calls| - 1])
  }

  function Without(pending: seq<Call>, id: string): seq<Call> {
    if pending == [] then []
    else if pending[0].id == id then pending[1..]
    else [pending[0]] + Without(pending[1..], id)
  }

  function Start(calls: seq<Call>): State {
    State(0, [], map[], false, calls, Entered(calls), [], false, false)
  }

  predicate Settled(st: State) {
    forall i :: i in st.launched ==> i in st.results
  }

  function FilledResults(rep: seq<nat>, results: map<nat, Result>): map<nat, Result> {
    map i | 0 <= i < |rep| && rep[i] in results :: results[rep[i]]
  }

  function Interruptions(pending: seq<Call>): seq<LogEntry> {
    if pending == [] then [] else [Interrupted(pending[0].id, pending[0].name)] + Interruptions(pending[1..])
  }

  predicate Enabled(stages: seq<seq<nat>>, rep: seq<nat>, st: State, e: Event) {
    match e
    case Launch => st.stage < |stages| && Settled(st) && !st.aborted && !st.closed
    case Settle(i, _) => i in st.launched && i !in st.results && !st.filled
    case Fill => st.stage == |stages| && Settled(st) && !st.filled && !st.aborted && !st.closed
    case Reply => st.filled && st.rest != [] && !st.aborted && !st.closed && |rep| - |st.rest| in st.results
    case Abort => true
    case Flush => st.aborted && !st.closed
    case Break => !st.aborted && !st.closed
  }

  function Next(stages: seq<seq<nat>>, rep: seq<nat>, st: State, e: Event): State
    requires Enabled(stages, rep, st, e)
  {
    match e
    case Launch => st.(stage := st.stage + 1, launched := st.launched + stages[st.stage])
    case Settle(i, r) => st.(results := st.results[i := r])
    case Fill => st.(results := FilledResults(rep, st.results), filled := true)
    case Reply =>
      st.(log := st.log + [Answer(st.rest[0].id, st.results[|rep| - |st.rest|])], rest := st.rest[1..],
          pending := Without(st.pending, st.rest[0].id))
    case Abort => st.(aborted := true)
    case Flush => st.(log := st.log + Interruptions(st.pending), pending := [], closed := true)
    case Break => st.(closed := true)
  }

  /** The same steps as the harness takes them, on its own fields. */
  class Turn {
    const calls: seq<Call>
    const rep: seq<nat>
    const stages: seq<seq<nat>>
    var stage: nat
    var launched: seq<nat>
    var results: map<nat, Result>
    var filled: bool
    var rest: seq<Call>
    var pendingToolCalls: seq<Call>
    var log: seq<LogEntry>
    var aborted: bool
    var closed: bool

    ghost function Snapshot(): State
      reads this
    {
      State(stage, launched, results, filled, rest, pendingToolCalls, log, aborted, closed)
    }

    constructor (calls: seq<Call>, rep: seq<nat>, stages: seq<seq<nat>>)
      requires AreRepresentatives(calls, rep)
      ensures this.calls == calls && this.rep == rep && this.stages == stages && Snapshot() == Start(calls)
    {
      this.calls, this.rep, this.stages := calls, rep, stages;
      stage, launched, results, filled := 0, [], map[], false;
      rest, log, aborted, closed := calls, [], false, false;
      pendingToolCalls := [];
      new;
      var i := 0;
      while i < |calls|
        modifies this`pendingToolCalls
        invariant 0 <= i <= |calls| && pendingToolCalls == Entered(calls[..i])
      {
        assert calls[..i + 1][..i] == calls[..i];
        pendingToolCalls := Put(pendingToolCalls, calls[i]);
        i := i + 1;
      }
      assert calls[..|calls|] == calls;
    }

    method LaunchStage()
      requires Enabled(stages, rep, Snapshot(), Launch)
      modifies this
      ensures Snapshot() == Next(stages, rep, old(Snapshot()), Launch)
    {
      launched := launched + stages[stage];
      stage := stage + 1;
    }

    method SettleCall(index: nat, result: Result)
      requires Enabled(stages, rep, Snapshot(), Settle(index, result))
      modifies this
      ensures Snapshot() == Next(stages, rep, old(Snapshot()), Settle(index, result))
    {
      results := results[index := result];
    }

    method FillDuplicates()
      requires AreRepresentatives(calls, rep)
      requires Enabled(stages, rep, Snapshot(), Fill)
      requires forall i: nat :: i in results ==> i < |rep| && rep[i] == i
      modifies this
      ensures Snapshot() == Next(stages, rep, old(Snapshot()), Fill)
    {
      ghost var before := results;
      var i := 0;
      while i < |calls|
        modifies this`results
        invariant 0 <= i <= |calls|
        invariant forall k: nat :: k in results <==> k in before || (k < i && rep[k] in before)
        invariant forall k: nat :: k in results ==> k < |rep| && rep[k] in before && results[k] == before[rep[k]]
      {
        if rep[i] != i && rep[i] in results {
          results := results[i := results[rep[i]]];
        }
        i := i + 1;
      }
      assert results == FilledResults(rep, before);
      filled := true;
    }

    /** Appends the next result and takes its id off the pending map in one step. */
    method ReplyNext()
      requires Enabled(stages, rep, Snapshot(), Reply)
      modifies this
      ensures Snapshot() == Next(stages, rep, old(Snapshot()), Reply)
    {
      log := log + [Answer(rest[0].id, results[|rep| - |rest|])];
      pendingToolCalls := Without(pendingToolCalls, rest[0].id);
      rest := rest[1..];
    }

    method FlushPending()
      requires Enabled(stages, rep, Snapshot(), Flush)
      modifies this
      ensures Snapshot() == Next(stages, rep, old(Snapshot()), Flush)
    {
      var i := 0;
      while i < |pendingToolCalls|
        modifies this`log
        invariant 0 <= i <= |pendingToolCalls|
        invariant log + Interruptions(pendingToolCalls[i..]) == old(log) + Interruptions(pendingToolCalls)
      {
        assert pendingToolCalls[i..][1..] == pendingToolCalls[i + 1..];
        log := log + [Interrupted(pendingToolCalls[i].id, pendingToolCalls[i].name)];
        i := i + 1;
      }
      pendingToolCalls := [];
      closed := true;
    }
  }

  // ---------------------------------------------------------------- runs

  /** States reachable by `events` from the start of the batch. */
  ghost predicate Reaches(calls: seq<Call>, rep: seq<nat>, stages: seq<seq<nat>>, events: seq<Event>, st: State)
    decreases |events|
  {
    if events == [] then st == Start(calls)
    else
      var n := |events| - 1;
      exists before ::
        Reaches(calls, rep, stages, events[..n], before) && Enabled(stages, rep, before, events[n])
        && st == Next(stages, rep, before, events[n])
  }

  function IdsOf(calls: seq<Call>): seq<string> {
    seq(|calls|, i requires 0 <= i < |calls| => calls[i].id)
  }

  function LoggedIds(log: seq<LogEntry>): seq<string> {
    seq(|log|, i requires 0 <= i < |log| => log[i].callId)
  }

  function Flatten(stages: seq<seq<nat>>): seq<nat> {
    if stages == [] then [] else stages[0] + Flatten(stages[1..])
  }

  ghost predicate Distinct<T>(s: seq<T>) {
    forall i, j :: 0 <= i < j < |s| ==> s[i] != s[j]
  }

  /** The schedule names every representative once and nothing else. */
  ghost predicate IsSchedule(rep: seq<nat>, stages: seq<seq<nat>>) {
    Distinct(Flatten(stages)) && forall i: nat :: i in Flatten(stages) <==> i < |rep| && rep[i] == i
  }

  /** Only representatives are dispatched, each at most once; a result belongs to its call's key. */
  ghost predicate Inv(calls: seq<Call>, rep: seq<nat>, stages: seq<seq<nat>>, st: State) {
    && st.stage <= |stages|
    && st.launched == Flatten(stages[..st.stage])
    && (!st.filled ==> forall i :: i in st.results ==> i in st.launched)
    && (st.filled ==> forall i: nat :: i in st.results <==> i < |rep|)
    && (st.filled ==> forall i :: 0 <= i < |rep| ==> rep[i] < |rep| && st.results[i] == st.results[rep[i]])
  }

  lemma {:induction false} FlattenConcat(a: seq<seq<nat>>, b: seq<seq<nat>>)
    ensures Flatten(a + b) == Flatten(a) + Flatten(b)
  {
    if a == [] {
      assert a + b == b;
    } else {
      assert (a + b)[1..] == a[1..] + b;
      FlattenConcat(a[1..], b);
    }
  }

  lemma FlattenNext(stages: seq<seq<nat>>, n: nat)
    requires n < |stages|
    ensures Flatten(stages[..n + 1]) == Flatten(stages[..n]) + stages[n]
  {
    assert stages[..n + 1] == stages[..n] + [stages[n]];
    FlattenConcat(stages[..n], [stages[n]]);
    assert Flatten([stages[n]]) == stages[n] + Flatten([]);
  }

  lemma {:induction false} InterruptionIds(pending: seq<Call>)
    ensures LoggedIds(Interruptions(pending)) == IdsOf(pending)
    ensures forall e :: e in Interruptions(pending) ==> e.Interrupted?
  {
    if pending != [] {
      InterruptionIds(pending[1..]);
      var head := [Interrupted(pending[0].id, pending[0].name)];
      LoggedConcat(head, Interruptions(pending[1..]));
      assert LoggedIds(head) == [pending[0].id];
      assert IdsOf(pending) == [pending[0].id] + IdsOf(pending[1..]);
    }
  }

  lemma LoggedConcat(a: seq<LogEntry>, b: seq<LogEntry>)
    ensures LoggedIds(a + b) == LoggedIds(a) + LoggedIds(b)
  {
  }

  lemma FillKeepsInv(calls: seq<Call>, rep: seq<nat>, stages: seq<seq<nat>>, st: State)
    requires AreRepresentatives(calls, rep) && IsSchedule(rep, stages)
    requires Inv(calls, rep, stages, st) && Enabled(stages, rep, st, Fill)
    ensures Inv(calls, rep, stages, Next(stages, rep, st, Fill))
  {
    assert stages[..|stages|] == stages;
    forall i | 0 <= i < |rep|
      ensures rep[i] < |rep| && rep[rep[i]] == rep[i] && rep[i] in st.results
    {
      assert IsFirstEqual(calls, i, rep[i]) && IsFirstEqual(calls, rep[i], rep[rep[i]]);
      assert rep[i] in Flatten(stages);
    }
  }

  lemma InvStep(calls: seq<Call>, rep: seq<nat>, stages: seq<seq<nat>>, st: State, e: Event)
    requires AreRepresentatives(calls, rep) && IsSchedule(rep, stages)
    requires Inv(calls, rep, stages, st) && Enabled(stages, rep, st, e)
    ensures Inv(calls, rep, stages, Next(stages, rep, st, e))
  {
    match e {
      case Launch => FlattenNext(stages, st.stage);
      case Fill => FillKeepsInv(calls, rep, stages, st);
      case _ =>
    }
  }

  lemma {:induction false} InvHolds(calls: seq<Call>, rep: seq<nat>, stages: seq<seq<nat>>, events: seq<Event>, st: State)
    requires AreRepresentatives(calls, rep) && IsSchedule(rep, stages)
    requires Reaches(calls, rep, stages, events, st)
    ensures Inv(calls, rep, stages, st)
    decreases |events|
  {
    if events == [] {
      assert stages[..0] == [];
    } else {
      var n := |events| - 1;
      var before :|
        Reaches(calls, rep, stages, events[..n], before) && Enabled(stages, rep, before, events[n])
        && st == Next(stages, rep, before, events[n]);
      InvHolds(calls, rep, stages, events[..n], before);
      InvStep(calls, rep, stages, before, events[n]);
    }
  }

  // ---------------------------------------------------------------- every id is answered

  lemma {:induction false} PutIds(pending: seq<Call>, call: Call)
    ensures forall id :: id in IdsOf(Put(pending, call)) <==> id in IdsOf(pending) || id == call.id
    ensures Distinct(IdsOf(pending)) ==> Distinct(IdsOf(Put(pending, call)))
    ensures call.id !in IdsOf(pending) ==> Put(pending, call) == pending + [call]
  {
    if pending == [] {
      assert IdsOf([call]) == [call.id];
    } else {
      IdsSplit(pending);
      if pending[0].id == call.id {
        IdsCons(call, pending[1..]);
      } else {
        PutIds(pending[1..], call);
        IdsCons(pending[0], Put(pending[1..], call));
        DistinctSplit(pending);
        DistinctSplit(Put(pending, call));
      }
    }
  }

  lemma IdsCons(call: Call, rest: seq<Call>)
    ensures IdsOf([call] + rest) == [call.id] + IdsOf(rest)
  {
  }

  lemma IdsSplit(calls: seq<Call>)
    requires calls != []
    ensures IdsOf(calls) == [calls[0].id] + IdsOf(calls[1..])
  {
    assert calls == [calls[0]] + calls[1..];
    IdsCons(calls[0], calls[1..]);
  }

  lemma DistinctSplit(calls: seq<Call>)
    requires calls != []
    ensures Distinct(IdsOf(calls)) <==> calls[0].id !in IdsOf(calls[1..]) && Distinct(IdsOf(calls[1..]))
  {
    var ids := IdsOf(calls);
    IdsSplit(calls);
    if calls[0].id !in IdsOf(calls[1..]) && Distinct(IdsOf(calls[1..])) {
      forall i, j | 0 <= i < j < |ids|
        ensures ids[i] != ids[j]
      {
        assert ids[j] == IdsOf(calls[1..])[j - 1];
        assert i > 0 ==> ids[i] == IdsOf(calls[1..])[i - 1];
      }
    }
    var rest := IdsOf(calls[1..]);
    if Distinct(ids) {
      assert forall j :: 0 <= j < |rest| ==> rest[j] == ids[j + 1] && ids[0] != ids[j + 1];
      assert forall i, j :: 0 <= i < j < |rest| ==> rest[i] == ids[i + 1] && rest[j] == ids[j + 1];
    }
  }

  /** The map holds each id of the batch once; unique ids leave it the batch itself. */
  lemma {:induction false} EnteredIds(calls: seq<Call>)
    ensures forall id :: id in IdsOf(Entered(calls)) <==> id in IdsOf(calls)
    ensures Distinct(IdsOf(Entered(calls)))
    ensures Distinct(IdsOf(calls)) ==> Entered(calls) == calls
    decreases |calls|
  {
    if calls != [] {
      var n := |calls| - 1;
      EnteredIds(calls[..n]);
      PutIds(Entered(calls[..n]), calls[n]);
      IdsSnoc(calls);
      if Distinct(IdsOf(calls)) {
        var ids := IdsOf(calls);
        assert forall i :: 0 <= i < n ==> IdsOf(calls[..n])[i] == ids[i] && ids[i] != ids[n];
        assert calls[..n] + [calls[n]] == calls;
      }
    }
  }

  lemma IdsSnoc(calls: seq<Call>)
    requires calls != []
    ensures IdsOf(calls) == IdsOf(calls[..|calls| - 1]) + [calls[|calls| - 1].id]
  {
  }

  lemma {:induction false} WithoutIds(pending: seq<Call>, id: string)
    requires Distinct(IdsOf(pending))
    ensures forall x :: x in IdsOf(Without(pending, id)) <==> x in IdsOf(pending) && x != id
    ensures Distinct(IdsOf(Without(pending, id)))
  {
    if pending != [] {
      IdsSplit(pending);
      DistinctSplit(pending);
      if pending[0].id != id {
        WithoutIds(pending[1..], id);
        IdsCons(pending[0], Without(pending[1..], id));
        DistinctSplit(Without(pending, id));
      }
    }
  }

  /**
   The map holds exactly the ids of the batch that have no tool message; until the turn is closed the
   messages are those of the calls before `rest`.
   */
  ghost predicate PendingFits(calls: seq<Call>, st: State) {
    && Distinct(IdsOf(st.pending))
    && (forall id :: id in IdsOf(st.pending) <==> id in IdsOf(calls) && id !in LoggedIds(st.log))
    && |st.rest| <= |calls| && st.rest == calls[|calls| - |st.rest|..]
    && (!st.closed ==> LoggedIds(st.log) == IdsOf(calls[..|calls| - |st.rest|]))
  }

  /** With unique ids the messages and what the map holds make up the batch in order. */
  ghost predicate InOrder(calls: seq<Call>, st: State) {
    LoggedIds(st.log) + IdsOf(st.pending) == IdsOf(calls) && (!st.closed ==> st.pending == st.rest)
  }

  lemma ReplyFits(calls: seq<Call>, rep: seq<nat>, stages: seq<seq<nat>>, st: State)
    requires PendingFits(calls, st) && Enabled(stages, rep, st, Reply)
    ensures PendingFits(calls, Next(stages, rep, st, Reply))
  {
    var next := Next(stages, rep, st, Reply);
    var r := |calls| - |st.rest|;
    WithoutIds(st.pending, st.rest[0].id);
    LoggedConcat(st.log, next.log[|st.log|..]);
    assert next.log == st.log + next.log[|st.log|..] && LoggedIds(next.log[|st.log|..]) == [st.rest[0].id];
    assert calls[..r + 1][..r] == calls[..r] && calls[r] == st.rest[0];
    IdsSnoc(calls[..r + 1]);
  }

  lemma FlushFits(calls: seq<Call>, rep: seq<nat>, stages: seq<seq<nat>>, st: State)
    requires PendingFits(calls, st) && Enabled(stages, rep, st, Flush)
    ensures PendingFits(calls, Next(stages, rep, st, Flush))
  {
    InterruptionIds(st.pending);
    LoggedConcat(st.log, Interruptions(st.pending));
  }

  lemma PendingFitsStep(calls: seq<Call>, rep: seq<nat>, stages: seq<seq<nat>>, st: State, event: Event)
    requires PendingFits(calls, st) && Enabled(stages, rep, st, event)
    ensures PendingFits(calls, Next(stages, rep, st, event))
  {
    match event
    case Reply => ReplyFits(calls, rep, stages, st);
    case Flush => FlushFits(calls, rep, stages, st);
    case _ =>
  }

  lemma {:induction false} PendingHolds(calls: seq<Call>, rep: seq<nat>, stages: seq<seq<nat>>, events: seq<Event>, st: State)
    requires Reaches(calls, rep, stages, events, st)
    ensures PendingFits(calls, st)
    decreases |events|
  {
    if events == [] {
      EnteredIds(calls);
      assert calls[0..] == calls && calls[..0] == [];
    } else {
      var n := |events| - 1;
      var before :|
        Reaches(calls, rep, stages, events[..n], before) && Enabled(stages, rep, before, events[n])
        && st == Next(stages, rep, before, events[n]);
      PendingHolds(calls, rep, stages, events[..n], before);
      PendingFitsStep(calls, rep, stages, before, events[n]);
    }
  }

  lemma InOrderStep(calls: seq<Call>, rep: seq<nat>, stages: seq<seq<nat>>, st: State, event: Event)
    requires InOrder(calls, st) && Enabled(stages, rep, st, event)
    ensures InOrder(calls, Next(stages, rep, st, event))
  {
    match event
    case Reply =>
      var entry := Answer(st.rest[0].id, st.results[|rep| - |st.rest|]);
      var logged, tail := LoggedIds(st.log), IdsOf(st.rest[1..]);
      LoggedConcat(st.log, [entry]);
      IdsSplit(st.rest);
      assert LoggedIds([entry]) == [entry.callId];
      assert (logged + [entry.callId]) + tail == logged + ([entry.callId] + tail);
    case Flush =>
      InterruptionIds(st.pending);
      LoggedConcat(st.log, Interruptions(st.pending));
    case _ =>
  }

  lemma {:induction false} OrderHolds(calls: seq<Call>, rep: seq<nat>, stages: seq<seq<nat>>, events: seq<Event>, st: State)
    requires Distinct(IdsOf(calls)) && Reaches(calls, rep, stages, events, st)
    ensures InOrder(calls, st)
    decreases |events|
  {
    if events == [] {
      EnteredIds(calls);
      assert LoggedIds([]) + IdsOf(calls) == IdsOf(calls);
    } else {
      var n := |events| - 1;
      var before :|
        Reaches(calls, rep, stages, events[..n], before) && Enabled(stages, rep, before, events[n])
        && st == Next(stages, rep, before, events[n]);
      OrderHolds(calls, rep, stages, events[..n], before);
      InOrderStep(calls, rep, stages, before, events[n]);
    }
  }

  /** The turn is over for this batch: every reply is in, or the handler has run. */
  predicate Over(st: State) {
    st.closed || (st.filled && st.rest == [])
  }

  function Replies(events: seq<Event>): nat {
    if events == [] then 0
    else Replies(events[..|events| - 1]) + if events[|events| - 1].Reply? then 1 else 0
  }

  /** After `r` replies some id of the batch has had none. */
  ghost predicate Leaves(calls: seq<Call>, r: nat) {
    r <= |calls| && exists i :: r <= i < |calls| && calls[i].id !in IdsOf(calls[..r])
  }

  /** An error other than an abort ends the turn while some id has had no reply. */
  ghost predicate BreaksOff(events: seq<Event>, calls: seq<Call>) {
    exists i :: 0 <= i < |events| && events[i].Break? && Leaves(calls, Replies(events[..i]))
  }

  lemma BreaksOffStep(events: seq<Event>, calls: seq<Call>)
    requires events != []
    ensures var n := |events| - 1;
            BreaksOff(events, calls) <==>
            BreaksOff(events[..n], calls) || (events[n].Break? && Leaves(calls, Replies(events[..n])))
  {
    var n := |events| - 1;
    if i :| 0 <= i < |events[..n]| && events[..n][i].Break? && Leaves(calls, Replies(events[..n][..i])) {
      assert events[..n][..i] == events[..i];
      assert events[i].Break?;
    }
    if i :| 0 <= i < |events| && events[i].Break? && Leaves(calls, Replies(events[..i])) {
      if i < n {
        assert events[..n][i].Break? && events[..n][..i] == events[..i];
      }
    }
  }

  lemma LeavesIff(calls: seq<Call>, st: State)
    requires PendingFits(calls, st) && !st.closed
    ensures Leaves(calls, |calls| - |st.rest|) <==> st.pending != []
  {
    var r := |calls| - |st.rest|;
    if st.pending != [] {
      var id := IdsOf(st.pending)[0];
      assert id in IdsOf(calls);
      assert forall i :: 0 <= i < r ==> IdsOf(calls[..r])[i] == IdsOf(calls)[i];
      var i :| 0 <= i < |calls| && IdsOf(calls)[i] == id;
    }
    if i :| r <= i < |calls| && calls[i].id !in IdsOf(calls[..r]) {
      assert IdsOf(calls)[i] == calls[i].id;
      assert calls[i].id in IdsOf(st.pending);
    }
  }

  /** A batch that broke off is closed with ids pending; until it is closed each reply takes one call. */
  predicate Counted(calls: seq<Call>, st: State, broken: bool, replies: nat) {
    && (broken <==> st.closed && st.pending != [])
    && (!st.closed ==> |st.rest| + replies == |calls|)
  }

  lemma CountedStep(calls: seq<Call>, rep: seq<nat>, stages: seq<seq<nat>>, st: State, event: Event, broken: bool, replies: nat)
    requires Enabled(stages, rep, st, event) && PendingFits(calls, st) && Counted(calls, st, broken, replies)
    ensures Counted(calls, Next(stages, rep, st, event), broken || (event.Break? && Leaves(calls, replies)),
                    replies + if event.Reply? then 1 else 0)
  {
    if event.Break? {
      LeavesIff(calls, st);
    }
  }

  /** Ids are left pending for good exactly by such an error; until the turn ends each reply takes one call. */
  lemma {:induction false} PendingIs(calls: seq<Call>, rep: seq<nat>, stages: seq<seq<nat>>, events: seq<Event>, st: State)
    requires Reaches(calls, rep, stages, events, st)
    ensures Counted(calls, st, BreaksOff(events, calls), Replies(events))
    decreases |events|
  {
    if events != [] {
      var n := |events| - 1;
      var before :|
        Reaches(calls, rep, stages, events[..n], before) && Enabled(stages, rep, before, events[n])
        && st == Next(stages, rep, before, events[n]);
      PendingIs(calls, rep, stages, events[..n], before);
      PendingHolds(calls, rep, stages, events[..n], before);
      CountedStep(calls, rep, stages, before, events[n], BreaksOff(events[..n], calls), Replies(events[..n]));
      BreaksOffStep(events, calls);
    }
  }

  /**
   When the batch is over, every id has a tool message exactly when no error other than an abort came
   while an id had none, for any batch, repeated ids included.
   */
  lemma EveryIdAnsweredIff(calls: seq<Call>, rep: seq<nat>, stages: seq<seq<nat>>, events: seq<Event>, st: State)
    requires Reaches(calls, rep, stages, events, st) && Over(st)
    ensures (forall id :: id in IdsOf(calls) ==> id in LoggedIds(st.log)) <==> !BreaksOff(events, calls)
  {
    PendingIs(calls, rep, stages, events, st);
    PendingHolds(calls, rep, stages, events, st);
    if st.pending != [] {
      assert IdsOf(st.pending)[0] in IdsOf(st.pending);
    }
    if !st.closed {
      assert calls[..|calls|] == calls;
    }
  }

  /**
   When a batch of unique ids is over, the tool messages are the calls' ids, in order, once each, exactly
   when no error other than an abort came before the last reply.
   */
  lemma AnsweredOnceIff(calls: seq<Call>, rep: seq<nat>, stages: seq<seq<nat>>, events: seq<Event>, st: State)
    requires Distinct(IdsOf(calls)) && Reaches(calls, rep, stages, events, st) && Over(st)
    ensures LoggedIds(st.log) == IdsOf(calls) <==> !BreaksOff(events, calls)
  {
    OrderHolds(calls, rep, stages, events, st);
    PendingIs(calls, rep, stages, events, st);
    if st.pending == [] {
      assert LoggedIds(st.log) + [] == LoggedIds(st.log);
    }
  }

  /** With unique ids, no two tool messages of the batch carry the same id, at any point of any run. */
  lemma NeverAnsweredTwice(calls: seq<Call>, rep: seq<nat>, stages: seq<seq<nat>>, events: seq<Event>, st: State)
    requires Distinct(IdsOf(calls)) && Reaches(calls, rep, stages, events, st)
    ensures Distinct(LoggedIds(st.log))
  {
    OrderHolds(calls, rep, stages, events, st);
    var logged, all := LoggedIds(st.log), IdsOf(calls);
    forall i, j | 0 <= i < j < |logged|
      ensures logged[i] != logged[j]
    {
      assert logged[i] == all[i] && logged[j] == all[j];
    }
  }

  /** Equal calls are dispatched once. */
  lemma DispatchedOnce(calls: seq<Call>, rep: seq<nat>, stages: seq<seq<nat>>, events: seq<Event>, st: State,
                       i: nat, j: nat)
    requires AreRepresentatives(calls, rep) && IsSchedule(rep, stages)
    requires Reaches(calls, rep, stages, events, st) && i < j < |st.launched|
    ensures st.launched[i] < |calls| && st.launched[j] < |calls|
    ensures calls[st.launched[i]].key != calls[st.launched[j]].key
  {
    InvHolds(calls, rep, stages, events, st);
    FlattenConcat(stages[..st.stage], stages[st.stage..]);
    assert stages[..st.stage] + stages[st.stage..] == stages;
    var all := Flatten(stages);
    assert st.launched[i] == all[i] && st.launched[j] == all[j];
    assert all[i] in all && all[j] in all;
    FirstsDiffer(calls, rep, all[i], all[j]);
  }

  /** Once duplicates are filled in, equal calls carry equal results: that of the first of them. */
  lemma DuplicatesShareResult(calls: seq<Call>, rep: seq<nat>, stages: seq<seq<nat>>, events: seq<Event>, st: State,
                              i: nat, j: nat)
    requires AreRepresentatives(calls, rep) && IsSchedule(rep, stages)
    requires Reaches(calls, rep, stages, events, st) && st.filled
    requires i < |calls| && j < |calls| && calls[i].key == calls[j].key
    ensures i in st.results && j in st.results && st.results[i] == st.results[j]
    ensures rep[i] in st.results && st.results[i] == st.results[rep[i]]
  {
    InvHolds(calls, rep, stages, events, st);
    SameFirst(calls, i, j, rep[i], rep[j]);
    assert st.results[i] == st.results[rep[i]] && st.results[j] == st.results[rep[j]];
  }

  lemma SameFirst(calls: seq<Call>, i: nat, j: nat, a: nat, b: nat)
    requires i < |calls| && j < |calls| && calls[i].key == calls[j].key
    requires IsFirstEqual(calls, i, a) && IsFirstEqual(calls, j, b)
    ensures a == b
  {
  }

  lemma FirstsDiffer(calls: seq<Call>, rep: seq<nat>, i: nat, j: nat)
    requires AreRepresentatives(calls, rep) && i < |calls| && j < |calls| && rep[i] == i && rep[j] == j && i != j
    ensures calls[i].key != calls[j].key
  {
    assert IsFirstEqual(calls, i, i) && IsFirstEqual(calls, j, j);
  }

  /** An error that is not an abort leaves the calls of the batch unanswered. */
  lemma BreakLeavesUnanswered()
    ensures var calls := [Call("a", "read_file", "k")];
            exists st :: Reaches(calls, [0], [[0]], [Break], st) && Over(st) && LoggedIds(st.log) != IdsOf(calls)
  {
    var calls := [Call("a", "read_file", "k")];
    assert calls[..0] == [];
    var st := Start(calls).(closed := true);
    assert [Break][..0] == [];
    assert Reaches(calls, [0], [[0]], [], Start(calls));
    assert Reaches(calls, [0], [[0]], [Break], st);
    assert |LoggedIds(st.log)| == 0 && |IdsOf(calls)| == 1;
  }
}
