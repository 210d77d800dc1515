/** What a plan gives each contract, what a completion does to each of them, and when contracts start and end. */
module ContractDates {
  import opened Common
  import opened ExecutionState

  /** Longer plans get wider bounds. */
  function BoundsOf(steps: nat): Bounds {
    if steps > 10 then Bounds(60, 300, 120)
    else if steps > 5 then Bounds(32, 150, 64)
    else if steps > 2 then Bounds(16, 60, 32)
    else Bounds(6, 20, 12)
  }

  /** The contract of a step holds the first 800 characters of it; the first one has started. */
  lemma NewPlanIs(state: State, plan: nat, steps: seq<string>, now: nat, i: nat)
    requires IsPlan(state, plan, steps, now) && i < |steps|
    ensures i < |state.contracts|
    ensures var c := state.contracts[i];
            && c.objective <= steps[i] && |c.objective| == (if |steps[i]| < 800 then |steps[i]| else 800)
            && c.bounds == BoundsOf(|steps|) && c.completedAt == None
            && (if i == 0 then c.status == Active && c.startedAt == Some(now) else c.status == Planned && c.startedAt == None)
  {
    assert state.contracts[i] == NewContract(plan, steps, i, now);
  }

  /** The dates that go with a status, none after `now`. */
  predicate DatedBy(c: Contract, now: nat) {
    && (c.startedAt.Some? ==> c.startedAt.value <= now) && (c.completedAt.Some? ==> c.completedAt.value <= now)
    && match c.status
       case Planned => c.startedAt.None? && c.completedAt.None?
       case Active => c.startedAt.Some? && c.completedAt.None?
       case _ => c.completedAt.Some? && (c.startedAt.Some? ==> c.startedAt.value <= c.completedAt.value)
  }

  ghost predicate AllDated(contracts: seq<Contract>, now: nat) {
    forall i :: 0 <= i < |contracts| ==> DatedBy(contracts[i], now)
  }

  /** The first contract still planned, the one completed left aside. */
  ghost predicate IsNext(contracts: seq<Contract>, step: nat, k: nat)
    requires k < |contracts|
  {
    k != step && contracts[k].status.Planned? && forall j :: 0 <= j < k ==> j == step || !contracts[j].status.Planned?
  }

  /** Marking one contract leaves a list in which the first planned one is the same. */
  lemma FirstOpenIsNext(contracts: seq<Contract>, marked: seq<Contract>, step: nat, k: nat)
    requires step < |contracts| == |marked| && k < |contracts| && !marked[step].status.Planned?
    requires forall i: nat :: i < |contracts| && i != step ==> marked[i] == contracts[i]
    ensures FirstOpen(marked, false) == k <==> IsNext(contracts, step, k)
  {
    var first := FirstOpen(marked, false);
    if IsNext(contracts, step, k) {
      assert Unfinished(marked[k], false);
      forall j | 0 <= j < k
        ensures !Unfinished(marked[j], false)
      {
        assert j != step ==> marked[j] == contracts[j];
      }
      assert first == k;
    }
    if first == k {
      forall j | 0 <= j < k
        ensures j == step || !contracts[j].status.Planned?
      {
        assert !Unfinished(marked[j], false);
      }
    }
  }

  function Completed(c: Contract, now: nat): Contract {
    Contract(c.id, c.objective, c.bounds, Verified, c.startedAt, Some(now))
  }

  function Started(c: Contract, now: nat): Contract {
    Contract(c.id, c.objective, c.bounds, Active, Some(now), c.completedAt)
  }

  /** A completion verifies its contract, starts the next one still planned, and leaves the others alone. */
  lemma CompleteMoves(state: State, plan: nat, step: nat, now: nat, k: nat)
    requires Shaped(state.contracts, plan) && AllDated(state.contracts, now)
    requires step < |state.contracts| && k < |state.contracts|
    ensures var after := Complete(state, step, now).contracts;
            && |after| == |state.contracts|
            && after[k] == if k == step then Completed(state.contracts[k], now)
                           else if IsNext(state.contracts, step, k) then Started(state.contracts[k], now)
                           else state.contracts[k]
  {
    var contracts := state.contracts;
    MarkedAt(contracts, plan, step, Verified, now);
    var marked := Mark(state, Id(plan, step), Verified, now);
    assert marked.contracts[step] == Completed(contracts[step], now);
    var next := FirstOpen(marked.contracts, false);
    FirstOpenIsNext(contracts, marked.contracts, step, k);
    if next < |contracts| {
      assert next != step && marked.contracts[next] == contracts[next];
      assert DatedBy(contracts[next], now);
      MarkedAt(marked.contracts, plan, next, Active, now);
      assert MarkAll(marked.contracts, Id(plan, next), Active, now)[next] == Started(contracts[next], now);
    }
  }

  // ---------------------------------------------------------------- marking in general

  /** A contract that is marked starts with its first activation and ends with every final status. */
  lemma MarkIs(state: State, id: Id, status: Status, now: nat, k: nat)
    requires k < |state.contracts|
    ensures var (c, after) := (state.contracts[k], Mark(state, id, status, now).contracts);
            && |after| == |state.contracts|
            && after[k] == if c.id != id then c
                           else Contract(c.id, c.objective, c.bounds, status,
                                         if status == Active && c.startedAt == None then Some(now) else c.startedAt,
                                         if status in {Verified, Failed, Cancelled} then Some(now) else c.completedAt)
  {
  }

  /** The pointer follows an activation; when its own contract is marked otherwise it moves to the first unfinished one. */
  lemma MarkedPointerIs(state: State, id: Id, status: Status, now: nat)
    ensures var after := Mark(state, id, status, now);
            && (status == Active ==> after.active == Some(id))
            && (status != Active && state.active != Some(id) ==> after.active == state.active)
            && (status != Active && state.active == Some(id) ==>
                  match after.active
                  case None => forall c :: c in after.contracts ==> c.status in {Verified, Failed, Cancelled}
                  case Some(next) => FirstUnfinished(after.contracts, next))
  {
    var after := Mark(state, id, status, now);
    var first := FirstOpen(after.contracts, true);
    forall c | first == |after.contracts| && c in after.contracts
      ensures c.status in {Verified, Failed, Cancelled}
    {
      var k :| 0 <= k < |after.contracts| && after.contracts[k] == c;
      assert !Unfinished(after.contracts[k], true);
      assert c.status.Verified? || c.status.Failed? || c.status.Cancelled?;
    }
    if first < |after.contracts| {
      assert forall j :: 0 <= j < first ==> !Unfinished(after.contracts[j], true);
    }
  }

  ghost predicate FirstUnfinished(contracts: seq<Contract>, id: Id) {
    exists k :: 0 <= k < |contracts| && contracts[k].id == id && contracts[k].status in {Planned, Active} &&
                forall j :: 0 <= j < k ==> contracts[j].status !in {Planned, Active}
  }

  // ---------------------------------------------------------------- over any calls

  /** The clock does not run backwards. */
  predicate Clocked(calls: seq<PlanCall>, now: nat)
    decreases |calls|
  {
    calls == [] || (now <= calls[0].now && Clocked(calls[1..], calls[0].now))
  }

  function LastCall(calls: seq<PlanCall>, now: nat): nat {
    if calls == [] then now else calls[|calls| - 1].now
  }

  lemma PlanIsDated(state: State, plan: nat, steps: seq<string>, now: nat)
    requires IsPlan(state, plan, steps, now)
    ensures AllDated(state.contracts, now) && Shaped(state.contracts, plan)
  {
    forall i: nat | i < |state.contracts|
      ensures DatedBy(state.contracts[i], now)
    {
      NewPlanIs(state, plan, steps, now, i);
    }
    PlanIsPointed(state, plan, steps, now);
  }

  lemma CompleteIsDated(state: State, plan: nat, step: int, before: nat, now: nat)
    requires Shaped(state.contracts, plan) && AllDated(state.contracts, before) && before <= now
    ensures AllDated(Complete(state, step, now).contracts, now)
  {
    assert AllDated(state.contracts, now);
    if 0 <= step < |state.contracts| {
      var after := Complete(state, step, now).contracts;
      CompleteMoves(state, plan, step, now, 0);
      forall k: nat | k < |after|
        ensures DatedBy(after[k], now)
      {
        CompleteMoves(state, plan, step, now, k);
        assert DatedBy(state.contracts[k], now);
      }
    }
  }

  /**
   After any plan calls in any order: planned contracts have no dates, active ones have started and not
   ended, and verified ones have ended, not before they started if they ever did.
   */
  lemma {:induction false} DatesFit(state: State, plan: nat, calls: seq<PlanCall>, after: State, now: nat)
    requires Shaped(state.contracts, plan) && Pointed(state) && AllDated(state.contracts, now) && Clocked(calls, now)
    requires Reaches(state, calls, after)
    ensures AllDated(after.contracts, LastCall(calls, now))
    decreases |calls|
  {
    if calls != [] {
      var middle :| Next(state, calls[0], middle) && Reaches(middle, calls[1..], after);
      match calls[0]
      case NewPlan(p, steps, at) =>
        if steps == [] {
          assert AllDated(state.contracts, at);
          DatesFit(middle, plan, calls[1..], after, at);
        } else {
          PlanIsDated(middle, p, steps, at);
          PlanIsPointed(middle, p, steps, at);
          DatesFit(middle, p, calls[1..], after, at);
        }
      case StepDone(step, at) =>
        CompleteIsDated(state, plan, step, now, at);
        CompleteKeepsPointer(state, plan, step, at);
        DatesFit(middle, plan, calls[1..], after, at);
    }
  }
}
