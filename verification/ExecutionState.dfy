/**
 Execution contracts of a plan and the pointer to the active one.

 A plan call with steps replaces all contracts; one with a step index marks that contract verified and
 then activates the first contract still planned.
 */
module ExecutionState {
  import opened Common

  datatype Status = Planned | Active | Verified | Failed | Cancelled

  /** Contracts are named by the plan they belong to and their place in it. */
  datatype Id = Id(plan: nat, place: nat)

  datatype Bounds = Bounds(maxSteps: nat, maxMinutes: nat, maxToolCalls: nat)

  datatype Contract = Contract(id: Id, objective: string, bounds: Bounds, status: Status, startedAt: Option<nat>,
                               completedAt: Option<nat>)

  datatype State = State(contracts: seq<Contract>, active: Option<Id>)

  const EMPTY := State([], None)

  function BoundsFor(steps: nat): Bounds {
    if steps <= 2 then Bounds(6, 20, 12)
    else if steps <= 5 then Bounds(16, 60, 32)
    else if steps <= 10 then Bounds(32, 150, 64)
    else Bounds(60, 300, 120)
  }

  function Cut(s: string, max: nat): string {
    if |s| > max then s[..max] else s
  }

  function NewContract(plan: nat, steps: seq<string>, i: nat, now: nat): Contract
    requires i < |steps|
  {
    Contract(Id(plan, i), Cut(steps[i], 800), BoundsFor(|steps|), if i == 0 then Active else Planned,
             if i == 0 then Some(now) else None, None)
  }

  ghost predicate IsPlan(state: State, plan: nat, steps: seq<string>, now: nat) {
    && |state.contracts| == |steps|
    && (forall i: nat :: i < |steps| ==> state.contracts[i] == NewContract(plan, steps, i, now))
    && state.active == if steps == [] then None else Some(Id(plan, 0))
  }

  method AdvanceForPlan(plan: nat, steps: seq<string>, now: nat) returns (state: State)
    ensures IsPlan(state, plan, steps, now)
  {
    var contracts: seq<Contract> := [];
    for i := 0 to |steps|
      invariant |contracts| == i
      invariant forall k: nat :: k < i ==> contracts[k] == NewContract(plan, steps, k, now)
    {
      contracts := contracts + [NewContract(plan, steps, i, now)];
    }
    state := State(contracts, if contracts == [] then None else Some(contracts[0].id));
  }

  // ---------------------------------------------------------------- marking

  predicate Final(status: Status) {
    status.Verified? || status.Failed? || status.Cancelled?
  }

  function MarkOne(c: Contract, id: Id, status: Status, now: nat): Contract {
    if c.id != id then c else
    c.(status := status,
       startedAt := if status.Active? && c.startedAt.None? then Some(now) else c.startedAt,
       completedAt := if Final(status) then Some(now) else c.completedAt)
  }

  function MarkAll(contracts: seq<Contract>, id: Id, status: Status, now: nat): seq<Contract> {
    seq(|contracts|, i requires 0 <= i < |contracts| => MarkOne(contracts[i], id, status, now))
  }

  predicate Unfinished(c: Contract, alsoActive: bool) {
    c.status.Planned? || (alsoActive && c.status.Active?)
  }

  /** Place of the first contract still planned, or also of one that is active; the length if there is none. */
  function FirstOpen(contracts: seq<Contract>, alsoActive: bool): (i: nat)
    ensures i <= |contracts|
    ensures i < |contracts| ==> Unfinished(contracts[i], alsoActive)
    ensures forall k :: 0 <= k < i ==> !Unfinished(contracts[k], alsoActive)
  {
    FirstOpenFrom(contracts, alsoActive, 0)
  }

  function FirstOpenFrom(contracts: seq<Contract>, alsoActive: bool, from: nat): (i: nat)
    requires from <= |contracts|
    ensures from <= i <= |contracts|
    ensures i < |contracts| ==> Unfinished(contracts[i], alsoActive)
    ensures forall k :: from <= k < i ==> !Unfinished(contracts[k], alsoActive)
    decreases |contracts| - from
  {
    if from == |contracts| || Unfinished(contracts[from], alsoActive) then from
    else FirstOpenFrom(contracts, alsoActive, from + 1)
  }

  function Mark(state: State, id: Id, status: Status, now: nat): State {
    var contracts := MarkAll(state.contracts, id, status, now);
    var first := FirstOpen(contracts, true);
    State(contracts,
          if status.Active? then Some(id)
          else if state.active == Some(id) then (if first < |contracts| then Some(contracts[first].id) else None)
          else state.active)
  }

  /** A step index outside the plan does nothing. */
  function Complete(state: State, step: int, now: nat): State {
    if !(0 <= step < |state.contracts|) then state else
    var marked := Mark(state, state.contracts[step].id, Verified, now);
    var next := FirstOpen(marked.contracts, false);
    if next < |marked.contracts| then Mark(marked, marked.contracts[next].id, Active, now) else marked
  }

  // ---------------------------------------------------------------- what every sequence of calls keeps

  ghost predicate Shaped(contracts: seq<Contract>, plan: nat) {
    forall i: nat :: i < |contracts| ==>
      contracts[i].id == Id(plan, i) && !contracts[i].status.Failed? && !contracts[i].status.Cancelled?
  }

  ghost predicate AllVerified(contracts: seq<Contract>) {
    forall i :: 0 <= i < |contracts| ==> contracts[i].status.Verified?
  }

  /** The pointer is missing exactly when every contract is verified, and otherwise names an active contract. */
  ghost predicate Pointed(state: State) {
    && (state.active.None? <==> AllVerified(state.contracts))
    && (state.active.Some? ==>
          state.active.value.place < |state.contracts| &&
          state.contracts[state.active.value.place].id == state.active.value &&
          state.contracts[state.active.value.place].status.Active?)
  }

  lemma PlanIsPointed(state: State, plan: nat, steps: seq<string>, now: nat)
    requires IsPlan(state, plan, steps, now)
    ensures Shaped(state.contracts, plan) && Pointed(state)
  {
    if steps != [] {
      assert state.contracts[0] == NewContract(plan, steps, 0, now);
    }
  }

  /** Marking changes the one contract named. */
  lemma MarkedAt(contracts: seq<Contract>, plan: nat, place: nat, status: Status, now: nat)
    requires Shaped(contracts, plan) && place < |contracts| && !status.Failed? && !status.Cancelled?
    ensures var after := MarkAll(contracts, Id(plan, place), status, now);
            && Shaped(after, plan) && after[place].status == status
            && forall i: nat :: i < |after| && i != place ==> after[i] == contracts[i]
  {
  }

  /** After marking, the pointer may lead to a planned contract, but then that is the first one planned. */
  lemma VerifiedPointer(state: State, plan: nat, step: nat, now: nat)
    requires Shaped(state.contracts, plan) && Pointed(state) && step < |state.contracts|
    ensures var marked := Mark(state, Id(plan, step), Verified, now);
            && Shaped(marked.contracts, plan) && |marked.contracts| == |state.contracts|
            && (marked.active.None? <==> AllVerified(marked.contracts))
            && (FirstOpen(marked.contracts, false) == |marked.contracts| ==> Pointed(marked))
  {
    MarkedAt(state.contracts, plan, step, Verified, now);
    var marked := Mark(state, Id(plan, step), Verified, now);
    var first := FirstOpen(marked.contracts, true);
    if first == |marked.contracts| {
      forall i: nat | i < |marked.contracts|
        ensures marked.contracts[i].status.Verified?
      {
        assert !Unfinished(marked.contracts[i], true);
      }
    }
    if FirstOpen(marked.contracts, false) == |marked.contracts| && first < |marked.contracts| {
      assert !Unfinished(marked.contracts[first], false);
    }
  }

  lemma CompleteKeepsPointer(state: State, plan: nat, step: int, now: nat)
    requires Shaped(state.contracts, plan) && Pointed(state)
    ensures Shaped(Complete(state, step, now).contracts, plan) && Pointed(Complete(state, step, now))
  {
    if 0 <= step < |state.contracts| {
      assert state.contracts[step].id == Id(plan, step);
      VerifiedPointer(state, plan, step, now);
      var marked := Mark(state, Id(plan, step), Verified, now);
      var next := FirstOpen(marked.contracts, false);
      if next < |marked.contracts| {
        MarkedAt(marked.contracts, plan, next, Active, now);
        assert !Mark(marked, Id(plan, next), Active, now).contracts[next].status.Verified?;
      }
    }
  }

  /** A plan call of the model: new steps, or the index of a finished step. */
  datatype PlanCall = NewPlan(plan: nat, steps: seq<string>, now: nat) | StepDone(step: int, now: nat)

  ghost predicate Next(state: State, call: PlanCall, after: State) {
    match call
    case NewPlan(plan, steps, now) => if steps == [] then after == state else IsPlan(after, plan, steps, now)
    case StepDone(step, now) => after == Complete(state, step, now)
  }

  ghost predicate Reaches(state: State, calls: seq<PlanCall>, after: State)
    decreases |calls|
  {
    if calls == [] then after == state
    else exists middle :: Next(state, calls[0], middle) && Reaches(middle, calls[1..], after)
  }

  /** After any plan calls and step completions, in any order and with any repetition. */
  lemma {:induction false} PointerIsRight(state: State, plan: nat, calls: seq<PlanCall>, after: State)
    requires Shaped(state.contracts, plan) && Pointed(state) && Reaches(state, calls, after)
    ensures Pointed(after)
    decreases |calls|
  {
    if calls != [] {
      var middle :| Next(state, calls[0], middle) && Reaches(middle, calls[1..], after);
      match calls[0]
      case NewPlan(p, steps, now) =>
        if steps == [] {
          PointerIsRight(middle, plan, calls[1..], after);
        } else {
          PlanIsPointed(middle, p, steps, now);
          PointerIsRight(middle, p, calls[1..], after);
        }
      case StepDone(step, now) =>
        CompleteKeepsPointer(state, plan, step, now);
        PointerIsRight(middle, plan, calls[1..], after);
    }
  }

  // ---------------------------------------------------------------- how many are active

  function ActiveCount(contracts: seq<Contract>): nat {
    if contracts == [] then 0 else (if contracts[0].status.Active? then 1 else 0) + ActiveCount(contracts[1..])
  }

  lemma {:induction false} CountAfterMark(contracts: seq<Contract>, after: seq<Contract>, place: nat)
    requires |after| == |contracts| && place < |contracts|
    requires forall i: nat :: i < |contracts| && i != place ==> after[i] == contracts[i]
    ensures ActiveCount(after) + (if contracts[place].status.Active? then 1 else 0) ==
            ActiveCount(contracts) + (if after[place].status.Active? then 1 else 0)
    decreases |contracts|
  {
    if place == 0 {
      assert after[1..] == contracts[1..];
    } else {
      forall i: nat | i < |contracts| - 1 && i != place - 1
        ensures after[1..][i] == contracts[1..][i]
      {
        assert after[i + 1] == contracts[i + 1];
      }
      CountAfterMark(contracts[1..], after[1..], place - 1);
    }
  }

  /** Some contract other than the one being completed is still planned. */
  ghost predicate PlannedBeside(contracts: seq<Contract>, step: nat) {
    exists i :: 0 <= i < |contracts| && i != step && contracts[i].status.Planned?
  }

  /** Completing a step ends it if it was active, and activates one more if any other is still planned. */
  lemma CompleteCounts(state: State, plan: nat, step: nat, now: nat)
    requires Shaped(state.contracts, plan) && step < |state.contracts|
    ensures ActiveCount(Complete(state, step, now).contracts) ==
            ActiveCount(state.contracts) - (if state.contracts[step].status.Active? then 1 else 0) +
            (if PlannedBeside(state.contracts, step) then 1 else 0)
  {
    assert state.contracts[step].id == Id(plan, step);
    MarkedAt(state.contracts, plan, step, Verified, now);
    var marked := MarkAll(state.contracts, Id(plan, step), Verified, now);
    CountAfterMark(state.contracts, marked, step);
    var next := FirstOpen(marked, false);
    if next < |marked| {
      assert state.contracts[next].status.Planned?;
      MarkedAt(marked, plan, next, Active, now);
      CountAfterMark(marked, MarkAll(marked, Id(plan, next), Active, now), next);
    } else {
      forall i: nat | i < |state.contracts| && i != step
        ensures !state.contracts[i].status.Planned?
      {
        assert marked[i] == state.contracts[i] && !Unfinished(marked[i], false);
      }
    }
  }

  /** With one active contract, a completion leaves at most one active exactly when it hits that one or none is planned. */
  lemma StaysSoleActiveIff(state: State, plan: nat, step: nat, now: nat)
    requires Shaped(state.contracts, plan) && step < |state.contracts| && ActiveCount(state.contracts) == 1
    ensures ActiveCount(Complete(state, step, now).contracts) <= 1 <==>
            state.contracts[step].status.Active? || !PlannedBeside(state.contracts, step)
  {
    CompleteCounts(state, plan, step, now);
  }

  predicate InPlace(c: Contract, plan: nat, i: nat, k: nat) {
    c.id == Id(plan, i) && c.status == if i < k then Verified else if i == k then Active else Planned
  }

  /** Of `n` contracts the first `k` are verified, the next is active, and the rest are planned. */
  ghost predicate InOrder(state: State, plan: nat, k: nat, n: nat) {
    && |state.contracts| == n && k <= n
    && (forall i: nat :: i < n ==> InPlace(state.contracts[i], plan, i, k))
    && state.active == if k < n then Some(Id(plan, k)) else None
  }

  lemma FirstOpenIs(contracts: seq<Contract>, alsoActive: bool, i: nat)
    requires i <= |contracts| && (i < |contracts| ==> Unfinished(contracts[i], alsoActive))
    requires forall k :: 0 <= k < i ==> !Unfinished(contracts[k], alsoActive)
    ensures FirstOpen(contracts, alsoActive) == i
  {
  }

  lemma InOrderMark(contracts: seq<Contract>, plan: nat, k: nat, now: nat)
    requires k < |contracts| && forall i: nat :: i < |contracts| ==> InPlace(contracts[i], plan, i, k)
    ensures var marked := MarkAll(contracts, Id(plan, k), Verified, now);
            && FirstOpen(marked, true) == k + 1 && FirstOpen(marked, false) == k + 1
            && (forall i: nat :: i < |marked| && i != k + 1 ==> InPlace(marked[i], plan, i, k + 1))
            && (k + 1 < |marked| ==> InPlace(marked[k + 1], plan, k + 1, k))
  {
    var marked := MarkAll(contracts, Id(plan, k), Verified, now);
    forall i: nat | i < |marked|
      ensures if i == k then marked[i].status.Verified? else marked[i] == contracts[i]
    {
      assert InPlace(contracts[i], plan, i, k);
    }
    FirstOpenIs(marked, false, k + 1);
    FirstOpenIs(marked, true, k + 1);
  }

  lemma InOrderStep(state: State, plan: nat, k: nat, n: nat, now: nat)
    requires InOrder(state, plan, k, n) && k < n
    ensures InOrder(Complete(state, k, now), plan, k + 1, n)
  {
    assert InPlace(state.contracts[k], plan, k, k);
    InOrderMark(state.contracts, plan, k, now);
    var marked := Mark(state, Id(plan, k), Verified, now);
    if k + 1 < n {
      assert InPlace(marked.contracts[k + 1], plan, k + 1, k);
      var after := Mark(marked, Id(plan, k + 1), Active, now);
      forall i: nat | i < n
        ensures InPlace(after.contracts[i], plan, i, k + 1)
      {
        assert i != k + 1 ==> InPlace(marked.contracts[i], plan, i, k + 1);
      }
      assert Complete(state, k, now) == after;
    }
  }

  lemma FreshPlanIsInOrder(state: State, plan: nat, steps: seq<string>, now: nat)
    requires IsPlan(state, plan, steps, now)
    ensures InOrder(state, plan, 0, |steps|)
  {
  }

  function CompleteInOrder(state: State, k: nat, now: nat): State
    decreases k
  {
    if k == 0 then state else Complete(CompleteInOrder(state, k - 1, now), k - 1, now)
  }

  lemma {:induction false} InOrderRun(state: State, plan: nat, k: nat, n: nat, now: nat)
    requires InOrder(state, plan, 0, n) && k <= n
    ensures InOrder(CompleteInOrder(state, k, now), plan, k, n)
    decreases k
  {
    if k > 0 {
      InOrderRun(state, plan, k - 1, n, now);
      InOrderStep(CompleteInOrder(state, k - 1, now), plan, k - 1, n, now);
    }
  }

  /** Completing the steps of a plan in order: one contract is active at any time, the first not yet completed. */
  lemma InOrderKeepsOneActive(state: State, plan: nat, steps: seq<string>, k: nat, now: nat)
    requires IsPlan(state, plan, steps, now) && k <= |steps|
    ensures InOrder(CompleteInOrder(state, k, now), plan, k, |steps|)
  {
    FreshPlanIsInOrder(state, plan, steps, now);
    InOrderRun(state, plan, k, |steps|, now);
  }

  // ---------------------------------------------------------------- the field of the agent

  class PlanTracker {
    var executionState: State

    constructor ()
      ensures executionState == EMPTY
    {
      executionState := EMPTY;
    }

    method OnPlanCall(call: PlanCall)
      modifies this
      ensures Next(old(executionState), call, executionState)
    {
      match call
      case NewPlan(plan, steps, now) =>
        if steps != [] {
          executionState := AdvanceForPlan(plan, steps, now);
        }
      case StepDone(step, now) =>
        if 0 <= step < |executionState.contracts| {
          executionState := Mark(executionState, executionState.contracts[step].id, Verified, now);
          var next := FirstOpen(executionState.contracts, false);
          if next < |executionState.contracts| {
            executionState := Mark(executionState, executionState.contracts[next].id, Active, now);
          }
        }
    }
  }
}
