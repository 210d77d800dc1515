/**
 Which outcomes of a run move a tool's failure streak, read off the outcome itself, and the circuit over
 whole runs.
 */
module FailureCounts {
  import opened Common
  import opened Dispatcher

  /** What a settled run means for the streak of its tool. */
  datatype Bearing = Resets | Raises | Leaves

  /** A failure that the tool's own rules call recoverable, and a refusal by the execution guard, leave the streak alone. */
  function BearingOf(outcome: Outcome): Bearing {
    match outcome
    case Returned(Ok(_, _)) => Resets
    case Returned(Fail(_, recoverable, _)) => if recoverable then Leaves else Raises
    case Threw(_) => Raises
    case GuardThrew(_) => Leaves
  }

  function Moved(streak: nat, bearing: Bearing): nat {
    match bearing
    case Resets => 0
    case Raises => streak + 1
    case Leaves => streak
  }

  /** The part of the state the circuit breaker keeps. */
  datatype Breaker = Breaker(streaks: map<string, nat>, openUntil: map<string, nat>)

  function BreakerOf(s: State): Breaker {
    Breaker(s.streaks, s.openUntil)
  }

  /** The streak and the opening time of `name` after one completion at `now`; other tools keep theirs. */
  ghost predicate Counted(b: Breaker, next: Breaker, now: nat, name: string, bearing: Bearing) {
    && (forall other :: other != name ==>
          && Streak(next.streaks, other) == Streak(b.streaks, other)
          && (other in next.openUntil <==> other in b.openUntil)
          && (other in b.openUntil ==> next.openUntil[other] == b.openUntil[other]))
    && Streak(next.streaks, name) == Moved(Streak(b.streaks, name), bearing)
    && match bearing
       case Resets => name !in next.streaks && name !in next.openUntil
       case Leaves => next == b
       case Raises =>
         if Streak(b.streaks, name) + 1 >= 3 then name in next.openUntil && next.openUntil[name] == now + 30_000
         else next.openUntil == b.openUntil
  }

  lemma RecordCounts(s: State, name: string, success: bool, cause: Cause)
    ensures Counted(BreakerOf(s), BreakerOf(Record(s, name, success, cause)), s.now, name, if success then Resets else Raises)
  {
  }

  lemma ResumeRecords(s: State, c: nat, activates: bool) returns (done: State)
    requires CanResume(s, c)
    ensures BreakerOf(done) == BreakerOf(s) && done.now == s.now
    ensures var (result, outcome) := (ResultFor(s, c, activates), OutcomeFor(s, c));
            BreakerOf(Resume(s, c, activates)) ==
            BreakerOf(if Counts(result, outcome)
                      then Record(done, s.calls[c].name, result.Ok?, OfRun(s.calls[c].phase.on)) else done)
  {
    var call := s.calls[c];
    var shaped := Shape(s.registry[call.name], OutcomeFor(s, c));
    done := Finish(Store(s, call.phase.key, s.registry[call.name], shaped, call.phase.on), c, ResultFor(s, c, activates),
                   FromRun(call.phase.on));
  }

  lemma CountsBears(s: State, c: nat, activates: bool)
    requires CanResume(s, c)
    ensures var (result, outcome) := (ResultFor(s, c, activates), OutcomeFor(s, c));
            && (Counts(result, outcome) <==> !BearingOf(outcome).Leaves?)
            && (Counts(result, outcome) ==> (result.Ok? <==> BearingOf(outcome).Resets?))
  {
  }

  /**
   A dispatch that goes on once its run has ended: a success takes its tool off both maps, an exception
   of the handler or an unrecoverable failure raises the streak by one and from the third on opens the
   circuit for 30 s, anything else changes nothing.
   */
  lemma ResumeCounts(s: State, c: nat, activates: bool)
    requires CanResume(s, c)
    ensures Counted(BreakerOf(s), BreakerOf(Resume(s, c, activates)), s.now, s.calls[c].name,
                    BearingOf(s.runs[s.calls[c].phase.on].state.outcome))
  {
    var done := ResumeRecords(s, c, activates);
    CountsBears(s, c, activates);
    RecordCounts(done, s.calls[c].name, ResultFor(s, c, activates).Ok?, OfRun(s.calls[c].phase.on));
  }

  /** An exception before the handler counts like one of the handler. */
  lemma FaultRaises(s: State, c: nat, error: string)
    requires InPreparation(s, c)
    ensures Counted(BreakerOf(s), BreakerOf(Fault(s, c, error)), s.now, s.calls[c].name, Raises)
  {
    RecordCounts(Finish(s, c, Plain(error), Refused), s.calls[c].name, false, OfFault(c));
  }

  /** What a run's outcome is worth to a dispatch: the output up to the cap, or the failure. */
  ghost predicate Answers(result: Result, outcome: Outcome, maxTokens: nat, activates: bool) {
    match outcome
    case Returned(Ok(output, cutAt)) =>
      var cap := maxTokens * 4;
      && result.Ok? && result.output <= output
      && (if cap > 0 && |output| > cap then |result.output| == cap && result.cutAt * 4 == cap else result == Ok(output, cutAt))
    case Returned(Fail(error, recoverable, hinted)) => result == Fail(error, recoverable, hinted || activates)
    case Threw(error) => result == Fail(error, false, false)
    case GuardThrew(error) => result == Fail(error, false, false)
  }

  lemma ResultAnswers(tool: Tool, outcome: Outcome, activates: bool)
    ensures Answers(Hinted(Shape(tool, outcome), outcome, activates), outcome, tool.maxTokens, activates)
  {
  }

  /** A dispatch is answered with its run's output or failure. */
  lemma ResumeAnswers(s: State, c: nat, activates: bool)
    requires CanResume(s, c)
    ensures var done := Resume(s, c, activates).calls[c].phase;
            && done.Done?
            && Answers(done.result, s.runs[s.calls[c].phase.on].state.outcome, s.registry[s.calls[c].name].maxTokens, activates)
  {
    var call := ResumeChanges(s, c, activates);
    ResultAnswers(s.registry[s.calls[c].name], OutcomeFor(s, c), activates);
  }

  // ---------------------------------------------------------------- over whole runs

  /** What an action means for the streak of a tool in the state it is taken in. */
  function BearingIn(s: State, a: Action, name: string): Bearing {
    match a
    case DoResume(c, _) =>
      if CanResume(s, c) && s.calls[c].name == name then BearingOf(s.runs[s.calls[c].phase.on].state.outcome) else Leaves
    case DoFault(c, _) => if InPreparation(s, c) && s.calls[c].name == name then Raises else Leaves
    case _ => Leaves
  }

  /** Failures in a row that count, tallied from the outcomes as they are picked up. */
  function Tally(s: State, actions: seq<Action>, name: string, streak: nat): nat
    decreases |actions|
  {
    if actions == [] then streak
    else Tally(Apply(s, actions[0]), actions[1..], name, Moved(streak, BearingIn(s, actions[0], name)))
  }

  ghost predicate OpenFits(s: State, name: string) {
    name in s.openUntil <==> Streak(s.streaks, name) >= 3
  }

  lemma QuietStep(s: State, a: Action)
    requires !a.DoResume? && !a.DoFault?
    ensures BreakerOf(Apply(s, a)) == BreakerOf(s)
  {
  }

  lemma CountedFits(b: Breaker, next: Breaker, now: nat, of: string, bearing: Bearing, name: string)
    requires Counted(b, next, now, of, bearing) && (name in b.openUntil <==> Streak(b.streaks, name) >= 3)
    ensures Streak(next.streaks, name) == Moved(Streak(b.streaks, name), if of == name then bearing else Leaves)
    ensures name in next.openUntil <==> Streak(next.streaks, name) >= 3
  {
  }

  lemma StepCounts(s: State, a: Action, name: string)
    requires OpenFits(s, name)
    ensures Streak(Apply(s, a).streaks, name) == Moved(Streak(s.streaks, name), BearingIn(s, a, name))
    ensures OpenFits(Apply(s, a), name)
  {
    match a
    case DoResume(c, activates) =>
      if CanResume(s, c) {
        ResumeCounts(s, c, activates);
        CountedFits(BreakerOf(s), BreakerOf(Resume(s, c, activates)), s.now, s.calls[c].name,
                    BearingOf(OutcomeFor(s, c)), name);
      }
    case DoFault(c, error) =>
      if InPreparation(s, c) {
        FaultRaises(s, c, error);
        CountedFits(BreakerOf(s), BreakerOf(Fault(s, c, error)), s.now, s.calls[c].name, Raises, name);
      }
    case _ => QuietStep(s, a);
  }

  lemma {:induction false} RunCounts(s: State, actions: seq<Action>, name: string)
    requires OpenFits(s, name)
    ensures Streak(Execute(s, actions).streaks, name) == Tally(s, actions, name, Streak(s.streaks, name))
    ensures OpenFits(Execute(s, actions), name)
    decreases |actions|
  {
    if actions != [] {
      StepCounts(s, actions[0], name);
      RunCounts(Apply(s, actions[0]), actions[1..], name);
    }
  }

  /**
   Over every run from the start the streak of a tool is the tally of its outcomes, and its circuit has
   been opened and not closed since exactly when at least three failures that count came in a row.
   */
  lemma StreakIsTally(registry: map<string, Tool>, actions: seq<Action>, name: string)
    ensures var s := Execute(Initial(registry), actions);
            var tally := Tally(Initial(registry), actions, name, 0);
            Streak(s.streaks, name) == tally && (name in s.openUntil <==> tally >= 3)
  {
    RunCounts(Initial(registry), actions, name);
  }

  /** No action of the run counts against the tool. */
  ghost predicate NeverRaises(s: State, actions: seq<Action>, name: string)
    decreases |actions|
  {
    actions != [] ==>
      !BearingIn(s, actions[0], name).Raises? && NeverRaises(Apply(s, actions[0]), actions[1..], name)
  }

  lemma {:induction false} TallyStaysZero(s: State, actions: seq<Action>, name: string)
    requires NeverRaises(s, actions, name)
    ensures Tally(s, actions, name, 0) == 0
    decreases |actions|
  {
    if actions != [] {
      TallyStaysZero(Apply(s, actions[0]), actions[1..], name);
    }
  }

  /** Recoverable failures and guard refusals, however many, never open a circuit. */
  lemma RecoverableNeverOpens(registry: map<string, Tool>, actions: seq<Action>, name: string)
    requires NeverRaises(Initial(registry), actions, name)
    ensures name !in Execute(Initial(registry), actions).openUntil
  {
    StreakIsTally(registry, actions, name);
    TallyStaysZero(Initial(registry), actions, name);
  }

  /** Three dispatches of a tool wait for runs that returned failures which are not recoverable. */
  ghost predicate AwaitsUnrecoverable(s: State, c: nat, name: string) {
    && CanResume(s, c) && s.calls[c].name == name
    && BearingOf(s.runs[s.calls[c].phase.on].state.outcome).Raises?
  }

  /** One of them goes on: the streak is one more, from three on the circuit is open, and the others still wait. */
  lemma OneFailureMore(s: State, name: string, c: nat)
    requires AwaitsUnrecoverable(s, c, name)
    ensures var next := Resume(s, c, false);
            && Streak(next.streaks, name) == Streak(s.streaks, name) + 1 && next.now == s.now
            && (Streak(s.streaks, name) + 1 >= 3 ==> name in next.openUntil && next.openUntil[name] == s.now + 30_000)
            && forall d: nat :: d != c && AwaitsUnrecoverable(s, d, name) ==> AwaitsUnrecoverable(next, d, name)
  {
    ResumeCounts(s, c, false);
    var call := ResumeChanges(s, c, false);
    var next := Resume(s, c, false);
    forall d: nat | d != c && AwaitsUnrecoverable(s, d, name)
      ensures AwaitsUnrecoverable(next, d, name)
    {
      assert next.calls[d] == s.calls[d];
    }
  }

  /** Three such failures in a row leave the circuit open for 30 s, whatever the streak was before. */
  lemma ThreeFailuresOpen(s: State, name: string, c: nat, d: nat, e: nat)
    requires AwaitsUnrecoverable(s, c, name) && AwaitsUnrecoverable(s, d, name) && AwaitsUnrecoverable(s, e, name)
    requires c != d && c != e && d != e
    ensures var last := Resume(Resume(Resume(s, c, false), d, false), e, false);
            && Streak(last.streaks, name) == Streak(s.streaks, name) + 3
            && name in last.openUntil && last.openUntil[name] == s.now + 30_000
  {
    OneFailureMore(s, name, c);
    OneFailureMore(Resume(s, c, false), name, d);
    OneFailureMore(Resume(Resume(s, c, false), d, false), name, e);
  }

  /** A dispatch that passes its checks is turned away exactly while its circuit is open. */
  lemma TurnedAwayIff(s: State, name: string, args: string, now: nat)
    requires name in s.registry
    ensures var next := Apply(Apply(s, SetClock(now)), DoEnter(name, args, false, Passed));
            && |next.calls| == |s.calls| + 1
            && (next.calls[|s.calls|].phase == Done(Fail("circuit is open", false, false), Refused)
                <==> name in s.openUntil && now < s.openUntil[name])
  {
  }

  /** The circuit turns dispatches away for exactly 30 s after the third failure. */
  lemma OpenForThirtySeconds(s: State, name: string, c: nat, d: nat, e: nat, now: nat, args: string)
    requires AwaitsUnrecoverable(s, c, name) && AwaitsUnrecoverable(s, d, name) && AwaitsUnrecoverable(s, e, name)
    requires c != d && c != e && d != e
    ensures var last := Resume(Resume(Resume(s, c, false), d, false), e, false);
            var next := Apply(Apply(last, SetClock(now)), DoEnter(name, args, false, Passed));
            && |next.calls| == |last.calls| + 1
            && (next.calls[|last.calls|].phase == Done(Fail("circuit is open", false, false), Refused)
                <==> now < s.now + 30_000)
  {
    ThreeFailuresOpen(s, name, c, d, e);
    OneFailureMore(s, name, c);
    var one := Resume(s, c, false);
    OneFailureMore(one, name, d);
    var two := Resume(one, d, false);
    KeepsRegistry(two, e);
    TurnedAwayIff(Resume(two, e, false), name, args, now);
  }

  lemma KeepsRegistry(s: State, c: nat)
    requires CanResume(s, c)
    ensures Resume(s, c, false).registry == s.registry && s.calls[c].name in s.registry
  {
    var call := ResumeChanges(s, c, false);
  }
}
