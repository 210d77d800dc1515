/**
 What stands behind an open circuit.  The failure streak counts dispatches; dispatches that waited for one
 failing run count it once each.
 */
module CircuitCauses {
  import opened Common
  import opened Dispatcher

  /** Causes of the failures counted since the last success. */
  function CausesSince(history: seq<Completion>, name: string): seq<Cause> {
    if history == [] then [] else
    var last := history[|history| - 1];
    var before := history[..|history| - 1];
    if last.name != name then CausesSince(before, name)
    else if last.success then []
    else CausesSince(before, name) + [last.cause]
  }

  function Distinct(causes: seq<Cause>): set<Cause> {
    set c | c in causes
  }

  ghost predicate Unrepeated(causes: seq<Cause>) {
    forall i, j :: 0 <= i < j < |causes| ==> causes[i] != causes[j]
  }

  lemma {:induction false} UnrepeatedCount(causes: seq<Cause>)
    requires Unrepeated(causes)
    ensures |Distinct(causes)| == |causes|
  {
    if causes == [] {
      assert Distinct(causes) == {};
    } else {
      var before, last := causes[..|causes| - 1], causes[|causes| - 1];
      UnrepeatedCount(before);
      assert causes == before + [last];
      assert Distinct(causes) == Distinct(before) + {last} && last !in Distinct(before);
    }
  }

  lemma {:induction false} CausesAreFailures(history: seq<Completion>, name: string)
    ensures |CausesSince(history, name)| == FailuresInARow(history, name)
    ensures forall c :: c in CausesSince(history, name) ==>
              exists i :: 0 <= i < |history| && history[i].cause == c && history[i].name == name && !history[i].success
  {
    if history != [] {
      var n := |history| - 1;
      CausesAreFailures(history[..n], name);
      forall c | c in CausesSince(history, name)
        ensures exists i :: 0 <= i < |history| && history[i].cause == c && history[i].name == name && !history[i].success
      {
        if c in CausesSince(history[..n], name) {
          var i :| 0 <= i < n && history[..n][i].cause == c && history[..n][i].name == name && !history[..n][i].success;
          assert history[i].cause == c;
        } else {
          assert history[n].cause == c;
        }
      }
    }
  }

  // ---------------------------------------------------------------- only runs are counted again

  /** No two entries come from one exception before the handler. */
  ghost predicate FaultsOnce(history: seq<Completion>) {
    forall i, j :: 0 <= i < j < |history| && history[i].cause.OfFault? ==> history[i].cause != history[j].cause
  }

  /** A fault ends its dispatch. */
  ghost predicate FaultsEnd(s: State) {
    forall i :: 0 <= i < |s.history| && s.history[i].cause.OfFault? ==>
      s.history[i].cause.call < |s.calls| && s.calls[s.history[i].cause.call].phase.Done?
  }

  /** A step that ends no preparation by a fault, and logs at most a run. */
  lemma RunsKeepFaults(s: State, next: State)
    requires FaultsOnce(s.history) && FaultsEnd(s) && |next.calls| >= |s.calls|
    requires forall c :: 0 <= c < |s.calls| && s.calls[c].phase.Done? ==> next.calls[c].phase.Done?
    requires next.history == s.history ||
             (|next.history| == |s.history| + 1 && s.history <= next.history && next.history[|s.history|].cause.OfRun?)
    ensures FaultsOnce(next.history) && FaultsEnd(next)
  {
    forall i | 0 <= i < |next.history| && next.history[i].cause.OfFault?
      ensures next.history[i].cause.call < |next.calls| && next.calls[next.history[i].cause.call].phase.Done?
    {
      assert next.history[i] == s.history[i];
    }
  }

  lemma FaultKeepsFaults(s: State, c: nat, error: string)
    requires FaultsOnce(s.history) && FaultsEnd(s) && InPreparation(s, c)
    ensures FaultsOnce(Fault(s, c, error).history) && FaultsEnd(Fault(s, c, error))
  {
    var next := Fault(s, c, error);
    assert forall i :: 0 <= i < |s.history| ==> next.history[i] == s.history[i];
  }

  lemma ResumeKeepsFaults(s: State, c: nat, activates: bool)
    requires FaultsOnce(s.history) && FaultsEnd(s) && CanResume(s, c)
    ensures FaultsOnce(Resume(s, c, activates).history) && FaultsEnd(Resume(s, c, activates))
  {
    var call := ResumeChanges(s, c, activates);
    ResumeHistory(s, c, activates);
    RunsKeepFaults(s, Resume(s, c, activates));
  }

  lemma StepKeepsFaults(s: State, a: Action)
    requires FaultsOnce(s.history) && FaultsEnd(s)
    ensures FaultsOnce(Apply(s, a).history) && FaultsEnd(Apply(s, a))
  {
    match a
    case DoFault(c, error) => if InPreparation(s, c) { FaultKeepsFaults(s, c, error); }
    case DoResume(c, activates) => if CanResume(s, c) { ResumeKeepsFaults(s, c, activates); }
    case _ => RunsKeepFaults(s, Apply(s, a));
  }

  lemma {:induction false} RunKeepsFaults(s: State, actions: seq<Action>)
    requires FaultsOnce(s.history) && FaultsEnd(s)
    ensures FaultsOnce(Execute(s, actions).history)
    decreases |actions|
  {
    if actions != [] {
      StepKeepsFaults(s, actions[0]);
      RunKeepsFaults(Apply(s, actions[0]), actions[1..]);
    }
  }

  lemma {:induction false} RepeatedIsRun(history: seq<Completion>, name: string)
    requires FaultsOnce(history)
    ensures forall i, j ::
              0 <= i < j < |CausesSince(history, name)| && CausesSince(history, name)[i] == CausesSince(history, name)[j]
              ==> CausesSince(history, name)[i].OfRun?
  {
    if history != [] {
      var n := |history| - 1;
      RepeatedIsRun(history[..n], name);
      var earlier, causes := CausesSince(history[..n], name), CausesSince(history, name);
      forall i, j | 0 <= i < j < |causes| && causes[i] == causes[j]
        ensures causes[i].OfRun?
      {
        if j == |earlier| {
          LastIsNew(history, name, causes[i]);
        }
      }
    }
  }

  lemma LastIsNew(history: seq<Completion>, name: string, cause: Cause)
    requires history != [] && FaultsOnce(history)
    requires cause in CausesSince(history[..|history| - 1], name) && cause == history[|history| - 1].cause
    ensures cause.OfRun?
  {
    var n := |history| - 1;
    CausesAreFailures(history[..n], name);
    var i :| 0 <= i < n && history[..n][i].cause == cause;
    assert history[i].cause == history[n].cause;
  }

  /** Behind an open circuit are as many causes as the streak counts; only a run is counted more than once. */
  lemma OnlyRunsAreCountedAgain(registry: map<string, Tool>, actions: seq<Action>, name: string)
    requires name in Execute(Initial(registry), actions).openUntil
    ensures var s := Execute(Initial(registry), actions);
            var causes := CausesSince(s.history, name);
            && |causes| == Streak(s.streaks, name) >= FAIL_THRESHOLD
            && (forall i, j :: 0 <= i < j < |causes| && causes[i] == causes[j] ==> causes[i].OfRun?)
  {
    var s := Execute(Initial(registry), actions);
    CircuitFollowsHistory(registry, actions, name);
    CausesAreFailures(s.history, name);
    RunKeepsFaults(Initial(registry), actions);
    RepeatedIsRun(s.history, name);
  }

  // ---------------------------------------------------------------- a tool that shares no run

  /** Dispatches of the tool may wait for one run together. */
  predicate Shares(registry: map<string, Tool>, name: string) {
    name in registry && registry[name].cacheable && !registry[name].gated
  }

  /** The dispatch behind a cause has ended. */
  ghost predicate Ended(calls: seq<Call>, runs: seq<Run>, cause: Cause) {
    match cause
    case OfFault(c) => c < |calls| && calls[c].phase.Done?
    case OfRun(r) => r < |runs| && runs[r].starter < |calls| && calls[runs[r].starter].phase.Done?
  }

  ghost predicate OwnRun(c: nat, call: Call, runs: seq<Run>, name: string) {
    call.phase.Waiting? && call.name == name ==> call.phase.on < |runs| && runs[call.phase.on].starter == c
  }

  /** Each dispatch of the tool waits for a run of its own. */
  ghost predicate OwnRuns(s: State, name: string) {
    forall c :: 0 <= c < |s.calls| ==> OwnRun(c, s.calls[c], s.runs, name)
  }

  ghost predicate CausesEnded(history: seq<Completion>, calls: seq<Call>, runs: seq<Run>, name: string) {
    forall i :: 0 <= i < |history| && history[i].name == name ==> Ended(calls, runs, history[i].cause)
  }

  ghost predicate CountedOnce(history: seq<Completion>, name: string) {
    forall i, j :: 0 <= i < j < |history| && history[i].name == name && history[j].name == name ==>
      history[i].cause != history[j].cause
  }

  ghost predicate Unshared(s: State, name: string) {
    && !Shares(s.registry, name) && OwnRuns(s, name)
    && CausesEnded(s.history, s.calls, s.runs, name) && CountedOnce(s.history, name)
  }

  /** Dispatches that have ended stay so, and runs keep their starters. */
  ghost predicate Grows(s: State, next: State) {
    && next.registry == s.registry && |next.calls| >= |s.calls| && |next.runs| >= |s.runs|
    && (forall c :: 0 <= c < |s.calls| && s.calls[c].phase.Done? ==> next.calls[c].phase.Done?)
    && (forall r :: 0 <= r < |s.runs| ==> next.runs[r].starter == s.runs[r].starter)
  }

  lemma GrowsKeepsEnded(s: State, next: State, name: string)
    requires Grows(s, next) && CausesEnded(s.history, s.calls, s.runs, name)
    ensures CausesEnded(s.history, next.calls, next.runs, name)
  {
  }

  /** A step that logs nothing. */
  lemma QuietKeepsUnshared(s: State, next: State, name: string)
    requires Unshared(s, name) && Grows(s, next) && next.history == s.history && OwnRuns(next, name)
    ensures Unshared(next, name)
  {
    GrowsKeepsEnded(s, next, name);
  }

  /** A step that logs a completion whose dispatch had not ended before. */
  lemma CountKeepsUnshared(s: State, next: State, last: Completion, name: string)
    requires Unshared(s, name) && Grows(s, next) && next.history == s.history + [last] && OwnRuns(next, name)
    requires last.name == name ==> !Ended(s.calls, s.runs, last.cause) && Ended(next.calls, next.runs, last.cause)
    ensures Unshared(next, name)
  {
    GrowsKeepsEnded(s, next, name);
    forall i, j | 0 <= i < j < |next.history| && next.history[i].name == name && next.history[j].name == name
      ensures next.history[i].cause != next.history[j].cause
    {
      assert next.history[i] == s.history[i];
    }
  }

  lemma ProceedKeepsUnshared(s: State, c: nat, args: string, locks: set<string>, name: string)
    requires Unshared(s, name) && InPreparation(s, c)
    requires s.calls[c].caches ==> s.registry[s.calls[c].name].cacheable
    ensures Unshared(Proceed(s, c, args, locks), name)
  {
    var next := Proceed(s, c, args, locks);
    forall i | 0 <= i < |next.calls|
      ensures OwnRun(i, next.calls[i], next.runs, name)
    {
      assert OwnRun(i, s.calls[i], s.runs, name);
    }
    QuietKeepsUnshared(s, next, name);
  }

  lemma EndsKeepOwnRuns(s: State, next: State, c: nat, name: string)
    requires OwnRuns(s, name) && c < |s.calls| == |next.calls| && next.runs == s.runs
    requires next.calls == s.calls[c := next.calls[c]] && next.calls[c].phase.Done?
    ensures OwnRuns(next, name)
  {
    forall i | 0 <= i < |next.calls|
      ensures OwnRun(i, next.calls[i], next.runs, name)
    {
      assert OwnRun(i, s.calls[i], s.runs, name);
    }
  }

  lemma FaultKeepsUnshared(s: State, c: nat, error: string, name: string)
    requires Unshared(s, name) && InPreparation(s, c)
    ensures Unshared(Fault(s, c, error), name)
  {
    var next := Fault(s, c, error);
    EndsKeepOwnRuns(s, next, c, name);
    CountKeepsUnshared(s, next, Completion(s.calls[c].name, false, s.now, OfFault(c)), name);
  }

  lemma ResumeKeepsUnshared(s: State, c: nat, activates: bool, name: string)
    requires Unshared(s, name) && CanResume(s, c)
    ensures Unshared(Resume(s, c, activates), name)
  {
    var next := Resume(s, c, activates);
    var call := ResumeChanges(s, c, activates);
    ResumeHistory(s, c, activates);
    EndsKeepOwnRuns(s, next, c, name);
    assert OwnRun(c, s.calls[c], s.runs, name);
    if next.history == s.history {
      QuietKeepsUnshared(s, next, name);
    } else {
      CountKeepsUnshared(s, next, next.history[|s.history|], name);
    }
  }

  /** Only a cacheable tool is ever asked for with a key. */
  ghost predicate CachesFit(calls: seq<Call>, registry: map<string, Tool>) {
    forall c :: 0 <= c < |calls| && calls[c].caches && calls[c].name in registry ==> registry[calls[c].name].cacheable
  }

  lemma PhaseKeepsCaches(calls: seq<Call>, registry: map<string, Tool>, c: nat, phase: Phase)
    requires CachesFit(calls, registry) && c < |calls|
    ensures CachesFit(calls[c := calls[c].(phase := phase)], registry)
  {
  }

  lemma ProceedKeepsCaches(s: State, c: nat, args: string, locks: set<string>)
    requires CachesFit(s.calls, s.registry) && InPreparation(s, c)
    ensures CachesFit(Proceed(s, c, args, locks).calls, s.registry) && Proceed(s, c, args, locks).registry == s.registry
  {
    PhaseKeepsCaches(s.calls, s.registry, c, Proceed(s, c, args, locks).calls[c].phase);
  }

  lemma ResumeKeepsCaches(s: State, c: nat, activates: bool)
    requires CachesFit(s.calls, s.registry) && CanResume(s, c)
    ensures CachesFit(Resume(s, c, activates).calls, s.registry) && Resume(s, c, activates).registry == s.registry
  {
    var call := ResumeChanges(s, c, activates);
    PhaseKeepsCaches(s.calls, s.registry, c, call.phase);
  }

  lemma EndKeepsCaches(s: State, c: nat, error: string)
    requires CachesFit(s.calls, s.registry) && InPreparation(s, c)
    ensures CachesFit(Refuse(s, c, error).calls, s.registry) && Refuse(s, c, error).registry == s.registry
    ensures Fault(s, c, error).calls == Refuse(s, c, error).calls && Fault(s, c, error).registry == s.registry
  {
    PhaseKeepsCaches(s.calls, s.registry, c, Done(Plain(error), Refused));
  }

  lemma EnterKeepsCaches(s: State, name: string, args: string, hasDependencies: bool, checks: Checks)
    requires CachesFit(s.calls, s.registry)
    ensures var next := Enter(s, name, args, hasDependencies, checks);
            CachesFit(next.calls, s.registry) && next.registry == s.registry
  {
  }

  lemma StepKeepsCaches(s: State, a: Action)
    requires CachesFit(s.calls, s.registry)
    ensures CachesFit(Apply(s, a).calls, s.registry) && Apply(s, a).registry == s.registry
  {
    match a
    case DoEnter(name, args, hasDependencies, checks) => EnterKeepsCaches(s, name, args, hasDependencies, checks);
    case DoRefuse(c, error) => if InPreparation(s, c) { EndKeepsCaches(s, c, error); }
    case DoFault(c, error) => if InPreparation(s, c) { EndKeepsCaches(s, c, error); }
    case DoProceed(c, args, locks) => if InPreparation(s, c) { ProceedKeepsCaches(s, c, args, locks); }
    case DoResume(c, activates) => if CanResume(s, c) { ResumeKeepsCaches(s, c, activates); }
    case _ =>
  }

  /** Settling and clearing change no starter. */
  lemma RunsMoveUnshared(s: State, next: State, name: string)
    requires Unshared(s, name) && next.history == s.history && next.calls == s.calls && next.registry == s.registry
    requires |next.runs| == |s.runs| && forall r :: 0 <= r < |s.runs| ==> next.runs[r].starter == s.runs[r].starter
    ensures Unshared(next, name)
  {
    forall i | 0 <= i < |next.calls|
      ensures OwnRun(i, next.calls[i], next.runs, name)
    {
      assert OwnRun(i, s.calls[i], s.runs, name);
    }
    QuietKeepsUnshared(s, next, name);
  }

  lemma EnterKeepsUnshared(s: State, tool: string, args: string, hasDependencies: bool, checks: Checks, name: string)
    requires Unshared(s, name)
    ensures Unshared(Enter(s, tool, args, hasDependencies, checks), name)
  {
    var next := Enter(s, tool, args, hasDependencies, checks);
    forall i | 0 <= i < |next.calls|
      ensures OwnRun(i, next.calls[i], next.runs, name)
    {
      assert i < |s.calls| ==> OwnRun(i, s.calls[i], s.runs, name);
    }
    QuietKeepsUnshared(s, next, name);
  }

  lemma RefuseKeepsUnshared(s: State, c: nat, error: string, name: string)
    requires Unshared(s, name) && InPreparation(s, c)
    ensures Unshared(Refuse(s, c, error), name)
  {
    var next := Refuse(s, c, error);
    EndsKeepOwnRuns(s, next, c, name);
    QuietKeepsUnshared(s, next, name);
  }

  lemma StepKeepsUnshared(s: State, a: Action, name: string)
    requires Unshared(s, name) && CachesFit(s.calls, s.registry)
    ensures Unshared(Apply(s, a), name)
  {
    match a
    case DoFault(c, error) => if InPreparation(s, c) { FaultKeepsUnshared(s, c, error, name); }
    case DoProceed(c, args, locks) => if InPreparation(s, c) { ProceedKeepsUnshared(s, c, args, locks, name); }
    case DoResume(c, activates) => if CanResume(s, c) { ResumeKeepsUnshared(s, c, activates, name); }
    case DoRefuse(c, error) => if InPreparation(s, c) { RefuseKeepsUnshared(s, c, error, name); }
    case DoEnter(tool, args, hasDependencies, checks) => EnterKeepsUnshared(s, tool, args, hasDependencies, checks, name);
    case _ => RunsMoveUnshared(s, Apply(s, a), name);
  }

  lemma {:induction false} RunKeepsUnshared(s: State, actions: seq<Action>, name: string)
    requires Unshared(s, name) && CachesFit(s.calls, s.registry)
    ensures Unshared(Execute(s, actions), name)
    decreases |actions|
  {
    if actions != [] {
      StepKeepsUnshared(s, actions[0], name);
      StepKeepsCaches(s, actions[0]);
      RunKeepsUnshared(Apply(s, actions[0]), actions[1..], name);
    }
  }

  lemma LastCauseIsNew(history: seq<Completion>, name: string)
    requires history != [] && CountedOnce(history, name) && history[|history| - 1].name == name
    ensures history[|history| - 1].cause !in CausesSince(history[..|history| - 1], name)
  {
    var n := |history| - 1;
    CausesAreFailures(history[..n], name);
    forall cause | cause in CausesSince(history[..n], name)
      ensures cause != history[n].cause
    {
      var i :| 0 <= i < n && history[..n][i].cause == cause && history[..n][i].name == name;
      assert history[i].cause == cause;
    }
  }

  lemma {:induction false} CountedOnceIsUnrepeated(history: seq<Completion>, name: string)
    requires CountedOnce(history, name)
    ensures Unrepeated(CausesSince(history, name))
  {
    if history != [] {
      var n := |history| - 1;
      CountedOnceIsUnrepeated(history[..n], name);
      if history[n].name == name {
        LastCauseIsNew(history, name);
      }
    }
  }

  // ---------------------------------------------------------------- one failing run, several waiters

  ghost predicate AwaitsFailure(s: State, c: nat) {
    CanResume(s, c) && ResultFor(s, c, false).Fail? && Counts(ResultFor(s, c, false), OutcomeFor(s, c))
  }

  /** A waiter counts its run's failure, and the next one still finds it. */
  lemma ResumeCountsFailure(s: State, c: nat)
    requires AwaitsFailure(s, c)
    ensures var next := Resume(s, c, false);
            var name := s.calls[c].name;
            && next.now == s.now && next.runs == s.runs && next.registry == s.registry
            && |next.calls| == |s.calls| && (forall d :: 0 <= d < |s.calls| && d != c ==> next.calls[d] == s.calls[d])
            && next.history == s.history + [Completion(name, false, s.now, OfRun(s.calls[c].phase.on))]
  {
    var call := ResumeChanges(s, c, false);
  }

  lemma StillAwaits(s: State, next: State, d: nat)
    requires AwaitsFailure(s, d) && |next.calls| == |s.calls| && next.calls[d] == s.calls[d]
    requires next.runs == s.runs && next.registry == s.registry
    ensures AwaitsFailure(next, d)
  {
  }

  function Counted(s: State, c: nat): Completion
    requires c < |s.calls| && s.calls[c].phase.Waiting?
  {
    Completion(s.calls[c].name, false, s.now, OfRun(s.calls[c].phase.on))
  }

  /** Three dispatches that wait for failing runs count one failure each. */
  lemma ThreeWaitersCount(s: State, c: nat, d: nat, e: nat)
    requires AwaitsFailure(s, c) && AwaitsFailure(s, d) && AwaitsFailure(s, e) && c != d && d != e && c != e
    ensures var last := Resume(Resume(Resume(s, c, false), d, false), e, false);
            && last.runs == s.runs && last.now == s.now
            && last.history == s.history + [Counted(s, c), Counted(s, d), Counted(s, e)]
  {
    var s1 := Resume(s, c, false);
    ResumeCountsFailure(s, c);
    StillAwaits(s, s1, d);
    StillAwaits(s, s1, e);
    var s2 := Resume(s1, d, false);
    ResumeCountsFailure(s1, d);
    StillAwaits(s1, s2, e);
    ResumeCountsFailure(s2, e);
  }

  /** One failing run, three dispatches. */
  function SharedFailure(name: string): seq<Action> {
    var enter := DoEnter(name, "", false, Passed);
    [enter, enter, enter] + ([DoProceed(0, "", {}), DoProceed(1, "", {}), DoProceed(2, "", {})] +
      ([DoSettle(0, Threw("e")), DoClear(0)] + Resumes()))
  }

  function Resumes(): seq<Action> {
    [DoResume(0, false), DoResume(1, false), DoResume(2, false)]
  }

  function Dispatched(name: string, phases: seq<Phase>): seq<Call> {
    seq(|phases|, i requires 0 <= i < |phases| => Call(name, true, false, 0, phases[i]))
  }

  function Entered(registry: map<string, Tool>, name: string, phases: seq<Phase>): State {
    Initial(registry).(calls := Dispatched(name, phases))
  }

  /** Three dispatches and the run the first of them started. */
  function Sharing(registry: map<string, Tool>, name: string, phases: seq<Phase>, state: RunState): State {
    var key := Key(name, "");
    Entered(registry, name, phases).(runs := [Run(name, Some(key), true, 0, state)],
                                     inflight := if state.Cleared? then map[] else map[key := 0])
  }

  function Awaiting(name: string): Phase {
    Waiting(0, Some(Key(name, "")), {})
  }

  lemma OneEnters(registry: map<string, Tool>, name: string, phases: seq<Phase>)
    requires Shares(registry, name)
    ensures Apply(Entered(registry, name, phases), DoEnter(name, "", false, Passed)) ==
            Entered(registry, name, phases + [Preparing])
  {
    var call := Call(name, true, false, 0, Preparing);
    assert Dispatched(name, phases) + [call] == Dispatched(name, phases + [Preparing]);
  }

  lemma ThreeEnter(registry: map<string, Tool>, name: string)
    requires Shares(registry, name)
    ensures var enter := DoEnter(name, "", false, Passed);
            Apply(Apply(Apply(Initial(registry), enter), enter), enter) ==
            Entered(registry, name, [Preparing, Preparing, Preparing])
  {
    assert Dispatched(name, []) == [];
    assert [Preparing] + [Preparing] == [Preparing, Preparing];
    assert [] + [Preparing] == [Preparing];
    OneEnters(registry, name, []);
    OneEnters(registry, name, [Preparing]);
    OneEnters(registry, name, [Preparing, Preparing]);
  }

  lemma FirstProceeds(registry: map<string, Tool>, name: string)
    requires Shares(registry, name)
    ensures Apply(Entered(registry, name, [Preparing, Preparing, Preparing]), DoProceed(0, "", {})) ==
            Sharing(registry, name, [Awaiting(name), Preparing, Preparing], Running)
  {
    var s := Entered(registry, name, [Preparing, Preparing, Preparing]);
    var next := Sharing(registry, name, [Awaiting(name), Preparing, Preparing], Running);
    assert s.calls[0 := s.calls[0].(phase := Awaiting(name))] == next.calls;
  }

  lemma OtherProceeds(registry: map<string, Tool>, name: string, phases: seq<Phase>, c: nat)
    requires Shares(registry, name) && c < |phases| && phases[c].Preparing?
    ensures Apply(Sharing(registry, name, phases, Running), DoProceed(c, "", {})) ==
            Sharing(registry, name, phases[c := Awaiting(name)], Running)
  {
    var s := Sharing(registry, name, phases, Running);
    var next := Sharing(registry, name, phases[c := Awaiting(name)], Running);
    assert s.calls[c := s.calls[c].(phase := Awaiting(name))] == next.calls;
  }

  function FailedRun(registry: map<string, Tool>, name: string): State {
    Sharing(registry, name, [Awaiting(name), Awaiting(name), Awaiting(name)], Cleared(Threw("e")))
  }

  lemma ThreeProceed(registry: map<string, Tool>, name: string)
    requires Shares(registry, name)
    ensures var s := Entered(registry, name, [Preparing, Preparing, Preparing]);
            Apply(Apply(Apply(s, DoProceed(0, "", {})), DoProceed(1, "", {})), DoProceed(2, "", {})) ==
            Sharing(registry, name, [Awaiting(name), Awaiting(name), Awaiting(name)], Running)
  {
    var w := Awaiting(name);
    FirstProceeds(registry, name);
    OtherProceeds(registry, name, [w, Preparing, Preparing], 1);
    assert [w, Preparing, Preparing][1 := w] == [w, w, Preparing];
    OtherProceeds(registry, name, [w, w, Preparing], 2);
    assert [w, w, Preparing][2 := w] == [w, w, w];
  }

  lemma RunFails(registry: map<string, Tool>, name: string, phases: seq<Phase>)
    ensures Apply(Apply(Sharing(registry, name, phases, Running), DoSettle(0, Threw("e"))), DoClear(0)) ==
            Sharing(registry, name, phases, Cleared(Threw("e")))
  {
    var key := Key(name, "");
    assert Apply(Sharing(registry, name, phases, Running), DoSettle(0, Threw("e"))) ==
           Sharing(registry, name, phases, Settled(Threw("e")));
    assert map[key := 0] - {key} == map[];
  }

  lemma SharedRunFails(registry: map<string, Tool>, name: string)
    requires Shares(registry, name)
    ensures Execute(Initial(registry), SharedFailure(name)) == Execute(FailedRun(registry, name), Resumes())
  {
    var s := Initial(registry);
    var w := Awaiting(name);
    var enter := DoEnter(name, "", false, Passed);
    var settles := [DoSettle(0, Threw("e")), DoClear(0)] + Resumes();
    ThreeEnter(registry, name);
    ThreeProceed(registry, name);
    RunFails(registry, name, [w, w, w]);
    ExecuteThree(s, enter, enter, enter, [DoProceed(0, "", {}), DoProceed(1, "", {}), DoProceed(2, "", {})] + settles);
    ExecuteThree(Entered(registry, name, [Preparing, Preparing, Preparing]),
                 DoProceed(0, "", {}), DoProceed(1, "", {}), DoProceed(2, "", {}), settles);
    ExecuteTwo(Sharing(registry, name, [w, w, w], Running), DoSettle(0, Threw("e")), DoClear(0), Resumes());
  }

  lemma AllAwait(registry: map<string, Tool>, name: string, c: nat)
    requires Shares(registry, name) && c < 3
    ensures AwaitsFailure(FailedRun(registry, name), c)
    ensures Counted(FailedRun(registry, name), c) == Completion(name, false, 0, OfRun(0))
  {
  }

  lemma ResumesAre(s: State)
    ensures Execute(s, Resumes()) == Resume(Resume(Resume(s, 0, false), 1, false), 2, false)
  {
    assert Resumes() + [] == Resumes();
    ExecuteThree(s, DoResume(0, false), DoResume(1, false), DoResume(2, false), []);
  }

  lemma ThreeAlike(x: Completion)
    requires !x.success
    ensures CausesSince([x, x, x], x.name) == [x.cause, x.cause, x.cause]
    ensures Distinct([x.cause, x.cause, x.cause]) == {x.cause}
    ensures FailuresInARow([x, x, x], x.name) == 3
  {
    assert [x][..0] == [] && [x, x][..1] == [x] && [x, x, x][..2] == [x, x];
    assert CausesSince([x], x.name) == [] + [x.cause];
    assert CausesSince([x, x], x.name) == [x.cause] + [x.cause];
    assert FailuresInARow([x], x.name) == 1 && FailuresInARow([x, x], x.name) == 2;
  }

  /** From the start, for any tool that shares runs: three dispatches share one that fails, and the circuit is open. */
  lemma SharedFailureOpensCircuit(registry: map<string, Tool>, name: string)
    requires Shares(registry, name)
    ensures var s := Execute(Initial(registry), SharedFailure(name));
            && name in s.openUntil && |s.runs| == 1 && Distinct(CausesSince(s.history, name)) == {OfRun(0)}
  {
    var s := FailedRun(registry, name);
    SharedRunFails(registry, name);
    ResumesAre(s);
    AllAwait(registry, name, 0);
    AllAwait(registry, name, 1);
    AllAwait(registry, name, 2);
    ThreeWaitersCount(s, 0, 1, 2);
    var x := Completion(name, false, 0, OfRun(0));
    assert [] + [x, x, x] == [x, x, x];
    ThreeAlike(x);
    CircuitFollowsHistory(registry, SharedFailure(name), name);
  }

  // ---------------------------------------------------------------- when an open circuit means what it says

  /** If the circuit is open, three different runs or faults have failed since the last success. */
  ghost predicate ThreeBehind(s: State, name: string) {
    name in s.openUntil ==> |Distinct(CausesSince(s.history, name))| >= FAIL_THRESHOLD
  }

  /**
   In every run an open circuit has three different failures behind it, exactly when the tool is one whose
   dispatches never share a run: it is not cacheable, or it needs approval.
   */
  lemma OpenCircuitHasThreeCausesIff(registry: map<string, Tool>, name: string)
    ensures (forall actions :: ThreeBehind(Execute(Initial(registry), actions), name)) <==> !Shares(registry, name)
  {
    if Shares(registry, name) {
      SharedFailureOpensCircuit(registry, name);
      assert !ThreeBehind(Execute(Initial(registry), SharedFailure(name)), name);
    } else {
      forall actions
        ensures ThreeBehind(Execute(Initial(registry), actions), name)
      {
        var s := Execute(Initial(registry), actions);
        RunKeepsUnshared(Initial(registry), actions, name);
        CountedOnceIsUnrepeated(s.history, name);
        UnrepeatedCount(CausesSince(s.history, name));
        CausesAreFailures(s.history, name);
        CircuitFollowsHistory(registry, actions, name);
      }
    }
  }
}
