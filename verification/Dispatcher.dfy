/**
 Tool dispatch: circuit breaker, result cache, shared runs and resource locks.

 A dispatch is cut at its awaits.  It enters, is prepared (approval, edited arguments, write hooks,
 locks), waits for a run of the handler, and resumes.  Dispatches interleave freely between those
 points; `Apply` is one such step and `Execute` a whole interleaving.
 */
module Dispatcher {
  import opened Common

  const FAIL_THRESHOLD: nat := 3
  const OPEN_MS: nat := 30_000
  const CHARS_PER_TOKEN: nat := 4

  /** `gated` tools need human approval and never share a run; `maxTokens` 0 means no cap on the output. */
  datatype Tool = Tool(cacheable: bool, ttl: nat, gated: bool, maxTokens: nat)

  /** A capped output names its cap; a failure may carry the hint that connectors were activated. */
  datatype Result =
    | Ok(output: string, cutAt: nat)
    | Fail(error: string, recoverable: bool, hinted: bool)

  datatype Key = Key(name: string, args: string)

  datatype Outcome = Returned(result: Result) | Threw(error: string) | GuardThrew(error: string)

  datatype RunState = Running | Settled(outcome: Outcome) | Cleared(outcome: Outcome)

  datatype Run = Run(name: string, key: Option<Key>, shared: bool, starter: nat, state: RunState)

  datatype Cached = Cached(result: Result, run: nat, storedAt: nat, expiresAt: nat)

  datatype Source = Refused | Hit(key: Key, entry: Cached, at: nat) | FromRun(run: nat)

  datatype Phase =
    | Preparing
    | Waiting(on: nat, key: Option<Key>, locks: set<string>)
    | Done(result: Result, source: Source)

  /** On entry a dispatch notes whether the circuit was open and how many completions there had been. */
  datatype Call = Call(name: string, caches: bool, openAtEntry: bool, seen: nat, phase: Phase)

  /** Where a completion comes from: a run, or an exception before the handler. */
  datatype Cause = OfRun(run: nat) | OfFault(call: nat)

  /** A completion that moved the failure streak: a success, or a failure that counts. */
  datatype Completion = Completion(name: string, success: bool, at: nat, cause: Cause)

  datatype State = State(registry: map<string, Tool>, now: nat, cache: map<Key, Cached>, inflight: map<Key, nat>,
                         streaks: map<string, nat>, openUntil: map<string, nat>, calls: seq<Call>, runs: seq<Run>,
                         held: multiset<string>, history: seq<Completion>)

  // ---------------------------------------------------------------- steps

  function Streak(streaks: map<string, nat>, name: string): nat {
    if name in streaks then streaks[name] else 0
  }

  predicate IsOpen(openUntil: map<string, nat>, name: string, now: nat) {
    name in openUntil && now < openUntil[name]
  }

  /** Counts a completion: a success closes the circuit, the third failure in a row opens it. */
  function Record(s: State, name: string, success: bool, cause: Cause): State {
    var history := s.history + [Completion(name, success, s.now, cause)];
    if success then
      s.(streaks := s.streaks - {name}, openUntil := s.openUntil - {name}, history := history)
    else
      var streak := Streak(s.streaks, name) + 1;
      s.(streaks := s.streaks[name := streak],
         openUntil := if streak >= FAIL_THRESHOLD then s.openUntil[name := s.now + OPEN_MS] else s.openUntil,
         history := history)
  }

  /** What the checks before the first await find. */
  datatype Checks = Malformed(error: string) | Invalid(error: string) | Passed

  function Plain(error: string): Result {
    Fail(error, false, false)
  }

  function EntryPhase(s: State, name: string, args: string, caches: bool, checks: Checks): Phase {
    if checks.Malformed? then Done(Plain(checks.error), Refused)
    else if IsOpen(s.openUntil, name, s.now) then Done(Plain("circuit is open"), Refused)
    else if checks.Invalid? then Done(Plain(checks.error), Refused)
    else
      var key := Key(name, args);
      if caches && key in s.cache && s.now < s.cache[key].expiresAt then Done(s.cache[key].result, Hit(key, s.cache[key], s.now))
      else Preparing
  }

  function Enter(s: State, name: string, args: string, hasDependencies: bool, checks: Checks): State {
    if name !in s.registry then s else
    var caches := s.registry[name].cacheable && !hasDependencies;
    var call := Call(name, caches, IsOpen(s.openUntil, name, s.now), |s.history|, EntryPhase(s, name, args, caches, checks));
    s.(calls := s.calls + [call])
  }

  predicate InPreparation(s: State, c: nat) {
    c < |s.calls| && s.calls[c].phase.Preparing? && s.calls[c].name in s.registry
  }

  function Finish(s: State, c: nat, result: Result, source: Source): State
    requires c < |s.calls|
  {
    s.(calls := s.calls[c := s.calls[c].(phase := Done(result, source))])
  }

  /** Rejected by the user, invalid after an edit or the write hook, or a lock held elsewhere. */
  function Refuse(s: State, c: nat, error: string): State {
    if InPreparation(s, c) then Finish(s, c, Plain(error), Refused) else s
  }

  /** An exception before the handler: counted like a failure of the tool. */
  function Fault(s: State, c: nat, error: string): State {
    if InPreparation(s, c) then Record(Finish(s, c, Plain(error), Refused), s.calls[c].name, false, OfFault(c)) else s
  }

  function RunKey(call: Call, args: string): Option<Key> {
    if call.caches then Some(Key(call.name, args)) else None
  }

  /** With its locks taken, the call joins the run in flight for its key, or starts one. */
  function Proceed(s: State, c: nat, args: string, locks: set<string>): State {
    if !InPreparation(s, c) then s else
    var call := s.calls[c];
    var key := RunKey(call, args);
    var shares := key.Some? && !s.registry[call.name].gated;
    var joins := shares && key.value in s.inflight;
    var run := if joins then s.inflight[key.value] else |s.runs|;
    s.(calls := s.calls[c := call.(phase := Waiting(run, key, locks))],
       held := s.held + multiset(locks),
       runs := if joins then s.runs else s.runs + [Run(call.name, key, shares, c, Running)],
       inflight := if shares && !joins then s.inflight[key.value := run] else s.inflight)
  }

  function Settle(s: State, r: nat, outcome: Outcome): State {
    if r < |s.runs| && s.runs[r].state.Running?
    then s.(runs := s.runs[r := s.runs[r].(state := Settled(outcome))]) else s
  }

  /** The first reaction to a settled run takes it out of flight. */
  function Clear(s: State, r: nat): State {
    if !(r < |s.runs| && s.runs[r].state.Settled?) then s else
    var run := s.runs[r];
    var mine := run.shared && run.key.Some? && run.key.value in s.inflight && s.inflight[run.key.value] == r;
    s.(runs := s.runs[r := run.(state := Cleared(run.state.outcome))],
       inflight := if mine then s.inflight - {run.key.value} else s.inflight)
  }

  function Capped(tool: Tool, result: Result): Result {
    if result.Ok? && tool.maxTokens > 0 && |result.output| > tool.maxTokens * CHARS_PER_TOKEN
    then Ok(result.output[..tool.maxTokens * CHARS_PER_TOKEN], tool.maxTokens) else result
  }

  /** What a dispatch makes of the outcome of its run, before any hint. */
  function Shape(tool: Tool, outcome: Outcome): Result {
    match outcome
    case Returned(result) => Capped(tool, result)
    case Threw(error) => Plain(error)
    case GuardThrew(error) => Plain(error)
  }

  function Hinted(result: Result, outcome: Outcome, activates: bool): Result {
    if result.Fail? && outcome.Returned? && activates then result.(hinted := true) else result
  }

  /** A refusal by the execution guard and a recoverable failure leave the streak alone. */
  predicate Counts(result: Result, outcome: Outcome) {
    result.Ok? || outcome.Threw? || (outcome.Returned? && !result.recoverable)
  }

  predicate CanResume(s: State, c: nat) {
    && c < |s.calls| && s.calls[c].phase.Waiting? && s.calls[c].name in s.registry
    && s.calls[c].phase.on < |s.runs| && s.runs[s.calls[c].phase.on].state.Cleared?
  }

  function Store(s: State, key: Option<Key>, tool: Tool, result: Result, run: nat): State {
    if key.Some? && result.Ok? then s.(cache := s.cache[key.value := Cached(result, run, s.now, s.now + tool.ttl)]) else s
  }

  /** A waiter picks up the outcome: caches a success, moves the streak, releases its locks. */
  function Resume(s: State, c: nat, activates: bool): State {
    if !CanResume(s, c) then s else
    var call := s.calls[c];
    var tool := s.registry[call.name];
    var outcome := s.runs[call.phase.on].state.outcome;
    var shaped := Shape(tool, outcome);
    var result := Hinted(shaped, outcome, activates);
    var done := Finish(Store(s, call.phase.key, tool, shaped, call.phase.on), c, result, FromRun(call.phase.on));
    var counted := if Counts(result, outcome) then Record(done, call.name, result.Ok?, OfRun(call.phase.on)) else done;
    counted.(held := s.held - multiset(call.phase.locks))
  }

  const READ_TOOLS: set<string> :=
    {"read_file", "read_file_chunked", "file_metadata", "list_dir", "symbol_index", "find_references", "ast_grep", "repo_map"}

  /** After a write to the workspace. */
  function Invalidate(s: State): State {
    s.(cache := map k | k in s.cache && k.name !in READ_TOOLS :: s.cache[k])
  }

  datatype Action =
    | DoEnter(name: string, args: string, hasDependencies: bool, checks: Checks)
    | DoRefuse(call: nat, error: string)
    | DoFault(call: nat, error: string)
    | DoProceed(call: nat, args: string, locks: set<string>)
    | DoSettle(run: nat, outcome: Outcome)
    | DoClear(run: nat)
    | DoResume(call: nat, activates: bool)
    | DoInvalidate
    | SetClock(now: nat)

  function Apply(s: State, a: Action): State {
    match a
    case DoEnter(name, args, hasDependencies, checks) => Enter(s, name, args, hasDependencies, checks)
    case DoRefuse(call, error) => Refuse(s, call, error)
    case DoFault(call, error) => Fault(s, call, error)
    case DoProceed(call, args, locks) => Proceed(s, call, args, locks)
    case DoSettle(run, outcome) => Settle(s, run, outcome)
    case DoClear(run) => Clear(s, run)
    case DoResume(call, activates) => Resume(s, call, activates)
    case DoInvalidate => Invalidate(s)
    case SetClock(now) => s.(now := now)
  }

  function Execute(s: State, actions: seq<Action>): State
    decreases |actions|
  {
    if actions == [] then s else Execute(Apply(s, actions[0]), actions[1..])
  }

  function Initial(registry: map<string, Tool>): State {
    State(registry, 0, map[], map[], map[], map[], [], [], multiset{}, [])
  }

  // ---------------------------------------------------------------- what resuming changes

  function OutcomeFor(s: State, c: nat): Outcome
    requires CanResume(s, c)
  {
    s.runs[s.calls[c].phase.on].state.outcome
  }

  function ResultFor(s: State, c: nat, activates: bool): Result
    requires CanResume(s, c)
  {
    Hinted(Shape(s.registry[s.calls[c].name], OutcomeFor(s, c)), OutcomeFor(s, c), activates)
  }

  lemma ResumeChanges(s: State, c: nat, activates: bool) returns (call: Call)
    requires CanResume(s, c)
    ensures call == s.calls[c].(phase := Done(ResultFor(s, c, activates), FromRun(s.calls[c].phase.on)))
    ensures var next := Resume(s, c, activates);
            && next.calls == s.calls[c := call] && next.runs == s.runs && next.inflight == s.inflight
            && next.registry == s.registry && next.held == s.held - LocksOf(s.calls[c])
            && next.cache == Store(s, s.calls[c].phase.key, s.registry[s.calls[c].name],
                                   Shape(s.registry[s.calls[c].name], OutcomeFor(s, c)), s.calls[c].phase.on).cache
  {
    call := s.calls[c].(phase := Done(ResultFor(s, c, activates), FromRun(s.calls[c].phase.on)));
  }

  lemma ResumeHistory(s: State, c: nat, activates: bool)
    requires CanResume(s, c)
    ensures var next := Resume(s, c, activates);
            next.history == s.history ||
            (exists success: bool :: next.history ==
               s.history + [Completion(s.calls[c].name, success, s.now, OfRun(s.calls[c].phase.on))])
  {
  }

  // ---------------------------------------------------------------- the circuit follows the history

  /** Failures counted for the tool since its last success. */
  function FailuresInARow(history: seq<Completion>, name: string): nat {
    if history == [] then 0 else
    var last := history[|history| - 1];
    var before := history[..|history| - 1];
    if last.name != name then FailuresInARow(before, name)
    else if last.success then 0
    else FailuresInARow(before, name) + 1
  }

  /** When the last counted failure of the tool happened. */
  function LastFailure(history: seq<Completion>, name: string): nat {
    if history == [] then 0 else
    var last := history[|history| - 1];
    if last.name == name && !last.success then last.at else LastFailure(history[..|history| - 1], name)
  }

  function Opening(history: seq<Completion>, name: string): Option<nat> {
    if FailuresInARow(history, name) >= FAIL_THRESHOLD then Some(LastFailure(history, name) + OPEN_MS) else None
  }

  ghost predicate CircuitIs(s: State, name: string) {
    && Streak(s.streaks, name) == FailuresInARow(s.history, name)
    && (if name in s.openUntil then Opening(s.history, name) == Some(s.openUntil[name])
        else Opening(s.history, name) == None)
  }

  lemma RecordKeepsCircuit(s: State, done: string, success: bool, cause: Cause, name: string)
    requires CircuitIs(s, name)
    ensures CircuitIs(Record(s, done, success, cause), name)
  {
    var after := Record(s, done, success, cause);
    assert after.history[..|after.history| - 1] == s.history;
  }

  lemma FaultKeepsCircuit(s: State, c: nat, error: string, name: string)
    requires CircuitIs(s, name) && InPreparation(s, c)
    ensures CircuitIs(Fault(s, c, error), name)
  {
    RecordKeepsCircuit(Finish(s, c, Plain(error), Refused), s.calls[c].name, false, OfFault(c), name);
  }

  lemma ResumeKeepsCircuit(s: State, c: nat, activates: bool, name: string)
    requires CircuitIs(s, name) && CanResume(s, c)
    ensures CircuitIs(Resume(s, c, activates), name)
  {
    var call := s.calls[c];
    var result := ResultFor(s, c, activates);
    var shaped := Shape(s.registry[call.name], OutcomeFor(s, c));
    var done := Finish(Store(s, call.phase.key, s.registry[call.name], shaped, call.phase.on), c, result,
                       FromRun(call.phase.on));
    assert CircuitIs(done, name);
    RecordKeepsCircuit(done, call.name, result.Ok?, OfRun(call.phase.on), name);
  }

  lemma StepKeepsCircuit(s: State, a: Action, name: string)
    requires CircuitIs(s, name)
    ensures CircuitIs(Apply(s, a), name)
  {
    match a
    case DoFault(c, error) => if InPreparation(s, c) { FaultKeepsCircuit(s, c, error, name); }
    case DoResume(c, activates) => if CanResume(s, c) { ResumeKeepsCircuit(s, c, activates, name); }
    case _ =>
  }

  lemma {:induction false} RunKeepsCircuit(s: State, actions: seq<Action>, name: string)
    requires CircuitIs(s, name)
    ensures CircuitIs(Execute(s, actions), name)
    decreases |actions|
  {
    if actions != [] {
      StepKeepsCircuit(s, actions[0], name);
      RunKeepsCircuit(Apply(s, actions[0]), actions[1..], name);
    }
  }

  /**
   In every interleaving the streak is the number of counted failures since the last success, and the
   circuit is open until 30 s after the last of them exactly when there are at least three.
   */
  lemma CircuitFollowsHistory(registry: map<string, Tool>, actions: seq<Action>, name: string)
    ensures var s := Execute(Initial(registry), actions);
            && Streak(s.streaks, name) == FailuresInARow(s.history, name)
            && (name in s.openUntil <==> FailuresInARow(s.history, name) >= FAIL_THRESHOLD)
            && (name in s.openUntil ==> s.openUntil[name] == LastFailure(s.history, name) + OPEN_MS)
  {
    RunKeepsCircuit(Initial(registry), actions, name);
  }

  // ---------------------------------------------------------------- locks

  function LocksOf(call: Call): multiset<string> {
    if call.phase.Waiting? then multiset(call.phase.locks) else multiset{}
  }

  function LocksOfAll(calls: seq<Call>): multiset<string> {
    if calls == [] then multiset{} else LocksOf(calls[0]) + LocksOfAll(calls[1..])
  }

  lemma AddFirst(first: multiset<string>, more: multiset<string>, less: multiset<string>, a: multiset<string>,
                 b: multiset<string>)
    requires more + a == less + b
    ensures (first + more) + a == (first + less) + b
  {
    assert (first + more) + a == first + (more + a);
  }

  lemma {:induction false} LocksAfterUpdate(calls: seq<Call>, c: nat, call: Call)
    requires c < |calls|
    ensures LocksOfAll(calls[c := call]) + LocksOf(calls[c]) == LocksOfAll(calls) + LocksOf(call)
    decreases c
  {
    var updated := calls[c := call];
    if c == 0 {
      assert updated[1..] == calls[1..];
      Swap(LocksOf(call), LocksOfAll(calls[1..]), LocksOf(calls[0]));
    } else {
      LocksAfterUpdate(calls[1..], c - 1, call);
      assert updated[1..] == calls[1..][c - 1 := call];
      AddFirst(LocksOf(calls[0]), LocksOfAll(updated[1..]), LocksOfAll(calls[1..]), LocksOf(calls[c]), LocksOf(call));
    }
  }

  lemma Swap(a: multiset<string>, rest: multiset<string>, b: multiset<string>)
    ensures a + rest + b == b + rest + a
  {
  }

  lemma {:induction false} LocksAfterEntry(calls: seq<Call>, call: Call)
    requires !call.phase.Waiting?
    ensures LocksOfAll(calls + [call]) == LocksOfAll(calls)
  {
    if calls == [] {
      assert calls + [call] == [call];
    } else {
      LocksAfterEntry(calls[1..], call);
      assert (calls + [call])[1..] == calls[1..] + [call];
    }
  }

  lemma FinishKeepsLocks(calls: seq<Call>, c: nat, call: Call)
    requires c < |calls| && calls[c].phase.Preparing? && !call.phase.Waiting?
    ensures LocksOfAll(calls[c := call]) == LocksOfAll(calls)
  {
    LocksAfterUpdate(calls, c, call);
    var after := LocksOfAll(calls[c := call]);
    assert after + multiset{} == after && LocksOfAll(calls) + multiset{} == LocksOfAll(calls);
  }

  lemma ProceedKeepsLocks(s: State, c: nat, args: string, locks: set<string>)
    requires s.held == LocksOfAll(s.calls) && InPreparation(s, c)
    ensures Proceed(s, c, args, locks).held == LocksOfAll(Proceed(s, c, args, locks).calls)
  {
    var call := Proceed(s, c, args, locks).calls[c];
    LocksAfterUpdate(s.calls, c, call);
    assert LocksOf(call) == multiset(locks);
  }

  lemma Release(all: multiset<string>, some: multiset<string>, rest: multiset<string>)
    requires rest + some == all
    ensures all - some == rest
  {
  }

  lemma ResumeKeepsLocks(s: State, c: nat, activates: bool)
    requires s.held == LocksOfAll(s.calls) && CanResume(s, c)
    ensures Resume(s, c, activates).held == LocksOfAll(Resume(s, c, activates).calls)
  {
    var call := ResumeChanges(s, c, activates);
    LocksAfterUpdate(s.calls, c, call);
    Release(s.held, LocksOf(s.calls[c]), LocksOfAll(s.calls[c := call]));
  }

  lemma StepKeepsLocks(s: State, a: Action)
    requires s.held == LocksOfAll(s.calls)
    ensures Apply(s, a).held == LocksOfAll(Apply(s, a).calls)
  {
    match a
    case DoEnter(name, args, hasDependencies, checks) =>
      if name in s.registry {
        LocksAfterEntry(s.calls, Enter(s, name, args, hasDependencies, checks).calls[|s.calls|]);
      }
    case DoRefuse(c, error) =>
      if InPreparation(s, c) {
        FinishKeepsLocks(s.calls, c, s.calls[c].(phase := Done(Plain(error), Refused)));
      }
    case DoFault(c, error) =>
      if InPreparation(s, c) {
        FinishKeepsLocks(s.calls, c, s.calls[c].(phase := Done(Plain(error), Refused)));
      }
    case DoProceed(c, args, locks) => if InPreparation(s, c) { ProceedKeepsLocks(s, c, args, locks); }
    case DoResume(c, activates) => if CanResume(s, c) { ResumeKeepsLocks(s, c, activates); }
    case _ =>
  }

  lemma {:induction false} RunKeepsLocks(s: State, actions: seq<Action>)
    requires s.held == LocksOfAll(s.calls)
    ensures Execute(s, actions).held == LocksOfAll(Execute(s, actions).calls)
    decreases |actions|
  {
    if actions != [] {
      StepKeepsLocks(s, actions[0]);
      RunKeepsLocks(Apply(s, actions[0]), actions[1..]);
    }
  }

  lemma {:induction false} NobodyWaiting(calls: seq<Call>)
    requires forall c :: 0 <= c < |calls| ==> !calls[c].phase.Waiting?
    ensures LocksOfAll(calls) == multiset{}
  {
    if calls != [] {
      NobodyWaiting(calls[1..]);
    }
  }

  /** In every interleaving the locks held are those of the dispatches still waiting, each as often as taken. */
  lemma LocksAreThoseOfWaiters(registry: map<string, Tool>, actions: seq<Action>)
    ensures var s := Execute(Initial(registry), actions);
            && s.held == LocksOfAll(s.calls)
            && ((forall c :: 0 <= c < |s.calls| ==> !s.calls[c].phase.Waiting?) ==> s.held == multiset{})
  {
    var s := Execute(Initial(registry), actions);
    RunKeepsLocks(Initial(registry), actions);
    if forall c :: 0 <= c < |s.calls| ==> !s.calls[c].phase.Waiting? {
      NobodyWaiting(s.calls);
    }
  }

  // ---------------------------------------------------------------- runs, calls and cache entries

  /** The map of runs in flight holds exactly the shared runs not yet cleared. */
  ghost predicate Flights(inflight: map<Key, nat>, runs: seq<Run>) {
    && (forall k :: k in inflight ==>
          inflight[k] < |runs| && runs[inflight[k]].shared && runs[inflight[k]].key == Some(k) &&
          !runs[inflight[k]].state.Cleared?)
    && (forall r: nat :: r < |runs| && runs[r].shared && !runs[r].state.Cleared? ==>
          runs[r].key.Some? && runs[r].key.value in inflight && inflight[runs[r].key.value] == r)
  }

  ghost predicate RunOk(run: Run, r: nat, calls: seq<Call>) {
    && (run.key.Some? ==> run.key.value.name == run.name)
    && run.starter < |calls| && !calls[run.starter].openAtEntry && calls[run.starter].name == run.name
    && (!run.state.Cleared? ==> calls[run.starter].phase.Waiting? && calls[run.starter].phase.on == r)
  }

  predicate SameButHint(a: Result, b: Result) {
    if a.Ok? || b.Ok? then a == b else a.error == b.error && a.recoverable == b.recoverable
  }

  ghost predicate EntryOk(entry: Cached, key: Key, registry: map<string, Tool>, runs: seq<Run>) {
    && key.name in registry && entry.run < |runs| && runs[entry.run].key == Some(key)
    && runs[entry.run].state.Cleared? && entry.result.Ok?
    && entry.result == Shape(registry[key.name], runs[entry.run].state.outcome)
    && entry.expiresAt == entry.storedAt + registry[key.name].ttl
  }

  ghost predicate CallOk(call: Call, registry: map<string, Tool>, runs: seq<Run>) {
    match call.phase
    case Preparing => !call.openAtEntry
    case Waiting(r, key, locks) =>
      !call.openAtEntry && call.name in registry && r < |runs| && runs[r].name == call.name && runs[r].key == key
    case Done(result, Refused) => true
    case Done(result, Hit(key, entry, at)) =>
      && !call.openAtEntry && key.name == call.name && result == entry.result && at < entry.expiresAt
      && EntryOk(entry, key, registry, runs)
    case Done(result, FromRun(r)) =>
      && !call.openAtEntry && r < |runs| && runs[r].name == call.name && runs[r].state.Cleared? && call.name in registry
      && SameButHint(result, Shape(registry[call.name], runs[r].state.outcome))
  }

  ghost predicate Inv(s: State) {
    && Flights(s.inflight, s.runs)
    && (forall r: nat :: r < |s.runs| ==> RunOk(s.runs[r], r, s.calls))
    && (forall c :: 0 <= c < |s.calls| ==> CallOk(s.calls[c], s.registry, s.runs))
    && (forall k :: k in s.cache ==> EntryOk(s.cache[k], k, s.registry, s.runs))
  }

  lemma EnterKeeps(s: State, name: string, args: string, hasDependencies: bool, checks: Checks)
    requires Inv(s)
    ensures Inv(Enter(s, name, args, hasDependencies, checks))
  {
    var next := Enter(s, name, args, hasDependencies, checks);
    forall r: nat | r < |s.runs|
      ensures RunOk(s.runs[r], r, next.calls)
    {
      assert RunOk(s.runs[r], r, s.calls);
    }
    forall c | 0 <= c < |next.calls|
      ensures CallOk(next.calls[c], s.registry, s.runs)
    {
      if c < |s.calls| {
        assert next.calls[c] == s.calls[c];
      }
    }
  }

  /** A call in preparation is no run's waiter, so ending it disturbs no run. */
  lemma FinishKeeps(s: State, c: nat, result: Result)
    requires Inv(s) && InPreparation(s, c)
    ensures Inv(Finish(s, c, result, Refused))
  {
    var next := Finish(s, c, result, Refused);
    forall r: nat | r < |s.runs|
      ensures RunOk(s.runs[r], r, next.calls)
    {
      assert RunOk(s.runs[r], r, s.calls);
    }
  }

  lemma JoinKeeps(s: State, c: nat, args: string, locks: set<string>)
    requires Inv(s) && InPreparation(s, c)
    requires var key := RunKey(s.calls[c], args);
             key.Some? && !s.registry[s.calls[c].name].gated && key.value in s.inflight
    ensures Inv(Proceed(s, c, args, locks))
  {
    var next := Proceed(s, c, args, locks);
    var joined := s.inflight[Key(s.calls[c].name, args)];
    assert RunOk(s.runs[joined], joined, s.calls);
    forall r: nat | r < |s.runs|
      ensures RunOk(s.runs[r], r, next.calls)
    {
      assert RunOk(s.runs[r], r, s.calls);
    }
  }

  lemma GrowKeepsEntry(entry: Cached, key: Key, registry: map<string, Tool>, runs: seq<Run>, run: Run)
    requires EntryOk(entry, key, registry, runs)
    ensures EntryOk(entry, key, registry, runs + [run])
  {
  }

  lemma GrowKeepsCall(call: Call, registry: map<string, Tool>, runs: seq<Run>, run: Run)
    requires CallOk(call, registry, runs)
    ensures CallOk(call, registry, runs + [run])
  {
  }

  lemma StartKeepsFlights(inflight: map<Key, nat>, runs: seq<Run>, run: Run)
    requires Flights(inflight, runs) && run.state.Running?
    requires run.shared ==> run.key.Some? && run.key.value !in inflight
    ensures Flights(if run.shared then inflight[run.key.value := |runs|] else inflight, runs + [run])
  {
    var grown := runs + [run];
    forall r: nat | r < |grown| && grown[r].shared && !grown[r].state.Cleared?
      ensures grown[r].key.Some? && (r < |runs| ==> grown[r].key.value in inflight && inflight[grown[r].key.value] == r)
    {
      if r < |runs| {
        assert grown[r] == runs[r];
      }
    }
  }

  lemma StartKeeps(s: State, c: nat, args: string, locks: set<string>)
    requires Inv(s) && InPreparation(s, c)
    requires var key := RunKey(s.calls[c], args);
             !(key.Some? && !s.registry[s.calls[c].name].gated && key.value in s.inflight)
    ensures Inv(Proceed(s, c, args, locks))
  {
    var next := Proceed(s, c, args, locks);
    var run := next.runs[|s.runs|];
    StartKeepsFlights(s.inflight, s.runs, run);
    forall r: nat | r < |next.runs|
      ensures RunOk(next.runs[r], r, next.calls)
    {
      if r < |s.runs| {
        assert RunOk(s.runs[r], r, s.calls);
      }
    }
    forall i | 0 <= i < |next.calls|
      ensures CallOk(next.calls[i], s.registry, next.runs)
    {
      if i != c {
        GrowKeepsCall(s.calls[i], s.registry, s.runs, run);
      }
    }
    forall k | k in s.cache
      ensures EntryOk(s.cache[k], k, s.registry, next.runs)
    {
      GrowKeepsEntry(s.cache[k], k, s.registry, s.runs, run);
    }
  }

  /** A run that only moves on towards `Cleared` spoils no call and no cache entry. */
  lemma MoveKeepsCall(call: Call, registry: map<string, Tool>, runs: seq<Run>, r: nat, state: RunState)
    requires CallOk(call, registry, runs) && r < |runs| && !runs[r].state.Cleared?
    ensures CallOk(call, registry, runs[r := runs[r].(state := state)])
  {
  }

  lemma MoveKeeps(s: State, r: nat, state: RunState, next: State)
    requires Inv(s) && r < |s.runs| && !s.runs[r].state.Cleared?
    requires next == s.(runs := s.runs[r := s.runs[r].(state := state)], inflight := next.inflight)
    requires Flights(next.inflight, next.runs)
    ensures Inv(next)
  {
    forall c | 0 <= c < |s.calls|
      ensures CallOk(s.calls[c], s.registry, next.runs)
    {
      MoveKeepsCall(s.calls[c], s.registry, s.runs, r, state);
    }
    forall i: nat | i < |next.runs|
      ensures RunOk(next.runs[i], i, s.calls)
    {
      assert RunOk(s.runs[i], i, s.calls);
    }
    forall k | k in s.cache
      ensures EntryOk(s.cache[k], k, s.registry, next.runs)
    {
      assert s.cache[k].run != r;
    }
  }

  lemma SettleKeeps(s: State, r: nat, outcome: Outcome)
    requires Inv(s)
    ensures Inv(Settle(s, r, outcome))
  {
    if r < |s.runs| && s.runs[r].state.Running? {
      MoveKeeps(s, r, Settled(outcome), Settle(s, r, outcome));
    }
  }

  lemma ClearKeepsFlights(inflight: map<Key, nat>, runs: seq<Run>, r: nat, outcome: Outcome)
    requires Flights(inflight, runs) && r < |runs| && !runs[r].state.Cleared?
    ensures Flights(if runs[r].shared then inflight - {runs[r].key.value} else inflight,
                    runs[r := runs[r].(state := Cleared(outcome))])
  {
    var after := runs[r := runs[r].(state := Cleared(outcome))];
    forall i: nat | i < |after| && after[i].shared && !after[i].state.Cleared?
      ensures i != r && after[i] == runs[i]
    {
    }
  }

  lemma ClearKeeps(s: State, r: nat)
    requires Inv(s)
    ensures Inv(Clear(s, r))
  {
    if r < |s.runs| && s.runs[r].state.Settled? {
      ClearKeepsFlights(s.inflight, s.runs, r, s.runs[r].state.outcome);
      MoveKeeps(s, r, Cleared(s.runs[r].state.outcome), Clear(s, r));
    }
  }

  lemma ResumeKeepsRuns(calls: seq<Call>, runs: seq<Run>, c: nat, call: Call)
    requires forall r: nat :: r < |runs| ==> RunOk(runs[r], r, calls)
    requires c < |calls| && calls[c].phase.Waiting? && calls[c].phase.on < |runs|
    requires runs[calls[c].phase.on].state.Cleared? && call == calls[c].(phase := call.phase)
    ensures forall r: nat :: r < |runs| ==> RunOk(runs[r], r, calls[c := call])
  {
    forall r: nat | r < |runs|
      ensures RunOk(runs[r], r, calls[c := call])
    {
      assert RunOk(runs[r], r, calls);
    }
  }

  lemma ResumedCallOk(s: State, c: nat, activates: bool, call: Call)
    requires CanResume(s, c) && CallOk(s.calls[c], s.registry, s.runs)
    requires call == s.calls[c].(phase := Done(ResultFor(s, c, activates), FromRun(s.calls[c].phase.on)))
    ensures CallOk(call, s.registry, s.runs)
  {
  }

  lemma ResumeKeepsCache(s: State, c: nat, next: State)
    requires Inv(s) && CanResume(s, c)
    requires var tool := s.registry[s.calls[c].name];
             next.cache ==
             Store(s, s.calls[c].phase.key, tool, Shape(tool, OutcomeFor(s, c)), s.calls[c].phase.on).cache
    ensures forall k :: k in next.cache ==> EntryOk(next.cache[k], k, s.registry, s.runs)
  {
    assert CallOk(s.calls[c], s.registry, s.runs);
    assert RunOk(s.runs[s.calls[c].phase.on], s.calls[c].phase.on, s.calls);
  }

  lemma ResumeKeeps(s: State, c: nat, activates: bool)
    requires Inv(s) && CanResume(s, c)
    ensures Inv(Resume(s, c, activates))
  {
    var next := Resume(s, c, activates);
    var call := ResumeChanges(s, c, activates);
    ResumeKeepsRuns(s.calls, s.runs, c, call);
    ResumedCallOk(s, c, activates, call);
    ResumeKeepsCache(s, c, next);
    forall i | 0 <= i < |next.calls|
      ensures CallOk(next.calls[i], s.registry, s.runs)
    {
      assert CallOk(s.calls[i], s.registry, s.runs);
    }
  }

  lemma StepKeepsInv(s: State, a: Action)
    requires Inv(s)
    ensures Inv(Apply(s, a))
  {
    match a
    case DoEnter(name, args, hasDependencies, checks) => EnterKeeps(s, name, args, hasDependencies, checks);
    case DoRefuse(c, error) => if InPreparation(s, c) { FinishKeeps(s, c, Plain(error)); }
    case DoFault(c, error) => if InPreparation(s, c) { FinishKeeps(s, c, Plain(error)); }
    case DoProceed(c, args, locks) =>
      if InPreparation(s, c) {
        var key := RunKey(s.calls[c], args);
        if key.Some? && !s.registry[s.calls[c].name].gated && key.value in s.inflight {
          JoinKeeps(s, c, args, locks);
        } else {
          StartKeeps(s, c, args, locks);
        }
      }
    case DoSettle(r, outcome) => SettleKeeps(s, r, outcome);
    case DoClear(r) => ClearKeeps(s, r);
    case DoResume(c, activates) =>
      if CanResume(s, c) {
        ResumeKeeps(s, c, activates);
      }
    case DoInvalidate =>
    case SetClock(_) =>
  }

  lemma {:induction false} RunKeepsInv(s: State, actions: seq<Action>)
    requires Inv(s)
    ensures Inv(Execute(s, actions))
    decreases |actions|
  {
    if actions != [] {
      StepKeepsInv(s, actions[0]);
      RunKeepsInv(Apply(s, actions[0]), actions[1..]);
    }
  }

  lemma ReachableInv(registry: map<string, Tool>, actions: seq<Action>)
    ensures Inv(Execute(Initial(registry), actions))
  {
    RunKeepsInv(Initial(registry), actions);
  }

  // ---------------------------------------------------------------- what every interleaving guarantees

  /** Of the shared runs for one key, at most one is in flight, settled or not. */
  lemma OneRunPerKey(registry: map<string, Tool>, actions: seq<Action>, a: nat, b: nat)
    requires var s := Execute(Initial(registry), actions);
             && a < |s.runs| && b < |s.runs| && s.runs[a].shared && s.runs[b].shared && s.runs[a].key == s.runs[b].key
             && !s.runs[a].state.Cleared? && !s.runs[b].state.Cleared?
    ensures a == b
  {
    ReachableInv(registry, actions);
  }

  /** All dispatches answered from one run get the same result; only the hint of a failure may differ. */
  lemma JoinersAgree(registry: map<string, Tool>, actions: seq<Action>, c: nat, d: nat)
    requires var s := Execute(Initial(registry), actions);
             && c < |s.calls| && d < |s.calls| && s.calls[c].phase.Done? && s.calls[d].phase.Done?
             && s.calls[c].phase.source.FromRun? && s.calls[d].phase.source == s.calls[c].phase.source
    ensures var s := Execute(Initial(registry), actions);
            SameButHint(s.calls[c].phase.result, s.calls[d].phase.result)
  {
    ReachableInv(registry, actions);
    var s := Execute(Initial(registry), actions);
    assert CallOk(s.calls[c], s.registry, s.runs) && CallOk(s.calls[d], s.registry, s.runs);
  }

  /** A cache hit is the success of a run for the same key, stored less than its time to live ago. */
  lemma HitsAreFresh(registry: map<string, Tool>, actions: seq<Action>, c: nat)
    requires var s := Execute(Initial(registry), actions);
             c < |s.calls| && s.calls[c].phase.Done? && s.calls[c].phase.source.Hit?
    ensures var s := Execute(Initial(registry), actions);
            var Hit(key, entry, at) := s.calls[c].phase.source;
            && key.name == s.calls[c].name && key.name in s.registry
            && s.calls[c].phase.result.Ok? && at < entry.storedAt + s.registry[key.name].ttl
            && entry.run < |s.runs| && s.runs[entry.run].key == Some(key) && s.runs[entry.run].state.Cleared?
            && s.calls[c].phase.result == Shape(s.registry[key.name], s.runs[entry.run].state.outcome)
  {
    ReachableInv(registry, actions);
    var s := Execute(Initial(registry), actions);
    assert CallOk(s.calls[c], s.registry, s.runs);
  }

  /** A dispatch that enters while the circuit is open is refused: it never starts the handler nor joins a run. */
  lemma OpenCircuitRefuses(registry: map<string, Tool>, actions: seq<Action>, c: nat)
    requires var s := Execute(Initial(registry), actions);
             c < |s.calls| && s.calls[c].openAtEntry
    ensures var s := Execute(Initial(registry), actions);
            && s.calls[c].phase.Done? && s.calls[c].phase.source.Refused?
            && forall r :: 0 <= r < |s.runs| ==> s.runs[r].starter != c
  {
    ReachableInv(registry, actions);
    var s := Execute(Initial(registry), actions);
    assert CallOk(s.calls[c], s.registry, s.runs);
    forall r: nat | r < |s.runs|
      ensures s.runs[r].starter != c
    {
      assert RunOk(s.runs[r], r, s.calls);
    }
  }

  // ---------------------------------------------------------------- running a few actions

  lemma ExecuteOne(s: State, actions: seq<Action>)
    requires actions != []
    ensures Execute(s, actions) == Execute(Apply(s, actions[0]), actions[1..])
  {
  }

  lemma ExecuteThree(s: State, a: Action, b: Action, c: Action, rest: seq<Action>)
    ensures Execute(s, [a, b, c] + rest) == Execute(Apply(Apply(Apply(s, a), b), c), rest)
  {
    var all := [a, b, c] + rest;
    assert all[1..] == [b, c] + rest;
    ExecuteOne(s, all);
    ExecuteTwo(Apply(s, a), b, c, rest);
  }

  lemma ExecuteTwo(s: State, a: Action, b: Action, rest: seq<Action>)
    ensures Execute(s, [a, b] + rest) == Execute(Apply(Apply(s, a), b), rest)
  {
    var all := [a, b] + rest;
    assert all[1..] == [b] + rest && ([b] + rest)[1..] == rest;
  }

  // ---------------------------------------------------------------- the circuit is read on entry only

  /** The clock never goes back. */
  ghost predicate Monotone(s: State, actions: seq<Action>)
    decreases |actions|
  {
    actions != [] ==> (actions[0].SetClock? ==> actions[0].now >= s.now) && Monotone(Apply(s, actions[0]), actions[1..])
  }

  /** What the dispatch saw on entry: a circuit that had closed by now. */
  ghost predicate SawClosed(s: State, call: Call) {
    && call.seen <= |s.history|
    && (call.phase.Preparing? ==>
          var opening := Opening(s.history[..call.seen], call.name);
          opening.None? || opening.value <= s.now)
  }

  ghost predicate AllSawClosed(s: State) {
    forall c :: 0 <= c < |s.calls| ==> SawClosed(s, s.calls[c])
  }

  lemma EntrySawClosed(s: State, name: string, args: string, hasDependencies: bool, checks: Checks)
    requires AllSawClosed(s) && CircuitIs(s, name)
    ensures AllSawClosed(Enter(s, name, args, hasDependencies, checks))
  {
    var next := Enter(s, name, args, hasDependencies, checks);
    forall c | 0 <= c < |next.calls|
      ensures SawClosed(next, next.calls[c])
    {
      if c < |s.calls| {
        assert SawClosed(s, s.calls[c]);
      } else {
        assert s.history[..|s.history|] == s.history;
      }
    }
  }

  /** Later steps only add to the history, move the clock on and end preparations. */
  lemma LaterSawClosed(s: State, next: State)
    requires AllSawClosed(s) && s.now <= next.now && s.history <= next.history && |next.calls| == |s.calls|
    requires forall c :: 0 <= c < |s.calls| ==>
               next.calls[c].seen == s.calls[c].seen && next.calls[c].name == s.calls[c].name &&
               (next.calls[c].phase.Preparing? ==> s.calls[c].phase.Preparing?)
    ensures AllSawClosed(next)
  {
    forall c | 0 <= c < |next.calls|
      ensures SawClosed(next, next.calls[c])
    {
      assert SawClosed(s, s.calls[c]);
      assert next.history[..s.calls[c].seen] == s.history[..s.calls[c].seen];
    }
  }

  lemma CallStepSawClosed(s: State, a: Action)
    requires AllSawClosed(s) && (a.DoRefuse? || a.DoFault? || a.DoProceed?)
    ensures AllSawClosed(Apply(s, a))
  {
    if InPreparation(s, a.call) {
      LaterSawClosed(s, Apply(s, a));
    }
  }

  lemma ResumeSawClosed(s: State, c: nat, activates: bool)
    requires AllSawClosed(s) && CanResume(s, c)
    ensures AllSawClosed(Resume(s, c, activates))
  {
    var call := ResumeChanges(s, c, activates);
    var next := Resume(s, c, activates);
    ResumeHistory(s, c, activates);
    assert s.history <= next.history && next.now == s.now;
    LaterSawClosed(s, next);
  }

  lemma StepSawClosed(s: State, a: Action)
    requires AllSawClosed(s) && (a.DoEnter? ==> CircuitIs(s, a.name)) && (a.SetClock? ==> a.now >= s.now)
    ensures AllSawClosed(Apply(s, a))
  {
    match a
    case DoEnter(name, args, hasDependencies, checks) => EntrySawClosed(s, name, args, hasDependencies, checks);
    case DoResume(c, activates) => if CanResume(s, c) { ResumeSawClosed(s, c, activates); }
    case DoSettle(_, _) => LaterSawClosed(s, Apply(s, a));
    case DoClear(_) => LaterSawClosed(s, Apply(s, a));
    case DoInvalidate => LaterSawClosed(s, Apply(s, a));
    case SetClock(_) => LaterSawClosed(s, Apply(s, a));
    case _ => CallStepSawClosed(s, a);
  }

  lemma {:induction false} RunSawClosed(s: State, actions: seq<Action>)
    requires AllSawClosed(s) && (forall name :: CircuitIs(s, name)) && Monotone(s, actions)
    ensures AllSawClosed(Execute(s, actions))
    decreases |actions|
  {
    if actions != [] {
      StepSawClosed(s, actions[0]);
      forall name
        ensures CircuitIs(Apply(s, actions[0]), name)
      {
        StepKeepsCircuit(s, actions[0], name);
      }
      RunSawClosed(Apply(s, actions[0]), actions[1..]);
    }
  }

  /** The completion `i` is the tool's last one, a failure, and at least the third in a row. */
  ghost predicate Opens(history: seq<Completion>, i: nat, name: string) {
    && i < |history| && history[i].name == name && !history[i].success
    && FailuresInARow(history[..i + 1], name) >= FAIL_THRESHOLD
    && (forall k :: i < k < |history| ==> history[k].name != name)
  }

  lemma {:induction false} QuietTail(history: seq<Completion>, n: nat, name: string)
    requires n <= |history| && forall k :: n <= k < |history| ==> history[k].name != name
    ensures FailuresInARow(history, name) == FailuresInARow(history[..n], name)
    ensures LastFailure(history, name) == LastFailure(history[..n], name)
    decreases |history|
  {
    if n == |history| {
      assert history[..n] == history;
    } else {
      QuietTail(history[..|history| - 1], n, name);
      assert history[..|history| - 1][..n] == history[..n];
    }
  }

  lemma {:induction false} LastFailureAt(history: seq<Completion>, name: string) returns (i: nat)
    requires FailuresInARow(history, name) > 0
    ensures i < |history| && history[i].name == name && !history[i].success
    ensures forall k :: i < k < |history| ==> history[k].name != name
    ensures LastFailure(history, name) == history[i].at
  {
    var n := |history| - 1;
    if history[n].name == name {
      i := n;
    } else {
      i := LastFailureAt(history[..n], name);
    }
  }

  lemma OpeningIs(history: seq<Completion>, i: nat, name: string)
    requires Opens(history, i, name)
    ensures Opening(history, name) == Some(history[i].at + OPEN_MS)
  {
    QuietTail(history, i + 1, name);
    assert history[..i + 1][..i] == history[..i];
  }

  /**
   Under a clock that never goes back, a dispatch about to start or join a run does so while its tool's
   circuit is open exactly when the failure that opened it was recorded after the dispatch entered, at
   least the third in a row and the tool's last completion, less than 30 s ago.
   */
  lemma ProceedsWhileOpenIff(registry: map<string, Tool>, actions: seq<Action>, c: nat)
    requires Monotone(Initial(registry), actions) && InPreparation(Execute(Initial(registry), actions), c)
    ensures var s := Execute(Initial(registry), actions);
            var call := s.calls[c];
            IsOpen(s.openUntil, call.name, s.now) <==>
            exists i :: call.seen <= i < |s.history| && Opens(s.history, i, call.name) && s.now < s.history[i].at + OPEN_MS
  {
    var s := Execute(Initial(registry), actions);
    var name := s.calls[c].name;
    RunKeepsCircuit(Initial(registry), actions, name);
    RunSawClosed(Initial(registry), actions);
    assert SawClosed(s, s.calls[c]);
    if IsOpen(s.openUntil, name, s.now) {
      OpenedAfter(s, s.calls[c]);
    }
    if i :| s.calls[c].seen <= i < |s.history| && Opens(s.history, i, name) && s.now < s.history[i].at + OPEN_MS {
      OpeningIs(s.history, i, name);
    }
  }

  lemma OpenedAfter(s: State, call: Call)
    requires SawClosed(s, call) && call.phase.Preparing? && CircuitIs(s, call.name) && IsOpen(s.openUntil, call.name, s.now)
    ensures exists i :: call.seen <= i < |s.history| && Opens(s.history, i, call.name) && s.now < s.history[i].at + OPEN_MS
  {
    var i := LastFailureAt(s.history, call.name);
    QuietTail(s.history, i + 1, call.name);
    if i < call.seen {
      QuietTail(s.history, call.seen, call.name);
    }
    assert Opens(s.history, i, call.name);
  }

  /** Of four dispatches let in together three fail before their handler, and the fourth starts its run. */
  function LetIn(): seq<Action> {
    var enter := DoEnter("t", "", false, Passed);
    [enter, enter, enter] + ([enter, DoFault(1, "e"), DoFault(2, "e")] + [DoFault(3, "e"), DoProceed(0, "", {})])
  }

  const ALONE := Tool(false, 0, false, 0)

  lemma FaultCounts(s: State, d: nat, c: nat)
    requires InPreparation(s, d) && InPreparation(s, c) && c != d && s.calls[c].name == s.calls[d].name
    ensures var next := Fault(s, d, "e");
            && InPreparation(next, c) && next.calls[c] == s.calls[c] && next.runs == s.runs && next.registry == s.registry
            && Streak(next.streaks, s.calls[c].name) == Streak(s.streaks, s.calls[c].name) + 1
            && (Streak(s.streaks, s.calls[c].name) >= 2 ==> IsOpen(next.openUntil, s.calls[c].name, s.now))
            && next.now == s.now && next.inflight == s.inflight
  {
    assert Fault(s, d, "e").calls[c] == s.calls[c];
  }

  lemma ThreeFaults(s: State)
    requires |s.calls| == 4 && InPreparation(s, 0) && InPreparation(s, 1) && InPreparation(s, 2) && InPreparation(s, 3)
    requires s.calls[0].name == s.calls[1].name == s.calls[2].name == s.calls[3].name
    ensures var tripped := Fault(Fault(Fault(s, 1, "e"), 2, "e"), 3, "e");
            && InPreparation(tripped, 0) && tripped.calls[0] == s.calls[0] && tripped.runs == s.runs
            && IsOpen(tripped.openUntil, s.calls[0].name, tripped.now) && tripped.registry == s.registry
  {
    FaultCounts(s, 1, 0);
    FaultCounts(s, 1, 2);
    FaultCounts(s, 1, 3);
    var s1 := Fault(s, 1, "e");
    FaultCounts(s1, 2, 0);
    FaultCounts(s1, 2, 3);
    FaultCounts(Fault(s1, 2, "e"), 3, 0);
  }

  lemma FourEnter() returns (s: State)
    ensures var enter := DoEnter("t", "", false, Passed);
            s == Apply(Apply(Apply(Apply(Initial(map["t" := ALONE]), enter), enter), enter), enter)
    ensures var call := Call("t", false, false, 0, Preparing);
            s == Initial(map["t" := ALONE]).(calls := [call, call, call, call])
  {
    var empty := Initial(map["t" := ALONE]);
    var enter := DoEnter("t", "", false, Passed);
    var call := Call("t", false, false, 0, Preparing);
    assert Apply(empty, enter) == empty.(calls := [call]);
    assert Apply(empty.(calls := [call]), enter) == empty.(calls := [call, call]);
    assert Apply(empty.(calls := [call, call]), enter) == empty.(calls := [call, call, call]);
    s := empty.(calls := [call, call, call, call]);
    assert Apply(empty.(calls := [call, call, call]), enter) == s;
  }

  /** From the start: a handler starts while its tool's circuit is open. */
  lemma HandlerCanStartWhileOpen()
    ensures var s := Execute(Initial(map["t" := ALONE]), LetIn());
            IsOpen(s.openUntil, "t", s.now) && s.runs == [Run("t", None, false, 0, Running)]
  {
    var enter := DoEnter("t", "", false, Passed);
    var empty := Initial(map["t" := ALONE]);
    var s := FourEnter();
    var last := [DoFault(3, "e"), DoProceed(0, "", {})];
    ExecuteThree(empty, enter, enter, enter, [enter, DoFault(1, "e"), DoFault(2, "e")] + last);
    ExecuteThree(Apply(Apply(Apply(empty, enter), enter), enter), enter, DoFault(1, "e"), DoFault(2, "e"), last);
    assert last + [] == last;
    ExecuteTwo(Fault(Fault(s, 1, "e"), 2, "e"), DoFault(3, "e"), DoProceed(0, "", {}), []);
    ThreeFaults(s);
  }

  // ---------------------------------------------------------------- invalidation and runs in flight

  predicate MaySucceed(state: RunState) {
    match state
    case Running => true
    case Settled(outcome) => outcome.Returned? && outcome.result.Ok?
    case Cleared(outcome) => outcome.Returned? && outcome.result.Ok?
  }

  predicate IsRead(key: Option<Key>) {
    key.Some? && key.value.name in READ_TOOLS
  }

  /** A waiter of one of the first `n` runs that may still put a read result into the cache. */
  ghost predicate LateRead(call: Call, runs: seq<Run>, n: nat) {
    && call.phase.Waiting? && IsRead(call.phase.key) && call.phase.on < n && call.phase.on < |runs|
    && MaySucceed(runs[call.phase.on].state)
  }

  ghost predicate Quiet(s: State, n: nat) {
    forall c :: 0 <= c < |s.calls| ==> !LateRead(s.calls[c], s.runs, n)
  }

  /** A cached read result whose run started before run `n`. */
  ghost predicate StaleRead(s: State, n: nat) {
    exists k :: k in s.cache && k.name in READ_TOOLS && s.cache[k].run < n
  }

  ghost predicate AllFresh(s: State, n: nat) {
    n <= |s.runs| && Quiet(s, n) && !StaleRead(s, n)
  }

  lemma JoinStaysFresh(s: State, c: nat, args: string, locks: set<string>, n: nat)
    requires Inv(s) && AllFresh(s, n) && InPreparation(s, c)
    ensures !LateRead(Proceed(s, c, args, locks).calls[c], Proceed(s, c, args, locks).runs, n)
  {
    var key := RunKey(s.calls[c], args);
    if key.Some? && key.value in s.inflight {
      var r := s.inflight[key.value];
      assert RunOk(s.runs[r], r, s.calls);
      assert CallOk(s.calls[s.runs[r].starter], s.registry, s.runs);
      assert !LateRead(s.calls[s.runs[r].starter], s.runs, n);
    }
  }

  lemma ProceedStaysFresh(s: State, c: nat, args: string, locks: set<string>, n: nat)
    requires Inv(s) && AllFresh(s, n) && InPreparation(s, c)
    ensures Quiet(Proceed(s, c, args, locks), n)
  {
    var next := Proceed(s, c, args, locks);
    JoinStaysFresh(s, c, args, locks, n);
    forall i | 0 <= i < |next.calls|
      ensures !LateRead(next.calls[i], next.runs, n)
    {
      assert !LateRead(s.calls[i], s.runs, n);
    }
  }

  lemma ResumeStaysFresh(s: State, c: nat, activates: bool, n: nat)
    requires Inv(s) && AllFresh(s, n) && CanResume(s, c)
    ensures Quiet(Resume(s, c, activates), n) && !StaleRead(Resume(s, c, activates), n)
  {
    var next := Resume(s, c, activates);
    var call := ResumeChanges(s, c, activates);
    assert !LateRead(s.calls[c], s.runs, n);
    assert CallOk(s.calls[c], s.registry, s.runs);
    forall i | 0 <= i < |next.calls|
      ensures !LateRead(next.calls[i], next.runs, n)
    {
      assert !LateRead(s.calls[i], s.runs, n);
    }
    forall k | k in next.cache && k.name in READ_TOOLS
      ensures next.cache[k].run >= n
    {
    }
  }

  /** Settling cannot make an earlier failure succeed, and clearing changes no outcome. */
  lemma MoveStaysFresh(s: State, next: State, r: nat, state: RunState, n: nat)
    requires Quiet(s, n) && r < |s.runs| && next.calls == s.calls
    requires next.runs == s.runs[r := s.runs[r].(state := state)] && (MaySucceed(state) ==> MaySucceed(s.runs[r].state))
    ensures Quiet(next, n)
  {
    forall c | 0 <= c < |next.calls|
      ensures !LateRead(next.calls[c], next.runs, n)
    {
      assert !LateRead(s.calls[c], s.runs, n);
    }
  }

  lemma CallEndsFresh(s: State, next: State, n: nat)
    requires Quiet(s, n) && next.runs == s.runs && |next.calls| >= |s.calls|
    requires forall c :: 0 <= c < |next.calls| ==>
               (c < |s.calls| && next.calls[c] == s.calls[c]) || !next.calls[c].phase.Waiting?
    ensures Quiet(next, n)
  {
    forall c | 0 <= c < |next.calls|
      ensures !LateRead(next.calls[c], next.runs, n)
    {
      if c < |s.calls| {
        assert !LateRead(s.calls[c], s.runs, n);
      }
    }
  }

  lemma RunStepStaysQuiet(s: State, a: Action, n: nat)
    requires Quiet(s, n) && (a.DoSettle? || a.DoClear?)
    ensures Quiet(Apply(s, a), n)
  {
    var next := Apply(s, a);
    if a.DoSettle? && a.run < |s.runs| && s.runs[a.run].state.Running? {
      MoveStaysFresh(s, next, a.run, Settled(a.outcome), n);
    } else if a.DoClear? && a.run < |s.runs| && s.runs[a.run].state.Settled? {
      MoveStaysFresh(s, next, a.run, Cleared(s.runs[a.run].state.outcome), n);
    }
  }

  lemma CallStepStaysQuiet(s: State, a: Action, n: nat)
    requires Quiet(s, n) && (a.DoEnter? || a.DoRefuse? || a.DoFault?)
    ensures Quiet(Apply(s, a), n)
  {
    match a
    case DoEnter(name, args, hasDependencies, checks) => CallEndsFresh(s, Enter(s, name, args, hasDependencies, checks), n);
    case DoRefuse(c, error) => CallEndsFresh(s, Refuse(s, c, error), n);
    case DoFault(c, error) => CallEndsFresh(s, Fault(s, c, error), n);
  }

  lemma StepStaysQuiet(s: State, a: Action, n: nat)
    requires Inv(s) && AllFresh(s, n)
    ensures Quiet(Apply(s, a), n)
  {
    match a
    case DoProceed(c, args, locks) => if InPreparation(s, c) { ProceedStaysFresh(s, c, args, locks, n); }
    case DoResume(c, activates) => if CanResume(s, c) { ResumeStaysFresh(s, c, activates, n); }
    case DoSettle(_, _) => RunStepStaysQuiet(s, a, n);
    case DoClear(_) => RunStepStaysQuiet(s, a, n);
    case DoInvalidate => CallEndsFresh(s, Invalidate(s), n);
    case SetClock(now) => CallEndsFresh(s, s.(now := now), n);
    case _ => CallStepStaysQuiet(s, a, n);
  }

  lemma StepCachesNoOldRead(s: State, a: Action, n: nat)
    requires Inv(s) && AllFresh(s, n)
    ensures !StaleRead(Apply(s, a), n)
  {
    if a.DoResume? && CanResume(s, a.call) {
      ResumeStaysFresh(s, a.call, a.activates, n);
    } else {
      var next := Apply(s, a);
      forall k | k in next.cache && k.name in READ_TOOLS
        ensures next.cache[k].run >= n
      {
        assert k in s.cache && s.cache[k] == next.cache[k];
      }
    }
  }

  lemma RunsAreKept(s: State, a: Action)
    ensures |Apply(s, a).runs| >= |s.runs|
  {
    if a.DoResume? && CanResume(s, a.call) {
      var call := ResumeChanges(s, a.call, a.activates);
    }
  }

  lemma {:induction false} RunStaysFresh(s: State, actions: seq<Action>, n: nat)
    requires Inv(s) && AllFresh(s, n)
    ensures !StaleRead(Execute(s, actions), n)
    decreases |actions|
  {
    if actions != [] {
      StepKeepsInv(s, actions[0]);
      StepStaysQuiet(s, actions[0], n);
      StepCachesNoOldRead(s, actions[0], n);
      RunsAreKept(s, actions[0]);
      RunStaysFresh(Apply(s, actions[0]), actions[1..], n);
    }
  }

  lemma FinishRun(s: State, r: nat) returns (cleared: State)
    requires r < |s.runs| && MaySucceed(s.runs[r].state)
    ensures cleared == Clear(Settle(s, r, Returned(Ok("", 0))), r)
    ensures cleared.calls == s.calls && cleared.registry == s.registry && |cleared.runs| == |s.runs|
    ensures cleared.runs[r].state.Cleared? && MaySucceed(cleared.runs[r].state)
  {
    var settled := Settle(s, r, Returned(Ok("", 0)));
    assert !settled.runs[r].state.Running? && MaySucceed(settled.runs[r].state);
    cleared := Clear(settled, r);
  }

  lemma SuccessIsCached(s: State, c: nat)
    requires CanResume(s, c) && MaySucceed(s.runs[s.calls[c].phase.on].state) && s.calls[c].phase.key.Some?
    ensures var next := Resume(s, c, false);
            var key := s.calls[c].phase.key.value;
            key in next.cache && next.cache[key].run == s.calls[c].phase.on
  {
    var call := ResumeChanges(s, c, false);
  }

  function Finishing(r: nat, c: nat): seq<Action> {
    [DoSettle(r, Returned(Ok("", 0))), DoClear(r), DoResume(c, false)]
  }

  lemma ExecuteFinishing(s: State, r: nat, c: nat)
    ensures Execute(s, Finishing(r, c)) == Resume(Clear(Settle(s, r, Returned(Ok("", 0))), r), c, false)
  {
    var actions := Finishing(r, c);
    ExecuteOne(s, actions);
    ExecuteOne(Settle(s, r, Returned(Ok("", 0))), actions[1..]);
    ExecuteOne(Clear(Settle(s, r, Returned(Ok("", 0))), r), actions[1..][1..]);
  }

  /** A late reader can finish right after the invalidation and cache what it read before. */
  lemma LateReadIsCached(s: State, c: nat)
    requires Inv(s) && c < |s.calls| && LateRead(s.calls[c], s.runs, |s.runs|)
    ensures StaleRead(Execute(s, Finishing(s.calls[c].phase.on, c)), |s.runs|)
  {
    assert CallOk(s.calls[c], s.registry, s.runs);
    var r := s.calls[c].phase.on;
    var cleared := FinishRun(s, r);
    SuccessIsCached(cleared, c);
    ExecuteFinishing(s, r, c);
    assert s.calls[c].phase.key.value in Execute(s, Finishing(r, c)).cache;
  }

  /** Whatever happens after an invalidation in `s`, no read result of an earlier run is cached again. */
  ghost predicate Lasting(s: State) {
    forall later: seq<Action> :: !StaleRead(Execute(Invalidate(s), later), |s.runs|)
  }

  lemma QuietIsLasting(s: State)
    requires Inv(s) && Quiet(s, |s.runs|)
    ensures Lasting(s)
  {
    StepKeepsInv(s, DoInvalidate);
    CallEndsFresh(s, Invalidate(s), |s.runs|);
    forall later: seq<Action>
      ensures !StaleRead(Execute(Invalidate(s), later), |s.runs|)
    {
      RunStaysFresh(Invalidate(s), later, |s.runs|);
    }
  }

  lemma UnquietIsNotLasting(s: State)
    requires Inv(s) && !Quiet(s, |s.runs|)
    ensures !Lasting(s)
  {
    StepKeepsInv(s, DoInvalidate);
    var c :| 0 <= c < |s.calls| && LateRead(s.calls[c], s.runs, |s.runs|);
    LateReadIsCached(Invalidate(s), c);
    var later := Finishing(s.calls[c].phase.on, c);
    assert StaleRead(Execute(Invalidate(s), later), |s.runs|);
  }

  /**
   After an invalidation no read result from an earlier run is ever cached again exactly when no read
   was waiting for a run that had not failed.  The write alone does not make later reads fresh.
   */
  lemma InvalidationIsLastingIff(registry: map<string, Tool>, before: seq<Action>)
    ensures var s := Execute(Initial(registry), before);
            Lasting(s) <==> Quiet(s, |s.runs|)
  {
    var s := Execute(Initial(registry), before);
    ReachableInv(registry, before);
    if Quiet(s, |s.runs|) {
      QuietIsLasting(s);
    } else {
      UnquietIsNotLasting(s);
    }
  }

  // ---------------------------------------------------------------- the dispatcher

  class ToolDispatcher {
    const registry: map<string, Tool>
    var resultCache: map<Key, Cached>
    var inflight: map<Key, nat>
    var failStreaks: map<string, nat>
    var circuitOpenUntil: map<string, nat>
    /** Suspended dispatches and the promises they await. */
    var calls: seq<Call>
    var runs: seq<Run>
    var held: multiset<string>
    /** A log of completions, which the proofs below read and the dispatcher does not. */
    var history: seq<Completion>

    ghost function At(now: nat): State
      reads this
    {
      State(registry, now, resultCache, inflight, failStreaks, circuitOpenUntil, calls, runs, held, history)
    }

    constructor (registry: map<string, Tool>)
      ensures this.registry == registry && At(0) == Initial(registry)
    {
      this.registry := registry;
      resultCache, inflight, failStreaks, circuitOpenUntil := map[], map[], map[], map[];
      calls, runs, held, history := [], [], multiset{}, [];
    }

    method BeginDispatch(name: string, args: string, hasDependencies: bool, checks: Checks, now: nat)
      modifies this
      ensures At(now) == Enter(old(At(now)), name, args, hasDependencies, checks)
    {
      if name !in registry {
        return;
      }
      var caches := registry[name].cacheable && !hasDependencies;
      var open := name in circuitOpenUntil && now < circuitOpenUntil[name];
      var key := Key(name, args);
      var phase := Preparing;
      if checks.Malformed? {
        phase := Done(Plain(checks.error), Refused);
      } else if open {
        phase := Done(Plain("circuit is open"), Refused);
      } else if checks.Invalid? {
        phase := Done(Plain(checks.error), Refused);
      } else if caches && key in resultCache && now < resultCache[key].expiresAt {
        phase := Done(resultCache[key].result, Hit(key, resultCache[key], now));
      }
      calls := calls + [Call(name, caches, open, |history|, phase)];
    }

    method CountSuccess(name: string, now: nat, cause: Cause)
      modifies this
      ensures At(now) == Record(old(At(now)), name, true, cause)
    {
      failStreaks := failStreaks - {name};
      circuitOpenUntil := circuitOpenUntil - {name};
      history := history + [Completion(name, true, now, cause)];
    }

    method CountFailure(name: string, now: nat, cause: Cause)
      modifies this
      ensures At(now) == Record(old(At(now)), name, false, cause)
    {
      var streak := Streak(failStreaks, name) + 1;
      failStreaks := failStreaks[name := streak];
      if streak >= FAIL_THRESHOLD {
        circuitOpenUntil := circuitOpenUntil[name := now + OPEN_MS];
      }
      history := history + [Completion(name, false, now, cause)];
    }

    method FailPreparation(c: nat, error: string, now: nat)
      requires InPreparation(At(now), c)
      modifies this
      ensures At(now) == Fault(old(At(now)), c, error)
    {
      calls := calls[c := calls[c].(phase := Done(Plain(error), Refused))];
      CountFailure(calls[c].name, now, OfFault(c));
    }

    method RunOrJoin(c: nat, args: string, locks: set<string>, ghost now: nat)
      requires InPreparation(At(now), c)
      modifies this
      ensures At(now) == Proceed(old(At(now)), c, args, locks)
    {
      var call := calls[c];
      var key := RunKey(call, args);
      held := held + multiset(locks);
      var run := |runs|;
      if key.Some? && !registry[call.name].gated {
        if key.value in inflight {
          run := inflight[key.value];
        } else {
          runs := runs + [Run(call.name, key, true, c, Running)];
          inflight := inflight[key.value := run];
        }
      } else {
        runs := runs + [Run(call.name, key, false, c, Running)];
      }
      calls := calls[c := call.(phase := Waiting(run, key, locks))];
    }

    method ClearInflight(r: nat, ghost now: nat)
      requires r < |runs| && runs[r].state.Settled?
      modifies this
      ensures At(now) == Clear(old(At(now)), r)
    {
      var run := runs[r];
      if run.shared && run.key.Some? && run.key.value in inflight && inflight[run.key.value] == r {
        inflight := inflight - {run.key.value};
      }
      runs := runs[r := run.(state := Cleared(run.state.outcome))];
    }

    method CacheSuccess(key: Option<Key>, name: string, result: Result, run: nat, now: nat)
      requires name in registry
      modifies this
      ensures At(now) == Store(old(At(now)), key, registry[name], result, run)
    {
      if key.Some? && result.Ok? {
        resultCache := resultCache[key.value := Cached(result, run, now, now + registry[name].ttl)];
      }
    }

    method CountOutcome(name: string, result: Result, outcome: Outcome, run: nat, now: nat)
      modifies this
      ensures At(now) == if Counts(result, outcome) then Record(old(At(now)), name, result.Ok?, OfRun(run)) else old(At(now))
    {
      if result.Ok? {
        CountSuccess(name, now, OfRun(run));
      } else if Counts(result, outcome) {
        CountFailure(name, now, OfRun(run));
      }
    }

    method FinishDispatch(c: nat, activates: bool, now: nat) returns (result: Result)
      requires CanResume(At(now), c)
      modifies this
      ensures At(now) == Resume(old(At(now)), c, activates)
      ensures result == ResultFor(old(At(now)), c, activates)
    {
      var call := calls[c];
      var run := call.phase.on;
      var outcome := runs[run].state.outcome;
      result := Shape(registry[call.name], outcome);
      CacheSuccess(call.phase.key, call.name, result, run, now);
      result := Hinted(result, outcome, activates);
      calls := calls[c := call.(phase := Done(result, FromRun(run)))];
      CountOutcome(call.name, result, outcome, run, now);
      held := held - multiset(call.phase.locks);
    }

    method InvalidateCachesAfterFileWrites(ghost now: nat)
      modifies this
      ensures At(now) == Invalidate(old(At(now)))
    {
      var keys := resultCache.Keys;
      while keys != {}
        invariant keys <= old(resultCache.Keys)
        invariant resultCache ==
                  map k | k in old(resultCache) && (k in keys || k.name !in READ_TOOLS) :: old(resultCache)[k]
        invariant At(now) == old(At(now)).(cache := resultCache)
      {
        var key :| key in keys;
        if key.name in READ_TOOLS {
          resultCache := resultCache - {key};
        }
        keys := keys - {key};
      }
    }
  }
}
