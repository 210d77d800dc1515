/**
 When a failed request is tried again: the exact condition under which one failure ends the call, and how
 many requests a call makes when it keeps meeting the same failure.
 */
module RetryDecisions {
  import opened Common
  import opened StreamRetry

  // ---------------------------------------------------------------- one failure

  /** The context can still be rebuilt after an overflow, or a stale provider pin be dropped. */
  predicate Recovers(s: Settings, st: State, f: Fault) {
    (f.contextOverflow && s.canRebuild && st.overflows <= 1) || (f.exhaustedRouting && f.stalePin)
  }

  predicate Busy(f: Fault) {
    f.rateLimited || f.providerUnavailable
  }

  /** A managed route has its own answer to these. */
  predicate IsManagedFault(st: State, f: Fault) {
    st.managed && ((f.proxyRetried && Busy(f)) || f.budgetExceeded || f.authError || f.upstreamError)
  }

  /** A busy proxy is waited for, a session renewed. */
  predicate StaysManaged(s: Settings, st: State, f: Fault, t: Turn, startedAt: int) {
    if f.proxyRetried && Busy(f) then st.busy < s.maxBusyRetries && t.now < startedAt + s.wallMs
    else !f.budgetExceeded && f.authError && t.renewed.Some?
  }

  /** A free fallback is for anything but a busy upstream; only a provider error gives up a stealth model. */
  predicate SwitchesFor(s: Settings, st: State, f: Fault, t: Turn) {
    var upstreamBusy := f.proxyRetried && Busy(f);
    var providerError := !upstreamBusy && !f.budgetExceeded && !f.authError;
    && !s.singleModel
    && (st.fallbackActive ||
        (&& (s.byokFallback || (s.freeFallback && !upstreamBusy))
         && if s.hasLocalKey then s.byokKeyFound && t.patched else providerError && st.stealth))
  }

  /** Tries left for an error of this kind. */
  function Tries(s: Settings, f: Fault): nat {
    if f.rateLimited then s.rateLimitMaxRetries
    else if f.kimchiTransient then s.kimchiMaxRetries
    else if f.providerUnavailable then s.transientMaxRetries
    else s.maxRetries
  }

  /** The failure counts against the provider and is the one too many. */
  predicate Trips(s: Settings, st: State, f: Fault) {
    (Busy(f) || f.exhaustedRouting) && !f.kimchiThrottle && st.failures + 1 >= s.circuitThreshold
  }

  /** An ordinary retry. */
  predicate MayRetry(s: Settings, st: State, f: Fault, t: Turn, startedAt: int) {
    && f.retryable && !f.stealthOwl && t.now < startedAt + s.wallMs
    && (s.retryForever || st.attempt < Tries(s, f)) && !Trips(s, st, f)
  }

  /** A failure does not end the call exactly when one of the recoveries, the managed answers or a retry is open to it. */
  lemma FailureContinuesIff(s: Settings, st: State, f: Fault, t: Turn, startedAt: int)
    ensures Handle(s, st, f, t, startedAt).Continue? <==>
            || Recovers(s, st, f)
            || (if IsManagedFault(st, f) then StaysManaged(s, st, f, t, startedAt) || SwitchesFor(s, st, f, t)
                else MayRetry(s, st, f, t, startedAt))
    ensures !Handle(s, st, f, t, startedAt).Streaming?
  {
  }

  // ---------------------------------------------------------------- what each answer does to the counters

  /** How the loop answers a failure. */
  datatype Answer = Rebuilds | Unpins | Waits | Renews | Switches | TriesAgain | GivesUp

  function AnswerTo(s: Settings, st: State, f: Fault, t: Turn, startedAt: int): Answer {
    if f.contextOverflow && s.canRebuild && st.overflows <= 1 then Rebuilds
    else if f.exhaustedRouting && f.stalePin then Unpins
    else if IsManagedFault(st, f) then
      if StaysManaged(s, st, f, t, startedAt) then if f.proxyRetried && Busy(f) then Waits else Renews
      else if SwitchesFor(s, st, f, t) then Switches else GivesUp
    else if MayRetry(s, st, f, t, startedAt) then TriesAgain else GivesUp
  }

  /** A rebuilt context and a switch start tries and waits over; a dropped pin and a renewal only tries. */
  predicate CountersMoved(st: State, next: State, answer: Answer, f: Fault) {
    && next.attempt == (match answer case TriesAgain => st.attempt + 1 case Waits => st.attempt case _ => 0)
    && next.busy == (match answer case Waits => st.busy + 1 case Rebuilds => 0 case Switches => 0 case _ => st.busy)
    && next.overflows == (if answer.Rebuilds? then st.overflows + 1 else st.overflows)
    && next.circuitUntil == st.circuitUntil
  }

  /** Failures of the provider are counted across calls; an error that is not its fault ends the row. */
  predicate FailuresMoved(st: State, next: State, answer: Answer, f: Fault) {
    match answer
    case Rebuilds => next.failures == st.failures
    case Waits => next.failures == st.failures + 1
    case TriesAgain =>
      next.failures == if !(Busy(f) || f.exhaustedRouting) then 0 else if f.kimchiThrottle then st.failures else st.failures + 1
    case _ => next.failures == 0
  }

  /** Only a renewal and a switch touch the route. */
  predicate RouteMoved(s: Settings, st: State, next: State, answer: Answer, t: Turn) {
    if answer.Renews? then
      t.renewed == Some(next.managed) && next.fallbackActive == st.fallbackActive && next.stealth == st.stealth
    else if answer.Switches? && !st.fallbackActive then
      if s.hasLocalKey then next.managed == s.byokIsManaged && next.fallbackActive && next.stealth == st.stealth
      else next.managed && !next.fallbackActive && !next.stealth
    else next.managed == st.managed && next.fallbackActive == st.fallbackActive && next.stealth == st.stealth
  }

  /** What the loop carries into the next request, whatever the failure was. */
  lemma AnswerMoves(s: Settings, st: State, f: Fault, t: Turn, startedAt: int)
    requires !AnswerTo(s, st, f, t, startedAt).GivesUp?
    ensures var (answer, verdict) := (AnswerTo(s, st, f, t, startedAt), Handle(s, st, f, t, startedAt));
            && verdict.Continue? && CountersMoved(st, verdict.next, answer, f)
            && FailuresMoved(st, verdict.next, answer, f) && RouteMoved(s, st, verdict.next, answer, t)
  {
  }

  /** A failure that ends the call leaves the state alone, except that the one too many opens the circuit. */
  lemma GivingUpMoves(s: Settings, st: State, f: Fault, t: Turn, startedAt: int)
    requires AnswerTo(s, st, f, t, startedAt).GivesUp?
    ensures var mayTry := f.retryable && !f.stealthOwl && t.now < startedAt + s.wallMs
                          && (s.retryForever || st.attempt < Tries(s, f));
            Handle(s, st, f, t, startedAt) ==
            Threw(if !IsManagedFault(st, f) && mayTry
                  then st.(failures := st.failures + 1, circuitUntil := t.now + s.circuitCooldown) else st)
  {
  }

  /** Leaving managed inference succeeds exactly in these cases, and changes nothing when it fails. */
  lemma SwitchIs(s: Settings, st: State, reason: Reason, patched: bool)
    ensures var (ok, after) := TryFallback(s, st, reason, patched);
            && (ok <==>
                && !s.singleModel
                && (st.fallbackActive ||
                    (&& st.managed && (s.byokFallback || (s.freeFallback && reason != UpstreamBusy))
                     && if s.hasLocalKey then s.byokKeyFound && patched else reason == ProviderError && st.stealth)))
            && (!ok || st.fallbackActive ==> after == st)
  {
  }

  /** A session renewed before the request changes the route of an unswitched managed call, and nothing else. */
  function Routed(st: State, t: Turn): bool {
    if st.managed && !st.fallbackActive then t.refreshedManaged else st.managed
  }

  /** A step that goes on is the answer to its failure on the route the renewal left. */
  lemma StepAnswers(s: Settings, st: State, t: Turn, startedAt: int)
    requires t.topNow >= st.circuitUntil && t.failure.Some?
    ensures Step(s, st, t, startedAt) == Handle(s, st.(managed := Routed(st, t)), t.failure.value, t, startedAt)
  {
  }

  /** On a route that is not managed, an error that may not be retried ends the call after one request. */
  lemma FatalEndsAtOnce(s: Settings, st: State, t: Turn, later: seq<Turn>, startedAt: int)
    requires !st.managed && t.topNow >= st.circuitUntil
    requires t.failure.Some? && !t.failure.value.retryable && !Recovers(s, st, t.failure.value)
    ensures Drive(s, st, [t] + later, startedAt).Threw? && Requests(s, st, [t] + later, startedAt) == 1
  {
    FailureContinuesIff(s, st, t.failure.value, t, startedAt);
    assert ([t] + later)[0] == t;
  }

  /** A reply ends the call, after as many requests as were made so far. */
  lemma ReplyEnds(s: Settings, st: State, t: Turn, later: seq<Turn>, startedAt: int)
    requires t.topNow >= st.circuitUntil && t.failure.None?
    ensures Drive(s, st, [t] + later, startedAt).Streaming? && Requests(s, st, [t] + later, startedAt) == 1
    ensures Drive(s, st, [t] + later, startedAt).final == st.(failures := 0, managed := Routed(st, t))
  {
    assert ([t] + later)[0] == t;
  }

  /** While the circuit is open no request is made and the call throws. */
  lemma OpenCircuitThrows(s: Settings, st: State, t: Turn, later: seq<Turn>, startedAt: int)
    requires t.topNow < st.circuitUntil
    ensures Drive(s, st, [t] + later, startedAt) == Threw(st.(managed := Routed(st, t)))
    ensures Requests(s, st, [t] + later, startedAt) == 0
  {
    assert ([t] + later)[0] == t;
  }

  lemma {:induction false} RequestsOfRunning(s: Settings, st: State, turns: seq<Turn>, startedAt: int)
    ensures Requests(s, st, turns, startedAt) <= |turns|
    ensures Drive(s, st, turns, startedAt).Continue? ==> Requests(s, st, turns, startedAt) == |turns|
    decreases |turns|
  {
    if turns != [] && Step(s, st, turns[0], startedAt).Continue? {
      RequestsOfRunning(s, Step(s, st, turns[0], startedAt).next, turns[1..], startedAt);
    }
  }

  // ---------------------------------------------------------------- the same failure again and again

  /** A retryable error of an unmanaged route that nothing but a retry answers, inside the wall-time budget. */
  predicate Ordinary(s: Settings, f: Fault, t: Turn, startedAt: int) {
    && t.failure == Some(f) && f.retryable && !f.stealthOwl && !f.contextOverflow && !(f.exhaustedRouting && f.stalePin)
    && t.now < startedAt + s.wallMs
  }

  /** How often it is retried: up to its cap, or until it opens the circuit. */
  function Retries(s: Settings, f: Fault): nat {
    if (Busy(f) || f.exhaustedRouting) && !f.kimchiThrottle && s.circuitThreshold <= Tries(s, f)
    then if s.circuitThreshold == 0 then 0 else s.circuitThreshold - 1
    else Tries(s, f)
  }

  /** Where such a run has got to after `k` retries. */
  predicate AfterRetries(s: Settings, f: Fault, start: State, st: State, k: nat) {
    && st.attempt == k && !st.managed && st.circuitUntil == start.circuitUntil
    && ((Busy(f) || f.exhaustedRouting) && !f.kimchiThrottle ==> st.failures == k)
  }

  lemma RetryStep(s: Settings, f: Fault, start: State, st: State, t: Turn, startedAt: int, k: nat)
    requires !s.retryForever && Ordinary(s, f, t, startedAt) && t.topNow >= start.circuitUntil
    requires AfterRetries(s, f, start, st, k) && k <= Retries(s, f)
    ensures Step(s, st, t, startedAt).Continue? <==> k < Retries(s, f)
    ensures Step(s, st, t, startedAt).Continue? ==> AfterRetries(s, f, start, Step(s, st, t, startedAt).next, k + 1)
    ensures !Step(s, st, t, startedAt).Streaming?
  {
    FailureContinuesIff(s, st, f, t, startedAt);
  }

  lemma {:induction false} RetriesFrom(s: Settings, f: Fault, start: State, st: State, t: Turn, startedAt: int, k: nat, n: nat)
    requires !s.retryForever && Ordinary(s, f, t, startedAt) && t.topNow >= start.circuitUntil
    requires AfterRetries(s, f, start, st, k) && k <= Retries(s, f)
    ensures Drive(s, st, Repeat(t, n), startedAt).Continue? <==> k + n <= Retries(s, f)
    ensures Requests(s, st, Repeat(t, n), startedAt) == if k + n <= Retries(s, f) then n else Retries(s, f) - k + 1
    decreases n
  {
    if n > 0 {
      RetryStep(s, f, start, st, t, startedAt, k);
      assert Repeat(t, n)[0] == t && Repeat(t, n)[1..] == Repeat(t, n - 1);
      if k < Retries(s, f) {
        RetriesFrom(s, f, start, Step(s, st, t, startedAt).next, t, startedAt, k + 1, n - 1);
      }
    }
  }

  /**
   A call on an unmanaged route that keeps meeting one ordinary error makes one request and as many
   retries as its kind is allowed, or as many as it takes to open the circuit, and then throws.
   */
  lemma RetriesExactly(s: Settings, f: Fault, st: State, t: Turn, startedAt: int, n: nat)
    requires !s.retryForever && Ordinary(s, f, t, startedAt) && t.topNow >= st.circuitUntil
    requires st.attempt == 0 && st.failures == 0 && !st.managed
    ensures Drive(s, st, Repeat(t, n), startedAt).Continue? <==> n <= Retries(s, f)
    ensures n > Retries(s, f) ==>
              Drive(s, st, Repeat(t, n), startedAt).Threw? && Requests(s, st, Repeat(t, n), startedAt) == Retries(s, f) + 1
  {
    RetriesFrom(s, f, st, st, t, startedAt, 0, n);
    NeverStreams(s, st, t, startedAt, n);
  }

  lemma {:induction false} NeverStreams(s: Settings, st: State, t: Turn, startedAt: int, n: nat)
    requires t.failure.Some?
    ensures !Drive(s, st, Repeat(t, n), startedAt).Streaming?
    decreases n
  {
    if n > 0 {
      assert Repeat(t, n)[0] == t && Repeat(t, n)[1..] == Repeat(t, n - 1);
      if Step(s, st, t, startedAt).Continue? {
        NeverStreams(s, Step(s, st, t, startedAt).next, t, startedAt, n - 1);
      }
    }
  }

  /** A managed proxy that stays busy and cannot be switched away from is asked as often as its cap allows, and once more. */
  lemma {:induction false} BusyRetriesExactly(s: Settings, f: Fault, st: State, t: Turn, startedAt: int, n: nat)
    requires st.managed && t.refreshedManaged && t.topNow >= st.circuitUntil && t.now < startedAt + s.wallMs
    requires t.failure == Some(f) && f.proxyRetried && Busy(f) && !Recovers(s, st, f) && !SwitchesFor(s, st, f, t)
    requires st.busy <= s.maxBusyRetries
    ensures Drive(s, st, Repeat(t, n), startedAt).Continue? <==> st.busy + n <= s.maxBusyRetries
    ensures Requests(s, st, Repeat(t, n), startedAt) ==
            if st.busy + n <= s.maxBusyRetries then n else s.maxBusyRetries - st.busy + 1
    decreases n
  {
    if n > 0 {
      assert Repeat(t, n)[0] == t && Repeat(t, n)[1..] == Repeat(t, n - 1);
      FailureContinuesIff(s, st, f, t, startedAt);
      assert Refreshed(st, t) == st;
      if st.busy < s.maxBusyRetries {
        var next := Step(s, st, t, startedAt).next;
        BusyRetriesExactly(s, f, next, t, startedAt, n - 1);
      }
    }
  }
}
