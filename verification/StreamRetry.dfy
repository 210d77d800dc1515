/**
 The provider retry loop: one request per iteration, several counters that reset one another, a
 wall-time budget, a circuit breaker and a one-time switch away from managed inference.

 Error classification, the clock, session renewal and preference patching are inputs, one `Turn`
 per iteration, so every finite history of the loop is covered.
 */
module StreamRetry {
  import opened Common

  /** How the loop classifies the error of a failed request. */
  datatype Fault = Fault(contextOverflow: bool, exhaustedRouting: bool, stalePin: bool, rateLimited: bool,
                         providerUnavailable: bool, proxyRetried: bool, budgetExceeded: bool, authError: bool,
                         upstreamError: bool, stealthOwl: bool, kimchiTransient: bool, kimchiThrottle: bool,
                         retryable: bool)

  /** What one iteration meets: clock readings, the reply, and how the helpers behave if called. */
  datatype Turn = Turn(refreshedManaged: bool, topNow: int, failure: Option<Fault>, now: int,
                       renewed: Option<bool>, patched: bool)

  datatype Settings = Settings(retryForever: bool, maxRetries: nat, rateLimitMaxRetries: nat,
                               transientMaxRetries: nat, kimchiMaxRetries: nat, maxBusyRetries: nat,
                               wallMs: int, circuitThreshold: nat, circuitCooldown: int, canRebuild: bool,
                               singleModel: bool, freeFallback: bool, byokFallback: bool, hasLocalKey: bool,
                               byokKeyFound: bool, byokIsManaged: bool)

  /** `managed`: the base URL is the managed proxy; `stealth`: the configured model is a stealth one. */
  datatype State = State(attempt: nat, busy: nat, overflows: nat, failures: nat, circuitUntil: int,
                         fallbackActive: bool, managed: bool, stealth: bool)

  datatype Verdict = Continue(next: State) | Streaming(final: State) | Threw(final: State)

  datatype Reason = BudgetExceeded | UpstreamBusy | ProviderError

  const MAX_OVERFLOWS: nat := 2

  /** Leaving managed inference: whether it succeeded and the state afterwards. */
  function TryFallback(s: Settings, st: State, reason: Reason, patched: bool): (bool, State) {
    var useFree := !reason.UpstreamBusy? && s.freeFallback;
    if s.singleModel then (false, st)
    else if st.fallbackActive then (true, st)
    else if !st.managed then (false, st)
    else if !useFree && !s.byokFallback then (false, st)
    else if !s.hasLocalKey then
      if reason.ProviderError? && st.stealth then (true, st.(stealth := false)) else (false, st)
    else if !s.byokKeyFound || !patched then (false, st)
    else (true, st.(managed := s.byokIsManaged, fallbackActive := true))
  }

  function Reset(st: State): State {
    st.(attempt := 0, busy := 0, failures := 0)
  }

  function FallBackOrThrow(s: Settings, st: State, reason: Reason, patched: bool): Verdict {
    var (ok, after) := TryFallback(s, st, reason, patched);
    if ok then Continue(Reset(after)) else Threw(after)
  }

  function RetryCap(s: Settings, f: Fault): nat {
    if f.rateLimited then s.rateLimitMaxRetries
    else if f.kimchiTransient then s.kimchiMaxRetries
    else if f.providerUnavailable then s.transientMaxRetries
    else s.maxRetries
  }

  /** The ordinary retry path at the end of the handler. */
  function RetryOrThrow(s: Settings, st: State, f: Fault, now: int, startedAt: int): Verdict {
    var wallExceeded := now - startedAt >= s.wallMs;
    if !f.retryable || (st.attempt >= RetryCap(s, f) && !s.retryForever) || wallExceeded then Threw(st)
    else if f.rateLimited || f.providerUnavailable || f.exhaustedRouting then
      var failures := if f.kimchiThrottle then st.failures else st.failures + 1;
      if !f.kimchiThrottle && failures >= s.circuitThreshold
      then Threw(st.(failures := failures, circuitUntil := now + s.circuitCooldown))
      else Continue(st.(failures := failures, attempt := st.attempt + 1))
    else Continue(st.(failures := 0, attempt := st.attempt + 1))
  }

  function Handle(s: Settings, st: State, f: Fault, t: Turn, startedAt: int): Verdict {
    if f.contextOverflow && st.overflows < MAX_OVERFLOWS && s.canRebuild then
      Continue(st.(overflows := st.overflows + 1, attempt := 0, busy := 0))
    else if f.exhaustedRouting && f.stalePin then Continue(st.(attempt := 0, failures := 0))
    else if st.managed && f.proxyRetried && (f.rateLimited || f.providerUnavailable) then
      if st.busy < s.maxBusyRetries && t.now - startedAt < s.wallMs
      then Continue(st.(busy := st.busy + 1, failures := st.failures + 1))
      else FallBackOrThrow(s, st, UpstreamBusy, t.patched)
    else if f.budgetExceeded && st.managed then FallBackOrThrow(s, st, BudgetExceeded, t.patched)
    else if f.authError && st.managed then
      if t.renewed.Some? then Continue(st.(managed := t.renewed.value, attempt := 0, failures := 0))
      else FallBackOrThrow(s, st, BudgetExceeded, t.patched)
    else if st.managed && f.upstreamError then FallBackOrThrow(s, st, ProviderError, t.patched)
    else if f.stealthOwl then Threw(st)
    else RetryOrThrow(s, st, f, t.now, startedAt)
  }

  /** Renewing the session before a request can only change the base URL of a managed, unswitched route. */
  function Refreshed(st: State, t: Turn): State {
    if st.managed && !st.fallbackActive then st.(managed := t.refreshedManaged) else st
  }

  function Step(s: Settings, st: State, t: Turn, startedAt: int): Verdict {
    var current := Refreshed(st, t);
    if t.topNow < current.circuitUntil then Threw(current)
    else match t.failure
         case None => Streaming(current.(failures := 0))
         case Some(f) => Handle(s, current, f, t, startedAt)
  }

  /** The loop over a finite history; `Continue` means it is still running when the history ends. */
  function Drive(s: Settings, st: State, turns: seq<Turn>, startedAt: int): Verdict
    decreases |turns|
  {
    if turns == [] then Continue(st)
    else match Step(s, st, turns[0], startedAt)
         case Continue(next) => Drive(s, next, turns[1..], startedAt)
         case done => done
  }

  /** How many requests the loop makes: one per turn, unless the circuit is open, until the call is over. */
  function Requests(s: Settings, st: State, turns: seq<Turn>, startedAt: int): nat
    decreases |turns|
  {
    if turns == [] || turns[0].topNow < st.circuitUntil then 0
    else match Step(s, st, turns[0], startedAt)
         case Continue(next) => 1 + Requests(s, next, turns[1..], startedAt)
         case _ => 1
  }

  /** One turn of the loop. */
  lemma TurnTaken(s: Settings, st: State, turns: seq<Turn>, i: nat, startedAt: int)
    requires i < |turns|
    ensures var verdict := Step(s, st, turns[i], startedAt);
            var calls := if turns[i].topNow < st.circuitUntil then 0 else 1;
            if verdict.Continue? then
              && Drive(s, st, turns[i..], startedAt) == Drive(s, verdict.next, turns[i + 1..], startedAt)
              && Requests(s, st, turns[i..], startedAt) == 1 + Requests(s, verdict.next, turns[i + 1..], startedAt)
            else Drive(s, st, turns[i..], startedAt) == verdict && Requests(s, st, turns[i..], startedAt) == calls
  {
    assert turns[i..][0] == turns[i] && turns[i..][1..] == turns[i + 1..];
  }

  // ---------------------------------------------------------------- the loop itself

  class Provider {
    var overflows: nat
    var failures: nat
    var circuitUntil: int
    var fallbackActive: bool
    var managed: bool
    var stealth: bool

    ghost function Snapshot(attempt: nat, busy: nat): State
      reads this
    {
      State(attempt, busy, overflows, failures, circuitUntil, fallbackActive, managed, stealth)
    }

    constructor (managed: bool, stealth: bool)
      ensures Snapshot(0, 0) == State(0, 0, 0, 0, 0, false, managed, stealth)
    {
      overflows, failures, circuitUntil, fallbackActive := 0, 0, 0, false;
      this.managed, this.stealth := managed, stealth;
    }

    method TryActivateFallback(s: Settings, reason: Reason, patched: bool) returns (ok: bool)
      modifies this
      ensures (ok, Snapshot(0, 0)) == TryFallback(s, old(Snapshot(0, 0)), reason, patched)
    {
      if s.singleModel {
        return false;
      }
      if fallbackActive {
        return true;
      }
      if !managed {
        return false;
      }
      var useFree := !reason.UpstreamBusy? && s.freeFallback;
      if !useFree && !s.byokFallback {
        return false;
      }
      if !s.hasLocalKey {
        if reason.ProviderError? && stealth {
          stealth := false;
          return true;
        }
        return false;
      }
      if !s.byokKeyFound || !patched {
        return false;
      }
      managed, fallbackActive := s.byokIsManaged, true;
      ok := true;
    }

    /** Runs the loop over `turns`, which stand for as much of its history as is looked at. */
    method StreamWithRetry(s: Settings, turns: seq<Turn>, startedAt: int) returns (verdict: Verdict, requests: nat)
      modifies this
      ensures verdict == Drive(s, old(Snapshot(0, 0)), turns, startedAt)
      ensures requests == Requests(s, old(Snapshot(0, 0)), turns, startedAt)
    {
      var attempt, busy := 0, 0;
      requests := 0;
      ghost var start := Snapshot(0, 0);
      var i := 0;
      while i < |turns|
        invariant 0 <= i <= |turns|
        invariant requests + Requests(s, Snapshot(attempt, busy), turns[i..], startedAt) == Requests(s, start, turns, startedAt)
        invariant Drive(s, Snapshot(attempt, busy), turns[i..], startedAt) == Drive(s, start, turns, startedAt)
      {
        TurnTaken(s, Snapshot(attempt, busy), turns, i, startedAt);
        var ended: Option<Verdict>;
        if turns[i].topNow >= circuitUntil {
          requests := requests + 1;
        }
        attempt, busy, ended := OneTurn(s, turns[i], startedAt, attempt, busy);
        if ended.Some? {
          return ended.value, requests;
        }
        i := i + 1;
      }
      verdict := Continue(State(attempt, busy, overflows, failures, circuitUntil, fallbackActive, managed, stealth));
    }

    /** One iteration: the session is renewed, and unless the circuit is open the request is made and its failure handled. */
    method OneTurn(s: Settings, t: Turn, startedAt: int, attempt0: nat, busy0: nat)
      returns (attempt: nat, busy: nat, ended: Option<Verdict>)
      modifies this
      ensures Step(s, old(Snapshot(attempt0, busy0)), t, startedAt) ==
              if ended.Some? then ended.value else Continue(Snapshot(attempt, busy))
      ensures ended.Some? ==> !ended.value.Continue?
    {
      attempt, busy := attempt0, busy0;
      if managed && !fallbackActive {
        managed := t.refreshedManaged;
      }
      if t.topNow < circuitUntil {
        ended := Some(Threw(State(attempt, busy, overflows, failures, circuitUntil, fallbackActive, managed, stealth)));
        return;
      }
      if t.failure == None {
        failures := 0;
        ended := Some(Streaming(State(attempt, busy, overflows, failures, circuitUntil, fallbackActive, managed, stealth)));
        return;
      }
      var over: bool;
      attempt, busy, over := OnFailure(s, t.failure.value, t, startedAt, attempt, busy);
      ended := None;
      if over {
        ended := Some(Threw(State(attempt, busy, overflows, failures, circuitUntil, fallbackActive, managed, stealth)));
      }
    }

    /** The error handler of one iteration; `over` says that it throws. */
    method OnFailure(s: Settings, f: Fault, t: Turn, startedAt: int, attempt0: nat, busy0: nat)
      returns (attempt: nat, busy: nat, over: bool)
      modifies this
      ensures Handle(s, old(Snapshot(attempt0, busy0)), f, t, startedAt) ==
              if over then Threw(Snapshot(attempt, busy)) else Continue(Snapshot(attempt, busy))
    {
      attempt, busy, over := attempt0, busy0, false;
      if f.contextOverflow && overflows < MAX_OVERFLOWS && s.canRebuild {
        overflows := overflows + 1;
        attempt, busy := 0, 0;
        return;
      }
      if f.exhaustedRouting && f.stalePin {
        attempt, failures := 0, 0;
        return;
      }
      if managed && f.proxyRetried && (f.rateLimited || f.providerUnavailable) {
        if busy < s.maxBusyRetries && t.now - startedAt < s.wallMs {
          busy, failures := busy + 1, failures + 1;
          return;
        }
        attempt, busy, over := FallBackOr(s, UpstreamBusy, t.patched, attempt, busy);
        return;
      }
      if f.budgetExceeded && managed {
        attempt, busy, over := FallBackOr(s, BudgetExceeded, t.patched, attempt, busy);
        return;
      }
      if f.authError && managed {
        if t.renewed.Some? {
          managed, attempt, failures := t.renewed.value, 0, 0;
          return;
        }
        attempt, busy, over := FallBackOr(s, BudgetExceeded, t.patched, attempt, busy);
        return;
      }
      if managed && f.upstreamError {
        attempt, busy, over := FallBackOr(s, ProviderError, t.patched, attempt, busy);
        return;
      }
      if f.stealthOwl {
        over := true;
        return;
      }
      var cappedOut := attempt >= RetryCap(s, f);
      if !f.retryable || (cappedOut && !s.retryForever) || t.now - startedAt >= s.wallMs {
        over := true;
        return;
      }
      if f.rateLimited || f.providerUnavailable || f.exhaustedRouting {
        if !f.kimchiThrottle {
          failures := failures + 1;
        }
        if !f.kimchiThrottle && failures >= s.circuitThreshold {
          circuitUntil := t.now + s.circuitCooldown;
          over := true;
          return;
        }
      } else {
        failures := 0;
      }
      attempt := attempt + 1;
    }

    method FallBackOr(s: Settings, reason: Reason, patched: bool, attempt0: nat, busy0: nat)
      returns (attempt: nat, busy: nat, over: bool)
      modifies this
      ensures FallBackOrThrow(s, old(Snapshot(attempt0, busy0)), reason, patched) ==
              if over then Threw(Snapshot(attempt, busy)) else Continue(Snapshot(attempt, busy))
    {
      attempt, busy := attempt0, busy0;
      var ok := TryActivateFallback(s, reason, patched);
      over := !ok;
      if ok {
        attempt, busy, failures := 0, 0, 0;
      }
    }
  }

  // ---------------------------------------------------------------- the bound

  function Max(a: nat, b: nat): nat {
    if a < b then b else a
  }

  function LargestCap(s: Settings): nat {
    Max(Max(s.maxRetries, s.rateLimitMaxRetries), Max(s.transientMaxRetries, s.kimchiMaxRetries))
  }

  /** Requests that fit between two resets. */
  function Stretch(s: Settings): nat {
    s.maxBusyRetries + LargestCap(s) + 1
  }

  /** The one switch still available: to a local key, or away from a stealth model without one. */
  predicate CanStillSwitch(s: Settings, st: State) {
    !s.singleModel && st.managed && !st.fallbackActive && (s.hasLocalKey || st.stealth)
  }

  function ResetsLeft(s: Settings, st: State): nat {
    (if st.overflows < MAX_OVERFLOWS then MAX_OVERFLOWS - st.overflows else 0) + if CanStillSwitch(s, st) then 1 else 0
  }

  /** The errors that reset the counters without using anything up. */
  predicate FreeReset(t: Turn) {
    t.failure.Some? &&
    ((t.failure.value.exhaustedRouting && t.failure.value.stalePin) || (t.failure.value.authError && t.renewed.Some?))
  }

  /** A local key can be switched to, and its URL is managed too. */
  predicate LeadsBack(s: Settings) {
    && s.byokIsManaged
    && !s.singleModel && (s.freeFallback || s.byokFallback) && s.hasLocalKey && s.byokKeyFound
  }

  /** A managed route that has been switched already, or can be switched to a managed URL, is switched without end. */
  predicate SwitchesForever(s: Settings, st: State) {
    st.managed && !s.singleModel && (st.fallbackActive || LeadsBack(s))
  }

  predicate Bounded(s: Settings, st: State) {
    !s.retryForever && !SwitchesForever(s, st)
  }

  /** Counters within their caps. */
  predicate InRange(s: Settings, st: State) {
    st.attempt <= LargestCap(s) && st.busy <= s.maxBusyRetries
  }

  function Measure(s: Settings, st: State): int {
    ResetsLeft(s, st) * Stretch(s) + (s.maxBusyRetries - st.busy) + (LargestCap(s) - st.attempt)
  }

  /** Every iteration that goes on uses up a reset, or a retry of one kind. */
  lemma StepUsesSomething(s: Settings, st: State, t: Turn, startedAt: int)
    requires Bounded(s, st) && InRange(s, st) && !FreeReset(t)
    requires Step(s, st, t, startedAt).Continue?
    ensures var next := Step(s, st, t, startedAt).next;
            && Bounded(s, next) && InRange(s, next)
            && (|| ResetsLeft(s, next) < ResetsLeft(s, st)
                || (ResetsLeft(s, next) <= ResetsLeft(s, st) && next.busy + next.attempt == st.busy + st.attempt + 1))
  {
    assert RetryCap(s, t.failure.value) <= LargestCap(s);
    var current := Refreshed(st, t);
    assert InRange(s, current) && ResetsLeft(s, current) <= ResetsLeft(s, st);
  }

  lemma StepDecreases(s: Settings, st: State, t: Turn, startedAt: int)
    requires Bounded(s, st) && InRange(s, st) && !FreeReset(t)
    requires Step(s, st, t, startedAt).Continue?
    ensures Bounded(s, Step(s, st, t, startedAt).next) && InRange(s, Step(s, st, t, startedAt).next)
    ensures 0 <= Measure(s, Step(s, st, t, startedAt).next) < Measure(s, st)
  {
    StepUsesSomething(s, st, t, startedAt);
    MeasureDrops(s, st, Step(s, st, t, startedAt).next);
  }

  lemma MeasureDrops(s: Settings, st: State, next: State)
    requires InRange(s, st) && InRange(s, next)
    requires ResetsLeft(s, next) < ResetsLeft(s, st) ||
             (ResetsLeft(s, next) <= ResetsLeft(s, st) && next.busy + next.attempt == st.busy + st.attempt + 1)
    ensures 0 <= Measure(s, next) < Measure(s, st)
  {
    if ResetsLeft(s, next) < ResetsLeft(s, st) {
      StretchesDrop(ResetsLeft(s, next), ResetsLeft(s, st), Stretch(s));
    } else {
      StretchesKeep(ResetsLeft(s, next), ResetsLeft(s, st), Stretch(s));
    }
    StretchesKeep(0, ResetsLeft(s, next), Stretch(s));
  }

  lemma StretchesDrop(fewer: nat, more: nat, stretch: nat)
    requires fewer < more
    ensures fewer * stretch + stretch <= more * stretch
  {
    assert more * stretch == (fewer + 1) * stretch + (more - fewer - 1) * stretch;
  }

  lemma StretchesKeep(fewer: nat, more: nat, stretch: nat)
    requires fewer <= more
    ensures fewer * stretch <= more * stretch
  {
  }

  /**
   With retry-forever off, no switch to a managed URL possible, and none of the errors that reset for
   free, the loop is still running after `n` requests only if
   `n <= (resets left + 1) * (busy cap + retry cap + 1) - 1`; the next request is the last possible one.
   */
  lemma {:induction false} RequestsAreBounded(s: Settings, st: State, turns: seq<Turn>, startedAt: int)
    requires Bounded(s, st) && InRange(s, st)
    requires forall t :: t in turns ==> !FreeReset(t)
    requires Drive(s, st, turns, startedAt).Continue?
    ensures |turns| <= Measure(s, st)
    decreases |turns|
  {
    if turns != [] {
      assert turns[0] in turns;
      StepDecreases(s, st, turns[0], startedAt);
      RequestsAreBounded(s, Step(s, st, turns[0], startedAt).next, turns[1..], startedAt);
    } else {
      assert ResetsLeft(s, st) * Stretch(s) >= 0;
    }
  }

  /** The bound for a whole call: at most two overflow recoveries and one switch, so at most three resets. */
  lemma CallIsBounded(s: Settings, st: State, turns: seq<Turn>, startedAt: int)
    requires Bounded(s, st) && st.attempt == 0 && st.busy == 0
    requires forall t :: t in turns ==> !FreeReset(t)
    requires turns != [] && Drive(s, st, turns[..|turns| - 1], startedAt).Continue?
    ensures |turns| <= (ResetsLeft(s, st) + 1) * Stretch(s)
    ensures ResetsLeft(s, st) <= 3
    ensures |turns| <= 4 * (s.maxBusyRetries + LargestCap(s) + 1)
  {
    RequestsAreBounded(s, st, turns[..|turns| - 1], startedAt);
    assert (ResetsLeft(s, st) + 1) * Stretch(s) == ResetsLeft(s, st) * Stretch(s) + Stretch(s);
    StretchesKeep(ResetsLeft(s, st) + 1, 4, Stretch(s));
  }

  // ---------------------------------------------------------------- each condition is needed

  function Quiet(): Fault {
    Fault(false, false, false, false, false, false, false, false, false, false, false, false, false)
  }

  function Repeat(t: Turn, n: nat): (turns: seq<Turn>)
    ensures |turns| == n && forall x :: x in turns ==> x == t
  {
    if n == 0 then [] else [t] + Repeat(t, n - 1)
  }

  /** A turn after which the state is the same again keeps the loop going for any number of requests. */
  lemma {:induction false} LoopsForever(s: Settings, st: State, t: Turn, startedAt: int, n: nat)
    requires Step(s, st, t, startedAt) == Continue(st)
    ensures Drive(s, st, Repeat(t, n), startedAt) == Continue(st)
  {
    if n > 0 {
      LoopsForever(s, st, t, startedAt, n - 1);
      assert Repeat(t, n)[0] == t && Repeat(t, n)[1..] == Repeat(t, n - 1);
    }
  }

  /** A stale provider pin that cannot be cleared is retried without end, past the wall-time budget too. */
  lemma StalePinIsUnbounded(s: Settings, managed: bool, stealth: bool, now: int, n: nat)
    ensures var st := State(0, 0, 0, 0, 0, false, managed, stealth);
            var t := Turn(managed, 0, Some(Quiet().(exhaustedRouting := true, stalePin := true)), now, None, false);
            Drive(s, st, Repeat(t, n), 0) == Continue(st)
  {
    LoopsForever(s, State(0, 0, 0, 0, 0, false, managed, stealth),
                 Turn(managed, 0, Some(Quiet().(exhaustedRouting := true, stalePin := true)), now, None, false), 0, n);
  }

  /** So is an authentication error that each renewed session meets again. */
  lemma AuthRenewalIsUnbounded(s: Settings, stealth: bool, now: int, n: nat)
    ensures var st := State(0, 0, 0, 0, 0, false, true, stealth);
            var t := Turn(true, 0, Some(Quiet().(authError := true)), now, Some(true), false);
            Drive(s, st, Repeat(t, n), 0) == Continue(st)
  {
    LoopsForever(s, State(0, 0, 0, 0, 0, false, true, stealth),
                 Turn(true, 0, Some(Quiet().(authError := true)), now, Some(true), false), 0, n);
  }

  /** A spent budget, met when the circuit is closed and the local key can be patched in. */
  function BudgetSpent(st: State): Turn {
    Turn(true, st.circuitUntil, Some(Quiet().(budgetExceeded := true)), 0, None, true)
  }

  /** A managed route whose switch leads back to a managed URL is switched away from at every spent budget. */
  lemma SwitchingIsUnbounded(s: Settings, st: State, startedAt: int, n: nat)
    requires SwitchesForever(s, st)
    ensures Drive(s, st, Repeat(BudgetSpent(st), n), startedAt).Continue?
  {
    var t := BudgetSpent(st);
    if n > 0 {
      var switched := Reset(st).(managed := true, fallbackActive := true);
      assert Step(s, st, t, startedAt) == Continue(switched);
      LoopsForever(s, switched, t, startedAt, n - 1);
      assert Repeat(t, n)[0] == t && Repeat(t, n)[1..] == Repeat(t, n - 1);
    }
  }

  /** A retryable failure just inside the wall-time budget. */
  function Flaky(s: Settings, circuitUntil: int, startedAt: int): Turn {
    Turn(true, circuitUntil, Some(Quiet().(retryable := true)), startedAt + s.wallMs - 1, None, false)
  }

  /** With retry-forever on only the wall-time budget ends the loop. */
  lemma {:induction false} RetryForeverIsUnbounded(s: Settings, st: State, startedAt: int, n: nat)
    requires s.retryForever
    ensures Drive(s, st, Repeat(Flaky(s, st.circuitUntil, startedAt), n), startedAt).Continue?
    decreases n
  {
    var t := Flaky(s, st.circuitUntil, startedAt);
    if n > 0 {
      RetryForeverIsUnbounded(s, Step(s, st, t, startedAt).next, startedAt, n - 1);
      assert Repeat(t, n)[0] == t && Repeat(t, n)[1..] == Repeat(t, n - 1);
    }
  }

  /** However the call goes, without errors that reset for free it is over after `n` requests. */
  ghost predicate EndsWithin(s: Settings, st: State, startedAt: int, n: nat) {
    forall turns :: (forall t :: t in turns ==> !FreeReset(t)) && Drive(s, st, turns, startedAt).Continue? ==> |turns| <= n
  }

  lemma LongRunRefutes(s: Settings, st: State, startedAt: int, t: Turn, n: nat)
    requires !FreeReset(t) && Drive(s, st, Repeat(t, n + 1), startedAt).Continue?
    ensures !EndsWithin(s, st, startedAt, n)
  {
    var turns := Repeat(t, n + 1);
    assert forall x :: x in turns ==> !FreeReset(x);
  }

  lemma BoundedEnds(s: Settings, st: State, startedAt: int) returns (n: nat)
    requires st.attempt == 0 && st.busy == 0 && Bounded(s, st)
    ensures EndsWithin(s, st, startedAt, n)
  {
    StretchesKeep(0, ResetsLeft(s, st), Stretch(s));
    n := Measure(s, st);
    forall turns | (forall t :: t in turns ==> !FreeReset(t)) && Drive(s, st, turns, startedAt).Continue?
      ensures |turns| <= n
    {
      RequestsAreBounded(s, st, turns, startedAt);
    }
  }

  lemma UnboundedNeverEnds(s: Settings, st: State, startedAt: int, n: nat)
    requires !Bounded(s, st)
    ensures !EndsWithin(s, st, startedAt, n)
  {
    if s.retryForever {
      RetryForeverIsUnbounded(s, st, startedAt, n + 1);
      LongRunRefutes(s, st, startedAt, Flaky(s, st.circuitUntil, startedAt), n);
    } else {
      SwitchingIsUnbounded(s, st, startedAt, n + 1);
      LongRunRefutes(s, st, startedAt, BudgetSpent(st), n);
    }
  }

  /**
   Whatever the provider remembers from earlier calls, the requests of a call are bounded over all error
   sequences without free resets exactly when retry-forever is off and no switch leads back to a managed URL.
   */
  lemma CallEndsIff(s: Settings, st: State, startedAt: int)
    requires st.attempt == 0 && st.busy == 0
    ensures (exists n: nat :: EndsWithin(s, st, startedAt, n)) <==> !s.retryForever && !SwitchesForever(s, st)
  {
    if Bounded(s, st) {
      var n := BoundedEnds(s, st, startedAt);
    } else {
      forall n: nat
        ensures !EndsWithin(s, st, startedAt, n)
      {
        UnboundedNeverEnds(s, st, startedAt, n);
      }
    }
  }
}
