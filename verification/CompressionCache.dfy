/**
 The cache of the last compression, which holds a promise: calls that overlap share one computation, and
 one that fails is forgotten by the first of its callers to see it.
 */
module CompressionCache {
  import opened Common

  datatype Outcome<+V> = Pending | Resolved(value: V) | Rejected

  datatype Computation<+K, +V> = Computation(key: K, outcome: Outcome<V>)

  /** A call awaits a computation; `resumed` once it has gone on. */
  datatype Caller<+K> = Caller(key: K, awaits: nat, resumed: bool)

  /** All computations started, the one the cache holds, and all calls made. */
  datatype State<+K, +V> = State(computations: seq<Computation<K, V>>, cached: Option<nat>, callers: seq<Caller<K>>)

  datatype Event<+K, +V> =
    | Ask(key: K)
    | Settle(computation: nat, outcome: Outcome<V>)
    | Resume(caller: nat)

  predicate Enabled<K, V(==)>(st: State<K, V>, e: Event<K, V>) {
    match e
    case Ask(_) => true
    case Settle(p, outcome) => p < |st.computations| && st.computations[p].outcome.Pending? && !outcome.Pending?
    case Resume(c) =>
      && c < |st.callers| && !st.callers[c].resumed && st.callers[c].awaits < |st.computations|
      && !st.computations[st.callers[c].awaits].outcome.Pending?
  }

  predicate Holds<K(==), V>(st: State<K, V>, key: K) {
    st.cached.Some? && st.cached.value < |st.computations| && st.computations[st.cached.value].key == key
  }

  function Next<K(==), V(==)>(st: State<K, V>, e: Event<K, V>): State<K, V>
    requires Enabled(st, e)
  {
    match e
    case Ask(key) =>
      if Holds(st, key) then st.(callers := st.callers + [Caller(key, st.cached.value, false)])
      else
        var p := |st.computations|;
        State(st.computations + [Computation(key, Pending)], Some(p), st.callers + [Caller(key, p, false)])
    case Settle(p, outcome) => st.(computations := st.computations[p := st.computations[p].(outcome := outcome)])
    case Resume(c) =>
      var p := st.callers[c].awaits;
      State(st.computations, if st.computations[p].outcome.Rejected? && st.cached == Some(p) then None else st.cached,
            st.callers[c := st.callers[c].(resumed := true)])
  }

  function Exec<K(==), V(==)>(st: State<K, V>, events: seq<Event<K, V>>): Option<State<K, V>>
    decreases |events|
  {
    if events == [] then Some(st)
    else if Enabled(st, events[0]) then Exec(Next(st, events[0]), events[1..])
    else None
  }

  class Cache<K(==), V(==)> {
    var computations: seq<Computation<K, V>>
    var compressionCache: Option<nat>
    var callers: seq<Caller<K>>

    ghost function Snapshot(): State<K, V>
      reads this
    {
      State(computations, compressionCache, callers)
    }

    constructor ()
      ensures Snapshot() == State([], None, [])
    {
      computations, compressionCache, callers := [], None, [];
    }

    /** Joins the cached computation for the key, or starts one. */
    method CompressOldRounds(key: K) returns (c: nat)
      modifies this
      ensures c == |old(callers)| && Snapshot() == Next(old(Snapshot()), Ask(key))
    {
      c := |callers|;
      if compressionCache == None || compressionCache.value >= |computations|
        || computations[compressionCache.value].key != key {
        compressionCache := Some(|computations|);
        computations := computations + [Computation(key, Pending)];
      }
      callers := callers + [Caller(key, compressionCache.value, false)];
    }

    /** The awaited computation has settled: its value, or nothing for the exception it throws on. */
    method OnSettled(c: nat) returns (request: Option<V>)
      requires Enabled(Snapshot(), Event<K, V>.Resume(c))
      modifies this
      ensures Snapshot() == Next(old(Snapshot()), Resume(c))
      ensures request == match computations[callers[c].awaits].outcome case Resolved(value) => Some(value) case _ => None
    {
      var p := callers[c].awaits;
      callers := callers[c := callers[c].(resumed := true)];
      match computations[p].outcome
      case Resolved(value) => request := Some(value);
      case Rejected =>
        request := None;
        if compressionCache == Some(p) {
          compressionCache := None;
        }
    }
  }

  // ---------------------------------------------------------------- what every interleaving keeps

  ghost predicate CallerFits<K, V>(st: State<K, V>, caller: Caller<K>) {
    && caller.awaits < |st.computations| && st.computations[caller.awaits].key == caller.key
    && (caller.resumed ==> !st.computations[caller.awaits].outcome.Pending?)
  }

  /** The cached computation is the last one started; if it failed, none of its callers has seen it. */
  ghost predicate CacheFits<K, V>(st: State<K, V>) {
    st.cached.Some? ==>
      && st.cached.value + 1 == |st.computations|
      && (st.computations[st.cached.value].outcome.Rejected? ==>
            forall c :: 0 <= c < |st.callers| && st.callers[c].awaits == st.cached.value ==> !st.callers[c].resumed)
  }

  ghost predicate Inv<K, V>(st: State<K, V>) {
    CacheFits(st) && forall c :: 0 <= c < |st.callers| ==> CallerFits(st, st.callers[c])
  }

  lemma StepKeepsInv<K, V>(st: State<K, V>, e: Event<K, V>)
    requires Inv(st) && Enabled(st, e)
    ensures Inv(Next(st, e))
  {
    var next := Next(st, e);
    forall c | 0 <= c < |next.callers|
      ensures CallerFits(next, next.callers[c])
    {
      assert c < |st.callers| ==> CallerFits(st, st.callers[c]);
    }
  }

  lemma {:induction false} RunKeepsInv<K, V>(st: State<K, V>, events: seq<Event<K, V>>)
    requires Inv(st)
    ensures Exec(st, events).Some? ==> Inv(Exec(st, events).value)
    decreases |events|
  {
    if events != [] && Enabled(st, events[0]) {
      StepKeepsInv(st, events[0]);
      RunKeepsInv(Next(st, events[0]), events[1..]);
    }
  }

  /**
   Over every interleaving each call awaits a computation for its own key, and a failed one is out of the
   cache as soon as one of its callers has gone on: the next call for the key computes again.
   */
  lemma FailuresAreForgotten<K, V>(events: seq<Event<K, V>>, st: State<K, V>, c: nat, key: K)
    requires Exec(State([], None, []), events) == Some(st)
    requires c < |st.callers| && st.callers[c].key == key
    ensures st.callers[c].awaits < |st.computations| && st.computations[st.callers[c].awaits].key == key
    ensures st.callers[c].resumed && st.computations[st.callers[c].awaits].outcome.Rejected? ==>
              st.cached != Some(st.callers[c].awaits)
  {
    RunKeepsInv(State<K, V>.State([], None, []), events);
    assert CallerFits(st, st.callers[c]);
  }

  /**
   The next call for a key joins the last computation exactly when that one was started for the key and
   none of its callers has seen it fail; otherwise it starts its own.
   */
  lemma NextCallSharesIff<K, V>(events: seq<Event<K, V>>, st: State<K, V>, key: K)
    requires Exec(State([], None, []), events) == Some(st)
    ensures var next := Next(st, Event<K, V>.Ask(key));
            var last := |st.computations| - 1;
            |next.computations| == |st.computations| <==>
            (last >= 0 && st.computations[last].key == key &&
             !(exists c :: 0 <= c < |st.callers| && st.callers[c].awaits == last && st.callers[c].resumed &&
                           st.computations[last].outcome.Rejected?))
  {
    RunKeepsInv(State<K, V>.State([], None, []), events);
    RunKeepsLast(State<K, V>.State([], None, []), events);
  }

  /** The cache is empty only at the start and once the last computation has failed and been seen to. */
  ghost predicate EmptyFits<K, V>(st: State<K, V>) {
    st.cached.None? && st.computations != [] ==>
      var last := |st.computations| - 1;
      && st.computations[last].outcome.Rejected?
      && exists c :: 0 <= c < |st.callers| && st.callers[c].awaits == last && st.callers[c].resumed
  }

  lemma StepKeepsLast<K, V>(st: State<K, V>, e: Event<K, V>)
    requires Inv(st) && EmptyFits(st) && Enabled(st, e)
    ensures EmptyFits(Next(st, e))
  {
    var next := Next(st, e);
    if next.cached.None? && next.computations != [] {
      var last := |st.computations| - 1;
      if st.cached.None? {
        var c :| 0 <= c < |st.callers| && st.callers[c].awaits == last && st.callers[c].resumed;
        assert next.callers[c].awaits == last && next.callers[c].resumed;
      } else {
        assert next.callers[e.caller].awaits == last && next.callers[e.caller].resumed;
      }
    }
  }

  lemma {:induction false} RunKeepsLast<K, V>(st: State<K, V>, events: seq<Event<K, V>>)
    requires Inv(st) && EmptyFits(st)
    ensures Exec(st, events).Some? ==> EmptyFits(Exec(st, events).value)
    decreases |events|
  {
    if events != [] && Enabled(st, events[0]) {
      StepKeepsInv(st, events[0]);
      StepKeepsLast(st, events[0]);
      RunKeepsLast(Next(st, events[0]), events[1..]);
    }
  }

  // ---------------------------------------------------------------- calls one after the other

  /** What a cache holds when nothing overlaps and nothing fails. */
  datatype Entry<+K, +V> = Entry(key: K, value: V)

  /** One whole call that would compute `value`: it keeps the entry for its key, or replaces what is there. */
  function Called<K(==), V>(entry: Option<Entry<K, V>>, key: K, value: V): Entry<K, V> {
    if entry.Some? && entry.value.key == key then entry.value else Entry(key, value)
  }

  function CalledAll<K(==), V>(entry: Option<Entry<K, V>>, calls: seq<(K, V)>): Option<Entry<K, V>>
    decreases |calls|
  {
    if calls == [] then entry else CalledAll(Some(Called(entry, calls[0].0, calls[0].1)), calls[1..])
  }

  function EntryOf<K, V>(st: State<K, V>): Option<Entry<K, V>> {
    if st.cached.Some? && st.cached.value < |st.computations| && st.computations[st.cached.value].outcome.Resolved?
    then Some(Entry(st.computations[st.cached.value].key, st.computations[st.cached.value].outcome.value)) else None
  }

  /** Between calls: what is cached has resolved. */
  predicate Quiet<K, V>(st: State<K, V>) {
    st.cached.Some? ==> st.cached.value < |st.computations| && st.computations[st.cached.value].outcome.Resolved?
  }

  /** The events of one whole call: it computes only if the cache is for another key. */
  function OneCall<K(==), V>(st: State<K, V>, key: K, value: V): seq<Event<K, V>> {
    [Ask(key)] + (if Holds(st, key) then [] else [Settle(|st.computations|, Resolved(value))]) + [Resume(|st.callers|)]
  }

  lemma ExecNext<K, V>(st: State<K, V>, e: Event<K, V>, rest: seq<Event<K, V>>)
    requires Enabled(st, e)
    ensures Exec(st, [e] + rest) == Exec(Next(st, e), rest)
  {
    assert ([e] + rest)[1..] == rest;
  }

  /** A whole call is answered with what the sequential cache then holds. */
  lemma OneCallIs<K, V>(st: State<K, V>, key: K, value: V) returns (next: State<K, V>)
    requires Quiet(st)
    ensures Exec(st, OneCall(st, key, value)) == Some(next) && Quiet(next)
    ensures EntryOf(next) == Some(Called(EntryOf(st), key, value))
    ensures |next.callers| == |st.callers| + 1
    ensures var caller := next.callers[|st.callers|];
            && caller.resumed && caller.awaits < |next.computations|
            && next.computations[caller.awaits].outcome == Resolved(EntryOf(next).value.value)
  {
    var resume := Event<K, V>.Resume(|st.callers|);
    var asked := Next(st, Event<K, V>.Ask(key));
    if Holds(st, key) {
      assert OneCall(st, key, value) == [Ask(key), resume];
      assert [Event<K, V>.Ask(key)] + [resume] == [Ask(key), resume] && [resume] + [] == [resume];
      next := Next(asked, resume);
      ExecNext(asked, resume, []);
      ExecNext(st, Event<K, V>.Ask(key), [resume]);
    } else {
      var settle := Event<K, V>.Settle(|st.computations|, Resolved(value));
      assert OneCall(st, key, value) == [Ask(key), settle, resume];
      assert [Event<K, V>.Ask(key)] + [settle, resume] == [Ask(key), settle, resume];
      assert [settle] + [resume] == [settle, resume] && [resume] + [] == [resume];
      next := Next(Next(asked, settle), resume);
      ExecNext(Next(asked, settle), resume, []);
      ExecNext(asked, settle, [resume]);
      ExecNext(st, Event<K, V>.Ask(key), [settle, resume]);
    }
  }

  /** States reached by whole calls, one after the other. */
  ghost predicate OneByOne<K(!new), V(!new)>(st: State<K, V>, calls: seq<(K, V)>, end: State<K, V>)
    decreases |calls|
  {
    if calls == [] then end == st
    else exists next ::
      Exec(st, OneCall(st, calls[0].0, calls[0].1)) == Some(next) && OneByOne(next, calls[1..], end)
  }

  /** Without overlap and failure the cache of promises is the cache of one request. */
  lemma {:induction false} SequentialCallsAre<K(!new), V(!new)>(st: State<K, V>, calls: seq<(K, V)>, end: State<K, V>)
    requires Quiet(st) && OneByOne(st, calls, end)
    ensures Quiet(end) && EntryOf(end) == CalledAll(EntryOf(st), calls)
    decreases |calls|
  {
    if calls != [] {
      var next := OneCallIs(st, calls[0].0, calls[0].1);
      SequentialCallsAre(next, calls[1..], end);
    }
  }

  lemma {:induction false} NoSecondAnswer<K, V>(st: State<K, V>, events: seq<Event<K, V>>, c: nat)
    requires c < |st.callers| && st.callers[c].resumed && Exec(st, events).Some?
    ensures Event<K, V>.Resume(c) !in events
    decreases |events|
  {
    if events != [] {
      NoSecondAnswer(Next(st, events[0]), events[1..], c);
      assert events == [events[0]] + events[1..];
    }
  }

  /** In any run a call is answered at most once. */
  lemma {:induction false} AnsweredOnce<K, V>(st: State<K, V>, events: seq<Event<K, V>>, i: nat, j: nat)
    requires Exec(st, events).Some? && i < j < |events| && events[i].Resume?
    ensures events[j] != events[i]
    decreases |events|
  {
    if i == 0 {
      NoSecondAnswer(Next(st, events[0]), events[1..], events[0].caller);
      assert events[1..][j - 1] == events[j];
    } else {
      AnsweredOnce(Next(st, events[0]), events[1..], i - 1, j - 1);
    }
  }
}
