/** What a dispatch meets on its way to the handler, and what refusing it and a write to the workspace do. */
module DispatchSteps {
  import opened Common
  import opened Dispatcher

  /** Results are cached and runs shared only for cacheable tools, and not for dispatches with dependencies. */
  predicate MayCache(s: State, name: string, hasDependencies: bool) {
    name in s.registry && s.registry[name].cacheable && !hasDependencies
  }

  predicate InCache(s: State, key: Key) {
    key in s.cache && s.now < s.cache[key].expiresAt
  }

  predicate CircuitOpen(s: State, name: string) {
    name in s.openUntil && s.now < s.openUntil[name]
  }

  /**
   A dispatch on entry is refused for malformed text, an open circuit or invalid arguments, in this order,
   or answered from the cache, or goes on.
   */
  function EntryOf(s: State, name: string, args: string, hasDependencies: bool, checks: Checks): Phase {
    match checks
    case Malformed(error) => Done(Fail(error, false, false), Refused)
    case Invalid(error) => Done(Fail(if CircuitOpen(s, name) then "circuit is open" else error, false, false), Refused)
    case Passed =>
      if CircuitOpen(s, name) then Done(Fail("circuit is open", false, false), Refused)
      else if MayCache(s, name, hasDependencies) && InCache(s, Key(name, args)) then
        Done(s.cache[Key(name, args)].result, Hit(Key(name, args), s.cache[Key(name, args)], s.now))
      else Preparing
  }

  /** Entering adds one dispatch and changes nothing else; an unknown tool has none. */
  lemma EntryIs(s: State, name: string, args: string, hasDependencies: bool, checks: Checks)
    ensures var next := Apply(s, DoEnter(name, args, hasDependencies, checks));
            && (name !in s.registry ==> next == s)
            && (name in s.registry ==>
                  next == s.(calls := s.calls + [Call(name, MayCache(s, name, hasDependencies), CircuitOpen(s, name), |s.history|,
                                                      EntryOf(s, name, args, hasDependencies, checks))]))
  {
  }

  /** The phase of one dispatch changes and no other. */
  ghost predicate Moves(s: State, next: State, c: nat, phase: Phase)
    requires c < |s.calls|
  {
    && |next.calls| == |s.calls| && next.calls[c] == s.calls[c].(phase := phase)
    && forall d :: 0 <= d < |s.calls| && d != c ==> next.calls[d] == s.calls[d]
  }

  /** A dispatch refused in preparation ends with the error, counts for nothing and leaves the rest alone. */
  lemma RefusalIs(s: State, c: nat, error: string)
    requires InPreparation(s, c)
    ensures var next := Apply(s, DoRefuse(c, error));
            && Moves(s, next, c, Done(Fail(error, false, false), Refused)) && next == s.(calls := next.calls)
  {
  }

  /**
   Going on, a dispatch that may cache joins the run in flight for its key unless its tool needs approval;
   otherwise it starts one.
   */
  lemma ProceedIs(s: State, c: nat, args: string, locks: set<string>)
    requires InPreparation(s, c)
    ensures var (next, name) := (Apply(s, DoProceed(c, args, locks)), s.calls[c].name);
            var (key, shares) := (Key(name, args), s.calls[c].caches && !s.registry[name].gated);
            var asked := if s.calls[c].caches then Some(key) else None;
            && next.held == s.held + multiset(locks)
            && (shares && key in s.inflight ==>
                  Moves(s, next, c, Waiting(s.inflight[key], asked, locks)) && next.runs == s.runs && next.inflight == s.inflight)
            && (!(shares && key in s.inflight) ==>
                  && Moves(s, next, c, Waiting(|s.runs|, asked, locks))
                  && next.runs == s.runs + [Run(name, asked, shares, c, Running)]
                  && next.inflight == if shares then s.inflight[key := |s.runs|] else s.inflight)
  {
  }

  /** A dispatch that may not cache stores nothing, whatever its run returns. */
  lemma UncachedStoresNothing(s: State, c: nat, activates: bool)
    requires CanResume(s, c) && s.calls[c].phase.key.None?
    ensures Apply(s, DoResume(c, activates)).cache == s.cache
  {
    var call := ResumeChanges(s, c, activates);
  }

  /** The cache after `result` of run `on` is stored under `key` for `ttl`; failures are not stored. */
  predicate Stores(s: State, next: State, key: Key, result: Result, on: nat, ttl: nat) {
    next.cache == if result.Ok? then s.cache[key := Cached(result, on, s.now, s.now + ttl)] else s.cache
  }

  /** A success is stored for the time to live of its tool, as the dispatch was answered. */
  lemma CachedIsStored(s: State, c: nat, activates: bool)
    requires CanResume(s, c) && s.calls[c].phase.key.Some?
    ensures var (next, call) := (Apply(s, DoResume(c, activates)), s.calls[c]);
            && c < |next.calls| && next.calls[c].phase.Done?
            && Stores(s, next, call.phase.key.value, next.calls[c].phase.result, call.phase.on, s.registry[call.name].ttl)
  {
    var call := ResumeChanges(s, c, activates);
  }

  /** A write to the workspace drops what the tools that read it have cached, and nothing else. */
  lemma InvalidationIs(s: State, key: Key)
    ensures var next := Apply(s, DoInvalidate);
            && next == s.(cache := next.cache)
            && (key in next.cache <==>
                  key in s.cache && key.name !in {"read_file", "read_file_chunked", "file_metadata", "list_dir", "symbol_index",
                                                  "find_references", "ast_grep", "repo_map"})
            && (key in next.cache ==> next.cache[key] == s.cache[key])
  {
  }
}
