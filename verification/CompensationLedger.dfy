/**
 The saga log of undo actions and its playback over a file system.

 Playback sorts a plan's entries by step and then by record time, both descending, with a stable
 sort.  Undoing a run of recorded writes restores every file exactly when, for each file, the
 entry that comes last in that order undoes to the same state as the entry recorded first.
 */
module CompensationLedger {
  import opened Common

  type Files = map<string, string>

  datatype Action =
    | DeleteFile(path: string)
    | GitReset(checkpointRef: string)
    | RemoveArtifact(path: string)
    | RestoreFileContent(path: string, originalContent: string)

  datatype Entry = Entry(planId: string, stepIndex: int, action: Action, recordedAt: int)

  datatype Outcome = Outcome(action: Action, ok: bool)

  /** The parts of the host the ledger relies on: path resolution and a hard reset of the work tree. */
  datatype Host = Host(resolve: string -> string, reset: (string, Files) -> Option<Files>)

  function At(files: Files, path: string): Option<string> {
    if path in files then Some(files[path]) else None
  }

  function Put(files: Files, path: string, state: Option<string>): Files {
    match state
    case None => files - {path}
    case Some(content) => files[path := content]
  }

  /** The file an action is about, once resolved; a hard reset is about no single file. */
  function Target(action: Action, host: Host): Option<string> {
    if action.GitReset? then None else Some(host.resolve(action.path))
  }

  /** The state in which undoing `action` leaves its file. */
  function UndoneState(action: Action): Option<string> {
    if action.RestoreFileContent? then Some(action.originalContent) else None
  }

  function Execute(action: Action, files: Files, host: Host): (r: (Files, bool))
    ensures !action.GitReset? ==> r.0 == Put(files, host.resolve(action.path), UndoneState(action))
  {
    match action
    case RestoreFileContent(path, content) => (files[host.resolve(path) := content], true)
    case GitReset(ref) =>
      (match host.reset(ref, files) case Some(after) => (after, true) case None => (files, false))
    case _ =>
      var path := host.resolve(action.path);
      (files - {path}, path in files)
  }

  function Replay(files: Files, entries: seq<Entry>, host: Host): Files
    decreases |entries|
  {
    if entries == [] then files else Replay(Execute(entries[0].action, files, host).0, entries[1..], host)
  }

  /** What playback reports, one outcome for each action it replays. */
  function Outcomes(files: Files, entries: seq<Entry>, host: Host): seq<Outcome>
    decreases |entries|
  {
    if entries == [] then []
    else
      var (after, ok) := Execute(entries[0].action, files, host);
      [Outcome(entries[0].action, ok)] + Outcomes(after, entries[1..], host)
  }

  /** A file can only be removed if it is there, and a reset only done if the host knows the checkpoint. */
  predicate CanBeUndone(action: Action, files: Files, host: Host) {
    match action
    case RestoreFileContent(_, _) => true
    case GitReset(checkpoint) => host.reset(checkpoint, files).Some?
    case DeleteFile(path) => host.resolve(path) in files
    case RemoveArtifact(path) => host.resolve(path) in files
  }

  lemma ExecuteIs(action: Action, files: Files, host: Host)
    ensures Execute(action, files, host).1 == CanBeUndone(action, files, host)
    ensures !CanBeUndone(action, files, host) ==> Execute(action, files, host).0 == files
    ensures action.GitReset? && CanBeUndone(action, files, host) ==>
              Some(Execute(action, files, host).0) == host.reset(action.checkpointRef, files)
  {
    if action.DeleteFile? || action.RemoveArtifact? {
      var path := host.resolve(action.path);
      assert path !in files ==> files - {path} == files;
    }
  }

  /** Every action gets one outcome, in order, and succeeds exactly if it can be undone where the ones before it lead. */
  lemma {:induction false} OutcomeTells(files: Files, entries: seq<Entry>, host: Host, k: nat)
    requires k < |entries|
    ensures |Outcomes(files, entries, host)| == |entries|
    ensures Outcomes(files, entries, host)[k] ==
            Outcome(entries[k].action, CanBeUndone(entries[k].action, Replay(files, entries[..k], host), host))
    decreases |entries|
  {
    ExecuteIs(entries[0].action, files, host);
    var after := Execute(entries[0].action, files, host).0;
    if k > 0 {
      OutcomeTells(after, entries[1..], host, k - 1);
      assert entries[..k][0] == entries[0] && entries[..k][1..] == entries[1..][..k - 1];
    } else if |entries| > 1 {
      OutcomeTells(after, entries[1..], host, 0);
    }
  }

  // ---------------------------------------------------------------- replay order

  /** `a` is replayed strictly before `b`. */
  predicate Before(a: Entry, b: Entry) {
    a.stepIndex > b.stepIndex || (a.stepIndex == b.stepIndex && a.recordedAt > b.recordedAt)
  }

  function Insert(e: Entry, sorted: seq<Entry>): seq<Entry> {
    if sorted != [] && Before(sorted[0], e) then [sorted[0]] + Insert(e, sorted[1..]) else [e] + sorted
  }

  /** The stable sort by step descending, then record time descending. */
  function ReplayOrder(entries: seq<Entry>): seq<Entry> {
    if entries == [] then [] else Insert(entries[0], ReplayOrder(entries[1..]))
  }

  ghost predicate InOrder(entries: seq<Entry>) {
    forall i, j :: 0 <= i < j < |entries| ==> !Before(entries[j], entries[i])
  }

  lemma {:induction false} InsertIsPermutation(e: Entry, sorted: seq<Entry>)
    ensures multiset(Insert(e, sorted)) == multiset(sorted) + multiset{e}
  {
    if sorted != [] && Before(sorted[0], e) {
      InsertIsPermutation(e, sorted[1..]);
      assert sorted == [sorted[0]] + sorted[1..];
    }
  }

  /** Nothing in `entries` is replayed before `e`. */
  ghost predicate NoneBefore(e: Entry, entries: seq<Entry>) {
    forall x :: x in entries ==> !Before(x, e)
  }

  lemma NoneBeforeCons(e: Entry, rest: seq<Entry>)
    requires InOrder(rest) && NoneBefore(e, rest)
    ensures InOrder([e] + rest)
  {
  }

  lemma HeadIsFirst(sorted: seq<Entry>)
    requires InOrder(sorted) && sorted != []
    ensures NoneBefore(sorted[0], sorted) && InOrder(sorted[1..])
  {
  }

  lemma {:induction false} InsertKeepsOrder(e: Entry, sorted: seq<Entry>)
    requires InOrder(sorted)
    ensures InOrder(Insert(e, sorted))
  {
    if sorted != [] && Before(sorted[0], e) {
      HeadIsFirst(sorted);
      InsertKeepsOrder(e, sorted[1..]);
      InsertIsPermutation(e, sorted[1..]);
      var rest := Insert(e, sorted[1..]);
      forall x | x in rest
        ensures !Before(x, sorted[0])
      {
        assert x in multiset(rest);
        assert x == e || x in sorted[1..];
      }
      NoneBeforeCons(sorted[0], rest);
    } else {
      if sorted != [] {
        HeadIsFirst(sorted);
      }
      NoneBeforeCons(e, sorted);
    }
  }

  lemma {:induction false} ReplayOrderSorts(entries: seq<Entry>)
    ensures InOrder(ReplayOrder(entries))
    ensures multiset(ReplayOrder(entries)) == multiset(entries)
  {
    if entries != [] {
      ReplayOrderSorts(entries[1..]);
      InsertKeepsOrder(entries[0], ReplayOrder(entries[1..]));
      InsertIsPermutation(entries[0], ReplayOrder(entries[1..]));
      assert entries == [entries[0]] + entries[1..];
    }
  }

  function OfPlan(entries: seq<Entry>, planId: string): seq<Entry> {
    if entries == [] then []
    else (if entries[0].planId == planId then [entries[0]] else []) + OfPlan(entries[1..], planId)
  }

  predicate InScope(e: Entry, onlyStep: Option<int>) {
    onlyStep == None || e.stepIndex == onlyStep.value
  }

  function Scoped(entries: seq<Entry>, onlyStep: Option<int>): seq<Entry> {
    if entries == [] then []
    else (if InScope(entries[0], onlyStep) then [entries[0]] else []) + Scoped(entries[1..], onlyStep)
  }

  /** What playback replays, in the order it replays it. */
  function Relevant(entries: seq<Entry>, planId: string, onlyStep: Option<int>): seq<Entry> {
    Scoped(ReplayOrder(OfPlan(entries, planId)), onlyStep)
  }

  /** What playback leaves in the ledger. */
  function Remaining(entries: seq<Entry>, planId: string, onlyStep: Option<int>): seq<Entry> {
    if entries == [] then []
    else (if entries[0].planId == planId && InScope(entries[0], onlyStep) then [] else [entries[0]])
         + Remaining(entries[1..], planId, onlyStep)
  }

  // ---------------------------------------------------------------- the ledger

  class FileStore {
    var files: Files
    constructor (files: Files)
      ensures this.files == files
    {
      this.files := files;
    }
  }

  const CAP_LIMIT: nat := 256
  const DEFAULT_CAP: nat := 32

  /** The setting, if it is a positive number, up to the limit. */
  function MaxActions(configured: Option<int>): nat {
    match configured
    case Some(n) => if n > 0 then if n < CAP_LIMIT then n else CAP_LIMIT else DEFAULT_CAP
    case None => DEFAULT_CAP
  }

  lemma MaxActionsIs(configured: Option<int>)
    ensures 1 <= MaxActions(configured) <= 256
    ensures configured.Some? && 1 <= configured.value <= 256 ==> MaxActions(configured) == configured.value
    ensures configured.Some? && configured.value > 256 ==> MaxActions(configured) == 256
    ensures configured.None? || configured.value <= 0 ==> MaxActions(configured) == 32
  {
  }

  class Ledger {
    var entries: seq<Entry>

    /** No plan holds more entries than the largest cap that can be configured. */
    ghost predicate Valid()
      reads this
    {
      forall planId :: |OfPlan(entries, planId)| <= CAP_LIMIT
    }

    constructor ()
      ensures Valid() && entries == []
    {
      entries := [];
    }

    /** False stands for the exception raised when the plan holds as many entries as are configured. */
    method Record(planId: string, stepIndex: int, action: Action, now: int, enabled: bool, configured: Option<int>)
      returns (accepted: bool)
      requires Valid()
      modifies this
      ensures Valid()
      ensures accepted == (!enabled || |OfPlan(old(entries), planId)| < MaxActions(configured))
      ensures entries == if enabled && accepted then old(entries) + [Entry(planId, stepIndex, action, now)] else old(entries)
    {
      if !enabled {
        return true;
      }
      if |OfPlan(entries, planId)| >= MaxActions(configured) {
        return false;
      }
      var entry := Entry(planId, stepIndex, action, now);
      forall p
        ensures OfPlan(entries + [entry], p) == OfPlan(entries, p) + if p == planId then [entry] else []
      {
        OfPlanAppend(entries, entry, p);
      }
      entries := entries + [entry];
      accepted := true;
    }

    method Playback(planId: string, onlyStep: Option<int>, store: FileStore, host: Host)
      returns (results: seq<Outcome>)
      requires Valid()
      modifies this, store
      ensures Valid()
      ensures store.files == Replay(old(store.files), Relevant(old(entries), planId, onlyStep), host)
      ensures entries == Remaining(old(entries), planId, onlyStep)
      ensures results == Outcomes(old(store.files), Relevant(old(entries), planId, onlyStep), host)
    {
      var relevant := Relevant(entries, planId, onlyStep);
      results := [];
      var k := 0;
      while k < |relevant|
        modifies store
        invariant 0 <= k <= |relevant|
        invariant Replay(store.files, relevant[k..], host) == Replay(old(store.files), relevant, host)
        invariant results + Outcomes(store.files, relevant[k..], host) == Outcomes(old(store.files), relevant, host)
      {
        assert relevant[k..][1..] == relevant[k + 1..];
        var after := Execute(relevant[k].action, store.files, host);
        store.files := after.0;
        Assoc(results, [Outcome(relevant[k].action, after.1)], Outcomes(after.0, relevant[k + 1..], host));
        results := results + [Outcome(relevant[k].action, after.1)];
        k := k + 1;
      }
      forall p
        ensures |OfPlan(Remaining(entries, planId, onlyStep), p)| <= |OfPlan(entries, p)|
      {
        RemainingByPlan(entries, planId, onlyStep, p);
      }
      entries := Remaining(entries, planId, onlyStep);
    }

    /** Drops the plan's pending undo actions for a path; `norm` is the separator and blank normalisation. */
    method CommitPath(planId: string, filePath: string, norm: string -> string)
      requires Valid()
      modifies this
      ensures Valid()
      ensures entries == if norm(filePath) == "" then old(entries) else Committed(old(entries), planId, filePath, norm)
    {
      if norm(filePath) == "" {
        return;
      }
      forall p
        ensures |OfPlan(Committed(entries, planId, filePath, norm), p)| <= |OfPlan(entries, p)|
      {
        CommittedByPlan(entries, planId, filePath, norm, p);
      }
      entries := Committed(entries, planId, filePath, norm);
    }

    method Clear(planId: string)
      requires Valid()
      modifies this
      ensures Valid() && entries == Remaining(old(entries), planId, None)
    {
      forall p
        ensures |OfPlan(Remaining(entries, planId, None), p)| <= |OfPlan(entries, p)|
      {
        RemainingByPlan(entries, planId, None, p);
      }
      entries := Remaining(entries, planId, None);
    }
  }

  predicate ConcernsPath(action: Action, filePath: string, norm: string -> string) {
    (action.DeleteFile? || action.RestoreFileContent?) && norm(action.path) == norm(filePath)
  }

  function Committed(entries: seq<Entry>, planId: string, filePath: string, norm: string -> string): seq<Entry> {
    if entries == [] then []
    else (if entries[0].planId == planId && ConcernsPath(entries[0].action, filePath, norm) then [] else [entries[0]])
         + Committed(entries[1..], planId, filePath, norm)
  }

  lemma {:induction false} OfPlanAppend(entries: seq<Entry>, e: Entry, planId: string)
    ensures OfPlan(entries + [e], planId) == OfPlan(entries, planId) + if e.planId == planId then [e] else []
  {
    if entries == [] {
      assert [] + [e] == [e];
      assert [e][1..] == [];
    } else {
      OfPlanAppend(entries[1..], e, planId);
      assert (entries + [e])[0] == entries[0] && (entries + [e])[1..] == entries[1..] + [e];
      var head := if entries[0].planId == planId then [entries[0]] else [];
      assert OfPlan(entries + [e], planId) == head + OfPlan(entries[1..] + [e], planId);
    }
  }

  /** Playback leaves the entries of other plans as they were. */
  lemma {:induction false} RemainingByPlan(entries: seq<Entry>, planId: string, onlyStep: Option<int>, p: string)
    ensures p != planId ==> OfPlan(Remaining(entries, planId, onlyStep), p) == OfPlan(entries, p)
    ensures |OfPlan(Remaining(entries, planId, onlyStep), p)| <= |OfPlan(entries, p)|
  {
    if entries != [] {
      RemainingByPlan(entries[1..], planId, onlyStep, p);
      var e, rest := entries[0], Remaining(entries[1..], planId, onlyStep);
      if e.planId == planId && InScope(e, onlyStep) {
        assert [] + rest == rest;
      } else {
        assert ([e] + rest)[1..] == rest;
        assert OfPlan([e] + rest, p) == (if e.planId == p then [e] else []) + OfPlan(rest, p);
      }
    }
  }

  /** Playback takes exactly the entries it replays: none in scope is left, and no other is gone. */
  lemma {:induction false} PlaybackTakesReplayed(entries: seq<Entry>, planId: string, onlyStep: Option<int>)
    ensures forall e :: e in Remaining(entries, planId, onlyStep) <==>
                        e in entries && !(e.planId == planId && InScope(e, onlyStep))
    ensures |Remaining(entries, planId, onlyStep)| + |Scoped(OfPlan(entries, planId), onlyStep)| == |entries|
  {
    if entries != [] {
      PlaybackTakesReplayed(entries[1..], planId, onlyStep);
      assert entries == [entries[0]] + entries[1..];
      var own := OfPlan(entries[1..], planId);
      assert ([entries[0]] + own)[1..] == own && [] + own == own;
    }
  }

  /** A commit takes the plan's entries that would delete or restore the file under that name, and no other. */
  lemma {:induction false} CommitTakes(entries: seq<Entry>, planId: string, filePath: string, norm: string -> string)
    ensures forall e :: e in Committed(entries, planId, filePath, norm) <==>
                        e in entries && !(e.planId == planId && (e.action.DeleteFile? || e.action.RestoreFileContent?)
                                          && norm(e.action.path) == norm(filePath))
  {
    if entries != [] {
      CommitTakes(entries[1..], planId, filePath, norm);
      assert entries == [entries[0]] + entries[1..];
    }
  }

  lemma {:induction false} CommittedByPlan(entries: seq<Entry>, planId: string, filePath: string,
                                           norm: string -> string, p: string)
    ensures |OfPlan(Committed(entries, planId, filePath, norm), p)| <= |OfPlan(entries, p)|
    ensures p != planId ==> OfPlan(Committed(entries, planId, filePath, norm), p) == OfPlan(entries, p)
  {
    if entries != [] {
      CommittedByPlan(entries[1..], planId, filePath, norm, p);
      var e, rest := entries[0], Committed(entries[1..], planId, filePath, norm);
      if e.planId == planId && ConcernsPath(e.action, filePath, norm) {
        assert [] + rest == rest;
      } else {
        assert ([e] + rest)[1..] == rest;
        assert OfPlan([e] + rest, p) == (if e.planId == p then [e] else []) + OfPlan(rest, p);
      }
    }
  }
}
