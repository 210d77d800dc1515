/**
 Undo over whole runs: each write snapshots its file into the ledger and then leaves the file in
 whatever state it likes, its old state included when it fails.  A committed file stays out of later
 playbacks exactly when the plan's entries about it were spelled like the commit.
 */
module CompensationUndo {
  import opened Common
  import opened CompensationLedger

  /** One recorded write: the state it leaves its file in, or `None` when the file is absent afterwards. */
  datatype Write = Write(stepIndex: int, at: int, path: string, result: Option<string>)

  /** An existing file is undone by restoring its content, a new one by deleting it. */
  function Snapshot(files: Files, path: string, host: Host): Action {
    match At(files, host.resolve(path))
    case Some(content) => RestoreFileContent(path, content)
    case None => DeleteFile(path)
  }

  function FilesAfter(files: Files, writes: seq<Write>, host: Host): Files
    decreases |writes|
  {
    if writes == [] then files
    else FilesAfter(Put(files, host.resolve(writes[0].path), writes[0].result), writes[1..], host)
  }

  /** The entries the run puts into the ledger, each made before its write. */
  function Recorded(files: Files, planId: string, writes: seq<Write>, host: Host): seq<Entry>
    decreases |writes|
  {
    if writes == [] then []
    else [Entry(planId, writes[0].stepIndex, Snapshot(files, writes[0].path, host), writes[0].at)]
         + Recorded(Put(files, host.resolve(writes[0].path), writes[0].result), planId, writes[1..], host)
  }

  predicate Concerns(e: Entry, path: string, host: Host) {
    Target(e.action, host) == Some(path)
  }

  /** The first entry about a file. */
  function FirstFor(entries: seq<Entry>, path: string, host: Host): Option<Entry> {
    if entries == [] then None
    else if Concerns(entries[0], path, host) then Some(entries[0]) else FirstFor(entries[1..], path, host)
  }

  /** The last entry about a file. */
  function LastFor(entries: seq<Entry>, path: string, host: Host): Option<Entry> {
    if entries == [] then None
    else match LastFor(entries[1..], path, host)
         case Some(e) => Some(e)
         case None => if Concerns(entries[0], path, host) then Some(entries[0]) else None
  }

  /** The entry about a file with the least step and time, the latest recorded one among equals. */
  function LeastFor(entries: seq<Entry>, path: string, host: Host): Option<Entry> {
    if entries == [] then None
    else
      var rest := LeastFor(entries[1..], path, host);
      if Concerns(entries[0], path, host) && (rest == None || Before(rest.value, entries[0]))
      then Some(entries[0]) else rest
  }

  ghost predicate NoResets(entries: seq<Entry>) {
    forall e :: e in entries ==> !e.action.GitReset?
  }

  // ---------------------------------------------------------------- one file through a replay

  lemma {:induction false} ReplayDecidesByLast(files: Files, entries: seq<Entry>, path: string, host: Host)
    requires NoResets(entries)
    ensures At(Replay(files, entries, host), path) ==
            match LastFor(entries, path, host)
            case Some(e) => UndoneState(e.action)
            case None => At(files, path)
    decreases |entries|
  {
    if entries != [] {
      assert entries[0] in entries;
      ReplayDecidesByLast(Execute(entries[0].action, files, host).0, entries[1..], path, host);
    }
  }

  /** The first entry about a file holds the state the file had before the run. */
  lemma {:induction false} FirstHoldsInitial(files: Files, planId: string, writes: seq<Write>, path: string, host: Host)
    ensures match FirstFor(Recorded(files, planId, writes, host), path, host)
            case Some(e) => UndoneState(e.action) == At(files, path)
            case None => At(FilesAfter(files, writes, host), path) == At(files, path)
    decreases |writes|
  {
    if writes != [] {
      var next := Put(files, host.resolve(writes[0].path), writes[0].result);
      FirstHoldsInitial(next, planId, writes[1..], path, host);
      var e := Entry(planId, writes[0].stepIndex, Snapshot(files, writes[0].path, host), writes[0].at);
      var rest := Recorded(next, planId, writes[1..], host);
      assert ([e] + rest)[1..] == rest;
    }
  }

  lemma {:induction false} FirstAndLeastTogether(entries: seq<Entry>, path: string, host: Host)
    ensures FirstFor(entries, path, host) == None <==> LeastFor(entries, path, host) == None
    ensures LeastFor(entries, path, host).Some? ==> Concerns(LeastFor(entries, path, host).value, path, host)
  {
    if entries != [] {
      FirstAndLeastTogether(entries[1..], path, host);
    }
  }

  lemma {:induction false} LastAfterInsert(e: Entry, sorted: seq<Entry>, path: string, host: Host)
    requires InOrder(sorted)
    ensures LastFor(Insert(e, sorted), path, host) ==
            var last := LastFor(sorted, path, host);
            if Concerns(e, path, host) && (last == None || Before(last.value, e)) then Some(e) else last
  {
    if sorted != [] {
      if Before(sorted[0], e) {
        LastAfterInsert(e, sorted[1..], path, host);
        var rest := Insert(e, sorted[1..]);
        assert ([sorted[0]] + rest)[1..] == rest;
      } else {
        assert ([e] + sorted)[1..] == sorted;
        LastIsMember(sorted, path, host);
        if LastFor(sorted, path, host).Some? {
          var k :| 0 <= k < |sorted| && sorted[k] == LastFor(sorted, path, host).value;
          assert k > 0 ==> !Before(sorted[k], sorted[0]);
        }
      }
    } else {
      assert [e][1..] == [];
    }
  }

  lemma {:induction false} LastIsMember(entries: seq<Entry>, path: string, host: Host)
    ensures LastFor(entries, path, host).Some? ==> LastFor(entries, path, host).value in entries
  {
    if entries != [] {
      LastIsMember(entries[1..], path, host);
    }
  }

  /** Which entry about a file is replayed last can be read off the unsorted ledger. */
  lemma {:induction false} LastReplayedIsLeast(entries: seq<Entry>, path: string, host: Host)
    ensures LastFor(ReplayOrder(entries), path, host) == LeastFor(entries, path, host)
  {
    if entries != [] {
      LastReplayedIsLeast(entries[1..], path, host);
      ReplayOrderSorts(entries[1..]);
      LastAfterInsert(entries[0], ReplayOrder(entries[1..]), path, host);
    }
  }

  lemma {:induction false} RecordedHasNoResets(files: Files, planId: string, writes: seq<Write>, host: Host)
    ensures NoResets(Recorded(files, planId, writes, host))
    ensures forall e :: e in Recorded(files, planId, writes, host) ==> e.planId == planId
    ensures |Recorded(files, planId, writes, host)| == |writes|
    ensures forall k :: 0 <= k < |writes| ==>
              && Recorded(files, planId, writes, host)[k].stepIndex == writes[k].stepIndex
              && Recorded(files, planId, writes, host)[k].recordedAt == writes[k].at
    decreases |writes|
  {
    if writes != [] {
      RecordedHasNoResets(Put(files, host.resolve(writes[0].path), writes[0].result), planId, writes[1..], host);
    }
  }

  lemma SameFiles(a: Files, b: Files)
    requires forall p :: At(a, p) == At(b, p)
    ensures a == b
  {
    forall p
      ensures p in a <==> p in b
      ensures p in a && p in b ==> a[p] == b[p]
    {
      assert At(a, p) == At(b, p);
    }
  }

  // ---------------------------------------------------------------- the theorem

  /** For every file, the entry replayed last undoes to the same state as the entry recorded first. */
  ghost predicate LastAgreesWithFirst(entries: seq<Entry>, host: Host) {
    forall p :: FirstFor(entries, p, host).Some? ==>
      LeastFor(entries, p, host).Some? &&
      UndoneState(LeastFor(entries, p, host).value.action) == UndoneState(FirstFor(entries, p, host).value.action)
  }

  /** Playing back a run of recorded writes restores all files exactly when that agreement holds. */
  lemma UndoRestoresIff(files: Files, planId: string, writes: seq<Write>, host: Host)
    ensures var entries := Recorded(files, planId, writes, host);
            Replay(FilesAfter(files, writes, host), ReplayOrder(entries), host) == files <==>
            LastAgreesWithFirst(entries, host)
  {
    var entries := Recorded(files, planId, writes, host);
    var replayed := Replay(FilesAfter(files, writes, host), ReplayOrder(entries), host);
    forall p
      ensures At(replayed, p) ==
              match LeastFor(entries, p, host)
              case Some(e) => UndoneState(e.action)
              case None => At(files, p)
      ensures FirstFor(entries, p, host).Some? <==> LeastFor(entries, p, host).Some?
      ensures FirstFor(entries, p, host).Some? ==> UndoneState(FirstFor(entries, p, host).value.action) == At(files, p)
    {
      FileAfterUndo(files, planId, writes, p, host);
    }
    if LastAgreesWithFirst(entries, host) {
      forall p
        ensures At(replayed, p) == At(files, p)
      {
      }
      SameFiles(replayed, files);
    }
  }

  lemma FileAfterUndo(files: Files, planId: string, writes: seq<Write>, path: string, host: Host)
    ensures var entries := Recorded(files, planId, writes, host);
            && (At(Replay(FilesAfter(files, writes, host), ReplayOrder(entries), host), path) ==
                match LeastFor(entries, path, host)
                case Some(e) => UndoneState(e.action)
                case None => At(files, path))
            && (FirstFor(entries, path, host).Some? <==> LeastFor(entries, path, host).Some?)
            && (FirstFor(entries, path, host).Some? ==>
                UndoneState(FirstFor(entries, path, host).value.action) == At(files, path))
  {
    var entries := Recorded(files, planId, writes, host);
    RecordedHasNoResets(files, planId, writes, host);
    ReplayOrderSorts(entries);
    SameMembers(ReplayOrder(entries), entries);
    ReplayDecidesByLast(FilesAfter(files, writes, host), ReplayOrder(entries), path, host);
    LastReplayedIsLeast(entries, path, host);
    FirstAndLeastTogether(entries, path, host);
    FirstHoldsInitial(files, planId, writes, path, host);
  }

  lemma SameMembers(a: seq<Entry>, b: seq<Entry>)
    requires multiset(a) == multiset(b)
    ensures forall e :: e in a ==> e in b
  {
    forall e | e in a
      ensures e in b
    {
      assert e in multiset(a);
      assert e in multiset(b);
    }
  }

  /** Steps never go back and, within a step, record times strictly grow. */
  ghost predicate Advancing(writes: seq<Write>) {
    forall i, j :: 0 <= i < j < |writes| ==>
      writes[i].stepIndex < writes[j].stepIndex ||
      (writes[i].stepIndex == writes[j].stepIndex && writes[i].at < writes[j].at)
  }

  lemma {:induction false} LeastIsFirst(entries: seq<Entry>, path: string, host: Host)
    requires forall i, j :: 0 <= i < j < |entries| ==> Before(entries[j], entries[i])
    ensures LeastFor(entries, path, host) == FirstFor(entries, path, host)
  {
    if entries != [] {
      LeastIsFirst(entries[1..], path, host);
      LeastIsMember(entries[1..], path, host);
      var rest := LeastFor(entries[1..], path, host);
      if rest.Some? {
        var k :| 0 <= k < |entries[1..]| && entries[1..][k] == rest.value;
        assert Before(entries[k + 1], entries[0]);
      }
    }
  }

  lemma {:induction false} LeastIsMember(entries: seq<Entry>, path: string, host: Host)
    ensures LeastFor(entries, path, host).Some? ==> LeastFor(entries, path, host).value in entries
  {
    if entries != [] {
      LeastIsMember(entries[1..], path, host);
    }
  }

  /** Undo is an inverse for every run whose record times advance. */
  lemma UndoIsInverse(files: Files, planId: string, writes: seq<Write>, host: Host)
    requires Advancing(writes)
    ensures Replay(FilesAfter(files, writes, host), ReplayOrder(Recorded(files, planId, writes, host)), host) == files
  {
    var entries := Recorded(files, planId, writes, host);
    RecordedHasNoResets(files, planId, writes, host);
    forall p
      ensures LeastFor(entries, p, host) == FirstFor(entries, p, host)
    {
      LeastIsFirst(entries, p, host);
    }
    UndoRestoresIff(files, planId, writes, host);
  }

  /** Two overwrites of one file in one step and one clock tick are replayed in the wrong order. */
  lemma SameTickIsNotUndone(host: Host)
    requires host.resolve("f") == "f"
    ensures var files: Files := map["f" := "a"];
            var writes := [Write(1, 5, "f", Some("b")), Write(1, 5, "f", Some("c"))];
            Replay(FilesAfter(files, writes, host), ReplayOrder(Recorded(files, "p", writes, host)), host) == map["f" := "b"]
  {
    var files: Files := map["f" := "a"];
    var w0, w1 := Write(1, 5, "f", Some("b")), Write(1, 5, "f", Some("c"));
    var e0 := Entry("p", 1, RestoreFileContent("f", "a"), 5);
    var e1 := Entry("p", 1, RestoreFileContent("f", "b"), 5);
    assert [w0, w1][1..] == [w1] && [w1][1..] == [];
    var middle: Files := map["f" := "b"];
    assert Put(files, "f", Some("b")) == middle && Put(middle, "f", Some("c")) == map["f" := "c"];
    assert Recorded(map["f" := "c"], "p", [], host) == [];
    assert Recorded(middle, "p", [w1], host) == [e1];
    assert Recorded(files, "p", [w0, w1], host) == [e0, e1];
    assert [e0, e1][1..] == [e1] && [e1][1..] == [];
    assert ReplayOrder([e1]) == [e1];
    assert ReplayOrder([e0, e1]) == [e0, e1];
    assert FilesAfter(middle, [w1], host) == map["f" := "c"];
    assert FilesAfter(files, [w0, w1], host) == map["f" := "c"];
    assert Execute(e0.action, map["f" := "c"], host).0 == files && Execute(e1.action, files, host).0 == middle;
    assert Replay(middle, [], host) == middle;
    assert Replay(files, [e1], host) == middle;
  }

  // ---------------------------------------------------------------- ledgers shared by plans and steps

  lemma {:induction false} ScopedInsert(e: Entry, sorted: seq<Entry>, step: int)
    requires InOrder(sorted)
    ensures Scoped(Insert(e, sorted), Some(step)) ==
            if e.stepIndex == step then Insert(e, Scoped(sorted, Some(step))) else Scoped(sorted, Some(step))
  {
    if sorted != [] && Before(sorted[0], e) {
      ScopedInsert(e, sorted[1..], step);
      var rest := Insert(e, sorted[1..]);
      assert ([sorted[0]] + rest)[1..] == rest;
      var tail := Scoped(sorted[1..], Some(step));
      assert [] + tail == tail;
      if sorted[0].stepIndex == step {
        assert ([sorted[0]] + tail)[1..] == tail;
      } else if e.stepIndex == step {
        assert sorted[0].stepIndex > step;
      }
    } else {
      assert ([e] + sorted)[1..] == sorted;
      ScopedMembers(sorted, step);
      if e.stepIndex == step && Scoped(sorted, Some(step)) != [] {
        var head := Scoped(sorted, Some(step))[0];
        var k :| 0 <= k < |sorted| && sorted[k] == head;
        assert !Before(sorted[0], e);
        assert k > 0 ==> !Before(sorted[k], sorted[0]);
      }
    }
  }

  lemma {:induction false} ScopedMembers(entries: seq<Entry>, step: int)
    ensures forall e :: e in Scoped(entries, Some(step)) ==> e in entries && e.stepIndex == step
  {
    if entries != [] {
      ScopedMembers(entries[1..], step);
    }
  }

  /** Filtering by step after sorting, as playback does, is sorting that step's entries. */
  lemma {:induction false} ScopedOrder(entries: seq<Entry>, step: int)
    ensures Scoped(ReplayOrder(entries), Some(step)) == ReplayOrder(Scoped(entries, Some(step)))
  {
    if entries != [] {
      ScopedOrder(entries[1..], step);
      ReplayOrderSorts(entries[1..]);
      ScopedInsert(entries[0], ReplayOrder(entries[1..]), step);
      var tail := Scoped(entries[1..], Some(step));
      assert [] + tail == tail;
      assert ([entries[0]] + tail)[1..] == tail;
    }
  }

  lemma {:induction false} ScopedSplit(a: seq<Entry>, b: seq<Entry>, step: int)
    requires forall e :: e in a ==> e.stepIndex != step
    requires forall e :: e in b ==> e.stepIndex == step
    ensures Scoped(a + b, Some(step)) == b
    decreases |a| + |b|
  {
    if a != [] {
      assert (a + b)[1..] == a[1..] + b;
      assert a[0] in a;
      ScopedSplit(a[1..], b, step);
    } else if b != [] {
      assert a + b == b;
      assert b[0] in b;
      ScopedSplit([], b[1..], step);
      assert [] + b[1..] == b[1..];
    }
  }

  /**
   Rolling back the last round alone returns the files to what they were before that round, whatever
   earlier rounds of the plan recorded.
   */
  lemma StepUndoIsInverse(files: Files, planId: string, step: int, writes: seq<Write>, earlier: seq<Entry>, host: Host)
    requires Advancing(writes) && forall w :: w in writes ==> w.stepIndex == step
    requires forall e :: e in earlier ==> e.planId == planId && e.stepIndex != step
    ensures Replay(FilesAfter(files, writes, host),
                   Relevant(earlier + Recorded(files, planId, writes, host), planId, Some(step)), host) == files
  {
    var entries := Recorded(files, planId, writes, host);
    RecordedHasNoResets(files, planId, writes, host);
    forall e | e in entries
      ensures e.stepIndex == step
    {
      var k :| 0 <= k < |entries| && entries[k] == e;
      assert writes[k] in writes;
    }
    OwnEntries(earlier + entries, planId);
    ScopedOrder(earlier + entries, step);
    ScopedSplit(earlier, entries, step);
    UndoIsInverse(files, planId, writes, host);
  }

  lemma {:induction false} OwnEntries(entries: seq<Entry>, planId: string)
    requires forall e :: e in entries ==> e.planId == planId
    ensures OfPlan(entries, planId) == entries
  {
    if entries != [] {
      assert entries[0] in entries;
      OwnEntries(entries[1..], planId);
    }
  }

  // ---------------------------------------------------------------- committed files

  /** The entry may change the file; a hard reset may change any. */
  predicate Touches(e: Entry, path: string, host: Host) {
    e.action.GitReset? || Concerns(e, path, host)
  }

  lemma {:induction false} UntouchedStays(files: Files, entries: seq<Entry>, path: string, host: Host)
    requires forall e :: e in entries ==> !Touches(e, path, host)
    ensures At(Replay(files, entries, host), path) == At(files, path)
    decreases |entries|
  {
    if entries != [] {
      assert entries[0] in entries;
      UntouchedStays(Execute(entries[0].action, files, host).0, entries[1..], path, host);
    }
  }

  /** A host whose hard reset clears the work tree. */
  function Clearing(host: Host): Host {
    Host(host.resolve, (ref, files) => Some(map[]))
  }

  /** Where resets clear, the last entry that touches a file fixes its state, whatever it was before. */
  lemma {:induction false} TouchedIsFixed(entries: seq<Entry>, touching: Entry, path: string, host: Host)
    returns (state: Option<string>)
    requires touching in entries && Touches(touching, path, host)
    ensures forall files :: At(Replay(files, entries, Clearing(host)), path) == state
    decreases |entries|
  {
    var rest := entries[1..];
    if e :| e in rest && Touches(e, path, host) {
      state := TouchedIsFixed(rest, e, path, host);
    } else {
      state := UndoneState(entries[0].action);
      forall files
        ensures At(Replay(files, entries, Clearing(host)), path) == state
      {
        UntouchedStays(Execute(entries[0].action, files, Clearing(host)).0, rest, path, Clearing(host));
      }
    }
  }

  lemma RelevantMembers(entries: seq<Entry>, planId: string, onlyStep: Option<int>)
    ensures forall e :: e in Relevant(entries, planId, onlyStep) <==>
                        e in entries && e.planId == planId && InScope(e, onlyStep)
  {
    var own := OfPlan(entries, planId);
    OwnMembers(entries, planId);
    ReplayOrderSorts(own);
    SameMembers(own, ReplayOrder(own));
    SameMembers(ReplayOrder(own), own);
    ScopeMembers(ReplayOrder(own), onlyStep);
  }

  lemma {:induction false} OwnMembers(entries: seq<Entry>, planId: string)
    ensures forall e :: e in OfPlan(entries, planId) <==> e in entries && e.planId == planId
  {
    if entries != [] {
      OwnMembers(entries[1..], planId);
      assert entries == [entries[0]] + entries[1..];
    }
  }

  lemma {:induction false} ScopeMembers(entries: seq<Entry>, onlyStep: Option<int>)
    ensures forall e :: e in Scoped(entries, onlyStep) <==> e in entries && InScope(e, onlyStep)
  {
    if entries != [] {
      ScopeMembers(entries[1..], onlyStep);
      assert entries == [entries[0]] + entries[1..];
    }
  }

  lemma {:induction false} CommittedMembers(entries: seq<Entry>, planId: string, filePath: string, norm: string -> string)
    ensures forall e :: e in Committed(entries, planId, filePath, norm) <==>
                        e in entries && !(e.planId == planId && ConcernsPath(e.action, filePath, norm))
  {
    if entries != [] {
      CommittedMembers(entries[1..], planId, filePath, norm);
      assert entries == [entries[0]] + entries[1..];
    }
  }

  /** Playing back the plan, or one step of it, leaves the file in the state it is in. */
  ghost predicate Survives(files: Files, entries: seq<Entry>, planId: string, onlyStep: Option<int>, path: string, host: Host) {
    At(Replay(files, Relevant(entries, planId, onlyStep), host), path) == At(files, path)
  }

  /** Every entry of the plan that may change the file is one that names it in the committed spelling. */
  ghost predicate CommitCovers(entries: seq<Entry>, planId: string, filePath: string, norm: string -> string, host: Host) {
    forall e :: e in entries && e.planId == planId && Touches(e, host.resolve(filePath), host) ==>
      ConcernsPath(e.action, filePath, norm)
  }

  /** Whatever a reset does, whatever the file holds and whatever step is rolled back, the file stays. */
  ghost predicate AlwaysSurvives(entries: seq<Entry>, planId: string, path: string, resolve: string -> string) {
    forall files, onlyStep, reset :: Survives(files, entries, planId, onlyStep, path, Host(resolve, reset))
  }

  /** A committed file survives every later playback exactly when the plan's entries about it were all spelled alike. */
  lemma CommittedSurvivesIff(entries: seq<Entry>, planId: string, filePath: string, norm: string -> string, host: Host)
    ensures AlwaysSurvives(Committed(entries, planId, filePath, norm), planId, host.resolve(filePath), host.resolve) <==>
            CommitCovers(entries, planId, filePath, norm, host)
  {
    var left := Committed(entries, planId, filePath, norm);
    var path := host.resolve(filePath);
    CommittedMembers(entries, planId, filePath, norm);
    if CommitCovers(entries, planId, filePath, norm, host) {
      forall files, onlyStep, reset
        ensures Survives(files, left, planId, onlyStep, path, Host(host.resolve, reset))
      {
        RelevantMembers(left, planId, onlyStep);
        UntouchedStays(files, Relevant(left, planId, onlyStep), path, Host(host.resolve, reset));
      }
    } else {
      var e :| e in entries && e.planId == planId && Touches(e, path, host) && !ConcernsPath(e.action, filePath, norm);
      LeftEntryUndoes(left, e, planId, path, host);
    }
  }

  lemma LeftEntryUndoes(left: seq<Entry>, e: Entry, planId: string, path: string, host: Host)
    requires e in left && e.planId == planId && Touches(e, path, host)
    ensures !AlwaysSurvives(left, planId, path, host.resolve)
  {
    RelevantMembers(left, planId, None);
    var state := TouchedIsFixed(Relevant(left, planId, None), e, path, host);
    var files: Files := if state == None then map[path := ""] else map[];
    assert At(files, path) != state;
    assert !Survives(files, left, planId, None, path, Host(host.resolve, Clearing(host).reset));
  }

  /** After a failed edit of "./f", a committed write of "f" is rolled back by the next playback. */
  lemma RespelledCommitIsUndone(norm: string -> string, host: Host)
    requires norm("f") == "f" && norm("./f") == "./f" && host.resolve("f") == "f" && host.resolve("./f") == "f"
    ensures var entries := [Entry("p", 1, RestoreFileContent("./f", "a"), 5)];
            var left := Committed(entries, "p", "f", norm);
            Replay(map["f" := "b"], Relevant(left, "p", None), host) == map["f" := "a"]
  {
    var e := Entry("p", 1, RestoreFileContent("./f", "a"), 5);
    assert [e][1..] == [] && [e] + [] == [e];
    assert Committed([e], "p", "f", norm) == [e];
    assert OfPlan([e], "p") == [e] && ReplayOrder([e]) == [e] && Scoped([e], None) == [e];
    var undone := map["f" := "b"]["f" := "a"];
    assert Replay(undone, [], host) == undone == map["f" := "a"];
  }
}
