/**
 Runs of the titler: calls and the updates they wait for, pending marks, spacing of attempts, and two
 requests for one chat.
 */
module TitleRuns {
  import opened Common
  import opened ChatTitles
  import Metadata = ChatMetadata

  // ---------------------------------------------------------------- calls and the updates they wait for

  /** An update of the titler that has not settled belongs to the call that waits for it. */
  ghost predicate TicketFits(chat: Chat, t: nat)
    requires t < |chat.chain.tickets|
  {
    var x := chat.chain.tickets[t];
    CallOf(x.job).Some? && !x.phase.Settled? ==>
      var k := CallOf(x.job).value;
      && k < |chat.calls| && chat.calls[k].ticket == t
      && (if x.job.CountTurn? then chat.calls[k].phase.Counting? || (chat.calls[k].phase.Reserved? && x.phase.Computed?)
          else chat.calls[k].phase.Setting?)
  }

  /** A call that waits, waits for its own count or title; a reservation is made when the count computes. */
  ghost predicate CallFits(chat: Chat, k: nat)
    requires k < |chat.calls|
  {
    var call := chat.calls[k];
    && (call.phase.Counting? || call.phase.Reserved? ==>
          && call.ticket < |chat.chain.tickets|
          && chat.chain.tickets[call.ticket].job.CountTurn? && chat.chain.tickets[call.ticket].job.counter == k)
    && (call.phase.Reserved? ==>
          chat.chain.tickets[call.ticket].phase.Computed? || chat.chain.tickets[call.ticket].phase.Settled?)
    && (call.phase.Setting? ==>
          && call.ticket < |chat.chain.tickets|
          && chat.chain.tickets[call.ticket].job.SetTitle? && chat.chain.tickets[call.ticket].job.setter == k)
  }

  ghost predicate Fits(chat: Chat) {
    && Metadata.Inv(chat.chain)
    && (forall t: nat :: t < |chat.chain.tickets| ==> TicketFits(chat, t))
    && (forall k: nat :: k < |chat.calls| ==> CallFits(chat, k))
  }

  lemma SubmitFits(chat: Chat, update: Update)
    requires Fits(chat)
    ensures Fits(Submitted(chat, Edit(update)))
  {
    var next := Submitted(chat, Edit(update));
    Metadata.StepKeepsInv(chat.chain, Metadata.Event.Submit(Edit(update)));
    forall t: nat | t < |next.chain.tickets|
      ensures TicketFits(next, t)
    {
      assert t < |chat.chain.tickets| ==> TicketFits(chat, t);
    }
    forall k: nat | k < |next.calls|
      ensures CallFits(next, k)
    {
      assert CallFits(chat, k);
    }
  }

  lemma RecordFits(chat: Chat, e: Event, room: bool)
    requires Fits(chat) && e.RecordTurn? && Enabled(chat, e)
    ensures Fits(Next(chat, e, room))
  {
    var next := Next(chat, e, room);
    Metadata.StepKeepsInv(chat.chain, Metadata.Event.Submit(CountTurn(|chat.calls|)));
    forall t: nat | t < |next.chain.tickets|
      ensures TicketFits(next, t)
    {
      assert t < |chat.chain.tickets| ==> TicketFits(chat, t);
    }
    forall k: nat | k < |next.calls|
      ensures CallFits(next, k)
    {
      assert k < |chat.calls| ==> CallFits(chat, k);
    }
  }

  /** Moving one ticket on, none back to waiting, and changing at most the call it belongs to. */
  lemma MovedFits(chat: Chat, next: Chat, t: nat)
    requires Fits(chat) && t < |chat.chain.tickets| && Metadata.Inv(next.chain) && |next.calls| == |chat.calls|
    requires |next.chain.tickets| == |chat.chain.tickets|
    requires next.chain.tickets == chat.chain.tickets[t := chat.chain.tickets[t].(phase := next.chain.tickets[t].phase)]
    requires forall k: nat :: k < |chat.calls| && Some(k) != CallOf(chat.chain.tickets[t].job) ==> next.calls[k] == chat.calls[k]
    requires TicketFits(next, t)
    requires forall k: nat :: k < |chat.calls| && Some(k) == CallOf(chat.chain.tickets[t].job) ==> CallFits(next, k)
    requires !chat.chain.tickets[t].phase.Settled?
    requires chat.chain.tickets[t].phase.Computed? ==> next.chain.tickets[t].phase.Settled?
    ensures Fits(next)
  {
    forall u: nat | u < |next.chain.tickets|
      ensures TicketFits(next, u)
    {
      assert TicketFits(chat, u) && TicketFits(chat, t);
    }
    forall k: nat | k < |next.calls|
      ensures CallFits(next, k)
    {
      assert CallFits(chat, k);
    }
  }

  lemma ComputeFits(chat: Chat, t: nat, room: bool)
    requires Fits(chat) && Enabled(chat, Compute(t))
    ensures Fits(AfterCompute(chat, t, room))
  {
    var ticket := chat.chain.tickets[t];
    var next := AfterCompute(chat, t, room);
    Metadata.StepKeepsInv(chat.chain, Metadata.Event.Compute(t, ReplyOf(chat, ticket.job, ticket.phase.read, room)));
    assert TicketFits(chat, t);
    if CallOf(ticket.job).Some? {
      assert CallFits(chat, CallOf(ticket.job).value);
    }
    MovedFits(chat, next, t);
  }

  lemma MoveChanges(chat: Chat, step: Metadata.Event<Job, Meta>)
    requires Enabled(chat, Move(step))
    ensures AfterMove(chat, step).chain == Metadata.Next(chat.chain, step) && AfterMove(chat, step).calls == chat.calls
  {
  }

  lemma MoveFits(chat: Chat, step: Metadata.Event<Job, Meta>)
    requires Fits(chat) && Enabled(chat, Move(step))
    ensures Fits(AfterMove(chat, step))
  {
    Metadata.StepKeepsInv(chat.chain, step);
    MoveChanges(chat, step);
    ChainMoves(chat, AfterMove(chat, step), step);
  }

  lemma ChainMoves(chat: Chat, next: Chat, step: Metadata.Event<Job, Meta>)
    requires Fits(chat) && Metadata.Enabled(chat.chain, step) && !step.Submit? && !step.Compute?
    requires next.chain == Metadata.Next(chat.chain, step) && next.calls == chat.calls && Metadata.Inv(next.chain)
    ensures Fits(next)
  {
    match step {
      case Release(t) => SameFits(chat, next);
      case Delete => SameFits(chat, next);
      case Load(t, _) => TicketMoves(chat, next, t);
      case Commit(t) => TicketMoves(chat, next, t);
      case Fail(t) => TicketMoves(chat, next, t);
    }
  }

  lemma SameFits(chat: Chat, next: Chat)
    requires Fits(chat) && Metadata.Inv(next.chain) && next.chain.tickets == chat.chain.tickets && next.calls == chat.calls
    ensures Fits(next)
  {
    forall t: nat | t < |next.chain.tickets|
      ensures TicketFits(next, t)
    {
      assert TicketFits(chat, t);
    }
    forall k: nat | k < |next.calls|
      ensures CallFits(next, k)
    {
      assert CallFits(chat, k);
    }
  }

  lemma TicketMoves(chat: Chat, next: Chat, t: nat)
    requires Fits(chat) && t < |chat.chain.tickets| && Metadata.Inv(next.chain) && next.calls == chat.calls
    requires |next.chain.tickets| == |chat.chain.tickets|
    requires next.chain.tickets == chat.chain.tickets[t := chat.chain.tickets[t].(phase := next.chain.tickets[t].phase)]
    requires !chat.chain.tickets[t].phase.Settled?
    requires next.chain.tickets[t].phase.Settled? || (chat.chain.tickets[t].phase.Waiting? && next.chain.tickets[t].phase.Loaded?)
    ensures Fits(next)
  {
    assert TicketFits(chat, t);
    if CallOf(chat.chain.tickets[t].job).Some? {
      assert CallFits(chat, CallOf(chat.chain.tickets[t].job).value);
    }
    MovedFits(chat, next, t);
  }

  /** Changing a call no unsettled update belongs to. */
  lemma CallMoves(chat: Chat, k: nat, phase: Phase)
    requires Fits(chat) && k < |chat.calls|
    requires chat.calls[k].phase.Asking? || chat.calls[k].phase.Closing? || Metadata.IsSettled(chat.chain, chat.calls[k].ticket)
    requires phase.Asking? || phase.Closing? || phase.Ended?
    ensures Fits(SetPhase(chat, k, phase))
  {
    var next := SetPhase(chat, k, phase);
    forall t: nat | t < |next.chain.tickets|
      ensures TicketFits(next, t)
    {
      assert TicketFits(chat, t);
    }
    forall j: nat | j < |next.calls|
      ensures CallFits(next, j)
    {
      assert CallFits(chat, j);
    }
  }

  lemma TitleFits(chat: Chat, k: nat, title: string, room: bool)
    requires Fits(chat) && Enabled(chat, Answered(k, Some(title)))
    ensures Fits(Next(chat, Answered(k, Some(title)), room))
  {
    var next := Next(chat, Answered(k, Some(title)), room);
    Metadata.StepKeepsInv(chat.chain, Metadata.Event.Submit(SetTitle(k, title)));
    forall t: nat | t < |next.chain.tickets|
      ensures TicketFits(next, t)
    {
      assert t < |chat.chain.tickets| ==> TicketFits(chat, t);
    }
    forall j: nat | j < |next.calls|
      ensures CallFits(next, j)
    {
      assert CallFits(chat, j);
    }
  }

  lemma StepFits(chat: Chat, e: Event, room: bool)
    requires Fits(chat) && Enabled(chat, e)
    ensures Fits(Next(chat, e, room))
  {
    match e {
      case Submit(update) => SubmitFits(chat, update);
      case RecordTurn(_, _) => RecordFits(chat, e, room);
      case Compute(t) => ComputeFits(chat, t, room);
      case Move(step) => MoveFits(chat, step);
      case Resume(k) => CallMoves(chat, k, Resumed(chat, k));
      case Answered(k, answer) =>
        if answer.None? {
          CallMoves(chat, k, Closing);
        } else {
          TitleFits(chat, k, answer.value, room);
        }
      case Close(k) => CallMoves(chat, k, Ended);
    }
  }

  ghost predicate AllFit(st: State) {
    forall c :: c in st.chats ==> Fits(st.chats[c])
  }

  lemma {:induction false} RunKeepsFits(st: State, events: seq<(ChatId, Event)>)
    requires AllFit(st)
    ensures Exec(st, events).Some? ==> AllFit(Exec(st, events).value)
    decreases |events|
  {
    if events != [] {
      var (c, e) := events[0];
      if c in st.chats && Enabled(st.chats[c], e) {
        StepFits(st.chats[c], e, Room(st, c));
        RunKeepsFits(Step(st, c, e), events[1..]);
      }
    }
  }

  /**
   Over every run of turns, answers, edits, failures and deletions, each record that exists is the last
   one written, and each was computed from the one written just before it.
   */
  lemma RecordsAreLinked(start: State, events: seq<(ChatId, Event)>, st: State, c: ChatId)
    requires IsStart(start) && Exec(start, events) == Some(st) && c in st.chats
    ensures var chain := st.chats[c].chain;
            && Metadata.Linked(chain.initial, chain.writes) && Metadata.WritesFit(chain)
            && (chain.file.Some? ==> chain.file == Metadata.Last(chain.initial, chain.writes))
  {
    forall d | d in start.chats
      ensures Fits(start.chats[d])
    {
      NewChatFits(start.chats[d]);
    }
    RunKeepsFits(start, events);
    assert Fits(st.chats[c]);
  }

  /** A late count or title never brings a deleted chat back. */
  lemma {:induction false} DeletedStaysDeleted(st: State, events: seq<(ChatId, Event)>, c: ChatId)
    requires c in st.chats && st.chats[c].chain.file.None?
    ensures Exec(st, events).Some? ==> c in Exec(st, events).value.chats && Exec(st, events).value.chats[c].chain.file.None?
    decreases |events|
  {
    if events != [] {
      var (d, e) := events[0];
      if d in st.chats && Enabled(st.chats[d], e) {
        assert Next(st.chats[d], e, Room(st, d)).chain.file.Some? ==> st.chats[d].chain.file.Some?;
        DeletedStaysDeleted(Step(st, d, e), events[1..], c);
      }
    }
  }

  // ---------------------------------------------------------------- at most one request per chat

  predicate Active(call: Call) {
    call.phase.Reserved? || call.phase.Asking? || call.phase.Setting? || call.phase.Closing?
  }

  /** Calls under way are marked, and there is at most one. */
  ghost predicate Marks(chat: Chat, marked: bool) {
    && (forall k :: 0 <= k < |chat.calls| && Active(chat.calls[k]) ==> marked)
    && (forall j, k :: 0 <= j < k < |chat.calls| ==> !(Active(chat.calls[j]) && Active(chat.calls[k])))
  }

  /** No count was rejected so far. */
  ghost predicate CountsSettle(chat: Chat) {
    forall t :: 0 <= t < |chat.chain.tickets| && chat.chain.tickets[t].job.CountTurn? ==> !WasRejected(chat, t)
  }

  ghost predicate MarkInv(st: State) {
    && |st.pending| <= MAX_PENDING
    && forall c :: c in st.chats ==> Fits(st.chats[c]) && CountsSettle(st.chats[c]) && Marks(st.chats[c], c in st.pending)
  }

  /** The write of a count throws. */
  ghost predicate FailsCount(chat: Chat, e: Event) {
    e.Move? && e.step.Fail? && e.step.t < |chat.chain.tickets| && chat.chain.tickets[e.step.t].job.CountTurn?
  }

  lemma StepSettlesCounts(chat: Chat, e: Event, room: bool)
    requires CountsSettle(chat) && Enabled(chat, e) && !FailsCount(chat, e)
    ensures CountsSettle(Next(chat, e, room))
  {
    var next := Next(chat, e, room);
    forall t: nat | t < |next.chain.tickets| && next.chain.tickets[t].job.CountTurn?
      ensures !WasRejected(next, t)
    {
      assert t < |chat.chain.tickets| && chat.chain.tickets[t].job.CountTurn? ==> !WasRejected(chat, t);
    }
  }

  lemma ComputeKeepsMarks(chat: Chat, t: nat, marked: bool, room: bool)
    requires Fits(chat) && Marks(chat, marked) && Enabled(chat, Compute(t)) && (room ==> !marked)
    ensures Marks(AfterCompute(chat, t, room), marked || Reserves(chat, t, room))
  {
    assert TicketFits(chat, t);
  }

  lemma ResumeKeepsMarks(chat: Chat, k: nat, marked: bool)
    requires Fits(chat) && CountsSettle(chat) && Marks(chat, marked) && Enabled(chat, Resume(k))
    ensures Marks(SetPhase(chat, k, Resumed(chat, k)), marked) && !CountRejected(chat, k)
  {
    assert CallFits(chat, k);
  }

  /** What one step does to the marks of its chat. */
  lemma StepKeepsMarks(st: State, c: ChatId, e: Event)
    requires MarkInv(st) && c in st.chats && Enabled(st.chats[c], e)
    ensures Marks(Step(st, c, e).chats[c], c in PendingAfter(st, c, e))
  {
    var chat, marked := st.chats[c], c in st.pending;
    assert Marks(chat, marked);
    match e {
      case Resume(k) => ResumeKeepsMarks(chat, k, marked);
      case Compute(t) => ComputeKeepsMarks(chat, t, marked, Room(st, c));
      case Move(step) => MoveChanges(chat, step);
      case _ =>
    }
  }

  lemma PendingIsSmall(st: State, c: ChatId, e: Event)
    requires |st.pending| <= MAX_PENDING && c in st.chats && Enabled(st.chats[c], e)
    ensures |PendingAfter(st, c, e)| <= MAX_PENDING
    ensures forall d :: d != c ==> (d in PendingAfter(st, c, e) <==> d in st.pending)
  {
    if c in st.pending {
      assert st.pending == (st.pending - {c}) + {c};
    }
  }

  lemma StepKeepsMarkInv(st: State, c: ChatId, e: Event)
    requires MarkInv(st) && c in st.chats && Enabled(st.chats[c], e) && !FailsCount(st.chats[c], e)
    ensures MarkInv(Step(st, c, e))
  {
    var room := Room(st, c);
    StepFits(st.chats[c], e, room);
    StepSettlesCounts(st.chats[c], e, room);
    StepKeepsMarks(st, c, e);
    PendingIsSmall(st, c, e);
  }

  /** No count's write throws along the run. */
  ghost predicate CountsNeverFail(st: State, events: seq<(ChatId, Event)>)
    decreases |events|
  {
    events != [] ==>
      var (c, e) := events[0];
      c in st.chats && Enabled(st.chats[c], e) ==> !FailsCount(st.chats[c], e) && CountsNeverFail(Step(st, c, e), events[1..])
  }

  lemma {:induction false} RunKeepsMarkInv(st: State, events: seq<(ChatId, Event)>)
    requires MarkInv(st) && CountsNeverFail(st, events)
    ensures Exec(st, events).Some? ==> MarkInv(Exec(st, events).value)
    decreases |events|
  {
    if events != [] {
      var (c, e) := events[0];
      if c in st.chats && Enabled(st.chats[c], e) {
        StepKeepsMarkInv(st, c, e);
        RunKeepsMarkInv(Step(st, c, e), events[1..]);
      }
    }
  }

  lemma NewChatFits(chat: Chat)
    requires IsNew(chat)
    ensures Fits(chat) && CountsSettle(chat) && Marks(chat, false)
  {
  }

  /** While no count's write throws, at most two chats are pending, and each has at most one request, which is marked. */
  lemma RequestsAreBounded(start: State, events: seq<(ChatId, Event)>, st: State)
    requires IsStart(start) && CountsNeverFail(start, events) && Exec(start, events) == Some(st)
    ensures |st.pending| <= 2
    ensures forall c :: c in st.chats ==> Marks(st.chats[c], c in st.pending)
  {
    forall c | c in start.chats
      ensures Fits(start.chats[c]) && CountsSettle(start.chats[c]) && Marks(start.chats[c], c in start.pending)
    {
      NewChatFits(start.chats[c]);
    }
    RunKeepsMarkInv(start, events);
  }

  /** A count that was rejected leaves the marks right exactly when no other call of the chat is under way. */
  lemma FailedCountKeepsMarksIff(st: State, c: ChatId, k: nat)
    requires c in st.chats && Marks(st.chats[c], c in st.pending)
    requires Enabled(st.chats[c], Resume(k)) && CountRejected(st.chats[c], k)
    ensures Marks(Step(st, c, Resume(k)).chats[c], c in Step(st, c, Resume(k)).pending) <==>
            forall j :: 0 <= j < |st.chats[c].calls| && j != k ==> !Active(st.chats[c].calls[j])
  {
    var next := Step(st, c, Resume(k));
    if j :| 0 <= j < |st.chats[c].calls| && j != k && Active(st.chats[c].calls[j]) {
      assert next.chats[c].calls[j] == st.chats[c].calls[j];
    }
  }

  // ---------------------------------------------------------------- what the record knows of attempts and landings

  /** Updates from elsewhere that leave the titler's own progress alone. */
  ghost predicate KeepsProgress(update: Update) {
    forall m :: update(m).Replace? ==> update(m).record.autoTitle == m.autoTitle
  }

  ghost predicate Spaced(times: seq<int>) {
    forall i :: 0 < i < |times| ==> times[i] - times[i - 1] >= RETITLE_INTERVAL_MS
  }

  ghost predicate Ascending(turns: seq<int>) {
    forall i, j :: 0 <= i < j < |turns| ==> turns[i] <= turns[j]
  }

  /** A computed record is what its job makes of the one it was computed from. */
  ghost predicate Derived(calls: seq<Call>, job: Job, before: Meta, record: Meta) {
    match job
    case Edit(update) => record.autoTitle == before.autoTitle
    case CountTurn(k) =>
      && k < |calls| && record == Counted(before, calls[k].now, calls[k].phase.Reserved?)
      && (calls[k].phase.Reserved? ==> Due(before, calls[k].now) && calls[k].attemptTurn == Progress(before).completedTurns + 1)
    case SetTitle(k, title) => k < |calls| && Lands(before, calls[k]) && record == Titled(before, calls[k], title)
  }

  ghost predicate TicketProgress(chat: Chat, t: nat)
    requires t < |chat.chain.tickets|
  {
    var x := chat.chain.tickets[t];
    && (x.job.Edit? && !x.phase.Settled? ==> KeepsProgress(x.job.update))
    && (x.phase.Loaded? ==> AttemptCounted(x.phase.read))
    && (x.phase.Computed? ==> Derived(chat.calls, x.job, x.phase.before, x.phase.record))
  }

  /** The record knows the last attempt, and no title of a later attempt has landed. */
  ghost predicate FileProgress(attempts: seq<int>, landings: seq<int>, m: Meta) {
    && AttemptCounted(m)
    && (attempts != [] ==> Progress(m).lastAttemptAt == attempts[|attempts| - 1])
    && (landings != [] ==> landings[|landings| - 1] <= Progress(m).lastAttemptTurn)
  }

  ghost predicate Logged(chat: Chat) {
    && Spaced(chat.attempts) && Ascending(chat.landings)
    && (forall i :: 0 <= i < |chat.attempts| ==> chat.attempts[i] > 0)
    && (chat.chain.file.Some? ==> FileProgress(chat.attempts, chat.landings, chat.chain.file.value))
  }

  ghost predicate ProgressInv(chat: Chat) {
    && Fits(chat) && Logged(chat)
    && (forall t: nat :: t < |chat.chain.tickets| ==> TicketProgress(chat, t))
    && (forall k :: 0 <= k < |chat.calls| ==> chat.calls[k].now > 0)
  }

  ghost predicate Harmless(e: Event) {
    e.Submit? ==> KeepsProgress(e.update)
  }

  /** Writing the record of the running update. */
  lemma CommitLogs(chat: Chat, t: nat)
    requires ProgressInv(chat) && Enabled(chat, Move(Metadata.Event.Commit(t))) && chat.chain.file.Some?
    ensures Logged(AfterMove(chat, Metadata.Event.Commit(t)))
  {
    var x := chat.chain.tickets[t];
    assert Metadata.Fresh(chat.chain.file, x.phase);
    assert TicketProgress(chat, t) && TicketFits(chat, t);
    match x.job {
      case Edit(_) => assert Progress(x.phase.record) == Progress(x.phase.before);
      case CountTurn(k) => CountLogs(chat, chat.calls[k], x.phase.before);
      case SetTitle(k, title) => TitleLogs(chat, chat.calls[k], x.phase.before, title);
    }
  }

  lemma CountLogs(chat: Chat, call: Call, m: Meta)
    requires Spaced(chat.attempts) && FileProgress(chat.attempts, chat.landings, m) && call.now > 0
    requires forall i :: 0 <= i < |chat.attempts| ==> chat.attempts[i] > 0
    requires call.phase.Reserved? ==> Due(m, call.now)
    ensures FileProgress(chat.attempts + (if call.phase.Reserved? then [call.now] else []), chat.landings,
                         Counted(m, call.now, call.phase.Reserved?))
    ensures Spaced(chat.attempts + if call.phase.Reserved? then [call.now] else [])
  {
    if call.phase.Reserved? && chat.attempts != [] {
      assert call.now - chat.attempts[|chat.attempts| - 1] >= RETITLE_INTERVAL_MS;
    }
  }

  lemma TitleLogs(chat: Chat, call: Call, m: Meta, title: string)
    requires Ascending(chat.landings) && FileProgress(chat.attempts, chat.landings, m) && Lands(m, call)
    ensures Ascending(chat.landings + [call.attemptTurn])
    ensures Progress(Titled(m, call, title)).lastAttemptTurn == call.attemptTurn
    ensures Progress(Titled(m, call, title)).lastAttemptAt == Progress(m).lastAttemptAt
  {
  }

  /** Tickets other than the one that moves keep what is known of them. */
  lemma TicketsKeepProgress(chat: Chat, next: Chat, t: nat)
    requires forall u: nat :: u < |chat.chain.tickets| ==> TicketProgress(chat, u)
    requires t < |chat.chain.tickets| && |next.chain.tickets| == |chat.chain.tickets|
    requires next.chain.tickets == chat.chain.tickets[t := next.chain.tickets[t]]
    requires TicketProgress(next, t)
    requires forall u: nat :: u < |chat.chain.tickets| && u != t ==> !chat.chain.tickets[u].phase.Computed?
    ensures forall u: nat :: u < |next.chain.tickets| ==> TicketProgress(next, u)
  {
    forall u: nat | u < |next.chain.tickets|
      ensures TicketProgress(next, u)
    {
      assert TicketProgress(chat, u);
    }
  }

  lemma OnlyCurrentComputes(chain: Chain, t: nat)
    requires Metadata.TurnsFit(chain) && Metadata.Current(chain, t)
    ensures forall u: nat :: u < |chain.tickets| && u != t ==> !chain.tickets[u].phase.Computed? && !chain.tickets[u].phase.Loaded?
  {
    forall u: nat | u < |chain.tickets| && u != t
      ensures !chain.tickets[u].phase.Computed? && !chain.tickets[u].phase.Loaded?
    {
      assert u > t && !chain.tickets[u].phase.Waiting? ==> Metadata.AllSettled(chain, u);
    }
  }

  lemma ComputeKeepsProgress(chat: Chat, t: nat, room: bool)
    requires ProgressInv(chat) && Enabled(chat, Compute(t))
    ensures ProgressInv(AfterCompute(chat, t, room))
  {
    var next := AfterCompute(chat, t, room);
    var x := chat.chain.tickets[t];
    var reply := ReplyOf(chat, x.job, x.phase.read, room);
    ComputeFits(chat, t, room);
    Metadata.CurrentIs(chat.chain, Metadata.Event<Job, Meta>.Compute(t, reply));
    OnlyCurrentComputes(chat.chain, t);
    ComputedIsDerived(chat, t, room);
    TicketsKeepProgress(chat, next, t);
    assert Logged(next);
  }

  lemma ComputedIsDerived(chat: Chat, t: nat, room: bool)
    requires ProgressInv(chat) && Enabled(chat, Compute(t))
    ensures t < |AfterCompute(chat, t, room).chain.tickets| && TicketProgress(AfterCompute(chat, t, room), t)
  {
    var x := chat.chain.tickets[t];
    assert TicketProgress(chat, t) && TicketFits(chat, t);
    if x.job.CountTurn? {
      assert chat.calls[x.job.counter].phase.Counting?;
    }
  }

  lemma MoveKeepsProgress(chat: Chat, step: Metadata.Event<Job, Meta>)
    requires ProgressInv(chat) && Enabled(chat, Move(step))
    ensures ProgressInv(AfterMove(chat, step))
  {
    MoveFits(chat, step);
    MoveChanges(chat, step);
    var next := AfterMove(chat, step);
    if step.Commit? && chat.chain.file.Some? {
      CommitLogs(chat, step.t);
    } else {
      assert Logged(next);
    }
    if step.Load? || step.Commit? || step.Fail? {
      Metadata.CurrentIs(chat.chain, step);
      OnlyCurrentComputes(chat.chain, step.t);
      assert TicketProgress(chat, step.t);
      TicketsKeepProgress(chat, next, step.t);
    } else {
      SameTickets(chat, next);
    }
  }

  lemma SameTickets(chat: Chat, next: Chat)
    requires forall u: nat :: u < |chat.chain.tickets| ==> TicketProgress(chat, u)
    requires next.chain.tickets == chat.chain.tickets && next.calls == chat.calls
    ensures forall u: nat :: u < |next.chain.tickets| ==> TicketProgress(next, u)
  {
    forall u: nat | u < |next.chain.tickets|
      ensures TicketProgress(next, u)
    {
      assert TicketProgress(chat, u);
    }
  }

  /** A new update at the end of the chain, and calls that a computed record does not depend on. */
  lemma GrownTickets(chat: Chat, next: Chat, job: Job)
    requires Fits(chat) && forall u: nat :: u < |chat.chain.tickets| ==> TicketProgress(chat, u)
    requires next.chain == Submitted(chat, job).chain && (job.Edit? ==> KeepsProgress(job.update))
    requires |next.calls| >= |chat.calls|
    requires forall k: nat :: k < |chat.calls| && !chat.calls[k].phase.Asking? ==> next.calls[k] == chat.calls[k]
    ensures forall u: nat :: u < |next.chain.tickets| ==> TicketProgress(next, u)
  {
    forall u: nat | u < |next.chain.tickets|
      ensures TicketProgress(next, u)
    {
      if u < |chat.chain.tickets| {
        assert TicketProgress(chat, u) && TicketFits(chat, u);
      }
    }
  }

  lemma CallMoveKeepsProgress(chat: Chat, k: nat, phase: Phase)
    requires ProgressInv(chat) && k < |chat.calls|
    requires chat.calls[k].phase.Asking? || chat.calls[k].phase.Closing? || Metadata.IsSettled(chat.chain, chat.calls[k].ticket)
    requires phase.Asking? || phase.Closing? || phase.Ended?
    ensures ProgressInv(SetPhase(chat, k, phase))
  {
    CallMoves(chat, k, phase);
    var next := SetPhase(chat, k, phase);
    forall u: nat | u < |next.chain.tickets|
      ensures TicketProgress(next, u)
    {
      assert TicketProgress(chat, u) && TicketFits(chat, u);
    }
  }

  lemma ProgressStep(chat: Chat, e: Event, room: bool)
    requires ProgressInv(chat) && Enabled(chat, e) && Harmless(e)
    ensures ProgressInv(Next(chat, e, room))
  {
    var next := Next(chat, e, room);
    match e {
      case Submit(update) =>
        StepFits(chat, e, room);
        GrownTickets(chat, next, Edit(update));
      case RecordTurn(_, _) =>
        StepFits(chat, e, room);
        GrownTickets(chat, next, CountTurn(|chat.calls|));
      case Compute(t) => ComputeKeepsProgress(chat, t, room);
      case Move(step) => MoveKeepsProgress(chat, step);
      case Resume(k) => CallMoveKeepsProgress(chat, k, Resumed(chat, k));
      case Answered(k, answer) =>
        if answer.None? {
          CallMoveKeepsProgress(chat, k, Closing);
        } else {
          StepFits(chat, e, room);
          GrownTickets(chat, next, SetTitle(k, answer.value));
        }
      case Close(k) => CallMoveKeepsProgress(chat, k, Ended);
    }
  }

  ghost predicate AllProgress(st: State) {
    forall c :: c in st.chats ==> ProgressInv(st.chats[c])
  }

  lemma {:induction false} RunKeepsProgress(st: State, events: seq<(ChatId, Event)>)
    requires AllProgress(st) && forall e :: e in events ==> Harmless(e.1)
    ensures Exec(st, events).Some? ==> AllProgress(Exec(st, events).value)
    decreases |events|
  {
    if events != [] {
      var (c, e) := events[0];
      if c in st.chats && Enabled(st.chats[c], e) {
        assert Harmless(events[0].1);
        ProgressStep(st.chats[c], e, Room(st, c));
        RunKeepsProgress(Step(st, c, e), events[1..]);
      }
    }
  }

  /**
   Over every run of edits that leave the titler's progress alone, whatever the clock does: attempts
   written for a chat are at least three minutes apart, and the title of an older attempt never lands
   after that of a newer one.
   */
  lemma AttemptsAreSpaced(start: State, events: seq<(ChatId, Event)>, st: State)
    requires IsStart(start) && Exec(start, events) == Some(st) && forall e :: e in events ==> Harmless(e.1)
    ensures forall c :: c in st.chats ==> Spaced(st.chats[c].attempts) && Ascending(st.chats[c].landings)
  {
    forall c | c in start.chats
      ensures ProgressInv(start.chats[c])
    {
      NewChatFits(start.chats[c]);
    }
    RunKeepsProgress(start, events);
    forall c | c in st.chats
      ensures Spaced(st.chats[c].attempts) && Ascending(st.chats[c].landings)
    {
      assert ProgressInv(st.chats[c]);
    }
  }

  // ---------------------------------------------------------------- two requests for one chat

  /** A call that has asked, or is bound to. */
  ghost predicate Candidate(chat: Chat, k: nat) {
    && k < |chat.calls|
    && (chat.calls[k].phase.Asking? || chat.calls[k].phase.Setting? ||
        (chat.calls[k].phase.Reserved? && !WasRejected(chat, chat.calls[k].ticket)))
  }

  /** Its attempt is on record, unless the chat was deleted. */
  ghost predicate Tracked(chat: Chat, k: nat) {
    Candidate(chat, k) && (chat.calls[k].phase.Reserved? ==> Metadata.IsSettled(chat.chain, chat.calls[k].ticket))
  }

  predicate IsOpen(call: Call) {
    !call.phase.Setting?
  }

  /** What a record says of a call's attempt: it is the last one and has not led to a title, or a much later one followed. */
  ghost predicate Knows(m: Meta, call: Call) {
    var p := Progress(m);
    && call.attemptTurn <= p.lastAttemptTurn
    && (call.attemptTurn == p.lastAttemptTurn ==> p.lastAttemptAt == call.now && (IsOpen(call) ==> LastFailed(p)))
    && (call.attemptTurn < p.lastAttemptTurn && IsOpen(call) ==> p.lastAttemptAt >= call.now + FAILURE_BACKOFF_MS)
  }

  ghost predicate KnowsAll(chat: Chat, m: Meta) {
    TitledAfterAttempt(m) && forall k: nat :: Tracked(chat, k) ==> Knows(m, chat.calls[k])
  }

  /** Attempts have turns of their own, and a later one of two open ones came at least fifteen minutes after. */
  ghost predicate Apart(a: Call, b: Call) {
    && a.attemptTurn != b.attemptTurn
    && (IsOpen(a) && IsOpen(b) && a.attemptTurn < b.attemptTurn ==> b.now >= a.now + FAILURE_BACKOFF_MS)
  }

  ghost predicate AllApart(chat: Chat) {
    forall j: nat, k: nat :: Candidate(chat, j) && Candidate(chat, k) && j != k ==> Apart(chat.calls[j], chat.calls[k])
  }

  ghost predicate Informed(chat: Chat) {
    && (chat.chain.file.Some? ==> KnowsAll(chat, chat.chain.file.value))
    && (forall t :: 0 <= t < |chat.chain.tickets| && chat.chain.tickets[t].phase.Loaded? ==>
          KnowsAll(chat, chat.chain.tickets[t].phase.read))
  }

  ghost predicate BackoffInv(chat: Chat) {
    ProgressInv(chat) && Informed(chat) && AllApart(chat)
  }

  ghost predicate SameAttempt(a: Call, b: Call) {
    a.now == b.now && a.attemptTurn == b.attemptTurn && (IsOpen(b) ==> IsOpen(a))
  }

  /** No call is a candidate or tracked that was not before. */
  ghost predicate Shrinks(chat: Chat, next: Chat) {
    forall k: nat ::
      (Candidate(next, k) ==> Candidate(chat, k) && SameAttempt(chat.calls[k], next.calls[k])) &&
      (Tracked(next, k) ==> Tracked(chat, k))
  }

  lemma ShrunkKnows(chat: Chat, next: Chat, m: Meta)
    requires Shrinks(chat, next) && KnowsAll(chat, m)
    ensures KnowsAll(next, m)
  {
    forall k: nat | Tracked(next, k)
      ensures Knows(m, next.calls[k])
    {
      assert Candidate(next, k) && Tracked(chat, k);
      assert Knows(m, chat.calls[k]);
    }
  }

  lemma ShrunkApart(chat: Chat, next: Chat)
    requires Shrinks(chat, next) && AllApart(chat)
    ensures AllApart(next)
  {
    forall j: nat, k: nat | Candidate(next, j) && Candidate(next, k) && j != k
      ensures Apart(next.calls[j], next.calls[k])
    {
      assert Apart(chat.calls[j], chat.calls[k]);
    }
  }

  /** Every record in sight was in sight before. */
  lemma ShrunkInformed(chat: Chat, next: Chat)
    requires Shrinks(chat, next) && Informed(chat)
    requires next.chain.file.Some? ==> next.chain.file == chat.chain.file
    requires forall t :: 0 <= t < |next.chain.tickets| && next.chain.tickets[t].phase.Loaded? ==>
               chat.chain.file == Some(next.chain.tickets[t].phase.read) ||
               (t < |chat.chain.tickets| && chat.chain.tickets[t].phase == next.chain.tickets[t].phase)
    ensures Informed(next)
  {
    if next.chain.file.Some? {
      ShrunkKnows(chat, next, next.chain.file.value);
    }
    forall t | 0 <= t < |next.chain.tickets| && next.chain.tickets[t].phase.Loaded?
      ensures KnowsAll(next, next.chain.tickets[t].phase.read)
    {
      ShrunkKnows(chat, next, next.chain.tickets[t].phase.read);
    }
  }

  lemma SubmitsShrink(chat: Chat, e: Event, room: bool)
    requires Fits(chat) && Enabled(chat, e) && (e.Submit? || e.RecordTurn? || e.Answered?)
    ensures Shrinks(chat, Next(chat, e, room))
  {
    var next := Next(chat, e, room);
    forall k: nat | Candidate(next, k)
      ensures Candidate(chat, k) && SameAttempt(chat.calls[k], next.calls[k]) && (Tracked(next, k) ==> Tracked(chat, k))
    {
      assert k < |chat.calls| ==> CallFits(chat, k);
    }
  }

  lemma CallsShrink(chat: Chat, e: Event, room: bool)
    requires Fits(chat) && Enabled(chat, e) && (e.Resume? || e.Close?)
    ensures Shrinks(chat, Next(chat, e, room))
  {
    assert CallFits(chat, e.call);
  }

  /** Steps of the chain that settle no reservation. */
  lemma MovesShrink(chat: Chat, step: Metadata.Event<Job, Meta>)
    requires Fits(chat) && Enabled(chat, Move(step)) && !step.Commit?
    ensures Shrinks(chat, AfterMove(chat, step))
  {
    var next := AfterMove(chat, step);
    MoveChanges(chat, step);
    forall k: nat | Candidate(next, k)
      ensures Candidate(chat, k) && (Tracked(next, k) ==> Tracked(chat, k))
    {
      assert CallFits(chat, k);
    }
  }

  lemma QuietStep(chat: Chat, e: Event, room: bool)
    requires BackoffInv(chat) && Enabled(chat, e) && Harmless(e) && !e.Compute? && !(e.Move? && e.step.Commit?)
    ensures Informed(Next(chat, e, room)) && AllApart(Next(chat, e, room))
  {
    var next := Next(chat, e, room);
    match e {
      case Move(step) =>
        MovesShrink(chat, step);
        MoveChanges(chat, step);
      case Resume(_) => CallsShrink(chat, e, room);
      case Close(_) => CallsShrink(chat, e, room);
      case _ => SubmitsShrink(chat, e, room);
    }
    ShrunkInformed(chat, next);
    ShrunkApart(chat, next);
  }

  // ---------------------------------------------------------------- a new reservation

  /** A due attempt comes at least fifteen minutes after any attempt that is still open. */
  lemma DueIsLate(m: Meta, open: Call, now: int)
    requires Knows(m, open) && IsOpen(open) && open.now > 0 && Due(m, now)
    ensures now >= open.now + FAILURE_BACKOFF_MS
  {
  }

  lemma ReserveApart(chat: Chat, t: nat, room: bool)
    requires BackoffInv(chat) && Enabled(chat, Compute(t)) && Reserves(chat, t, room)
    ensures AllApart(AfterCompute(chat, t, room))
  {
    var x := chat.chain.tickets[t];
    var i := x.job.counter;
    var next := AfterCompute(chat, t, room);
    assert TicketFits(chat, t) && TicketProgress(chat, t);
    assert KnowsAll(chat, x.phase.read);
    forall k: nat | Candidate(next, k) && k != i
      ensures Candidate(chat, k) && Tracked(chat, k) && Apart(next.calls[i], next.calls[k]) && Apart(next.calls[k], next.calls[i])
    {
      OthersAreTracked(chat, t, k, room);
      assert Knows(x.phase.read, chat.calls[k]);
      if IsOpen(chat.calls[k]) {
        DueIsLate(x.phase.read, chat.calls[k], chat.calls[i].now);
      }
    }
    forall j: nat, k: nat | Candidate(next, j) && Candidate(next, k) && j != k
      ensures Apart(next.calls[j], next.calls[k])
    {
      if j != i && k != i {
        assert Apart(chat.calls[j], chat.calls[k]);
      }
    }
  }

  /** While the count at `t` runs, no other reservation waits for its write. */
  lemma OthersAreTracked(chat: Chat, t: nat, k: nat, room: bool)
    requires Fits(chat) && Enabled(chat, Compute(t)) && chat.chain.tickets[t].job.CountTurn?
    requires k != chat.chain.tickets[t].job.counter && Candidate(AfterCompute(chat, t, room), k)
    ensures Candidate(chat, k) && Tracked(chat, k)
  {
    assert CallFits(chat, k);
    Metadata.CurrentIs(chat.chain, Metadata.Event<Job, Meta>.Compute(t, Metadata.Keep));
    OnlyCurrentComputes(chat.chain, t);
  }

  lemma ComputeShrinks(chat: Chat, t: nat, room: bool)
    requires Fits(chat) && Enabled(chat, Compute(t))
    ensures forall k: nat :: Tracked(AfterCompute(chat, t, room), k) ==>
              Tracked(chat, k) && AfterCompute(chat, t, room).calls[k] == chat.calls[k]
    ensures !Reserves(chat, t, room) ==> Shrinks(chat, AfterCompute(chat, t, room))
  {
    var next := AfterCompute(chat, t, room);
    assert TicketFits(chat, t);
    forall k: nat | Candidate(next, k)
      ensures Tracked(next, k) ==> Tracked(chat, k) && next.calls[k] == chat.calls[k]
      ensures !Reserves(chat, t, room) ==> Candidate(chat, k)
    {
      assert CallFits(chat, k);
    }
  }

  lemma ComputeInformed(chat: Chat, t: nat, room: bool)
    requires BackoffInv(chat) && Enabled(chat, Compute(t))
    ensures Informed(AfterCompute(chat, t, room))
  {
    var next := AfterCompute(chat, t, room);
    ComputeShrinks(chat, t, room);
    forall m | KnowsAll(chat, m)
      ensures KnowsAll(next, m)
    {
    }
    forall u | 0 <= u < |next.chain.tickets| && next.chain.tickets[u].phase.Loaded?
      ensures KnowsAll(next, next.chain.tickets[u].phase.read)
    {
      assert u != t && next.chain.tickets[u] == chat.chain.tickets[u];
    }
  }

  lemma ComputeStep(chat: Chat, t: nat, room: bool)
    requires BackoffInv(chat) && Enabled(chat, Compute(t))
    ensures Informed(AfterCompute(chat, t, room)) && AllApart(AfterCompute(chat, t, room))
  {
    ComputeInformed(chat, t, room);
    ComputeShrinks(chat, t, room);
    if Reserves(chat, t, room) {
      ReserveApart(chat, t, room);
    } else {
      ShrunkApart(chat, AfterCompute(chat, t, room));
    }
  }

  // ---------------------------------------------------------------- writes

  /** A write changes no call, and only the count it writes becomes tracked. */
  lemma CommitTracks(chat: Chat, t: nat, k: nat)
    requires Fits(chat) && Enabled(chat, Move(Metadata.Event.Commit(t)))
    ensures var next := AfterMove(chat, Metadata.Event.Commit(t));
            && next.calls == chat.calls && (Candidate(next, k) ==> Candidate(chat, k))
            && (Tracked(next, k) ==> Tracked(chat, k) || chat.chain.tickets[t].job == CountTurn(k))
  {
    MoveChanges(chat, Metadata.Event.Commit(t));
    if k < |chat.calls| {
      assert CallFits(chat, k);
    }
  }

  lemma CommitApart(chat: Chat, t: nat)
    requires BackoffInv(chat) && Enabled(chat, Move(Metadata.Event.Commit(t)))
    ensures AllApart(AfterMove(chat, Metadata.Event.Commit(t)))
  {
    var next := AfterMove(chat, Metadata.Event.Commit(t));
    forall j: nat, k: nat | Candidate(next, j) && Candidate(next, k) && j != k
      ensures Apart(next.calls[j], next.calls[k])
    {
      CommitTracks(chat, t, j);
      CommitTracks(chat, t, k);
      assert Apart(chat.calls[j], chat.calls[k]);
    }
  }

  /** The record a count writes knows its own attempt and those before it. */
  lemma CountKnows(chat: Chat, t: nat, k: nat)
    requires BackoffInv(chat) && Enabled(chat, Move(Metadata.Event.Commit(t))) && chat.chain.file.Some?
    requires chat.chain.tickets[t].job.CountTurn?
    requires Tracked(chat, k) || (chat.chain.tickets[t].job.counter == k && Candidate(chat, k))
    ensures Knows(chat.chain.tickets[t].phase.record, chat.calls[k])
  {
    var x := chat.chain.tickets[t];
    var i := x.job.counter;
    assert Metadata.Fresh(chat.chain.file, x.phase);
    assert TicketProgress(chat, t) && TicketFits(chat, t);
    if k != i {
      assert Knows(x.phase.before, chat.calls[k]);
      if chat.calls[i].phase.Reserved? {
        assert Candidate(chat, i);
        assert Apart(chat.calls[k], chat.calls[i]);
      }
    } else {
      assert CallFits(chat, i);
      assert chat.calls[i].phase.Reserved? ==> LastFailed(Progress(x.phase.record));
    }
  }

  lemma CountKeepsTitled(chat: Chat, t: nat)
    requires BackoffInv(chat) && Enabled(chat, Move(Metadata.Event.Commit(t))) && chat.chain.file.Some?
    requires chat.chain.tickets[t].job.CountTurn?
    ensures TitledAfterAttempt(chat.chain.tickets[t].phase.record)
  {
    var x := chat.chain.tickets[t];
    assert Metadata.Fresh(chat.chain.file, x.phase);
    assert TicketProgress(chat, t) && TicketFits(chat, t);
    assert TitledAfterAttempt(x.phase.before);
  }

  /** The record a title is written to knows that its attempt, the last one, has led to a title. */
  lemma TitleKnows(chat: Chat, t: nat, k: nat)
    requires BackoffInv(chat) && Enabled(chat, Move(Metadata.Event.Commit(t))) && chat.chain.file.Some?
    requires chat.chain.tickets[t].job.SetTitle?
    ensures TitledAfterAttempt(chat.chain.tickets[t].phase.record)
    ensures Tracked(chat, k) ==> Knows(chat.chain.tickets[t].phase.record, chat.calls[k])
  {
    var x := chat.chain.tickets[t];
    var i := x.job.setter;
    assert Metadata.Fresh(chat.chain.file, x.phase);
    assert TicketProgress(chat, t) && TicketFits(chat, t);
    assert Tracked(chat, i);
    assert Knows(x.phase.before, chat.calls[i]);
    if Tracked(chat, k) && k != i {
      assert Knows(x.phase.before, chat.calls[k]);
      assert Apart(chat.calls[k], chat.calls[i]);
    }
  }

  lemma EditKnows(chat: Chat, t: nat, k: nat)
    requires BackoffInv(chat) && Enabled(chat, Move(Metadata.Event.Commit(t))) && chat.chain.file.Some?
    requires chat.chain.tickets[t].job.Edit?
    ensures TitledAfterAttempt(chat.chain.tickets[t].phase.record)
    ensures Tracked(chat, k) ==> Knows(chat.chain.tickets[t].phase.record, chat.calls[k])
  {
    var x := chat.chain.tickets[t];
    assert Metadata.Fresh(chat.chain.file, x.phase);
    assert TicketProgress(chat, t);
    assert Progress(x.phase.record) == Progress(x.phase.before);
    assert Tracked(chat, k) ==> Knows(x.phase.before, chat.calls[k]);
  }

  lemma WrittenKnows(chat: Chat, t: nat)
    requires BackoffInv(chat) && Enabled(chat, Move(Metadata.Event.Commit(t))) && chat.chain.file.Some?
    ensures KnowsAll(AfterMove(chat, Metadata.Event.Commit(t)), chat.chain.tickets[t].phase.record)
  {
    var next := AfterMove(chat, Metadata.Event.Commit(t));
    var x := chat.chain.tickets[t];
    match x.job {
      case Edit(_) => EditKnows(chat, t, 0);
      case CountTurn(_) => CountKeepsTitled(chat, t);
      case SetTitle(_, _) => TitleKnows(chat, t, 0);
    }
    forall k: nat | Tracked(next, k)
      ensures Knows(x.phase.record, next.calls[k])
    {
      CommitTracks(chat, t, k);
      match x.job {
        case Edit(_) => EditKnows(chat, t, k);
        case CountTurn(_) => CountKnows(chat, t, k);
        case SetTitle(_, _) => TitleKnows(chat, t, k);
      }
    }
  }

  lemma CommitInformed(chat: Chat, t: nat)
    requires BackoffInv(chat) && Enabled(chat, Move(Metadata.Event.Commit(t)))
    ensures Informed(AfterMove(chat, Metadata.Event.Commit(t)))
  {
    var next := AfterMove(chat, Metadata.Event.Commit(t));
    MoveChanges(chat, Metadata.Event.Commit(t));
    Metadata.CurrentIs(chat.chain, Metadata.Event<Job, Meta>.Commit(t));
    OnlyCurrentComputes(chat.chain, t);
    if chat.chain.file.Some? {
      WrittenKnows(chat, t);
    }
  }

  lemma BackoffStep(chat: Chat, e: Event, room: bool)
    requires BackoffInv(chat) && Enabled(chat, e) && Harmless(e)
    ensures BackoffInv(Next(chat, e, room))
  {
    ProgressStep(chat, e, room);
    if e.Compute? {
      ComputeStep(chat, e.t, room);
    } else if e.Move? && e.step.Commit? {
      CommitInformed(chat, e.step.t);
      CommitApart(chat, e.step.t);
    } else {
      QuietStep(chat, e, room);
    }
  }

  ghost predicate AllBackoff(st: State) {
    forall c :: c in st.chats ==> BackoffInv(st.chats[c])
  }

  lemma {:induction false} RunKeepsBackoff(st: State, events: seq<(ChatId, Event)>)
    requires AllBackoff(st) && forall e :: e in events ==> Harmless(e.1)
    ensures Exec(st, events).Some? ==> AllBackoff(Exec(st, events).value)
    decreases |events|
  {
    if events != [] {
      var (c, e) := events[0];
      if c in st.chats && Enabled(st.chats[c], e) {
        assert Harmless(events[0].1);
        BackoffStep(st.chats[c], e, Room(st, c));
        RunKeepsBackoff(Step(st, c, e), events[1..]);
      }
    }
  }

  lemma NewChatBacksOff(chat: Chat)
    requires IsNew(chat)
    ensures BackoffInv(chat)
  {
    NewChatFits(chat);
  }

  /**
   Over every run, failed counts included, two requests to the service are under way for one chat only if
   the turn that opened the second ended at least fifteen minutes after the one that opened the first.
   */
  lemma SecondRequestIsLate(start: State, events: seq<(ChatId, Event)>, st: State, c: ChatId, j: nat, k: nat)
    requires IsStart(start) && Exec(start, events) == Some(st) && forall e :: e in events ==> Harmless(e.1)
    requires c in st.chats && j < |st.chats[c].calls| && k < |st.chats[c].calls| && j != k
    requires st.chats[c].calls[j].phase.Asking? && st.chats[c].calls[k].phase.Asking?
    ensures var (a, b) := (st.chats[c].calls[j].now, st.chats[c].calls[k].now);
            b >= a + FAILURE_BACKOFF_MS || a >= b + FAILURE_BACKOFF_MS
  {
    StartsBackedOff(start);
    RunKeepsBackoff(start, events);
    OpenAreLate(st.chats[c], j, k);
  }

  lemma StartsBackedOff(start: State)
    requires IsStart(start)
    ensures AllBackoff(start)
  {
    forall d | d in start.chats
      ensures BackoffInv(start.chats[d])
    {
      NewChatBacksOff(start.chats[d]);
    }
  }

  lemma OpenAreLate(chat: Chat, j: nat, k: nat)
    requires AllApart(chat) && j < |chat.calls| && k < |chat.calls| && j != k
    requires chat.calls[j].phase.Asking? && chat.calls[k].phase.Asking?
    ensures chat.calls[k].now >= chat.calls[j].now + FAILURE_BACKOFF_MS ||
            chat.calls[j].now >= chat.calls[k].now + FAILURE_BACKOFF_MS
  {
    assert Candidate(chat, j) && Candidate(chat, k);
    assert Apart(chat.calls[j], chat.calls[k]) && Apart(chat.calls[k], chat.calls[j]);
  }

  // ---------------------------------------------------------------- a run with two requests

  const ANY_TITLE: string -> bool := (title: string) => true

  /** One chat alone, marked or not. */
  function Alone(chat: Chat, marked: bool): State {
    State(map[0 := chat], if marked then {0} else {})
  }

  predicate MarkedAfter(chat: Chat, marked: bool, e: Event)
    requires Enabled(chat, e)
  {
    if e.Compute? && Reserves(chat, e.t, !marked) then true
    else if e.Close? || (e.Resume? && CountRejected(chat, e.call)) then false
    else marked
  }

  lemma ExecAlone(chat: Chat, marked: bool, e: Event, rest: seq<(ChatId, Event)>)
    requires Enabled(chat, e)
    ensures Exec(Alone(chat, marked), [(0, e)] + rest) ==
            Exec(Alone(Next(chat, e, !marked), MarkedAfter(chat, marked, e)), rest)
  {
    var st := Alone(chat, marked);
    assert ([(0, e)] + rest)[1..] == rest;
    assert Room(st, 0) == !marked;
    assert Step(st, 0, e) == Alone(Next(chat, e, !marked), MarkedAfter(chat, marked, e));
  }

  /** A chat with nothing under way in its chain, whose record the titler may name. */
  ghost predicate Idle(chat: Chat, m: Meta) {
    && chat.chain.file == Some(m) && Metadata.AllSettled(chat.chain, |chat.chain.tickets|)
    && (chat.chain.tail.Some? ==> chat.chain.tail.value < |chat.chain.tickets|)
    && Managed(m, ANY_TITLE)
  }

  /** The chat with a count at the end of its chain. */
  function WithCount(chat: Chat, now: int, phase: Metadata.Phase<Meta>, call: Phase, title: string, turn: int): Chat {
    var n := |chat.chain.tickets|;
    var ticket := Metadata.Ticket(CountTurn(|chat.calls|), chat.chain.tail, phase);
    chat.(chain := chat.chain.(tickets := chat.chain.tickets + [ticket], tail := Some(n)),
          calls := chat.calls + [Call(now, ANY_TITLE, call, n, title, turn)])
  }

  lemma Replaces<T>(s: seq<T>, x: T, y: T)
    ensures (s + [x])[|s| := y] == s + [y] && (s + [x])[|s|] == x
  {
  }

  lemma CountIsRead(chat: Chat, now: int, m: Meta, room: bool)
    requires Idle(chat, m) && now > 0
    ensures var recorded := WithCount(chat, now, Metadata.Waiting, Counting, "", 0);
            var load := Move(Metadata.Load(|chat.chain.tickets|, false));
            && Next(chat, RecordTurn(now, ANY_TITLE), room) == recorded && Enabled(recorded, load)
            && Next(recorded, load, room) == WithCount(chat, now, Metadata.Loaded(m), Counting, "", 0)
  {
    var n := |chat.chain.tickets|;
    var recorded := WithCount(chat, now, Metadata.Waiting, Counting, "", 0);
    var job: Job := CountTurn(|chat.calls|);
    Replaces(chat.chain.tickets, Metadata.Ticket(job, chat.chain.tail, Metadata.Waiting),
             Metadata.Ticket(job, chat.chain.tail, Metadata.Loaded(m)));
    assert recorded.chain.tickets[n].prev == chat.chain.tail;
    if chat.chain.tail.Some? {
      assert recorded.chain.tickets[chat.chain.tail.value] == chat.chain.tickets[chat.chain.tail.value];
    }
  }

  /** The count computes: with room and a turn that is due it reserves a request. */
  lemma CountComputes(chat: Chat, now: int, m: Meta, room: bool)
    requires Idle(chat, m) && now > 0
    ensures var read := WithCount(chat, now, Metadata.Loaded(m), Counting, "", 0);
            var asks := room && Due(m, now);
            var phase := Metadata.Computed(m, Counted(m, now, asks));
            var n := |chat.chain.tickets|;
            && Enabled(read, Compute(n)) && Reserves(read, n, room) == asks
            && Next(read, Compute(n), room) ==
               (if asks then WithCount(chat, now, phase, Reserved, m.title, Progress(m).completedTurns + 1)
                else WithCount(chat, now, phase, Counting, "", 0))
  {
    var n, k := |chat.chain.tickets|, |chat.calls|;
    var asks := room && Due(m, now);
    var job: Job := CountTurn(k);
    var call := Call(now, ANY_TITLE, Counting, n, "", 0);
    Replaces(chat.chain.tickets, Metadata.Ticket(job, chat.chain.tail, Metadata.Loaded(m)),
             Metadata.Ticket(job, chat.chain.tail, Metadata.Computed(m, Counted(m, now, asks))));
    Replaces(chat.calls, call, ReservedCall(call, m));
  }

  /** The chat after a count whose record was written and whose call has asked. */
  function Asked(chat: Chat, now: int, m: Meta): Chat {
    var record := Counted(m, now, true);
    var done := WithCount(chat, now, Metadata.Settled(Metadata.Stored), Asking, m.title, Progress(m).completedTurns + 1);
    done.(chain := done.chain.(file := Some(record),
                               writes := chat.chain.writes + [Metadata.Write(|chat.chain.tickets|, m, record)]),
          attempts := chat.attempts + [now])
  }

  lemma CountAsks(chat: Chat, now: int, m: Meta, room: bool)
    requires Idle(chat, m) && now > 0
    ensures var n, k := |chat.chain.tickets|, |chat.calls|;
            var turn := Progress(m).completedTurns + 1;
            var computed := WithCount(chat, now, Metadata.Computed(m, Counted(m, now, true)), Reserved, m.title, turn);
            var commit := Move(Metadata.Commit(n));
            && Enabled(computed, commit)
            && var stored := Next(computed, commit, room);
            && Enabled(stored, Resume(k)) && !CountRejected(stored, k) && Next(stored, Resume(k), room) == Asked(chat, now, m)
  {
    var n, k := |chat.chain.tickets|, |chat.calls|;
    var turn := Progress(m).completedTurns + 1;
    var job: Job := CountTurn(k);
    Replaces(chat.chain.tickets, Metadata.Ticket(job, chat.chain.tail, Metadata.Computed(m, Counted(m, now, true))),
             Metadata.Ticket(job, chat.chain.tail, Metadata.Settled(Metadata.Stored)));
    var reserved := Call(now, ANY_TITLE, Reserved, n, m.title, turn);
    Replaces(chat.calls, reserved, reserved.(phase := Asking));
  }

  /** A count that reserves nothing and whose write throws: the mark goes, whoever set it. */
  lemma CountFails(chat: Chat, now: int, m: Meta, room: bool)
    requires Idle(chat, m) && now > 0
    ensures var n, k := |chat.chain.tickets|, |chat.calls|;
            var computed := WithCount(chat, now, Metadata.Computed(m, Counted(m, now, false)), Counting, "", 0);
            var fail := Move(Metadata.Fail(n));
            && Enabled(computed, fail)
            && var failed := Next(computed, fail, room);
            && Enabled(failed, Resume(k)) && CountRejected(failed, k)
            && Next(failed, Resume(k), room) == WithCount(chat, now, Metadata.Settled(Metadata.Rejected), Ended, "", 0)
  {
    var n, k := |chat.chain.tickets|, |chat.calls|;
    var job: Job := CountTurn(k);
    Replaces(chat.chain.tickets, Metadata.Ticket(job, chat.chain.tail, Metadata.Computed(m, Counted(m, now, false))),
             Metadata.Ticket(job, chat.chain.tail, Metadata.Settled(Metadata.Rejected)));
    var call := Call(now, ANY_TITLE, Counting, n, "", 0);
    Replaces(chat.calls, call, call.(phase := Ended));
  }

  /** The events of one count, the fourth being how its write ends. */
  function CountRun(t: nat, k: nat, now: int, last: Metadata.Event<Job, Meta>, rest: seq<(ChatId, Event)>)
    : seq<(ChatId, Event)>
  {
    [(0, RecordTurn(now, ANY_TITLE))] + ([(0, Move(Metadata.Load(t, false)))] + ([(0, Compute(t))] +
      ([(0, Move(last))] + ([(0, Resume(k))] + rest))))
  }

  lemma CountIsComputed(chat: Chat, marked: bool, now: int, m: Meta, rest: seq<(ChatId, Event)>)
    requires Idle(chat, m) && now > 0
    ensures var n := |chat.chain.tickets|;
            var asks := !marked && Due(m, now);
            var phase := Metadata.Computed(m, Counted(m, now, asks));
            Exec(Alone(chat, marked), [(0, RecordTurn(now, ANY_TITLE))] + ([(0, Move(Metadata.Load(n, false)))] +
                                      ([(0, Compute(n))] + rest))) ==
            if asks then Exec(Alone(WithCount(chat, now, phase, Reserved, m.title, Progress(m).completedTurns + 1), true), rest)
            else Exec(Alone(WithCount(chat, now, phase, Counting, "", 0), marked), rest)
  {
    var n := |chat.chain.tickets|;
    CountIsRead(chat, now, m, !marked);
    CountComputes(chat, now, m, !marked);
    var load := Move(Metadata.Load(n, false));
    ExecAlone(chat, marked, RecordTurn(now, ANY_TITLE), [(0, load)] + ([(0, Compute(n))] + rest));
    ExecAlone(WithCount(chat, now, Metadata.Waiting, Counting, "", 0), marked, load, [(0, Compute(n))] + rest);
    ExecAlone(WithCount(chat, now, Metadata.Loaded(m), Counting, "", 0), marked, Compute(n), rest);
  }

  lemma CountRunAsks(chat: Chat, now: int, m: Meta, rest: seq<(ChatId, Event)>)
    requires Idle(chat, m) && now > 0 && Due(m, now)
    ensures var n, k := |chat.chain.tickets|, |chat.calls|;
            Exec(Alone(chat, false), CountRun(n, k, now, Metadata.Commit(n), rest)) ==
            Exec(Alone(Asked(chat, now, m), true), rest)
  {
    var n, k := |chat.chain.tickets|, |chat.calls|;
    var commit := Move(Metadata.Commit(n));
    CountIsComputed(chat, false, now, m, [(0, commit)] + ([(0, Resume(k))] + rest));
    CountAsks(chat, now, m, false);
    var phase := Metadata.Computed(m, Counted(m, now, true));
    var computed := WithCount(chat, now, phase, Reserved, m.title, Progress(m).completedTurns + 1);
    ExecAlone(computed, true, commit, [(0, Resume(k))] + rest);
    ExecAlone(Next(computed, commit, false), true, Resume(k), rest);
  }

  lemma CountRunFails(chat: Chat, now: int, m: Meta, rest: seq<(ChatId, Event)>)
    requires Idle(chat, m) && now > 0
    ensures var n, k := |chat.chain.tickets|, |chat.calls|;
            Exec(Alone(chat, true), CountRun(n, k, now, Metadata.Fail(n), rest)) ==
            Exec(Alone(WithCount(chat, now, Metadata.Settled(Metadata.Rejected), Ended, "", 0), false), rest)
  {
    var n, k := |chat.chain.tickets|, |chat.calls|;
    var fail := Move(Metadata.Fail(n));
    CountIsComputed(chat, true, now, m, [(0, fail)] + ([(0, Resume(k))] + rest));
    CountFails(chat, now, m, false);
    var computed := WithCount(chat, now, Metadata.Computed(m, Counted(m, now, false)), Counting, "", 0);
    ExecAlone(computed, true, fail, [(0, Resume(k))] + rest);
    ExecAlone(Next(computed, fail, false), true, Resume(k), rest);
  }

  const NEW_META := Meta("New chat", Some(Placeholder), false, None)

  function NewChat(): Chat {
    Chat(Metadata.NewChain(Some(NEW_META)), [], [], [])
  }

  /** A turn asks, the count of the next throws, and the count of a third, fifteen minutes after the first. */
  function TwoRequests(): seq<(ChatId, Event)> {
    CountRun(0, 0, 1, Metadata.Commit(0),
             CountRun(1, 1, 2, Metadata.Fail(1), CountRun(2, 2, 1 + FAILURE_BACKOFF_MS, Metadata.Commit(2), [])))
  }

  function AfterFirst(): Chat {
    Asked(NewChat(), 1, NEW_META)
  }

  function AfterFailure(): Chat {
    WithCount(AfterFirst(), 2, Metadata.Settled(Metadata.Rejected), Ended, "", 0)
  }

  lemma FirstIsIdle()
    ensures Idle(NewChat(), NEW_META) && Due(NEW_META, 1) && Idle(AfterFirst(), Counted(NEW_META, 1, true))
    ensures |AfterFirst().chain.tickets| == 1 && |AfterFirst().calls| == 1
  {
  }

  lemma FailureIsIdle()
    ensures Idle(AfterFailure(), Counted(NEW_META, 1, true)) && Due(Counted(NEW_META, 1, true), 1 + FAILURE_BACKOFF_MS)
    ensures |AfterFailure().chain.tickets| == 2 && |AfterFailure().calls| == 2
  {
    FirstIsIdle();
    var tickets := AfterFailure().chain.tickets;
    assert tickets[0] == AfterFirst().chain.tickets[0] && tickets[1].phase.Settled?;
  }

  lemma TwoRequestsRun()
    ensures Exec(Alone(NewChat(), false), TwoRequests()) ==
            Some(Alone(Asked(AfterFailure(), 1 + FAILURE_BACKOFF_MS, Counted(NEW_META, 1, true)), true))
  {
    var m1, late := Counted(NEW_META, 1, true), 1 + FAILURE_BACKOFF_MS;
    var third := CountRun(2, 2, late, Metadata.Commit(2), []);
    FirstIsIdle();
    FailureIsIdle();
    CountRunAsks(NewChat(), 1, NEW_META, CountRun(1, 1, 2, Metadata.Fail(1), third));
    CountRunFails(AfterFirst(), 2, m1, third);
    CountRunAsks(AfterFailure(), late, m1, []);
  }

  /** Two requests of chat 0 are under way, opened fifteen minutes apart. */
  predicate TwoAsk(st: State) {
    && 0 in st.chats && |st.chats[0].calls| == 3
    && st.chats[0].calls[0].phase == Asking && st.chats[0].calls[2].phase == Asking
    && st.chats[0].calls[2].now == st.chats[0].calls[0].now + FAILURE_BACKOFF_MS
  }

  lemma LastAsksToo(m: Meta)
    ensures TwoAsk(Alone(Asked(AfterFailure(), 1 + FAILURE_BACKOFF_MS, m), true))
  {
    var first := AfterFirst().calls;
    assert |first| == 1 && first[0].phase == Asking && first[0].now == 1;
    assert AfterFailure().calls == first + [Call(2, ANY_TITLE, Ended, 1, "", 0)];
  }

  lemma NewChatStarts(start: State)
    requires start == Alone(NewChat(), false)
    ensures IsStart(start)
  {
  }

  /** A failed count lets a second request open beside the first, at exactly fifteen minutes. */
  lemma FailedCountAllowsSecondRequest(start: State, events: seq<(ChatId, Event)>)
    requires start == Alone(NewChat(), false) && events == TwoRequests()
    ensures IsStart(start) && Exec(start, events).Some? && TwoAsk(Exec(start, events).value)
  {
    NewChatStarts(start);
    TwoRequestsRun();
    LastAsksToo(Counted(NEW_META, 1, true));
  }
}
