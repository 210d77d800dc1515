/**
 The background titler: it counts a turn in one update of the chat's metadata, may then ask a slow
 outside service for a title, and sets it in a second update.

 Updates of one chat go through the chain of `ChatMetadata`; everything else that happens to a record
 is an arbitrary `Edit`.  The titler's callbacks run when their update computes, and the titler goes on
 once the promise of the update has settled.
 */
module ChatTitles {
  import opened Common
  import Metadata = ChatMetadata

  const RETITLE_INTERVAL_MS: int := 180_000
  const RETITLE_TURNS: int := 4
  const FAILURE_BACKOFF_MS: int := 900_000
  const MAX_PENDING: nat := 2

  /** Chat ids are only ever compared for equality. */
  type ChatId = nat

  datatype TitleSource = Placeholder | Manual | Auto

  datatype AutoTitle = AutoTitle(completedTurns: int, lastAttemptTurn: int, lastAttemptAt: int, lastUpdatedAt: Option<int>)

  datatype Meta = Meta(title: string, titleSource: Option<TitleSource>, orchestrator: bool, autoTitle: Option<AutoTitle>)

  type Update = Metadata.Update<Meta>

  /** A call of the titler waits for its count, holds a reservation, waits for the answer, sets it, or is done. */
  datatype Phase = Counting | Reserved | Asking | Setting | Closing | Ended

  /** `looksUntouched` tells whether a title without a source is still the generated one; `ticket` is the update awaited. */
  datatype Call = Call(now: int, looksUntouched: string -> bool, phase: Phase, ticket: nat, originalTitle: string,
                       attemptTurn: int)

  datatype Job = Edit(update: Update) | CountTurn(counter: nat) | SetTitle(setter: nat, title: string)

  type Chain = Metadata.Chain<Job, Meta>

  function CallOf(job: Job): Option<nat> {
    match job
    case Edit(_) => None
    case CountTurn(k) => Some(k)
    case SetTitle(k, _) => Some(k)
  }

  /** Whether the titler may name this chat. */
  predicate Managed(meta: Meta, looksUntouched: string -> bool) {
    !meta.orchestrator && meta.titleSource != Some(Manual) && (meta.titleSource.Some? || looksUntouched(meta.title))
  }

  function Progress(meta: Meta): AutoTitle {
    if meta.autoTitle.Some? then meta.autoTitle.value else AutoTitle(0, 0, 0, None)
  }

  /** Whether the last attempt has not led to a title. */
  predicate LastFailed(state: AutoTitle) {
    state.lastAttemptAt > (if state.lastUpdatedAt.Some? then state.lastUpdatedAt.value else 0)
  }

  /** Whether a new attempt is due at `now`, counting the turn just completed. */
  predicate Due(meta: Meta, now: int) {
    var state := Progress(meta);
    state.lastAttemptAt == 0 ||
    (&& now - state.lastAttemptAt >= (if LastFailed(state) then FAILURE_BACKOFF_MS else RETITLE_INTERVAL_MS)
     && (meta.titleSource != Some(Auto) || state.completedTurns + 1 - state.lastAttemptTurn >= RETITLE_TURNS))
  }

  /** The record after counting a turn, when an attempt is or is not recorded with it. */
  function Counted(meta: Meta, now: int, attempt: bool): Meta {
    var state := Progress(meta);
    var turns := state.completedTurns + 1;
    meta.(autoTitle := Some(if attempt then state.(completedTurns := turns, lastAttemptAt := now, lastAttemptTurn := turns)
                            else state.(completedTurns := turns)))
  }

  predicate Lands(meta: Meta, call: Call) {
    && Managed(meta, call.looksUntouched) && meta.title == call.originalTitle
    && meta.autoTitle.Some? && meta.autoTitle.value.lastAttemptTurn == call.attemptTurn
  }

  function Titled(meta: Meta, call: Call, title: string): Meta
    requires meta.autoTitle.Some?
  {
    meta.(title := title, titleSource := Some(Auto), autoTitle := Some(meta.autoTitle.value.(lastUpdatedAt := Some(call.now))))
  }

  // ---------------------------------------------------------------- one chat

  /**
   The record's chain of updates and the titler's calls for the chat.  `attempts` and `landings` log the
   times of attempts written to the file and the attempt turns of titles written to it.
   */
  datatype Chat = Chat(chain: Chain, calls: seq<Call>, attempts: seq<int>, landings: seq<int>)

  datatype Event =
    | Submit(update: Update)
    | RecordTurn(now: int, looksUntouched: string -> bool)
    | Compute(t: nat)                              // the callback of an update runs on what was read
    | Move(step: Metadata.Event<Job, Meta>)        // any other step of the chain, or deletion of the chat
    | Resume(call: nat)                            // the update a call awaits has settled
    | Answered(call: nat, answer: Option<string>)  // the service answers; `None` when unusable or failed
    | Close(call: nat)                             // the call's cleanup runs

  predicate HasCall(chat: Chat, job: Job) {
    CallOf(job).Some? ==> CallOf(job).value < |chat.calls|
  }

  predicate Enabled(chat: Chat, e: Event) {
    match e
    case Submit(_) => true
    case RecordTurn(now, _) => now > 0
    case Compute(t) =>
      t < |chat.chain.tickets| && chat.chain.tickets[t].phase.Loaded? && HasCall(chat, chat.chain.tickets[t].job)
    case Move(step) => !step.Submit? && !step.Compute? && Metadata.Enabled(chat.chain, step) && MovesKnownCall(chat, step)
    case Resume(k) =>
      && k < |chat.calls| && (chat.calls[k].phase.Counting? || chat.calls[k].phase.Reserved? || chat.calls[k].phase.Setting?)
      && Metadata.IsSettled(chat.chain, chat.calls[k].ticket)
    case Answered(k, _) => k < |chat.calls| && chat.calls[k].phase.Asking?
    case Close(k) => k < |chat.calls| && chat.calls[k].phase.Closing?
  }

  predicate MovesKnownCall(chat: Chat, step: Metadata.Event<Job, Meta>) {
    step.Commit? && step.t < |chat.chain.tickets| ==> HasCall(chat, chat.chain.tickets[step.t].job)
  }

  /** Whether this count records an attempt and asks for a title; `room` says that the marks allow it. */
  predicate Attempts(meta: Meta, call: Call, room: bool) {
    Managed(meta, call.looksUntouched) && Due(meta, call.now) && room
  }

  /** What the callback of a job makes of the record. */
  function ReplyOf(chat: Chat, job: Job, read: Meta, room: bool): Metadata.Reply<Meta>
    requires HasCall(chat, job)
  {
    match job
    case Edit(update) => update(read)
    case CountTurn(k) =>
      var call := chat.calls[k];
      if Managed(read, call.looksUntouched)
      then Metadata.Replace(Counted(read, call.now, Attempts(read, call, room))) else Metadata.Keep
    case SetTitle(k, title) =>
      var call := chat.calls[k];
      if Lands(read, call) then Metadata.Replace(Titled(read, call, title)) else Metadata.Keep
  }

  /** Whether computing ticket `t` reserves a request. */
  predicate Reserves(chat: Chat, t: nat, room: bool)
    requires Enabled(chat, Compute(t))
  {
    var ticket := chat.chain.tickets[t];
    ticket.job.CountTurn? && Attempts(ticket.phase.read, chat.calls[ticket.job.counter], room)
  }

  function ReservedCall(call: Call, read: Meta): Call {
    call.(phase := Reserved, originalTitle := read.title, attemptTurn := Progress(read).completedTurns + 1)
  }

  function AfterCompute(chat: Chat, t: nat, room: bool): Chat
    requires Enabled(chat, Compute(t))
  {
    var ticket := chat.chain.tickets[t];
    var reply := ReplyOf(chat, ticket.job, ticket.phase.read, room);
    chat.(chain := Metadata.Next(chat.chain, Metadata.Event.Compute(t, reply)),
          calls := if Reserves(chat, t, room)
                   then chat.calls[ticket.job.counter := ReservedCall(chat.calls[ticket.job.counter], ticket.phase.read)]
                   else chat.calls)
  }

  /** A write of a count that holds a reservation records an attempt; a write of a title is a landing. */
  function AfterMove(chat: Chat, step: Metadata.Event<Job, Meta>): Chat
    requires Enabled(chat, Move(step))
  {
    var moved := chat.(chain := Metadata.Next(chat.chain, step));
    if !step.Commit? || chat.chain.file.None? then moved
    else
      match chat.chain.tickets[step.t].job
      case Edit(_) => moved
      case CountTurn(k) => if chat.calls[k].phase.Reserved?
                           then moved.(attempts := chat.attempts + [chat.calls[k].now]) else moved
      case SetTitle(k, _) => moved.(landings := chat.landings + [chat.calls[k].attemptTurn])
  }

  predicate WasRejected(chat: Chat, t: nat) {
    t < |chat.chain.tickets| && chat.chain.tickets[t].phase == Metadata.Settled(Metadata.Rejected)
  }

  /** How a call goes on once its update has settled. */
  function Resumed(chat: Chat, k: nat): Phase
    requires Enabled(chat, Resume(k))
  {
    if chat.calls[k].phase.Setting? then Closing
    else if WasRejected(chat, chat.calls[k].ticket) || chat.calls[k].phase.Counting? then Ended
    else Asking
  }

  function SetPhase(chat: Chat, k: nat, phase: Phase): Chat
    requires k < |chat.calls|
  {
    chat.(calls := chat.calls[k := chat.calls[k].(phase := phase)])
  }

  function Submitted(chat: Chat, job: Job): Chat {
    chat.(chain := Metadata.Next(chat.chain, Metadata.Event.Submit(job)))
  }

  function Next(chat: Chat, e: Event, room: bool): Chat
    requires Enabled(chat, e)
  {
    match e
    case Submit(update) => Submitted(chat, Edit(update))
    case RecordTurn(now, looksUntouched) =>
      Submitted(chat, CountTurn(|chat.calls|)).(
        calls := chat.calls + [Call(now, looksUntouched, Counting, |chat.chain.tickets|, "", 0)])
    case Compute(t) => AfterCompute(chat, t, room)
    case Move(step) => AfterMove(chat, step)
    case Resume(k) => SetPhase(chat, k, Resumed(chat, k))
    case Answered(k, answer) =>
      (match answer
       case None => SetPhase(chat, k, Closing)
       case Some(title) =>
         Submitted(chat, SetTitle(k, title)).(
           calls := chat.calls[k := chat.calls[k].(phase := Setting, ticket := |chat.chain.tickets|)]))
    case Close(k) => SetPhase(chat, k, Ended)
  }

  // ---------------------------------------------------------------- all chats and the pending marks

  datatype State = State(chats: map<ChatId, Chat>, pending: set<ChatId>)

  predicate Room(st: State, c: ChatId) {
    c !in st.pending && |st.pending| < MAX_PENDING
  }

  /** A count that was rejected takes the mark off its chat, whether or not it set it. */
  predicate CountRejected(chat: Chat, k: nat) {
    k < |chat.calls| && !chat.calls[k].phase.Setting? && WasRejected(chat, chat.calls[k].ticket)
  }

  function PendingAfter(st: State, c: ChatId, e: Event): set<ChatId>
    requires c in st.chats && Enabled(st.chats[c], e)
  {
    var chat := st.chats[c];
    if e.Compute? && Reserves(chat, e.t, Room(st, c)) then st.pending + {c}
    else if e.Close? || (e.Resume? && CountRejected(chat, e.call)) then st.pending - {c}
    else st.pending
  }

  function Step(st: State, c: ChatId, e: Event): State
    requires c in st.chats && Enabled(st.chats[c], e)
  {
    State(st.chats[c := Next(st.chats[c], e, Room(st, c))], PendingAfter(st, c, e))
  }

  /** One interleaving: at each point something happens to one chat. */
  function Exec(st: State, events: seq<(ChatId, Event)>): Option<State>
    decreases |events|
  {
    if events == [] then Some(st)
    else
      var (c, e) := events[0];
      if c in st.chats && Enabled(st.chats[c], e) then Exec(Step(st, c, e), events[1..]) else None
  }

  predicate AttemptCounted(meta: Meta) {
    Progress(meta).lastAttemptTurn <= Progress(meta).completedTurns && Progress(meta).lastAttemptAt >= 0
  }

  predicate TitledAfterAttempt(meta: Meta) {
    var p := Progress(meta);
    p.lastUpdatedAt.Some? ==> p.lastUpdatedAt.value <= p.lastAttemptAt
  }

  /** What holds of every record this code has written. */
  predicate Sane(meta: Meta) {
    AttemptCounted(meta) && TitledAfterAttempt(meta)
  }

  ghost predicate IsNew(chat: Chat) {
    && chat.chain == Metadata.NewChain(chat.chain.file) && chat.calls == [] && chat.attempts == [] && chat.landings == []
    && (chat.chain.file.Some? ==> Sane(chat.chain.file.value))
  }

  /** Records on disk, and nothing under way. */
  ghost predicate IsStart(st: State) {
    st.pending == {} && forall c :: c in st.chats ==> IsNew(st.chats[c])
  }

  // ---------------------------------------------------------------- the titler

  class Titler {
    var chats: map<ChatId, Chat>
    var pending: set<ChatId>

    ghost function Snapshot(): State
      reads this
    {
      State(chats, pending)
    }

    ghost predicate Can(c: ChatId, e: Event)
      reads this
    {
      c in chats && Enabled(chats[c], e)
    }

    constructor (chats: map<ChatId, Chat>)
      ensures Snapshot() == State(chats, {})
    {
      this.chats, pending := chats, {};
    }

    /** A user turn has ended: its count is submitted. */
    method RecordUserTurn(c: ChatId, now: int, looksUntouched: string -> bool) returns (k: nat)
      requires Can(c, RecordTurn(now, looksUntouched))
      modifies this
      ensures Snapshot() == Step(old(Snapshot()), c, RecordTurn(now, looksUntouched))
      ensures k == |old(chats)[c].calls|
    {
      var chat := chats[c];
      k := |chat.calls|;
      var call := Call(now, looksUntouched, Counting, |chat.chain.tickets|, "", 0);
      chats := chats[c := Submitted(chat, CountTurn(k)).(calls := chat.calls + [call])];
    }

    /** The callback of the count: it may set the mark of the chat and reserve a request. */
    method RunCount(c: ChatId, t: nat)
      requires Can(c, Compute(t)) && chats[c].chain.tickets[t].job.CountTurn?
      modifies this
      ensures Snapshot() == Step(old(Snapshot()), c, Compute(t))
    {
      var chat := chats[c];
      var meta, k := chat.chain.tickets[t].phase.read, chat.chain.tickets[t].job.counter;
      var call := chat.calls[k];
      if !Managed(meta, call.looksUntouched) {
        chats := chats[c := chat.(chain := Metadata.Next(chat.chain, Metadata.Event.Compute(t, Metadata.Keep)))];
        return;
      }
      var request := false;
      if Due(meta, call.now) && c !in pending && |pending| < MAX_PENDING {
        pending := pending + {c};
        request := true;
        chat := chat.(calls := chat.calls[k := ReservedCall(call, meta)]);
      }
      var reply := Metadata.Replace(Counted(meta, call.now, request));
      chats := chats[c := chat.(chain := Metadata.Next(chat.chain, Metadata.Event.Compute(t, reply)))];
    }

    /** The callback that sets the title, unless the record has moved on. */
    method RunSetTitle(c: ChatId, t: nat)
      requires Can(c, Compute(t)) && chats[c].chain.tickets[t].job.SetTitle?
      modifies this
      ensures Snapshot() == Step(old(Snapshot()), c, Compute(t))
    {
      var chat := chats[c];
      var meta, job := chat.chain.tickets[t].phase.read, chat.chain.tickets[t].job;
      var call := chat.calls[job.setter];
      var reply := Metadata.Keep;
      if Managed(meta, call.looksUntouched) && meta.title == call.originalTitle
         && meta.autoTitle.Some? && meta.autoTitle.value.lastAttemptTurn == call.attemptTurn
      {
        reply := Metadata.Replace(Titled(meta, call, job.title));
      }
      chats := chats[c := chat.(chain := Metadata.Next(chat.chain, Metadata.Event.Compute(t, reply)))];
    }

    /** The count has settled: ask for a title, or stop. */
    method OnCounted(c: ChatId, k: nat) returns (asks: bool)
      requires Can(c, Resume(k)) && !chats[c].calls[k].phase.Setting?
      modifies this
      ensures Snapshot() == Step(old(Snapshot()), c, Resume(k))
      ensures asks == Snapshot().chats[c].calls[k].phase.Asking?
    {
      var chat := chats[c];
      asks := false;
      if chat.chain.tickets[chat.calls[k].ticket].phase.outcome == Metadata.Rejected {
        pending := pending - {c};
      } else {
        asks := chat.calls[k].phase.Reserved?;
      }
      chats := chats[c := SetPhase(chat, k, if asks then Asking else Ended)];
    }

    method OnAnswer(c: ChatId, k: nat, title: Option<string>)
      requires Can(c, Answered(k, title))
      modifies this
      ensures Snapshot() == Step(old(Snapshot()), c, Answered(k, title))
    {
      var chat := chats[c];
      if title == None {
        chats := chats[c := SetPhase(chat, k, Closing)];
      } else {
        var call := chat.calls[k].(phase := Setting, ticket := |chat.chain.tickets|);
        chats := chats[c := Submitted(chat, SetTitle(k, title.value)).(calls := chat.calls[k := call])];
      }
    }

    method Cleanup(c: ChatId, k: nat)
      requires Can(c, Close(k))
      modifies this
      ensures Snapshot() == Step(old(Snapshot()), c, Close(k))
    {
      pending := pending - {c};
      chats := chats[c := SetPhase(chats[c], k, Ended)];
    }
  }
}
