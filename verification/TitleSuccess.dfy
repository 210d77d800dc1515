/** A turn that nothing disturbs ends with the title the service gave, and a call of the titler can always go on. */
module TitleSuccess {
  import opened Common
  import opened ChatTitles
  import Metadata = ChatMetadata
  import opened TitleTiming

  /** What the titler's callbacks make of the record they are given. */
  lemma RepliesAre(chat: Chat, k: nat, title: string, read: Meta, room: bool)
    requires k < |chat.calls|
    ensures ReplyOf(chat, CountTurn(k), read, room) ==
            if !Managed(read, chat.calls[k].looksUntouched) then Metadata.Keep
            else Metadata.Replace(Counted(read, chat.calls[k].now, Due(read, chat.calls[k].now) && room))
    ensures ReplyOf(chat, SetTitle(k, title), read, room) ==
            if Managed(read, chat.calls[k].looksUntouched) && read.title == chat.calls[k].originalTitle && read.autoTitle.Some?
               && read.autoTitle.value.lastAttemptTurn == chat.calls[k].attemptTurn
            then Metadata.Replace(Titled(read, chat.calls[k], title)) else Metadata.Keep
  {
  }

  /** A call that has not ended goes on once what it waits for is there. */
  lemma CallGoesOn(chat: Chat, k: nat, answer: Option<string>)
    requires k < |chat.calls|
    ensures match chat.calls[k].phase
            case Asking => Enabled(chat, Answered(k, answer))
            case Closing => Enabled(chat, Close(k))
            case Ended => true
            case _ => Enabled(chat, Resume(k)) <==> Metadata.IsSettled(chat.chain, chat.calls[k].ticket)
  {
  }

  /** Where the titler's own steps take a call: to the next of its updates, or to its end. */
  lemma CallMoves(chat: Chat, k: nat, title: string)
    requires k < |chat.calls|
    ensures Enabled(chat, Answered(k, None)) ==> Next(chat, Answered(k, None), false).calls[k].phase == Closing
    ensures Enabled(chat, Answered(k, Some(title))) ==>
              var next := Next(chat, Answered(k, Some(title)), false);
              next.calls[k].phase == Setting && next.calls[k].ticket == |chat.chain.tickets|
              && |next.chain.tickets| == |chat.chain.tickets| + 1
              && next.chain.tickets[|chat.chain.tickets|].job == SetTitle(k, title)
    ensures Enabled(chat, Close(k)) ==> Next(chat, Close(k), false).calls[k].phase == Ended
    ensures Enabled(chat, Resume(k)) ==>
              var rejected := chat.chain.tickets[chat.calls[k].ticket].phase == Metadata.Settled(Metadata.Rejected);
              Next(chat, Resume(k), false).calls[k].phase ==
              match chat.calls[k].phase
              case Setting => Closing
              case Reserved => if rejected then Ended else Asking
              case _ => Ended
  {
  }

  // ---------------------------------------------------------------- a run without disturbance

  datatype Request = Request(meta: Meta, now: int, looksUntouched: string -> bool, title: string)

  const LAST: nat := 11

  /** The events of the run, in order. */
  function EventAt(r: Request, n: nat): Event {
    match n
    case 0 => RecordTurn(r.now, r.looksUntouched)
    case 1 => Move(Metadata.Load(0, false))
    case 2 => Compute(0)
    case 3 => Move(Metadata.Commit(0))
    case 4 => Resume(0)
    case 5 => Answered(0, Some(r.title))
    case 6 => Move(Metadata.Load(1, false))
    case 7 => Compute(1)
    case 8 => Move(Metadata.Commit(1))
    case 9 => Resume(0)
    case _ => Close(0)
  }

  function EventsFrom(r: Request, c: ChatId, n: nat): seq<(ChatId, Event)>
    decreases LAST - n
  {
    if n >= LAST then [] else [(c, EventAt(r, n))] + EventsFrom(r, c, n + 1)
  }

  function CountedOf(r: Request): Meta {
    Counted(r.meta, r.now, true)
  }

  function CallPhase(n: nat): Phase {
    if n <= 2 then Counting else if n <= 4 then Reserved else if n == 5 then Asking
    else if n <= 9 then Setting else if n == 10 then Closing else Ended
  }

  function CallAt(r: Request, n: nat): Call {
    if n <= 2 then Call(r.now, r.looksUntouched, CallPhase(n), 0, "", 0)
    else Call(r.now, r.looksUntouched, CallPhase(n), if n <= 5 then 0 else 1, r.meta.title, TurnsOf(r.meta) + 1)
  }

  function TitledOf(r: Request): Meta {
    Titled(CountedOf(r), CallAt(r, 9), r.title)
  }

  function CountPhase(r: Request, n: nat): Metadata.Phase<Meta> {
    match n
    case 1 => Metadata.Waiting
    case 2 => Metadata.Loaded(r.meta)
    case 3 => Metadata.Computed(r.meta, CountedOf(r))
    case _ => Metadata.Settled(Metadata.Stored)
  }

  function TitlePhase(r: Request, n: nat): Metadata.Phase<Meta> {
    match n
    case 6 => Metadata.Waiting
    case 7 => Metadata.Loaded(CountedOf(r))
    case 8 => Metadata.Computed(CountedOf(r), TitledOf(r))
    case _ => Metadata.Settled(Metadata.Stored)
  }

  function TicketsAt(r: Request, n: nat): seq<Metadata.Ticket<Job, Meta>> {
    var count := Metadata.Ticket(CountTurn(0), None, CountPhase(r, n));
    var setting := Metadata.Ticket(SetTitle(0, r.title), Some(0), TitlePhase(r, n));
    if n == 0 then [] else if n < 6 then [count] else [count, setting]
  }

  /** Where the chat is after `n` of them. */
  ghost predicate ChatAt(chat: Chat, r: Request, n: nat) {
    && chat.chain.file == Some(if n < 4 then r.meta else if n < 9 then CountedOf(r) else TitledOf(r))
    && chat.chain.tickets == TicketsAt(r, n)
    && chat.chain.tail == (if n == 0 then None else if n < 6 then Some(0) else Some(1))
    && chat.calls == (if n == 0 then [] else [CallAt(r, n)])
  }

  /** The chat is marked from the reservation to the end. */
  ghost predicate StageAt(st: State, c: ChatId, r: Request, n: nat) {
    c in st.chats && ChatAt(st.chats[c], r, n) && st.pending == (if 3 <= n < LAST then {c} else {})
  }

  predicate IsAsked(r: Request) {
    Managed(r.meta, r.looksUntouched) && Due(r.meta, r.now) && r.now > 0
  }

  lemma CountStage(st: State, c: ChatId, r: Request, n: nat)
    requires IsAsked(r) && n < 3 && StageAt(st, c, r, n)
    ensures Enabled(st.chats[c], EventAt(r, n)) && StageAt(Step(st, c, EventAt(r, n)), c, r, n + 1)
  {
  }

  lemma AskStage(st: State, c: ChatId, r: Request, n: nat)
    requires IsAsked(r) && 3 <= n < 6 && StageAt(st, c, r, n)
    ensures Enabled(st.chats[c], EventAt(r, n)) && StageAt(Step(st, c, EventAt(r, n)), c, r, n + 1)
  {
  }

  /** Counting leaves the record managed, its title as it was, and the attempt as the call remembers it. */
  lemma CountedLands(r: Request)
    requires IsAsked(r)
    ensures Lands(CountedOf(r), CallAt(r, 7))
  {
    CountedIs(r.meta, r.now, true);
  }

  lemma TitleStage(st: State, c: ChatId, r: Request, n: nat)
    requires IsAsked(r) && 6 <= n < 9 && StageAt(st, c, r, n)
    ensures Enabled(st.chats[c], EventAt(r, n)) && StageAt(Step(st, c, EventAt(r, n)), c, r, n + 1)
  {
    CountedLands(r);
  }

  lemma EndStage(st: State, c: ChatId, r: Request, n: nat)
    requires 9 <= n < LAST && StageAt(st, c, r, n)
    ensures Enabled(st.chats[c], EventAt(r, n)) && StageAt(Step(st, c, EventAt(r, n)), c, r, n + 1)
  {
  }

  lemma {:induction false} RunFrom(st: State, c: ChatId, r: Request, n: nat)
    requires IsAsked(r) && n <= LAST && StageAt(st, c, r, n)
    ensures Exec(st, EventsFrom(r, c, n)).Some? && StageAt(Exec(st, EventsFrom(r, c, n)).value, c, r, LAST)
    decreases LAST - n
  {
    if n < LAST {
      if n < 3 {
        CountStage(st, c, r, n);
      } else if n < 6 {
        AskStage(st, c, r, n);
      } else if n < 9 {
        TitleStage(st, c, r, n);
      } else {
        EndStage(st, c, r, n);
      }
      RunFrom(Step(st, c, EventAt(r, n)), c, r, n + 1);
      assert EventsFrom(r, c, n)[1..] == EventsFrom(r, c, n + 1);
    }
  }

  /**
   From a quiet start, a turn of a managed chat that is due and answered leaves its title, its source and
   its time in the file, and no mark.
   */
  lemma TitleIsSet(st: State, c: ChatId, r: Request)
    requires IsStart(st) && c in st.chats && st.chats[c].chain.file == Some(r.meta) && IsAsked(r)
    ensures Exec(st, EventsFrom(r, c, 0)).Some?
    ensures var last := Exec(st, EventsFrom(r, c, 0)).value;
            && last.pending == {} && c in last.chats && last.chats[c].chain.file.Some?
            && var meta := last.chats[c].chain.file.value;
               && meta.title == r.title && meta.titleSource == Some(Auto) && meta.orchestrator == r.meta.orchestrator
               && TurnsOf(meta) == TurnsOf(r.meta) + 1
               && meta.autoTitle.Some? && meta.autoTitle.value.lastUpdatedAt == Some(r.now)
  {
    RunFrom(st, c, r, 0);
    CountedIs(r.meta, r.now, true);
    TitledIs(CountedOf(r), CallAt(r, 9), r.title);
  }
}
