/**
 What an automatic title may replace: never a title set by hand, and never one that changed since the
 title was asked for.
 */
module KeptTitles {
  import opened Common
  import opened ChatTitles
  import opened TitleRuns
  import Metadata = ChatMetadata

  // ---------------------------------------------------------------- titles set by hand

  predicate IsManual(m: Meta, title: string) {
    m.title == title && m.titleSource == Some(Manual)
  }

  /** Edits that leave the title and its source alone, such as a touch. */
  ghost predicate KeepsTitle(update: Update) {
    forall m :: update(m).Replace? ==> update(m).record.title == m.title && update(m).record.titleSource == m.titleSource
  }

  ghost predicate ManualPhase(phase: Metadata.Phase<Meta>, title: string) {
    match phase
    case Loaded(read) => IsManual(read, title)
    case Computed(_, record) => IsManual(record, title)
    case _ => true
  }

  /** The record bears the title set by hand, and whatever is under way will leave it. */
  ghost predicate ManuallyTitled(chat: Chat, title: string) {
    && (chat.chain.file.Some? ==> IsManual(chat.chain.file.value, title))
    && forall t :: 0 <= t < |chat.chain.tickets| ==>
         var x := chat.chain.tickets[t];
         ManualPhase(x.phase, title) && (x.job.Edit? && !x.phase.Settled? ==> KeepsTitle(x.job.update))
  }

  lemma StepKeepsTitle(chat: Chat, e: Event, room: bool, title: string)
    requires ManuallyTitled(chat, title) && Enabled(chat, e) && (e.Submit? ==> KeepsTitle(e.update))
    ensures ManuallyTitled(Next(chat, e, room), title)
  {
    var next := Next(chat, e, room);
    if e.Compute? {
      var x := chat.chain.tickets[e.t];
      assert IsManual(x.phase.read, title);
      assert x.job.Edit? ==> KeepsTitle(x.job.update);
    }
    forall t | 0 <= t < |next.chain.tickets|
      ensures var x := next.chain.tickets[t];
              ManualPhase(x.phase, title) && (x.job.Edit? && !x.phase.Settled? ==> KeepsTitle(x.job.update))
    {
      if t < |chat.chain.tickets| {
        assert ManualPhase(chat.chain.tickets[t].phase, title);
      }
    }
  }

  lemma {:induction false} StaysManual(st: State, events: seq<(ChatId, Event)>, c: ChatId, title: string)
    requires c in st.chats && ManuallyTitled(st.chats[c], title)
    requires forall e :: e in events && e.0 == c && e.1.Submit? ==> KeepsTitle(e.1.update)
    ensures Exec(st, events).Some? ==>
              c in Exec(st, events).value.chats && ManuallyTitled(Exec(st, events).value.chats[c], title)
    decreases |events|
  {
    if events != [] {
      var (d, e) := events[0];
      if d in st.chats && Enabled(st.chats[d], e) {
        assert events[0] in events;
        if d == c {
          StepKeepsTitle(st.chats[c], e, Room(st, c), title);
        }
        StaysManual(Step(st, d, e), events[1..], c, title);
      }
    }
  }

  /** Updates submitted but not settled, other than this one, leave the title alone. */
  ghost predicate OthersKeepTitle(chat: Chat, t: nat) {
    forall u :: 0 <= u < |chat.chain.tickets| && u != t ==>
      var x := chat.chain.tickets[u];
      x.job.Edit? && !x.phase.Settled? ==> KeepsTitle(x.job.update)
  }

  /** Nothing read before a title set by hand is still under way once it is written. */
  lemma ManualCommit(chat: Chat, t: nat, title: string, room: bool)
    requires Fits(chat) && Enabled(chat, Move(Metadata.Event.Commit(t)))
    requires IsManual(chat.chain.tickets[t].phase.record, title) && OthersKeepTitle(chat, t)
    ensures ManuallyTitled(Next(chat, Move(Metadata.Event.Commit(t)), room), title)
  {
    var step := Metadata.Event<Job, Meta>.Commit(t);
    MoveChanges(chat, step);
    Metadata.CurrentIs(chat.chain, step);
    OnlyCurrentComputes(chat.chain, t);
  }

  /**
   In every run from the start, from the moment a title set by hand is written, and as long as other edits
   leave the title alone, whatever the titler has under way then or starts later, the title stays.
   */
  lemma ManualTitleIsKept(start: State, before: seq<(ChatId, Event)>, st: State, c: ChatId, t: nat, title: string,
                          later: seq<(ChatId, Event)>)
    requires IsStart(start) && Exec(start, before) == Some(st) && c in st.chats
    requires Enabled(st.chats[c], Move(Metadata.Event.Commit(t)))
    requires IsManual(st.chats[c].chain.tickets[t].phase.record, title) && OthersKeepTitle(st.chats[c], t)
    requires forall e :: e in later && e.0 == c && e.1.Submit? ==> KeepsTitle(e.1.update)
    ensures var end := Exec(Step(st, c, Move(Metadata.Event.Commit(t))), later);
            end.Some? ==> c in end.value.chats &&
                          (end.value.chats[c].chain.file.Some? ==> IsManual(end.value.chats[c].chain.file.value, title))
  {
    RunFits(start, before, st, c);
    ManualCommit(st.chats[c], t, title, Room(st, c));
    StaysManual(Step(st, c, Move(Metadata.Event.Commit(t))), later, c, title);
  }

  lemma RunFits(start: State, events: seq<(ChatId, Event)>, st: State, c: ChatId)
    requires IsStart(start) && Exec(start, events) == Some(st) && c in st.chats
    ensures Fits(st.chats[c])
  {
    forall d | d in start.chats
      ensures Fits(start.chats[d])
    {
      NewChatFits(start.chats[d]);
    }
    RunKeepsFits(start, events);
  }

  // ---------------------------------------------------------------- titles changed since the request

  /** The call has had its answer. */
  predicate Past(call: Call) {
    call.phase.Setting? || call.phase.Closing? || call.phase.Ended?
  }

  /** What a title update, and a count that reserved a request, have computed from. */
  ghost predicate TicketTitled(chat: Chat, t: nat)
    requires t < |chat.chain.tickets|
  {
    var x := chat.chain.tickets[t];
    && (x.job.SetTitle? ==>
          x.job.setter < |chat.calls| && Past(chat.calls[x.job.setter]) &&
          (x.phase.Computed? ==> SetsTitle(x.phase.before, x.phase.record, chat.calls[x.job.setter], x.job.title)))
    && (x.job.CountTurn? && x.phase.Computed? && x.job.counter < |chat.calls| && chat.calls[x.job.counter].phase.Reserved? ==>
          x.phase.before.title == chat.calls[x.job.counter].originalTitle)
  }

  ghost predicate SetsTitle(before: Meta, record: Meta, call: Call, title: string) {
    Lands(before, call) && record == Titled(before, call, title)
  }

  /** The `j`-th write is that of the count of call `k`, on a record that bore the title the request was made for. */
  ghost predicate CountWrite(chat: Chat, j: nat, k: nat) {
    && j < |chat.chain.writes| && k < |chat.calls| && chat.chain.writes[j].ticket < |chat.chain.tickets|
    && chat.chain.tickets[chat.chain.writes[j].ticket].job == CountTurn(k)
    && chat.chain.writes[j].before.title == chat.calls[k].originalTitle
  }

  /** The call has asked for a title, or is bound to. */
  predicate Awaits(chat: Chat, k: nat) {
    && k < |chat.calls|
    && (chat.calls[k].phase.Asking? || chat.calls[k].phase.Setting? ||
        (&& chat.calls[k].phase.Reserved? && Metadata.IsSettled(chat.chain, chat.calls[k].ticket)
         && !WasRejected(chat, chat.calls[k].ticket)))
  }

  ghost predicate CountSaw(chat: Chat, k: nat, n: nat) {
    exists j: nat :: j < n && CountWrite(chat, j, k)
  }

  ghost predicate AwaitFits(chat: Chat) {
    forall k: nat :: Awaits(chat, k) ==> chat.chain.file.None? || CountSaw(chat, k, |chat.chain.writes|)
  }

  ghost predicate WriteTitled(chat: Chat, i: nat)
    requires i < |chat.chain.writes|
  {
    var w := chat.chain.writes[i];
    w.ticket < |chat.chain.tickets| && chat.chain.tickets[w.ticket].job.SetTitle? ==>
      var SetTitle(k, title) := chat.chain.tickets[w.ticket].job;
      k < |chat.calls| && Past(chat.calls[k]) && SetsTitle(w.before, w.record, chat.calls[k], title) && CountSaw(chat, k, i)
  }

  ghost predicate TitlesFit(chat: Chat) {
    && Fits(chat) && AwaitFits(chat)
    && (forall t: nat :: t < |chat.chain.tickets| ==> TicketTitled(chat, t))
    && (forall i: nat :: i < |chat.chain.writes| ==> WriteTitled(chat, i))
  }

  /** Later chats: jobs stay, calls past their count keep what they asked for, and writes are only added. */
  ghost predicate Carries(chat: Chat, next: Chat) {
    && |next.chain.tickets| >= |chat.chain.tickets| && |next.calls| >= |chat.calls|
    && (forall t :: 0 <= t < |chat.chain.tickets| ==> next.chain.tickets[t].job == chat.chain.tickets[t].job)
    && (forall k :: 0 <= k < |chat.calls| && !chat.calls[k].phase.Counting? ==> SameRequest(chat.calls[k], next.calls[k]))
    && chat.chain.writes <= next.chain.writes && (chat.chain.file.None? ==> next.chain.file.None?)
  }

  ghost predicate SameRequest(call: Call, next: Call) {
    && next == call.(phase := next.phase, ticket := next.ticket)
    && (Past(call) ==> Past(next))
  }

  lemma SawCarries(chat: Chat, next: Chat, k: nat, n: nat)
    requires Carries(chat, next) && k < |chat.calls| && !chat.calls[k].phase.Counting? && CountSaw(chat, k, n)
    ensures CountSaw(next, k, n)
  {
    var j: nat :| j < n && CountWrite(chat, j, k);
    assert next.chain.writes[j] == chat.chain.writes[j];
    assert SameRequest(chat.calls[k], next.calls[k]);
    assert CountWrite(next, j, k);
  }

  lemma WriteCarries(chat: Chat, next: Chat, i: nat)
    requires Carries(chat, next) && Metadata.WritesFit(chat.chain) && i < |chat.chain.writes| && WriteTitled(chat, i)
    ensures WriteTitled(next, i)
  {
    var w := chat.chain.writes[i];
    assert next.chain.writes[i] == w;
    if chat.chain.tickets[w.ticket].job.SetTitle? {
      var k := chat.chain.tickets[w.ticket].job.setter;
      assert SameRequest(chat.calls[k], next.calls[k]);
      SawCarries(chat, next, k, i);
    }
  }

  lemma AwaitCarries(chat: Chat, next: Chat, k: nat)
    requires Carries(chat, next) && AwaitFits(chat) && Awaits(chat, k)
    ensures next.chain.file.None? || CountSaw(next, k, |next.chain.writes|)
  {
    if chat.chain.file.Some? {
      SawCarries(chat, next, k, |chat.chain.writes|);
      var j: nat :| j < |chat.chain.writes| && CountWrite(next, j, k);
    }
  }

  /** A step that writes nothing. */
  lemma QuietFits(chat: Chat, next: Chat)
    requires TitlesFit(chat) && Fits(next) && Carries(chat, next) && next.chain.writes == chat.chain.writes
    requires forall k: nat :: Awaits(next, k) ==> Awaits(chat, k) || next.chain.file.None?
    requires forall t: nat :: t < |next.chain.tickets| ==> TicketTitled(next, t)
    ensures TitlesFit(next)
  {
    forall i: nat | i < |next.chain.writes|
      ensures WriteTitled(next, i)
    {
      WriteCarries(chat, next, i);
    }
    forall k: nat | Awaits(next, k)
      ensures next.chain.file.None? || CountSaw(next, k, |next.chain.writes|)
    {
      if Awaits(chat, k) {
        AwaitCarries(chat, next, k);
      }
    }
  }

  /** Tickets whose phase stays, or that settle, beside calls that keep their request. */
  lemma TicketsCarry(chat: Chat, next: Chat, t: nat)
    requires Fits(chat) && Carries(chat, next) && t < |chat.chain.tickets| && TicketTitled(chat, t)
    requires next.chain.tickets[t] == chat.chain.tickets[t] || !next.chain.tickets[t].phase.Computed?
    requires forall k :: 0 <= k < |chat.calls| && next.calls[k].phase.Reserved? && !chat.calls[k].phase.Reserved? ==>
               chat.chain.tickets[t].job != CountTurn(k)
    ensures TicketTitled(next, t)
  {
    var x := chat.chain.tickets[t];
    assert TicketFits(chat, t);
    if CallOf(x.job).Some? && CallOf(x.job).value < |chat.calls| {
      var k := CallOf(x.job).value;
      assert !chat.calls[k].phase.Counting? ==> SameRequest(chat.calls[k], next.calls[k]);
    }
  }

  lemma SubmitKeepsTitles(chat: Chat, next: Chat, job: Job)
    requires TitlesFit(chat) && Fits(next) && next.chain == Submitted(chat, job).chain && |next.calls| >= |chat.calls|
    requires forall k :: 0 <= k < |chat.calls| ==>
               next.calls[k] == chat.calls[k] ||
               (chat.calls[k].phase.Asking? && next.calls[k] == chat.calls[k].(phase := Setting, ticket := next.calls[k].ticket))
    requires forall k :: |chat.calls| <= k < |next.calls| ==> next.calls[k].phase.Counting?
    requires job.SetTitle? ==> job.setter < |next.calls| && Past(next.calls[job.setter])
    ensures TitlesFit(next)
  {
    forall t: nat | t < |next.chain.tickets|
      ensures TicketTitled(next, t)
    {
      if t < |chat.chain.tickets| {
        TicketsCarry(chat, next, t);
      }
    }
    forall k: nat | Awaits(next, k)
      ensures Awaits(chat, k)
    {
      assert CallFits(chat, k);
    }
    QuietFits(chat, next);
  }

  lemma ComputeKeepsTitles(chat: Chat, t: nat, room: bool)
    requires TitlesFit(chat) && Enabled(chat, Compute(t))
    ensures TitlesFit(AfterCompute(chat, t, room))
  {
    var next := AfterCompute(chat, t, room);
    var x := chat.chain.tickets[t];
    ComputeFits(chat, t, room);
    assert TicketFits(chat, t) && TicketTitled(chat, t);
    forall u: nat | u < |next.chain.tickets|
      ensures TicketTitled(next, u)
    {
      if u != t {
        assert TicketFits(chat, u);
        OthersCarry(chat, t, room, u);
      }
    }
    forall k: nat | Awaits(next, k)
      ensures Awaits(chat, k)
    {
      assert CallFits(chat, k);
    }
    QuietFits(chat, next);
  }

  lemma OthersCarry(chat: Chat, t: nat, room: bool, u: nat)
    requires TitlesFit(chat) && Enabled(chat, Compute(t)) && u < |chat.chain.tickets| && u != t
    ensures TicketTitled(AfterCompute(chat, t, room), u)
  {
    assert TicketFits(chat, t) && TicketFits(chat, u) && TicketTitled(chat, u);
  }

  lemma PhaseKeepsTitles(chat: Chat, k: nat, phase: Phase)
    requires TitlesFit(chat) && k < |chat.calls| && (phase.Asking? || phase.Closing? || phase.Ended?)
    requires chat.calls[k].phase.Asking? || chat.calls[k].phase.Closing? || Metadata.IsSettled(chat.chain, chat.calls[k].ticket)
    requires phase.Asking? ==> Awaits(chat, k)
    requires phase.Asking? ==> !Past(chat.calls[k])
    ensures TitlesFit(SetPhase(chat, k, phase))
  {
    var next := SetPhase(chat, k, phase);
    CallMoves(chat, k, phase);
    forall t: nat | t < |next.chain.tickets|
      ensures TicketTitled(next, t)
    {
      TicketsCarry(chat, next, t);
    }
    QuietFits(chat, next);
  }

  /** Steps of the chain other than a write to the file. */
  lemma MoveKeepsTitles(chat: Chat, step: Metadata.Event<Job, Meta>)
    requires TitlesFit(chat) && Enabled(chat, Move(step)) && !(step.Commit? && chat.chain.file.Some?)
    ensures TitlesFit(AfterMove(chat, step))
  {
    var next := AfterMove(chat, step);
    MoveFits(chat, step);
    MoveChanges(chat, step);
    forall t: nat | t < |next.chain.tickets|
      ensures TicketTitled(next, t)
    {
      TicketsCarry(chat, next, t);
    }
    forall k: nat | Awaits(next, k)
      ensures Awaits(chat, k) || next.chain.file.None?
    {
      assert CallFits(chat, k);
    }
    QuietFits(chat, next);
  }

  lemma CommitExtends(chat: Chat, t: nat)
    requires Fits(chat) && Enabled(chat, Move(Metadata.Event.Commit(t))) && chat.chain.file.Some?
    ensures var next := AfterMove(chat, Metadata.Event.Commit(t));
            && Carries(chat, next) && |next.chain.writes| == |chat.chain.writes| + 1
            && |next.chain.tickets| == |chat.chain.tickets| && !next.chain.tickets[t].phase.Computed?
            && forall u :: 0 <= u < |chat.chain.tickets| && u != t ==> next.chain.tickets[u] == chat.chain.tickets[u]
  {
    MoveChanges(chat, Metadata.Event.Commit(t));
  }

  lemma CommitCarries(chat: Chat, t: nat)
    requires TitlesFit(chat) && Enabled(chat, Move(Metadata.Event.Commit(t))) && chat.chain.file.Some?
    ensures var next := AfterMove(chat, Metadata.Event.Commit(t));
            && Carries(chat, next) && Fits(next) && |next.chain.writes| == |chat.chain.writes| + 1
            && forall u: nat :: u < |next.chain.tickets| ==> TicketTitled(next, u)
  {
    var next := AfterMove(chat, Metadata.Event.Commit(t));
    MoveFits(chat, Metadata.Event.Commit(t));
    CommitExtends(chat, t);
    MoveChanges(chat, Metadata.Event.Commit(t));
    forall u: nat | u < |next.chain.tickets|
      ensures TicketTitled(next, u)
    {
      TicketsCarry(chat, next, u);
    }
  }

  lemma CommitAwaits(chat: Chat, t: nat, k: nat)
    requires TitlesFit(chat) && Enabled(chat, Move(Metadata.Event.Commit(t))) && chat.chain.file.Some?
    requires Awaits(AfterMove(chat, Metadata.Event.Commit(t)), k)
    ensures var next := AfterMove(chat, Metadata.Event.Commit(t));
            next.chain.file.None? || CountSaw(next, k, |next.chain.writes|)
  {
    if Awaits(chat, k) {
      CommitCarries(chat, t);
      AwaitCarries(chat, AfterMove(chat, Metadata.Event.Commit(t)), k);
    } else {
      LastWriteCounts(chat, t, k);
    }
  }

  lemma CommitKeepsTitles(chat: Chat, t: nat)
    requires TitlesFit(chat) && Enabled(chat, Move(Metadata.Event.Commit(t))) && chat.chain.file.Some?
    ensures TitlesFit(AfterMove(chat, Metadata.Event.Commit(t)))
  {
    var next := AfterMove(chat, Metadata.Event.Commit(t));
    CommitCarries(chat, t);
    forall i: nat | i < |next.chain.writes|
      ensures WriteTitled(next, i)
    {
      if i < |chat.chain.writes| {
        WriteCarries(chat, next, i);
      } else {
        LastWriteTitled(chat, t);
      }
    }
    forall k: nat | Awaits(next, k)
      ensures next.chain.file.None? || CountSaw(next, k, |next.chain.writes|)
    {
      CommitAwaits(chat, t, k);
    }
  }

  /** The title written was set on the record its call had counted. */
  lemma LastWriteTitled(chat: Chat, t: nat)
    requires TitlesFit(chat) && Enabled(chat, Move(Metadata.Event.Commit(t))) && chat.chain.file.Some?
    ensures var next := AfterMove(chat, Metadata.Event.Commit(t));
            |next.chain.writes| == |chat.chain.writes| + 1 && WriteTitled(next, |chat.chain.writes|)
  {
    var next := AfterMove(chat, Metadata.Event.Commit(t));
    MoveChanges(chat, Metadata.Event.Commit(t));
    assert TicketTitled(chat, t) && TicketFits(chat, t);
    if chat.chain.tickets[t].job.SetTitle? {
      var k := chat.chain.tickets[t].job.setter;
      assert Awaits(chat, k);
      SawCarries(chat, next, k, |chat.chain.writes|);
    }
  }

  /** A reserved call whose count is written has its count among the writes. */
  lemma LastWriteCounts(chat: Chat, t: nat, k: nat)
    requires TitlesFit(chat) && Enabled(chat, Move(Metadata.Event.Commit(t))) && chat.chain.file.Some?
    requires !Awaits(chat, k) && Awaits(AfterMove(chat, Metadata.Event.Commit(t)), k)
    ensures var next := AfterMove(chat, Metadata.Event.Commit(t));
            CountSaw(next, k, |next.chain.writes|)
  {
    var next := AfterMove(chat, Metadata.Event.Commit(t));
    MoveChanges(chat, Metadata.Event.Commit(t));
    assert CallFits(chat, k) && TicketTitled(chat, t);
    assert CountWrite(next, |chat.chain.writes|, k);
  }

  lemma StepKeepsTitles(chat: Chat, e: Event, room: bool)
    requires TitlesFit(chat) && Enabled(chat, e)
    ensures TitlesFit(Next(chat, e, room))
  {
    match e {
      case Submit(update) =>
        StepFits(chat, e, room);
        SubmitKeepsTitles(chat, Next(chat, e, room), Edit(update));
      case RecordTurn(_, _) =>
        StepFits(chat, e, room);
        SubmitKeepsTitles(chat, Next(chat, e, room), CountTurn(|chat.calls|));
      case Compute(t) => ComputeKeepsTitles(chat, t, room);
      case Move(step) =>
        if step.Commit? && chat.chain.file.Some? {
          CommitKeepsTitles(chat, step.t);
        } else {
          MoveKeepsTitles(chat, step);
        }
      case Resume(k) => PhaseKeepsTitles(chat, k, Resumed(chat, k));
      case Answered(k, answer) =>
        if answer.None? {
          PhaseKeepsTitles(chat, k, Closing);
        } else {
          StepFits(chat, e, room);
          SubmitKeepsTitles(chat, Next(chat, e, room), SetTitle(k, answer.value));
        }
      case Close(k) => PhaseKeepsTitles(chat, k, Ended);
    }
  }

  ghost predicate AllTitlesFit(st: State) {
    forall c :: c in st.chats ==> TitlesFit(st.chats[c])
  }

  lemma {:induction false} RunKeepsTitles(st: State, events: seq<(ChatId, Event)>)
    requires AllTitlesFit(st)
    ensures Exec(st, events).Some? ==> AllTitlesFit(Exec(st, events).value)
    decreases |events|
  {
    if events != [] {
      var (c, e) := events[0];
      if c in st.chats && Enabled(st.chats[c], e) {
        StepKeepsTitles(st.chats[c], e, Room(st, c));
        RunKeepsTitles(Step(st, c, e), events[1..]);
      }
    }
  }

  /**
   In every run from the start, with any edits: an automatic title is written only over a record that is
   still the titler's to name and bears the title its request was made for, the title that stood in the
   file when the same call's count was written.
   */
  lemma TitleReplacesWhatItSaw(start: State, events: seq<(ChatId, Event)>, st: State, c: ChatId, i: nat)
    requires IsStart(start) && Exec(start, events) == Some(st) && c in st.chats && i < |st.chats[c].chain.writes|
    requires var w := st.chats[c].chain.writes[i];
             w.ticket < |st.chats[c].chain.tickets| && st.chats[c].chain.tickets[w.ticket].job.SetTitle?
    ensures var chat := st.chats[c];
            var w := chat.chain.writes[i];
            var SetTitle(k, title) := chat.chain.tickets[w.ticket].job;
            && k < |chat.calls| && w.record.title == title
            && Managed(w.before, chat.calls[k].looksUntouched) && w.before.title == chat.calls[k].originalTitle
            && exists j: nat :: j < i && CountWrite(chat, j, k)
  {
    forall d | d in start.chats
      ensures TitlesFit(start.chats[d])
    {
      NewChatFits(start.chats[d]);
    }
    RunKeepsTitles(start, events);
    assert WriteTitled(st.chats[c], i);
  }
}
