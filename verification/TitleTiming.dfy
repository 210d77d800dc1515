/**
 When a chat is titled again: what a counted turn and a title that lands leave in the record, and how long
 the titler waits after an attempt that led to a title and after one that did not.
 */
module TitleTiming {
  import opened Common
  import opened ChatTitles
  import Metadata = ChatMetadata

  /** The titler names chats it has named before or that carry a placeholder, and untouched ones without a source. */
  lemma ManagedIs(meta: Meta, looksUntouched: string -> bool)
    ensures meta.orchestrator || meta.titleSource == Some(Manual) ==> !Managed(meta, looksUntouched)
    ensures !meta.orchestrator && meta.titleSource in {Some(Auto), Some(Placeholder)} ==> Managed(meta, looksUntouched)
    ensures !meta.orchestrator && meta.titleSource == None ==> (Managed(meta, looksUntouched) <==> looksUntouched(meta.title))
  {
    match meta.titleSource
    case None =>
    case Some(source) => assert source.Placeholder? || source.Manual? || source.Auto?;
  }

  function TurnsOf(meta: Meta): int {
    if meta.autoTitle.Some? then meta.autoTitle.value.completedTurns else 0
  }

  /** Counting adds one turn, and with an attempt its time; the title and the time it was set stay. */
  lemma CountedIs(meta: Meta, now: int, attempt: bool)
    ensures var after := Counted(meta, now, attempt);
            && after.autoTitle.Some? && TurnsOf(after) == TurnsOf(meta) + 1
            && after.title == meta.title && after.titleSource == meta.titleSource && after.orchestrator == meta.orchestrator
            && after.autoTitle.value.lastUpdatedAt == (if meta.autoTitle.Some? then meta.autoTitle.value.lastUpdatedAt else None)
            && (attempt ==> after.autoTitle.value.lastAttemptAt == now && after.autoTitle.value.lastAttemptTurn == TurnsOf(after))
            && (!attempt && meta.autoTitle.Some? ==>
                  && after.autoTitle.value.lastAttemptAt == meta.autoTitle.value.lastAttemptAt
                  && after.autoTitle.value.lastAttemptTurn == meta.autoTitle.value.lastAttemptTurn)
            && (!attempt && meta.autoTitle.None? ==>
                  after.autoTitle.value.lastAttemptAt == 0 && after.autoTitle.value.lastAttemptTurn == 0)
  {
  }

  /** A title that lands is set with its source and the time of the turn that asked for it. */
  lemma TitledIs(meta: Meta, call: Call, title: string)
    requires meta.autoTitle.Some?
    ensures var after := Titled(meta, call, title);
            && after.title == title && after.titleSource == Some(Auto) && after.orchestrator == meta.orchestrator
            && after.autoTitle == Some(AutoTitle(TurnsOf(meta), meta.autoTitle.value.lastAttemptTurn,
                                                 meta.autoTitle.value.lastAttemptAt, Some(call.now)))
  {
  }

  /** The record after `n` more turns without an attempt. */
  function AfterTurns(meta: Meta, n: nat): Meta {
    if n == 0 then meta else Counted(AfterTurns(meta, n - 1), 0, false)
  }

  lemma {:induction false} AfterTurnsIs(meta: Meta, n: nat)
    requires meta.autoTitle.Some?
    ensures AfterTurns(meta, n) ==
            meta.(autoTitle := Some(meta.autoTitle.value.(completedTurns := meta.autoTitle.value.completedTurns + n)))
  {
    if n > 0 {
      AfterTurnsIs(meta, n - 1);
      CountedIs(AfterTurns(meta, n - 1), 0, false);
    }
  }

  /** A chat for which no title was ever asked is due at once. */
  lemma FirstAttemptIsDue(meta: Meta, now: int)
    requires meta.autoTitle.None?
    ensures Due(meta, now)
  {
  }

  /** After an attempt whose title landed the next one waits three minutes and until the fourth turn. */
  lemma DueAfterTitleIff(meta: Meta, call: Call, title: string, n: nat, now: int)
    requires call.now > 0
    ensures var titled := Titled(Counted(meta, call.now, true), call, title);
            Due(AfterTurns(titled, n), now) <==> now - call.now >= 180_000 && n + 1 >= 4
  {
    CountedIs(meta, call.now, true);
    TitledIs(Counted(meta, call.now, true), call, title);
    AfterTurnsIs(Titled(Counted(meta, call.now, true), call, title), n);
  }

  /** After one that led to no title it waits fifteen minutes, and until the fourth turn if an earlier title was set by it. */
  lemma DueAfterFailureIff(meta: Meta, at: int, n: nat, now: int)
    requires at > 0
    requires meta.autoTitle.Some? && meta.autoTitle.value.lastUpdatedAt.Some? ==> meta.autoTitle.value.lastUpdatedAt.value < at
    ensures Due(AfterTurns(Counted(meta, at, true), n), now) <==>
            now - at >= 900_000 && (meta.titleSource == Some(Auto) ==> n + 1 >= 4)
  {
    CountedIs(meta, at, true);
    AfterTurnsIs(Counted(meta, at, true), n);
  }

  // ---------------------------------------------------------------- what is logged

  /**
   A count written with a reservation logs the time of its attempt, a title written the turn that asked for
   it; nothing else is logged.
   */
  lemma CommitLogs(chat: Chat, t: nat)
    requires Enabled(chat, Move(Metadata.Commit(t)))
    ensures var (next, job) := (AfterMove(chat, Metadata.Commit(t)), chat.chain.tickets[t].job);
            var lands := chat.chain.file.Some? && job.SetTitle?;
            var attempts := chat.chain.file.Some? && job.CountTurn? && chat.calls[job.counter].phase.Reserved?;
            && next.landings == chat.landings + (if lands then [chat.calls[job.setter].attemptTurn] else [])
            && next.attempts == chat.attempts + (if attempts then [chat.calls[job.counter].now] else [])
            && next.calls == chat.calls
  {
    assert chat.landings + [] == chat.landings && chat.attempts + [] == chat.attempts;
  }
}
