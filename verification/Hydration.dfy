/**
 The messages with which a harness starts again from a replayed transcript: the last turns, each a user
 line and its narration joined to one message.
 */
module Hydration {
  import opened Common
  import opened SessionReplay

  datatype Message = UserLine(content: string) | AssistantLine(content: string)

  datatype Turn = Turn(user: Option<string>, assistant: seq<string>)

  const SEPARATOR := "\n\n"

  function LineOf(e: Shown): Option<Message> {
    if e.kind.User? && HasInk(e.text) then Some(UserLine(e.text.value))
    else if e.kind.Assistant? && HasInk(e.text) then Some(AssistantLine(e.text.value))
    else None
  }

  /** The user and assistant lines of a transcript. */
  function Lines(entries: seq<Shown>): (lines: seq<Message>)
    ensures forall m :: m in lines ==> m.content != ""
    decreases |entries|
  {
    if entries == [] then []
    else
      var n := |entries| - 1;
      Lines(entries[..n]) + match LineOf(entries[n]) case Some(line) => [line] case None => []
  }

  // ---------------------------------------------------------------- what is wanted

  /** The lines from the `turns`-th last user line on, or all when there are fewer. */
  function Window(lines: seq<Message>, turns: nat): seq<Message>
    requires turns > 0
    decreases |lines|
  {
    if lines == [] then []
    else
      var n := |lines| - 1;
      if lines[n].AssistantLine? then Window(lines[..n], turns) + [lines[n]]
      else if turns == 1 then [lines[n]]
      else Window(lines[..n], turns - 1) + [lines[n]]
  }

  predicate EndsInNarration(messages: seq<Message>) {
    messages != [] && messages[|messages| - 1].AssistantLine?
  }

  /** Consecutive narration becomes one message. */
  function Merged(lines: seq<Message>): seq<Message>
    decreases |lines|
  {
    if lines == [] then [] else Extended(Merged(lines[..|lines| - 1]), lines[|lines| - 1])
  }

  function Extended(messages: seq<Message>, line: Message): seq<Message> {
    var n := |messages| - 1;
    if line.AssistantLine? && EndsInNarration(messages)
    then messages[..n] + [AssistantLine(messages[n].content + SEPARATOR + line.content)]
    else messages + [line]
  }

  // ---------------------------------------------------------------- the turns of the source

  function Join(parts: seq<string>): string {
    if parts == [] then ""
    else if |parts| == 1 then parts[0]
    else Join(parts[..|parts| - 1]) + SEPARATOR + parts[|parts| - 1]
  }

  function AddLine(turns: seq<Turn>, line: Message): seq<Turn> {
    if line.UserLine? then turns + [Turn(Some(line.content), [])]
    else
      var open := if turns == [] then [Turn(None, [])] else turns;
      var n := |open| - 1;
      open[..n] + [open[n].(assistant := open[n].assistant + [line.content])]
  }

  function TurnsOf(lines: seq<Message>): seq<Turn>
    decreases |lines|
  {
    if lines == [] then [] else AddLine(TurnsOf(lines[..|lines| - 1]), lines[|lines| - 1])
  }

  function MessagesOf(turn: Turn): seq<Message> {
    (if turn.user.Some? && turn.user.value != "" then [UserLine(turn.user.value)] else [])
    + if turn.assistant != [] then [AssistantLine(Join(turn.assistant))] else []
  }

  function Flat(turns: seq<Turn>): seq<Message>
    decreases |turns|
  {
    if turns == [] then [] else Flat(turns[..|turns| - 1]) + MessagesOf(turns[|turns| - 1])
  }

  function LastTurns(turns: seq<Turn>, n: nat): seq<Turn> {
    if |turns| <= n then turns else turns[|turns| - n..]
  }

  lemma TurnsSnoc(lines: seq<Message>, line: Message)
    ensures TurnsOf(lines + [line]) == AddLine(TurnsOf(lines), line)
  {
    assert (lines + [line])[..|lines|] == lines;
  }

  lemma EntryAdds(entries: seq<Shown>, i: nat)
    requires i < |entries|
    ensures TurnsOf(Lines(entries[..i + 1])) ==
            match LineOf(entries[i]) case Some(line) => AddLine(TurnsOf(Lines(entries[..i])), line)
                                     case None => TurnsOf(Lines(entries[..i]))
  {
    assert entries[..i + 1][..i] == entries[..i];
    var before := Lines(entries[..i]);
    match LineOf(entries[i])
    case Some(line) => TurnsSnoc(before, line);
    case None => assert before + [] == before;
  }

  /** The first loop: `turns` ends in the turn that is current. */
  method GroupTurns(entries: seq<Shown>) returns (turns: seq<Turn>)
    ensures turns == TurnsOf(Lines(entries))
  {
    turns := [];
    var i := 0;
    while i < |entries|
      invariant 0 <= i <= |entries| && turns == TurnsOf(Lines(entries[..i]))
    {
      var e := entries[i];
      EntryAdds(entries, i);
      if e.kind.User? && HasInk(e.text) {
        turns := turns + [Turn(Some(e.text.value), [])];
      } else if e.kind.Assistant? && HasInk(e.text) {
        if turns == [] {
          turns := [Turn(None, [])];
        }
        var last := |turns| - 1;
        turns := turns[..last] + [turns[last].(assistant := turns[last].assistant + [e.text.value])];
      }
      i := i + 1;
    }
    assert entries[..|entries|] == entries;
  }

  method ConversationEntriesForHydration(entries: seq<Shown>, maxTurns: int) returns (messages: seq<Message>)
    ensures messages == if maxTurns <= 0 then [] else Merged(Window(Lines(entries), maxTurns))
  {
    var turns := GroupTurns(entries);
    if maxTurns <= 0 {
      return [];
    }
    var kept := LastTurns(turns, maxTurns);
    messages := [];
    var i := 0;
    while i < |kept|
      invariant 0 <= i <= |kept| && messages == Flat(kept[..i])
    {
      assert kept[..i + 1][..i] == kept[..i];
      messages := messages + MessagesOf(kept[i]);
      i := i + 1;
    }
    assert kept[..|kept|] == kept;
    TurnsAreWindow(Lines(entries), maxTurns);
  }

  lemma FlatSnoc(turns: seq<Turn>, turn: Turn)
    ensures Flat(turns + [turn]) == Flat(turns) + MessagesOf(turn)
  {
    assert (turns + [turn])[..|turns|] == turns;
  }

  lemma MergedSnoc(lines: seq<Message>, line: Message)
    ensures Merged(lines + [line]) == Extended(Merged(lines), line)
  {
    assert (lines + [line])[..|lines|] == lines;
  }

  /** The last turn has a user line or narration already. */
  ghost predicate LastSpeaks(turns: seq<Turn>) {
    turns != [] ==>
      var last := turns[|turns| - 1];
      last.assistant != [] || (last.user.Some? && last.user.value != "")
  }

  lemma LastExtends(front: seq<Turn>, turn: Turn, text: string)
    requires turn.assistant != [] || (turn.user.Some? && turn.user.value != "")
    ensures Flat(front + [turn.(assistant := turn.assistant + [text])]) == Extended(Flat(front + [turn]), AssistantLine(text))
  {
    FlatSnoc(front, turn.(assistant := turn.assistant + [text]));
    FlatSnoc(front, turn);
    TurnExtends(turn, text);
    if turn.assistant != [] {
      Regroup(Flat(front), MessagesOf(turn), AssistantLine(text));
    } else {
      Assoc(Flat(front), MessagesOf(turn), [AssistantLine(text)]);
      assert MessagesOf(turn) == [UserLine(turn.user.value)];
    }
  }

  /** Narration added to the last turn extends or adds the last message. */
  lemma NarrationExtends(turns: seq<Turn>, text: string)
    requires LastSpeaks(turns)
    ensures Flat(AddLine(turns, AssistantLine(text))) == Extended(Flat(turns), AssistantLine(text))
  {
    var line := AssistantLine(text);
    if turns == [] {
      assert [] + [text] == [text] && AddLine(turns, line) == [Turn(None, [text])] == [] + [Turn(None, [text])];
      FlatSnoc([], Turn(None, [text]));
      assert MessagesOf(Turn(None, [text])) == [line];
    } else {
      LastExtends(turns[..|turns| - 1], turns[|turns| - 1], text);
      assert turns[..|turns| - 1] + [turns[|turns| - 1]] == turns;
    }
  }

  lemma TurnExtends(turn: Turn, text: string)
    ensures var more := turn.(assistant := turn.assistant + [text]);
            MessagesOf(more) == if turn.assistant == [] then MessagesOf(turn) + [AssistantLine(text)]
                                else Extended(MessagesOf(turn), AssistantLine(text))
    ensures turn.assistant != [] ==> EndsInNarration(MessagesOf(turn))
  {
    var parts := turn.assistant;
    if parts != [] {
      assert (parts + [text])[..|parts|] == parts;
    } else {
      assert parts + [text] == [text];
    }
  }

  lemma Regroup(front: seq<Message>, messages: seq<Message>, line: Message)
    requires EndsInNarration(messages) && line.AssistantLine?
    ensures front + Extended(messages, line) == Extended(front + messages, line)
  {
  }

  /** Every turn but the first begins with a user line, and none is empty. */
  ghost predicate Shaped(turns: seq<Turn>) {
    forall i :: 0 <= i < |turns| ==>
      && (turns[i].user.Some? ==> turns[i].user.value != "")
      && (turns[i].user.None? ==> i == 0 && turns[i].assistant != [])
  }

  lemma AddLineShaped(turns: seq<Turn>, line: Message)
    requires Shaped(turns) && line.content != ""
    ensures Shaped(AddLine(turns, line)) && AddLine(turns, line) != []
  {
  }

  lemma {:induction false} TurnsAreShaped(lines: seq<Message>)
    requires forall m :: m in lines ==> m.content != ""
    ensures Shaped(TurnsOf(lines)) && (lines != [] ==> TurnsOf(lines) != [])
    decreases |lines|
  {
    if lines != [] {
      var n := |lines| - 1;
      assert lines[n] in lines;
      TurnsAreShaped(lines[..n]);
      AddLineShaped(TurnsOf(lines[..n]), lines[n]);
    }
  }

  /** After a user line the last `n` turns are the last `n - 1` before it, and its own. */
  lemma LastTurnsSnoc(turns: seq<Turn>, turn: Turn, n: nat)
    requires n > 0
    ensures LastTurns(turns + [turn], n) == LastTurns(turns, n - 1) + [turn]
  {
  }

  lemma AddNarration(front: seq<Turn>, last: Turn, text: string)
    ensures AddLine(front + [last], AssistantLine(text)) == front + [last.(assistant := last.assistant + [text])]
  {
    assert (front + [last])[..|front|] == front;
  }

  lemma LastTurnsNarrated(turns: seq<Turn>, text: string, n: nat)
    requires n > 0
    ensures LastTurns(AddLine(turns, AssistantLine(text)), n) == AddLine(LastTurns(turns, n), AssistantLine(text))
  {
    if turns != [] {
      var front, last := turns[..|turns| - 1], turns[|turns| - 1];
      assert turns == front + [last];
      AddNarration(front, last, text);
      LastTurnsSnoc(front, last, n);
      LastTurnsSnoc(front, last.(assistant := last.assistant + [text]), n);
      AddNarration(LastTurns(front, n - 1), last, text);
    }
  }

  lemma WindowUser(before: seq<Message>, line: Message, n: nat)
    requires n > 0 && line.UserLine? && line.content != ""
    requires n > 1 ==> Flat(LastTurns(TurnsOf(before), n - 1)) == Merged(Window(before, n - 1))
    ensures Flat(LastTurns(TurnsOf(before + [line]), n)) == Merged(Window(before + [line], n))
  {
    var turn := Turn(Some(line.content), []);
    var turns := TurnsOf(before);
    TurnsSnoc(before, line);
    LastTurnsSnoc(turns, turn, n);
    FlatSnoc(LastTurns(turns, n - 1), turn);
    assert MessagesOf(turn) == [line];
    WindowSnoc(before, line, n);
    if n == 1 {
      assert LastTurns(turns, 0) == [] && Flat([]) == [];
      MergedSnoc([], line);
      assert [] + [line] == [line];
    } else {
      MergedSnoc(Window(before, n - 1), line);
    }
  }

  lemma WindowSnoc(before: seq<Message>, line: Message, n: nat)
    requires n > 0
    ensures Window(before + [line], n) ==
            (if line.AssistantLine? then Window(before, n) else if n == 1 then [] else Window(before, n - 1)) + [line]
  {
    assert (before + [line])[..|before|] == before;
  }

  lemma {:induction false} TurnsAreWindow(lines: seq<Message>, n: nat)
    requires n > 0 && forall m :: m in lines ==> m.content != ""
    ensures Flat(LastTurns(TurnsOf(lines), n)) == Merged(Window(lines, n))
    decreases |lines|
  {
    if lines != [] {
      var before, line := lines[..|lines| - 1], lines[|lines| - 1];
      if line.AssistantLine? {
        TurnsAreWindow(before, n);
        LastTurnsNarrated(TurnsOf(before), line.content, n);
        TurnsAreShaped(before);
        NarrationExtends(LastTurns(TurnsOf(before), n), line.content);
        MergedSnoc(Window(before, n), line);
      } else {
        if n > 1 {
          TurnsAreWindow(before, n - 1);
        }
        assert lines == before + [line];
        WindowUser(before, line, n);
      }
    }
  }

  // ---------------------------------------------------------------- what the messages are like

  /** No two messages of the assistant meet: each answers the user message just before it, or comes first. */
  lemma {:induction false} NarrationAnswers(lines: seq<Message>)
    ensures forall i :: 0 < i < |Merged(lines)| && Merged(lines)[i].AssistantLine? ==> Merged(lines)[i - 1].UserLine?
    decreases |lines|
  {
    if lines != [] {
      NarrationAnswers(lines[..|lines| - 1]);
    }
  }

  predicate IsUser(m: Message) {
    m.UserLine?
  }

  function Users(lines: seq<Message>): nat
    decreases |lines|
  {
    if lines == [] then 0
    else Users(lines[..|lines| - 1]) + if IsUser(lines[|lines| - 1]) then 1 else 0
  }

  ghost predicate Splits(lines: seq<Message>, front: seq<Message>, end: seq<Message>) {
    lines == front + end && (front != [] ==> end != [] && IsUser(end[0]))
  }

  /** `end` is how `lines` ends; if anything is left out, it begins with a user line. */
  ghost predicate IsEnd(end: seq<Message>, lines: seq<Message>) {
    exists front :: Splits(lines, front, end)
  }

  lemma EndGrows(end: seq<Message>, lines: seq<Message>, line: Message)
    requires IsEnd(end, lines)
    ensures IsEnd(end + [line], lines + [line])
  {
    var front :| Splits(lines, front, end);
    assert Splits(lines + [line], front, end + [line]);
  }

  predicate HasUsers(end: seq<Message>, lines: seq<Message>, n: nat) {
    Users(end) == if Users(lines) < n then Users(lines) else n
  }

  /**
   The window is the end of the transcript: it begins with a user line unless it is everything, and holds
   `n` user lines, or all of them when there are fewer.
   */
  ghost predicate WindowFits(lines: seq<Message>, n: nat) {
    n > 0 ==> IsEnd(Window(lines, n), lines) && HasUsers(Window(lines, n), lines, n)
  }

  lemma WindowStep(before: seq<Message>, line: Message, n: nat)
    requires n > 0 && WindowFits(before, if line.AssistantLine? then n else n - 1)
    ensures WindowFits(before + [line], n)
  {
    var kept := if line.AssistantLine? then Window(before, n) else if n == 1 then [] else Window(before, n - 1);
    WindowSnoc(before, line, n);
    UsersSnoc(before, line);
    UsersSnoc(kept, line);
    if line.AssistantLine? || n > 1 {
      EndGrows(kept, before, line);
    } else {
      assert [] + [line] == [line] && Splits(before + [line], before, [line]);
    }
  }

  lemma EmptyWindow(n: nat)
    ensures WindowFits([], n)
  {
    assert Splits([], [], []);
  }

  lemma WindowGrows(lines: seq<Message>, n: nat)
    requires n > 0 && lines != []
    requires WindowFits(lines[..|lines| - 1], if lines[|lines| - 1].AssistantLine? then n else n - 1)
    ensures WindowFits(lines, n)
  {
    assert lines == lines[..|lines| - 1] + [lines[|lines| - 1]];
    WindowStep(lines[..|lines| - 1], lines[|lines| - 1], n);
  }

  lemma {:induction false} WindowIsEnd(lines: seq<Message>, n: nat)
    ensures WindowFits(lines, n)
    decreases |lines|
  {
    if lines == [] {
      EmptyWindow(n);
    } else if n > 0 {
      WindowIsEnd(lines[..|lines| - 1], if lines[|lines| - 1].AssistantLine? then n else n - 1);
      WindowGrows(lines, n);
    }
  }

  lemma UsersSnoc(lines: seq<Message>, line: Message)
    ensures Users(lines + [line]) == Users(lines) + if IsUser(line) then 1 else 0
  {
    assert (lines + [line])[..|lines|] == lines;
  }

  lemma {:induction false} FlatIsShort(turns: seq<Turn>)
    ensures |Flat(turns)| <= 2 * |turns|
    decreases |turns|
  {
    if turns != [] {
      FlatIsShort(turns[..|turns| - 1]);
    }
  }

  /** At most two messages a turn. */
  lemma HydrationIsBounded(entries: seq<Shown>, n: nat)
    requires n > 0
    ensures |Merged(Window(Lines(entries), n))| <= 2 * n
  {
    TurnsAreWindow(Lines(entries), n);
    FlatIsShort(LastTurns(TurnsOf(Lines(entries)), n));
  }
}
