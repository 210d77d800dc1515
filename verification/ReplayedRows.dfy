/**
 What the entries of a replayed transcript show of the log: each tool row shows its result or says that
 there is none, and the user, assistant and error lines are those of the log, in order.
 */
module ReplayedRows {
  import opened Common
  import opened SessionReplay

  // ---------------------------------------------------------------- every entry has its rows

  predicate StartsCall(row: Row, id: string) {
    row.event.ToolStart? && row.callId == Some(id) && id != "" && row.name.Some? && row.name.value != ""
  }

  predicate EndsCall(row: Row, id: string) {
    row.event.ToolResult? && row.callId == Some(id) && id != ""
  }

  function FirstGiven(a: Option<string>, b: Option<string>): Option<string> {
    if a.Some? then a else b
  }

  /** The row of a tool call still running: what its start says. */
  predicate ShowsStart(e: Shown, row: Row, id: string) {
    StartsCall(row, id) && e.turn == row.turn && e.toolName == row.name && e.toolArgs == row.args
  }

  /** The outcome of a result: output of a success, error of a failure. */
  predicate ShowsOutcome(e: Shown, row: Row, id: string) {
    && EndsCall(row, id) && e.turn == row.turn && e.toolOk == Some(row.ok)
    && e.toolOutput == (if row.ok then row.output else row.error) && e.text == e.toolOutput
  }

  /** Name and arguments of the result, or else those of the start, or "tool" and none. */
  predicate ShowsCall(e: Shown, result: Row, start: Option<Row>) {
    && e.toolName == FirstGiven(result.name, if start.Some? then start.value.name else Some("tool"))
    && e.toolArgs == FirstGiven(result.args, if start.Some? then start.value.args else None)
  }

  ghost predicate HasStart(e: Shown, id: string, rows: seq<Row>) {
    exists j :: 0 <= j < |rows| && ShowsStart(e, rows[j], id)
  }

  ghost predicate HasResult(e: Shown, id: string, rows: seq<Row>) {
    exists i :: 0 <= i < |rows| && ShowsOutcome(e, rows[i], id) && CallOf(e, id, rows, i)
  }

  ghost predicate CallOf(e: Shown, id: string, rows: seq<Row>, i: nat)
    requires i < |rows|
  {
    || ShowsCall(e, rows[i], None)
    || exists j :: 0 <= j < i && StartsCall(rows[j], id) && ShowsCall(e, rows[i], Some(rows[j]))
  }

  predicate NotRecorded(e: Shown) {
    && e.toolOk == Some(false) && e.text == e.toolOutput
    && e.text == Some("Tool result was not recorded before the turn ended.")
  }

  predicate IsLine(e: Shown, row: Row) {
    && e.turn == row.turn && e.text.Some? && e.toolOk == None
    && match e.kind
       case User => row.event.SendStart? && e.text == row.userMessage && e.text != Some("")
       case Assistant => row.event.TextRollup? && e.text == row.text
       case Error => row.event.ErrorRow? && e.text == row.message && e.text != Some("")
       case ToolCall => false
  }

  ghost predicate HasLine(e: Shown, rows: seq<Row>) {
    exists i :: 0 <= i < |rows| && IsLine(e, rows[i])
  }

  /** The log holds what the entry shows. */
  ghost predicate Justified(e: Shown, rows: seq<Row>) {
    if e.kind.ToolCall? then
      e.suffix.OfCall? &&
      match e.toolOk
      case None => HasStart(e, e.suffix.callId, rows) && e.text == None && e.toolOutput == None
      case Some(ok) =>
        || HasResult(e, e.suffix.callId, rows)
        || (!ok && NotRecorded(e) && HasStart(e, e.suffix.callId, rows))
    else HasLine(e, rows)
  }

  ghost predicate AllJustified(slots: seq<Slot>, rows: seq<Row>) {
    forall i :: 0 <= i < |slots| ==> Justified(slots[i].shown, rows)
  }

  lemma JustifiedLater(e: Shown, rows: seq<Row>, row: Row)
    requires Justified(e, rows)
    ensures Justified(e, rows + [row])
  {
    var more := rows + [row];
    if e.kind.ToolCall? {
      var id := e.suffix.callId;
      if j :| 0 <= j < |rows| && ShowsStart(e, rows[j], id) {
        assert ShowsStart(e, more[j], id);
      }
      if i :| 0 <= i < |rows| && ShowsOutcome(e, rows[i], id) && CallOf(e, id, rows, i) {
        assert more[i] == rows[i];
        if j :| 0 <= j < i && StartsCall(rows[j], id) && ShowsCall(e, rows[i], Some(rows[j])) {
          assert more[j] == rows[j];
        }
        assert CallOf(e, id, more, i);
      }
    } else {
      var i :| 0 <= i < |rows| && IsLine(e, rows[i]);
      assert IsLine(e, more[i]);
    }
  }

  lemma StartedIsJustified(row: Row, rows: seq<Row>)
    requires IsStart(row)
    ensures Justified(Started(row), rows + [row])
  {
    assert (rows + [row])[|rows|] == row;
    assert ShowsStart(Started(row), (rows + [row])[|rows|], row.callId.value);
  }

  lemma LineIsJustified(row: Row, position: nat, rows: seq<Row>)
    requires Line(row, position).Some?
    ensures Justified(Line(row, position).value, rows + [row])
  {
    assert IsLine(Line(row, position).value, (rows + [row])[|rows|]);
  }

  /** A result that finds its start. */
  lemma FilledIsJustified(slot: Slot, row: Row, rows: seq<Row>)
    requires IsResult(row) && IsOpen(slot, row.callId.value) && Justified(slot.shown, rows)
    requires slot.shown.kind.ToolCall? && slot.shown.toolOk.None?
    ensures Justified(FillSlot(slot, row).shown, rows + [row])
  {
    var id := row.callId.value;
    var e := FillSlot(slot, row).shown;
    var more := rows + [row];
    var j :| 0 <= j < |rows| && ShowsStart(slot.shown, rows[j], id);
    assert more[j] == rows[j] && more[|rows|] == row;
    assert ShowsOutcome(e, more[|rows|], id) && ShowsCall(e, row, Some(more[j]));
    assert CallOf(e, id, more, |rows|);
  }

  lemma OrphanIsJustified(row: Row, rows: seq<Row>)
    requires IsResult(row)
    ensures Justified(Completed(row, None, None), rows + [row])
  {
    var e := Completed(row, None, None);
    var more := rows + [row];
    assert more[|rows|] == row;
    assert ShowsOutcome(e, more[|rows|], row.callId.value) && CallOf(e, row.callId.value, more, |rows|);
  }

  lemma EndedIsJustified(slot: Slot, rows: seq<Row>)
    requires Justified(slot.shown, rows)
    requires slot.open ==> slot.shown.kind.ToolCall? && slot.shown.toolOk.None?
    ensures Justified(EndSlot(slot).shown, rows)
  {
    if slot.open {
      var id := slot.shown.suffix.callId;
      var j :| 0 <= j < |rows| && ShowsStart(slot.shown, rows[j], id);
      assert ShowsStart(EndSlot(slot).shown, rows[j], id);
    }
  }

  lemma AllLater(slots: seq<Slot>, rows: seq<Row>, row: Row)
    requires AllJustified(slots, rows)
    ensures AllJustified(slots, rows + [row])
  {
    forall i | 0 <= i < |slots|
      ensures Justified(slots[i].shown, rows + [row])
    {
      JustifiedLater(slots[i].shown, rows, row);
    }
  }

  lemma EndJustifies(st: State, rows: seq<Row>, row: Row)
    requires Sound(st) && AllJustified(st.slots, rows)
    ensures AllJustified(End(st.slots), rows + [row])
  {
    AllLater(st.slots, rows, row);
    forall i | 0 <= i < |st.slots|
      ensures Justified(End(st.slots)[i].shown, rows + [row])
    {
      EndedIsJustified(st.slots[i], rows + [row]);
    }
  }

  lemma StartJustifies(st: State, rows: seq<Row>, row: Row)
    requires AllJustified(st.slots, rows) && IsStart(row)
    ensures AllJustified(OnStart(st.slots, row), rows + [row])
  {
    AllLater(st.slots, rows, row);
    StartedIsJustified(row, rows);
  }

  lemma ResultJustifies(st: State, rows: seq<Row>, row: Row, maxEntries: int)
    requires Sound(st) && AllJustified(st.slots, rows) && IsResult(row)
    ensures AllJustified(OnResult(st.slots, row, maxEntries), rows + [row])
  {
    AllLater(st.slots, rows, row);
    if Pending(st.slots, row.callId.value) {
      forall i | 0 <= i < |st.slots|
        ensures Justified(Fill(st.slots, row)[i].shown, rows + [row])
      {
        if IsOpen(st.slots[i], row.callId.value) {
          FilledIsJustified(st.slots[i], row, rows);
        }
      }
    } else {
      OrphanIsJustified(row, rows);
    }
  }

  lemma StepJustifies(st: State, rows: seq<Row>, row: Row, maxEntries: int)
    requires Sound(st) && AllJustified(st.slots, rows)
    ensures AllJustified(Step(st, row, maxEntries).slots, rows + [row])
  {
    AllLater(st.slots, rows, row);
    EndJustifies(st, rows, row);
    if IsStart(row) {
      StartJustifies(st, rows, row);
    } else if IsResult(row) {
      ResultJustifies(st, rows, row, maxEntries);
    } else if Line(row, |st.slots|).Some? {
      LineIsJustified(row, |st.slots|, rows);
    }
  }

  lemma {:induction false} RunJustifies(st: State, seen: seq<Row>, rows: seq<Row>, maxEntries: int)
    requires Sound(st) && AllJustified(st.slots, seen)
    ensures AllJustified(Run(st, rows, maxEntries).slots, seen + rows)
    decreases |rows|
  {
    if rows == [] {
      assert seen + rows == seen;
    } else {
      StepJustifies(st, seen, rows[0], maxEntries);
      StepKeepsSound(st, rows[0], maxEntries);
      RunJustifies(Step(st, rows[0], maxEntries), seen + [rows[0]], rows[1..], maxEntries);
      assert seen + rows == (seen + [rows[0]]) + rows[1..];
    }
  }

  lemma {:induction false} KeptAreShown(slots: seq<Slot>)
    ensures forall e :: e in Kept(slots) ==> exists i :: 0 <= i < |slots| && slots[i].shown == e
  {
    if slots != [] {
      KeptAreShown(slots[1..]);
      forall e | e in Kept(slots)
        ensures exists i :: 0 <= i < |slots| && slots[i].shown == e
      {
        if e in Kept(slots[1..]) {
          var i :| 0 <= i < |slots[1..]| && slots[1..][i].shown == e;
          assert slots[i + 1].shown == e;
        } else {
          assert slots[0].shown == e;
        }
      }
    }
  }

  /**
   Every entry of the transcript is justified by the log: a successful tool row shows the output of a
   successful result for its call, a failed one the error of a failed result or that none was recorded,
   under the name and arguments of that result or of a start before it, and every line is one of the log.
   */
  lemma EntriesAreJustified(rows: seq<Row>, maxEntries: int)
    ensures forall e :: e in Parse(rows, maxEntries) ==> Justified(e, rows)
  {
    var st := State([], false);
    RunJustifies(st, [], rows, maxEntries);
    assert [] + rows == rows;
    KeptAreShown(Run(st, rows, maxEntries).slots);
  }

  // ---------------------------------------------------------------- one call

  lemma TwoSteps(a: Row, b: Row, n: int)
    ensures Run(State([], false), [a, b], n) == Step(Step(State([], false), a, n), b, n)
  {
    assert [a, b][1..] == [b] && [b][1..] == [];
    assert Run(Step(Step(State([], false), a, n), b, n), [], n) == Step(Step(State([], false), a, n), b, n);
  }

  lemma KeptOne(slot: Slot)
    ensures Kept([slot]) == if slot.open then [] else [slot.shown]
  {
    assert [slot][1..] == [] && Kept([]) == [];
  }

  /** A start and its result make one row: the outcome of the result under the name and arguments found first. */
  lemma OneCallShows(start: Row, result: Row, id: string, n: int)
    requires n >= 1 && StartsCall(start, id) && EndsCall(result, id)
    ensures |Parse([start, result], n)| == 1
    ensures var e := Parse([start, result], n)[0];
            e.kind.ToolCall? && e.suffix == OfCall(id) && ShowsOutcome(e, result, id) && ShowsCall(e, result, Some(start))
  {
    var s1 := Step(State([], false), start, n);
    assert s1.slots == [Slot(Started(start), true)];
    assert IsOpen(s1.slots[0], id);
    var s2 := Step(s1, result, n);
    assert s2.slots == [FillSlot(s1.slots[0], result)];
    TwoSteps(start, result, n);
    KeptOne(s2.slots[0]);
  }

  /** A start whose turn ends makes one failed row that says so. */
  lemma UnansweredShows(start: Row, end: Row, id: string, n: int)
    requires n >= 1 && StartsCall(start, id) && end.event.TurnEnd?
    ensures |Parse([start, end], n)| == 1
    ensures var e := Parse([start, end], n)[0];
            e.kind.ToolCall? && e.suffix == OfCall(id) && NotRecorded(e) && ShowsStart(e, start, id)
  {
    var s1 := Step(State([], false), start, n);
    assert s1.slots == [Slot(Started(start), true)];
    assert Step(s1, end, n).slots == [EndSlot(s1.slots[0])];
    TwoSteps(start, end, n);
    KeptOne(EndSlot(s1.slots[0]));
  }

  // ---------------------------------------------------------------- every line is shown

  datatype Told = Told(kind: Kind, turn: int, text: string)

  /** What a row says to the reader; narration only while the turn is open. */
  function Says(row: Row, closed: bool): seq<Told> {
    match row.event
    case SendStart =>
      if row.userMessage.Some? && row.userMessage.value != "" then [Told(User, row.turn, row.userMessage.value)] else []
    case TextRollup =>
      if !closed && row.text.Some? && (exists i :: 0 <= i < |row.text.value| && row.text.value[i] !in " \t\n\r")
      then [Told(Assistant, row.turn, row.text.value)] else []
    case ErrorRow =>
      if row.message.Some? && row.message.value != "" then [Told(Error, row.turn, row.message.value)] else []
    case _ => []
  }

  /** A turn is closed from its end to the next send. */
  function ClosedAfter(row: Row, closed: bool): bool {
    row.event.TurnEnd? || (closed && !row.event.SendStart?)
  }

  function Conversation(rows: seq<Row>, closed: bool): seq<Told>
    decreases |rows|
  {
    if rows == [] then [] else Says(rows[0], closed) + Conversation(rows[1..], ClosedAfter(rows[0], closed))
  }

  /** The lines among the entries, tool rows left out. */
  function Lines(entries: seq<Shown>): seq<Told> {
    if entries == [] then []
    else (if entries[0].kind.ToolCall? || entries[0].text.None? then []
          else [Told(entries[0].kind, entries[0].turn, entries[0].text.value)]) + Lines(entries[1..])
  }

  function ShownOf(slots: seq<Slot>): seq<Shown> {
    seq(|slots|, i requires 0 <= i < |slots| => slots[i].shown)
  }

  function SlotLines(slots: seq<Slot>): seq<Told> {
    Lines(ShownOf(slots))
  }

  lemma {:induction false} LinesConcat(a: seq<Shown>, b: seq<Shown>)
    ensures Lines(a + b) == Lines(a) + Lines(b)
  {
    if a == [] {
      assert a + b == b;
    } else {
      assert (a + b)[1..] == a[1..] + b;
      LinesConcat(a[1..], b);
    }
  }

  lemma {:induction false} ToolRowsAreSilent(a: seq<Shown>, b: seq<Shown>)
    requires |a| == |b| && forall i :: 0 <= i < |a| ==> a[i] == b[i] || (a[i].kind.ToolCall? && b[i].kind.ToolCall?)
    ensures Lines(a) == Lines(b)
  {
    if a != [] {
      ToolRowsAreSilent(a[1..], b[1..]);
    }
  }

  /** Entries already there change only if they are open, and those are tool rows. */
  lemma ChangedSlotsAreSilent(slots: seq<Slot>, next: seq<Slot>)
    requires |slots| == |next|
    requires forall i :: 0 <= i < |slots| ==>
               next[i].shown == slots[i].shown || (slots[i].shown.kind.ToolCall? && next[i].shown.kind.ToolCall?)
    ensures SlotLines(next) == SlotLines(slots)
  {
    ToolRowsAreSilent(ShownOf(slots), ShownOf(next));
  }

  lemma AddedSlotSays(slots: seq<Slot>, slot: Slot)
    ensures SlotLines(slots + [slot]) == SlotLines(slots) + Lines([slot.shown])
  {
    assert ShownOf(slots + [slot]) == ShownOf(slots) + [slot.shown];
    LinesConcat(ShownOf(slots), [slot.shown]);
  }

  lemma LineSays(row: Row, position: nat, closed: bool)
    requires !row.event.ToolStart? && !row.event.ToolResult? && !(closed && IgnoredOnceClosed(row.event))
    ensures Says(row, closed) == match Line(row, position) case Some(e) => Lines([e]) case None => []
  {
    if row.event.TextRollup? && HasInk(row.text) {
      var i :| 0 <= i < |row.text.value| && !IsSpace(row.text.value[i]);
      assert row.text.value[i] !in " \t\n\r";
    }
    if Line(row, position).Some? {
      var e := Line(row, position).value;
      assert [e][1..] == [] && Lines([e]) == [Told(e.kind, e.turn, e.text.value)] + [];
    }
  }

  lemma ToolRowSays(slots: seq<Slot>, slot: Slot)
    requires slot.shown.kind.ToolCall?
    ensures SlotLines(slots + [slot]) == SlotLines(slots)
  {
    AddedSlotSays(slots, slot);
    assert [slot.shown][1..] == [] && Lines([slot.shown]) == [];
  }

  lemma StartSaysNothing(st: State, row: Row)
    requires Sound(st) && IsStart(row)
    ensures SlotLines(OnStart(st.slots, row)) == SlotLines(st.slots)
  {
    var abandoned := Abandon(st.slots, row.callId.value);
    ChangedSlotsAreSilent(st.slots, abandoned);
    ToolRowSays(abandoned, Slot(Started(row), true));
  }

  lemma ResultSaysNothing(st: State, row: Row, n: int)
    requires Sound(st) && IsResult(row)
    ensures SlotLines(OnResult(st.slots, row, n)) == SlotLines(st.slots)
  {
    if Pending(st.slots, row.callId.value) {
      ChangedSlotsAreSilent(st.slots, Fill(st.slots, row));
    } else {
      ToolRowSays(st.slots, Slot(Completed(row, None, None), false));
    }
  }

  lemma StepSays(st: State, row: Row, n: int)
    requires Sound(st) && |st.slots| < n
    ensures SlotLines(Step(st, row, n).slots) == SlotLines(st.slots) + Says(row, st.closed)
    ensures Step(st, row, n).closed == ClosedAfter(row, st.closed)
  {
    var closed := st.closed && !row.event.SendStart?;
    assert SlotLines(st.slots) + [] == SlotLines(st.slots);
    if row.event.TurnEnd? {
      ChangedSlotsAreSilent(st.slots, End(st.slots));
    } else if Ignored(row, closed, |st.slots|, n) {
      assert Says(row, st.closed) == [];
    } else if IsStart(row) {
      StartSaysNothing(st, row);
    } else if IsResult(row) {
      ResultSaysNothing(st, row, n);
    } else if !row.event.ToolStart? && !row.event.ToolResult? {
      LineSays(row, |st.slots|, st.closed && !row.event.SendStart?);
      if Line(row, |st.slots|).Some? {
        AddedSlotSays(st.slots, Slot(Line(row, |st.slots|).value, false));
      }
    }
  }

  lemma StepGrows(st: State, row: Row, n: int)
    ensures |Step(st, row, n).slots| <= |st.slots| + 1
  {
  }

  lemma {:induction false} RunSays(st: State, rows: seq<Row>, n: int)
    requires Sound(st) && |st.slots| + |rows| <= n
    ensures SlotLines(Run(st, rows, n).slots) == SlotLines(st.slots) + Conversation(rows, st.closed)
    ensures Sound(Run(st, rows, n))
    decreases |rows|
  {
    if rows == [] {
      assert SlotLines(st.slots) + [] == SlotLines(st.slots);
    } else {
      StepSays(st, rows[0], n);
      StepKeepsSound(st, rows[0], n);
      StepGrows(st, rows[0], n);
      var next := Step(st, rows[0], n);
      RunSays(next, rows[1..], n);
      Assoc(SlotLines(st.slots), Says(rows[0], st.closed), Conversation(rows[1..], next.closed));
    }
  }

  lemma {:induction false} KeptSays(slots: seq<Slot>)
    requires forall i :: 0 <= i < |slots| && slots[i].open ==> slots[i].shown.kind.ToolCall?
    ensures Lines(Kept(slots)) == SlotLines(slots)
  {
    if slots != [] {
      KeptSays(slots[1..]);
      var kept := if slots[0].open then [] else [slots[0].shown];
      LinesConcat(kept, Kept(slots[1..]));
      LinesConcat([slots[0].shown], ShownOf(slots[1..]));
      assert ShownOf(slots) == [slots[0].shown] + ShownOf(slots[1..]);
      assert [slots[0].shown][1..] == [];
    }
  }

  /** In a log no longer than the limit every user, assistant and error line is shown, once and in order. */
  lemma EveryLineIsShown(rows: seq<Row>, maxEntries: int)
    requires |rows| <= maxEntries
    ensures Lines(Parse(rows, maxEntries)) == Conversation(rows, false)
  {
    var st := State([], false);
    RunSays(st, rows, maxEntries);
    KeptSays(Run(st, rows, maxEntries).slots);
    assert SlotLines([]) + Conversation(rows, false) == Conversation(rows, false);
  }
}
