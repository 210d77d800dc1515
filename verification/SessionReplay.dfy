/**
 Rebuilding a transcript from a session log.

 `ParseSessionJsonlForReplay` makes one pass and keeps a map from call ids to entries it has already
 put in the transcript, so that a later row can complete an entry in place.  `Parse` is the same pass
 on values.  `TwoPass` never goes back: it first decides which rows start an entry and then looks ahead
 in the log for what completes it.
 */
module SessionReplay {
  import opened Common

  datatype Event = SendStart | TurnEnd | TextRollup | ToolStart | ToolResult | ErrorRow | Unknown

  /** One parsed line of the log. */
  datatype Row = Row(event: Event, turn: int, userMessage: Option<string>, text: Option<string>, callId: Option<string>,
                     name: Option<string>, args: Option<string>, ok: bool, output: Option<string>, error: Option<string>,
                     message: Option<string>)

  datatype Kind = User | Assistant | ToolCall | Error

  datatype Suffix = AtPosition(n: nat) | OfCall(callId: string)

  datatype Shown = Shown(kind: Kind, turn: int, suffix: Suffix, text: Option<string>, toolName: Option<string>,
                         toolArgs: Option<string>, toolOk: Option<bool>, toolOutput: Option<string>)

  const NOT_RECORDED := "Tool result was not recorded before the turn ended."

  predicate Truthy(s: Option<string>) {
    s.Some? && s.value != ""
  }

  predicate IsSpace(c: char) {
    c == ' ' || c == '\t' || c == '\n' || c == '\r'
  }

  predicate HasInk(s: Option<string>) {
    s.Some? && exists i :: 0 <= i < |s.value| && !IsSpace(s.value[i])
  }

  function Narration(kind: Kind, turn: int, position: nat, text: Option<string>): Shown {
    Shown(kind, turn, AtPosition(position), text, None, None, None, None)
  }

  function Started(row: Row): Shown
    requires row.callId.Some?
  {
    Shown(ToolCall, row.turn, OfCall(row.callId.value), None, row.name, row.args, None, None)
  }

  function OrElse(a: Option<string>, b: Option<string>): Option<string> {
    if a.Some? then a else b
  }

  /** The entry for a result, names and arguments falling back on those of the started call. */
  function Completed(row: Row, name: Option<string>, args: Option<string>): Shown
    requires row.callId.Some?
  {
    var body := if row.ok then row.output else row.error;
    Shown(ToolCall, row.turn, OfCall(row.callId.value), body, OrElse(OrElse(row.name, name), Some("tool")),
          OrElse(row.args, args), Some(row.ok), body)
  }

  function Unrecorded(shown: Shown): Shown {
    shown.(toolOk := Some(false), toolOutput := Some(NOT_RECORDED), text := Some(NOT_RECORDED))
  }

  /** Narration, results and tool starts count only while the turn is open. */
  predicate IgnoredOnceClosed(event: Event) {
    event.TextRollup? || event.ToolStart? || event.ToolResult?
  }

  predicate IsStart(row: Row) {
    row.event.ToolStart? && Truthy(row.callId) && Truthy(row.name)
  }

  predicate IsResult(row: Row) {
    row.event.ToolResult? && Truthy(row.callId)
  }

  predicate Ignored(row: Row, closed: bool, count: nat, maxEntries: int) {
    (closed && IgnoredOnceClosed(row.event)) || (count >= maxEntries && !row.event.ToolResult?)
  }

  /** The user, assistant or error line a row adds, if any. */
  function Line(row: Row, position: nat): Option<Shown> {
    match row.event
    case SendStart =>
      if Truthy(row.userMessage) then Some(Narration(User, row.turn, position, row.userMessage)) else None
    case TextRollup => if HasInk(row.text) then Some(Narration(Assistant, row.turn, position, row.text)) else None
    case ErrorRow => if Truthy(row.message) then Some(Narration(Error, row.turn, position, row.message)) else None
    case _ => None
  }

  // ---------------------------------------------------------------- the one pass, on values

  /** An entry of the transcript; `open` while the pending map leads to it. */
  datatype Slot = Slot(shown: Shown, open: bool)

  datatype State = State(slots: seq<Slot>, closed: bool)

  predicate IsOpen(slot: Slot, callId: string) {
    slot.open && slot.shown.suffix == OfCall(callId)
  }

  predicate Pending(slots: seq<Slot>, callId: string) {
    exists i :: 0 <= i < |slots| && IsOpen(slots[i], callId)
  }

  function EndSlot(slot: Slot): Slot {
    if slot.open then Slot(Unrecorded(slot.shown), false) else slot
  }

  function FillSlot(slot: Slot, row: Row): Slot
    requires row.callId.Some?
  {
    if IsOpen(slot, row.callId.value) then Slot(Completed(row, slot.shown.toolName, slot.shown.toolArgs), false) else slot
  }

  /** A new start takes the call id away from the entry that held it. */
  function AbandonSlot(slot: Slot, callId: string): Slot {
    if IsOpen(slot, callId) then slot.(open := false) else slot
  }

  function End(slots: seq<Slot>): (r: seq<Slot>)
    ensures |r| == |slots|
    ensures forall i :: 0 <= i < |slots| ==> r[i] == EndSlot(slots[i])
  {
    if slots == [] then [] else [EndSlot(slots[0])] + End(slots[1..])
  }

  function Fill(slots: seq<Slot>, row: Row): (r: seq<Slot>)
    requires row.callId.Some?
    ensures |r| == |slots|
    ensures forall i :: 0 <= i < |slots| ==> r[i] == FillSlot(slots[i], row)
    decreases |slots|
  {
    if slots == [] then [] else [FillSlot(slots[0], row)] + Fill(slots[1..], row)
  }

  function Abandon(slots: seq<Slot>, callId: string): (r: seq<Slot>)
    ensures |r| == |slots|
    ensures forall i :: 0 <= i < |slots| ==> r[i] == AbandonSlot(slots[i], callId)
    decreases |slots|
  {
    if slots == [] then [] else [AbandonSlot(slots[0], callId)] + Abandon(slots[1..], callId)
  }

  function OnStart(slots: seq<Slot>, row: Row): seq<Slot>
    requires row.callId.Some?
  {
    Abandon(slots, row.callId.value) + [Slot(Started(row), true)]
  }

  function OnResult(slots: seq<Slot>, row: Row, maxEntries: int): seq<Slot>
    requires row.callId.Some?
  {
    if Pending(slots, row.callId.value) then Fill(slots, row)
    else if |slots| < maxEntries then slots + [Slot(Completed(row, None, None), false)]
    else slots
  }

  function OnLine(slots: seq<Slot>, row: Row): seq<Slot> {
    var line := Line(row, |slots|);
    if line.Some? then slots + [Slot(line.value, false)] else slots
  }

  function Step(st: State, row: Row, maxEntries: int): State {
    if row.event.TurnEnd? then State(End(st.slots), true) else
    var closed := st.closed && !row.event.SendStart?;
    if Ignored(row, closed, |st.slots|, maxEntries) then st.(closed := closed)
    else if IsStart(row) then State(OnStart(st.slots, row), closed)
    else if IsResult(row) then State(OnResult(st.slots, row, maxEntries), closed)
    else State(OnLine(st.slots, row), closed)
  }

  function Run(st: State, rows: seq<Row>, maxEntries: int): State
    decreases |rows|
  {
    if rows == [] then st else Run(Step(st, rows[0], maxEntries), rows[1..], maxEntries)
  }

  /** Entries still open at the end of the log are left out. */
  function Kept(slots: seq<Slot>): seq<Shown> {
    if slots == [] then [] else (if slots[0].open then [] else [slots[0].shown]) + Kept(slots[1..])
  }

  function Parse(rows: seq<Row>, maxEntries: int): seq<Shown> {
    Kept(Run(State([], false), rows, maxEntries).slots)
  }

  // ---------------------------------------------------------------- the two passes

  /** What decides whether a row starts an entry: no entry is ever changed. */
  datatype Control = Control(closed: bool, open: set<string>, count: nat)

  predicate Starts(c: Control, row: Row, maxEntries: int) {
    IsStart(row) && !Ignored(row, c.closed, c.count, maxEntries)
  }

  predicate Orphan(c: Control, row: Row, maxEntries: int) {
    IsResult(row) && !c.closed && row.callId.value !in c.open && c.count < maxEntries
  }

  predicate Narrates(c: Control, row: Row, maxEntries: int) {
    Line(row, c.count).Some? && !(c.closed && row.event.TextRollup?) && c.count < maxEntries
  }

  function Reopened(c: Control, row: Row): Control {
    c.(closed := c.closed && !row.event.SendStart?)
  }

  function Advance(c: Control, row: Row, maxEntries: int): Control {
    if row.event.TurnEnd? then Control(true, {}, c.count) else
    var c := Reopened(c, row);
    if Starts(c, row, maxEntries) then Control(c.closed, c.open + {row.callId.value}, c.count + 1)
    else if Orphan(c, row, maxEntries) || Narrates(c, row, maxEntries) then c.(count := c.count + 1)
    else if IsResult(row) && !c.closed then c.(open := c.open - {row.callId.value})
    else c
  }

  /** The first result for the call, or the end of the turn, completes a start; otherwise it is not shown. */
  function LookAhead(shown: Shown, callId: string, later: seq<Row>): (r: seq<Shown>)
    ensures forall i :: 0 <= i < |r| ==> r[i].toolOk.Some?
    ensures |r| <= 1
    decreases |later|
  {
    if later == [] then []
    else if later[0].event.TurnEnd? then [Unrecorded(shown)]
    else if IsResult(later[0]) && later[0].callId.value == callId then
      [Completed(later[0], shown.toolName, shown.toolArgs)]
    else LookAhead(shown, callId, later[1..])
  }

  /** What the first row of the rest of the log contributes at its own place. */
  function Contribution(c: Control, row: Row, later: seq<Row>, maxEntries: int): (r: seq<Shown>)
    ensures |r| <= 1
  {
    if row.event.TurnEnd? then [] else
    var c := Reopened(c, row);
    if Starts(c, row, maxEntries) then LookAhead(Started(row), row.callId.value, later)
    else if Orphan(c, row, maxEntries) then [Completed(row, None, None)]
    else if Narrates(c, row, maxEntries) then [Line(row, c.count).value]
    else []
  }

  function TwoPass(c: Control, rows: seq<Row>, maxEntries: int): seq<Shown>
    decreases |rows|
  {
    if rows == [] then [] else
    Contribution(c, rows[0], rows[1..], maxEntries) + TwoPass(Advance(c, rows[0], maxEntries), rows[1..], maxEntries)
  }

  const FRESH := Control(false, {}, 0)

  /** A call id starts again although its earlier start has neither a result nor the end of its turn behind it. */
  predicate Restarts(c: Control, row: Row, maxEntries: int) {
    var c := Reopened(c, row);
    Starts(c, row, maxEntries) && row.callId.value in c.open
  }

  predicate NoRestart(c: Control, rows: seq<Row>, maxEntries: int)
    decreases |rows|
  {
    rows == [] ||
    (!Restarts(c, rows[0], maxEntries) && NoRestart(Advance(c, rows[0], maxEntries), rows[1..], maxEntries))
  }

  // ---------------------------------------------------------------- the control state is that of the one pass

  ghost predicate SameControl(c: Control, st: State) {
    && c.closed == st.closed && c.count == |st.slots|
    && (forall id :: id in c.open <==> Pending(st.slots, id))
  }

  /** Open entries are unfinished tool calls, and none is open once the turn has ended. */
  ghost predicate Sound(st: State) {
    && (forall i :: 0 <= i < |st.slots| && st.slots[i].open ==>
          st.slots[i].shown.kind.ToolCall? && st.slots[i].shown.suffix.OfCall? && st.slots[i].shown.toolOk.None?)
    && (st.closed ==> forall i :: 0 <= i < |st.slots| ==> !st.slots[i].open)
  }

  lemma StepKeepsSound(st: State, row: Row, maxEntries: int)
    requires Sound(st)
    ensures Sound(Step(st, row, maxEntries))
  {
  }

  lemma PendingAfterStart(slots: seq<Slot>, row: Row, id: string)
    requires row.callId.Some?
    ensures Pending(OnStart(slots, row), id) <==> Pending(slots, id) || id == row.callId.value
  {
    var after := OnStart(slots, row);
    assert after[|slots|] == Slot(Started(row), true);
    if i :| 0 <= i < |slots| && IsOpen(slots[i], id) && id != row.callId.value {
      assert after[i] == slots[i];
    }
    if i :| 0 <= i < |after| && IsOpen(after[i], id) {
      if i < |slots| {
        assert after[i] == AbandonSlot(slots[i], row.callId.value);
      }
    }
  }

  lemma PendingAfterFill(slots: seq<Slot>, row: Row, id: string)
    requires row.callId.Some?
    ensures Pending(Fill(slots, row), id) <==> Pending(slots, id) && id != row.callId.value
  {
    var after := Fill(slots, row);
    if i :| 0 <= i < |slots| && IsOpen(slots[i], id) && id != row.callId.value {
      assert after[i] == slots[i];
    }
    if i :| 0 <= i < |after| && IsOpen(after[i], id) {
      assert after[i] == FillSlot(slots[i], row);
    }
  }

  lemma PendingAfterPush(slots: seq<Slot>, shown: Shown, id: string)
    ensures Pending(slots + [Slot(shown, false)], id) <==> Pending(slots, id)
  {
    var after := slots + [Slot(shown, false)];
    if i :| 0 <= i < |slots| && IsOpen(slots[i], id) {
      assert after[i] == slots[i];
    }
  }

  lemma StepKeepsControl(c: Control, st: State, row: Row, maxEntries: int)
    requires Sound(st) && SameControl(c, st)
    ensures SameControl(Advance(c, row, maxEntries), Step(st, row, maxEntries))
  {
    var next := Step(st, row, maxEntries);
    forall id
      ensures id in Advance(c, row, maxEntries).open <==> Pending(next.slots, id)
    {
      if IsStart(row) {
        PendingAfterStart(st.slots, row, id);
      } else if IsResult(row) {
        PendingAfterFill(st.slots, row, id);
        PendingAfterPush(st.slots, Completed(row, None, None), id);
      } else if Line(row, |st.slots|).Some? {
        PendingAfterPush(st.slots, Line(row, |st.slots|).value, id);
      }
    }
  }

  // ---------------------------------------------------------------- the one pass shows what the two passes show

  /** The transcript so far, open entries replaced by what the rest of the log makes of them. */
  function Outlook(slots: seq<Slot>, later: seq<Row>): seq<Shown>
    requires forall i :: 0 <= i < |slots| && slots[i].open ==> slots[i].shown.suffix.OfCall?
    decreases |slots|
  {
    if slots == [] then [] else
    (if slots[0].open then LookAhead(slots[0].shown, slots[0].shown.suffix.callId, later) else [slots[0].shown]) +
    Outlook(slots[1..], later)
  }

  ghost predicate Named(slots: seq<Slot>) {
    forall i :: 0 <= i < |slots| && slots[i].open ==> slots[i].shown.suffix.OfCall?
  }

  lemma {:induction false} OutlookAtEnd(slots: seq<Slot>)
    requires Named(slots)
    ensures Outlook(slots, []) == Kept(slots)
  {
    if slots != [] {
      OutlookAtEnd(slots[1..]);
    }
  }

  lemma {:induction false} OutlookPush(slots: seq<Slot>, slot: Slot, later: seq<Row>)
    requires Named(slots) && Named([slot])
    ensures Named(slots + [slot])
    ensures Outlook(slots + [slot], later) == Outlook(slots, later) + Outlook([slot], later)
    decreases |slots|
  {
    if slots == [] {
      assert slots + [slot] == [slot];
    } else {
      var rest := slots[1..];
      OutlookPush(rest, slot, later);
      assert slots + [slot] == [slots[0]] + (rest + [slot]);
      OutlookCons(slots[0], rest + [slot], later);
      OutlookCons(slots[0], rest, later);
      assert [slots[0]] + rest == slots;
    }
  }

  lemma OutlookCons(slot: Slot, rest: seq<Slot>, later: seq<Row>)
    requires Named([slot]) && Named(rest)
    ensures Named([slot] + rest)
    ensures Outlook([slot] + rest, later) == Outlook([slot], later) + Outlook(rest, later)
  {
    assert ([slot] + rest)[1..] == rest && [slot][1..] == [];
    assert [slot][0].open ==> slot.shown.suffix.OfCall?;
  }

  lemma PendingTail(slots: seq<Slot>, callId: string)
    requires slots != []
    ensures Pending(slots, callId) <==> IsOpen(slots[0], callId) || Pending(slots[1..], callId)
  {
    if i :| 0 <= i < |slots| && IsOpen(slots[i], callId) && i > 0 {
      assert slots[1..][i - 1] == slots[i];
    }
    if i :| 0 <= i < |slots[1..]| && IsOpen(slots[1..][i], callId) {
      assert slots[1..][i] == slots[i + 1];
    }
  }

  /** A row that is neither a result nor the end of a turn completes nothing. */
  lemma {:induction false} OutlookSkips(slots: seq<Slot>, row: Row, later: seq<Row>)
    requires Named(slots) && !row.event.TurnEnd?
    requires !IsResult(row) || !Pending(slots, row.callId.value)
    ensures Outlook(slots, [row] + later) == Outlook(slots, later)
    decreases |slots|
  {
    if slots != [] {
      assert ([row] + later)[1..] == later;
      if IsResult(row) {
        PendingTail(slots, row.callId.value);
      }
      OutlookSkips(slots[1..], row, later);
    }
  }

  lemma {:induction false} OutlookEnds(slots: seq<Slot>, row: Row, later: seq<Row>)
    requires Named(slots) && row.event.TurnEnd?
    ensures Outlook(slots, [row] + later) == Outlook(End(slots), later)
    decreases |slots|
  {
    if slots != [] {
      OutlookEnds(slots[1..], row, later);
      assert End(slots)[1..] == End(slots[1..]);
    }
  }

  lemma {:induction false} OutlookFills(slots: seq<Slot>, row: Row, later: seq<Row>)
    requires Named(slots) && IsResult(row)
    ensures Outlook(slots, [row] + later) == Outlook(Fill(slots, row), later)
    decreases |slots|
  {
    if slots != [] {
      OutlookFills(slots[1..], row, later);
      assert Fill(slots, row)[1..] == Fill(slots[1..], row);
      assert ([row] + later)[1..] == later;
    }
  }

  lemma {:induction false} NothingToAbandon(slots: seq<Slot>, callId: string)
    requires !Pending(slots, callId)
    ensures Abandon(slots, callId) == slots
  {
    forall i | 0 <= i < |slots|
      ensures AbandonSlot(slots[i], callId) == slots[i]
    {
      assert !IsOpen(slots[i], callId);
    }
  }

  lemma ShowsStart(c: Control, st: State, row: Row, later: seq<Row>, maxEntries: int)
    requires Sound(st) && SameControl(c, st) && Starts(Reopened(c, row), row, maxEntries) && !Restarts(c, row, maxEntries)
    ensures Outlook(Step(st, row, maxEntries).slots, later) ==
            Outlook(st.slots, [row] + later) + Contribution(c, row, later, maxEntries)
  {
    NothingToAbandon(st.slots, row.callId.value);
    var slot := Slot(Started(row), true);
    OutlookPush(st.slots, slot, later);
    OutlookSkips(st.slots, row, later);
    assert Outlook([slot], later) == LookAhead(slot.shown, row.callId.value, later) + Outlook([], later);
  }

  lemma ShowsResult(c: Control, st: State, row: Row, later: seq<Row>, maxEntries: int)
    requires Sound(st) && SameControl(c, st) && IsResult(row)
    ensures Outlook(Step(st, row, maxEntries).slots, later) ==
            Outlook(st.slots, [row] + later) + Contribution(c, row, later, maxEntries)
  {
    if st.closed {
      OutlookSkips(st.slots, row, later);
    } else if Pending(st.slots, row.callId.value) {
      OutlookFills(st.slots, row, later);
    } else {
      OutlookSkips(st.slots, row, later);
      if |st.slots| < maxEntries {
        var slot := Slot(Completed(row, None, None), false);
        OutlookPush(st.slots, slot, later);
        assert Outlook([slot], later) == [slot.shown] + Outlook([], later);
      }
    }
  }

  lemma ShowsLine(c: Control, st: State, row: Row, later: seq<Row>, maxEntries: int)
    requires Sound(st) && SameControl(c, st)
    requires !IsResult(row) && !row.event.TurnEnd? && !Starts(Reopened(c, row), row, maxEntries)
    ensures Outlook(Step(st, row, maxEntries).slots, later) ==
            Outlook(st.slots, [row] + later) + Contribution(c, row, later, maxEntries)
  {
    OutlookSkips(st.slots, row, later);
    if Narrates(Reopened(c, row), row, maxEntries) {
      var slot := Slot(Line(row, |st.slots|).value, false);
      OutlookPush(st.slots, slot, later);
      assert Outlook([slot], later) == [slot.shown] + Outlook([], later);
    }
  }

  lemma StepShows(c: Control, st: State, row: Row, later: seq<Row>, maxEntries: int)
    requires Sound(st) && SameControl(c, st) && !Restarts(c, row, maxEntries)
    ensures Sound(Step(st, row, maxEntries))
    ensures Outlook(Step(st, row, maxEntries).slots, later) ==
            Outlook(st.slots, [row] + later) + Contribution(c, row, later, maxEntries)
  {
    StepKeepsSound(st, row, maxEntries);
    if row.event.TurnEnd? {
      OutlookEnds(st.slots, row, later);
    } else if IsResult(row) {
      ShowsResult(c, st, row, later, maxEntries);
    } else if Starts(Reopened(c, row), row, maxEntries) {
      ShowsStart(c, st, row, later, maxEntries);
    } else {
      ShowsLine(c, st, row, later, maxEntries);
    }
  }

  lemma {:induction false} RunShows(c: Control, st: State, rows: seq<Row>, maxEntries: int)
    requires Sound(st) && SameControl(c, st) && NoRestart(c, rows, maxEntries)
    ensures Kept(Run(st, rows, maxEntries).slots) == Outlook(st.slots, rows) + TwoPass(c, rows, maxEntries)
    decreases |rows|
  {
    if rows == [] {
      OutlookAtEnd(st.slots);
    } else {
      assert [rows[0]] + rows[1..] == rows;
      StepShows(c, st, rows[0], rows[1..], maxEntries);
      StepKeepsControl(c, st, rows[0], maxEntries);
      RunShows(Advance(c, rows[0], maxEntries), Step(st, rows[0], maxEntries), rows[1..], maxEntries);
    }
  }

  /** Unless a call restarts while open, patching entries in place shows exactly what looking ahead shows. */
  lemma ReplayLooksAhead(rows: seq<Row>, maxEntries: int)
    requires NoRestart(FRESH, rows, maxEntries)
    ensures Parse(rows, maxEntries) == TwoPass(FRESH, rows, maxEntries)
  {
    RunShows(FRESH, State([], false), rows, maxEntries);
  }

  // ---------------------------------------------------------------- completeness

  predicate Finished(shown: Shown) {
    shown.kind.ToolCall? ==> shown.toolOk.Some?
  }

  ghost predicate AllFinished(transcript: seq<Shown>) {
    forall i :: 0 <= i < |transcript| ==> Finished(transcript[i])
  }

  lemma {:induction false} TwoPassFinishes(c: Control, rows: seq<Row>, maxEntries: int)
    ensures AllFinished(TwoPass(c, rows, maxEntries))
    decreases |rows|
  {
    if rows != [] {
      TwoPassFinishes(Advance(c, rows[0], maxEntries), rows[1..], maxEntries);
    }
  }

  /** An unfinished call the pending map no longer leads to. */
  ghost predicate Stranded(slots: seq<Slot>) {
    exists i :: 0 <= i < |slots| && !slots[i].open && !Finished(slots[i].shown)
  }

  lemma StrandedStays(st: State, row: Row, maxEntries: int)
    requires Stranded(st.slots)
    ensures Stranded(Step(st, row, maxEntries).slots)
  {
    var i :| 0 <= i < |st.slots| && !st.slots[i].open && !Finished(st.slots[i].shown);
    assert Step(st, row, maxEntries).slots[i] == st.slots[i];
  }

  lemma RestartStrands(c: Control, st: State, row: Row, maxEntries: int)
    requires Sound(st) && SameControl(c, st) && Restarts(c, row, maxEntries)
    ensures Stranded(Step(st, row, maxEntries).slots)
  {
    var i :| 0 <= i < |st.slots| && IsOpen(st.slots[i], row.callId.value);
    assert Step(st, row, maxEntries).slots[i] == AbandonSlot(st.slots[i], row.callId.value);
  }

  lemma {:induction false} StrandedIsShown(slots: seq<Slot>)
    requires Stranded(slots)
    ensures !AllFinished(Kept(slots))
  {
    var i :| 0 <= i < |slots| && !slots[i].open && !Finished(slots[i].shown);
    if i == 0 {
      assert Kept(slots)[0] == slots[0].shown;
    } else {
      assert slots[1..][i - 1] == slots[i];
      StrandedIsShown(slots[1..]);
      var k :| 0 <= k < |Kept(slots[1..])| && !Finished(Kept(slots[1..])[k]);
      var skip := |Kept(slots)| - |Kept(slots[1..])|;
      assert Kept(slots)[skip + k] == Kept(slots[1..])[k];
    }
  }

  lemma {:induction false} StrandedToTheEnd(st: State, rows: seq<Row>, maxEntries: int)
    requires Stranded(st.slots)
    ensures Stranded(Run(st, rows, maxEntries).slots)
    decreases |rows|
  {
    if rows != [] {
      StrandedStays(st, rows[0], maxEntries);
      StrandedToTheEnd(Step(st, rows[0], maxEntries), rows[1..], maxEntries);
    }
  }

  lemma {:induction false} RestartIsShown(c: Control, st: State, rows: seq<Row>, maxEntries: int)
    requires Sound(st) && SameControl(c, st) && !NoRestart(c, rows, maxEntries)
    ensures !AllFinished(Kept(Run(st, rows, maxEntries).slots))
    decreases |rows|
  {
    var next := Step(st, rows[0], maxEntries);
    if Restarts(c, rows[0], maxEntries) {
      RestartStrands(c, st, rows[0], maxEntries);
      StrandedToTheEnd(next, rows[1..], maxEntries);
      StrandedIsShown(Run(st, rows, maxEntries).slots);
    } else {
      StepKeepsSound(st, rows[0], maxEntries);
      StepKeepsControl(c, st, rows[0], maxEntries);
      RestartIsShown(Advance(c, rows[0], maxEntries), next, rows[1..], maxEntries);
    }
  }

  /** Every tool call shown has an outcome exactly when no call id restarts while open. */
  lemma FinishedIffNoRestart(rows: seq<Row>, maxEntries: int)
    ensures AllFinished(Parse(rows, maxEntries)) <==> NoRestart(FRESH, rows, maxEntries)
    ensures Parse(rows, maxEntries) == TwoPass(FRESH, rows, maxEntries) <==> NoRestart(FRESH, rows, maxEntries)
  {
    TwoPassFinishes(FRESH, rows, maxEntries);
    if NoRestart(FRESH, rows, maxEntries) {
      ReplayLooksAhead(rows, maxEntries);
    } else {
      RestartIsShown(FRESH, State([], false), rows, maxEntries);
    }
  }

  function StartOf(callId: string): Row {
    Row(ToolStart, 1, None, None, Some(callId), Some("read"), None, false, None, None, None)
  }

  /** A log in which one call starts twice before its result: a call without an outcome is shown as if complete. */
  lemma RestartShowsUnfinished()
    ensures var result := StartOf("a").(event := ToolResult, ok := true, output := Some("done"));
            var transcript := Parse([StartOf("a"), StartOf("a"), result], 500);
            |transcript| == 2 && transcript[0].toolOk == None && transcript[1].toolOk == Some(true)
  {
    var first := StartOf("a");
    var result := first.(event := ToolResult, ok := true, output := Some("done"));
    var rows := [first, first, result];
    var s1 := Step(State([], false), first, 500);
    assert s1.slots == [Slot(Started(first), true)];
    var s2 := Step(s1, first, 500);
    assert s2.slots == [Slot(Started(first), false), Slot(Started(first), true)];
    assert IsOpen(s2.slots[1], "a");
    var s3 := Step(s2, result, 500);
    assert s3.slots == Fill(s2.slots, result);
    assert rows[1..] == [first, result] && rows[1..][1..] == [result] && [result][1..] == [];
    assert Run(s2, [result], 500) == s3;
    assert Run(s1, [first, result], 500) == s3;
    assert Kept(s3.slots[1..]) == [s3.slots[1].shown] + Kept(s3.slots[1..][1..]);
  }

  // ---------------------------------------------------------------- bound

  lemma StepIsBounded(st: State, row: Row, maxEntries: nat)
    requires |st.slots| <= maxEntries
    ensures |st.slots| <= |Step(st, row, maxEntries).slots| <= maxEntries
  {
  }

  lemma {:induction false} KeptIsShorter(slots: seq<Slot>)
    ensures |Kept(slots)| <= |slots|
  {
    if slots != [] {
      KeptIsShorter(slots[1..]);
    }
  }

  lemma {:induction false} RunIsBounded(st: State, rows: seq<Row>, maxEntries: nat)
    requires |st.slots| <= maxEntries
    ensures |Run(st, rows, maxEntries).slots| <= maxEntries
    decreases |rows|
  {
    if rows != [] {
      StepIsBounded(st, rows[0], maxEntries);
      RunIsBounded(Step(st, rows[0], maxEntries), rows[1..], maxEntries);
    }
  }

  lemma TranscriptIsBounded(rows: seq<Row>, maxEntries: nat)
    ensures |Parse(rows, maxEntries)| <= maxEntries
  {
    RunIsBounded(State([], false), rows, maxEntries);
    KeptIsShorter(Run(State([], false), rows, maxEntries).slots);
  }

  // ---------------------------------------------------------------- the parser

  class Entry {
    var shown: Shown

    constructor (shown: Shown)
      ensures this.shown == shown
    {
      this.shown := shown;
    }
  }

  /** Place of each open entry in the transcript, by call id. */
  ghost predicate Places(slots: seq<Slot>, at: map<string, nat>) {
    && (forall id :: id in at ==> at[id] < |slots| && IsOpen(slots[at[id]], id))
    && (forall i: nat :: i < |slots| && slots[i].open ==>
          slots[i].shown.suffix.OfCall? && slots[i].shown.suffix.callId in at && at[slots[i].shown.suffix.callId] == i)
  }

  ghost predicate Distinct(out: seq<Entry>) {
    forall i, j :: 0 <= i < j < |out| ==> out[i] != out[j]
  }

  ghost predicate Shows(entries: seq<Entry>, transcript: seq<Slot>)
    reads entries
  {
    |entries| == |transcript| && forall i :: 0 <= i < |entries| ==> entries[i].shown == transcript[i].shown
  }

  /** The pending map leads from the id of each open entry to that entry, and nowhere else. */
  ghost predicate Leads(out: seq<Entry>, pending: map<string, Entry>, at: map<string, nat>) {
    pending.Keys == at.Keys && forall id :: id in at ==> at[id] < |out| && pending[id] == out[at[id]]
  }

  ghost predicate Mirrors(slots: seq<Slot>, out: seq<Entry>, pending: map<string, Entry>, at: map<string, nat>)
    reads out
  {
    Shows(out, slots) && Distinct(out) && Leads(out, pending, at) && Places(slots, at)
  }

  lemma PlacesAfterStart(slots: seq<Slot>, at: map<string, nat>, row: Row)
    requires Places(slots, at) && row.callId.Some?
    ensures Places(OnStart(slots, row), at[row.callId.value := |slots|])
  {
    var after := OnStart(slots, row);
    forall i: nat | i < |slots|
      ensures after[i] == AbandonSlot(slots[i], row.callId.value)
    {
    }
    assert after[|slots|] == Slot(Started(row), true);
  }

  lemma PlacesAfterPush(slots: seq<Slot>, at: map<string, nat>, shown: Shown)
    requires Places(slots, at)
    ensures Places(slots + [Slot(shown, false)], at)
  {
  }

  lemma PlacesAfterFill(slots: seq<Slot>, at: map<string, nat>, row: Row)
    requires Places(slots, at) && row.callId.Some?
    ensures Places(Fill(slots, row), at - {row.callId.value})
  {
  }

  lemma PendingIsPlaced(slots: seq<Slot>, at: map<string, nat>, id: string)
    requires Places(slots, at)
    ensures Pending(slots, id) <==> id in at
  {
  }

  /** The end of a turn: every pending entry is closed as failed. */
  method CloseAll(out: seq<Entry>, pending: map<string, Entry>, ghost slots: seq<Slot>, ghost at: map<string, nat>)
    requires Mirrors(slots, out, pending, at)
    modifies out
    ensures Mirrors(End(slots), out, map[], map[])
  {
    var left := pending.Keys;
    while left != {}
      invariant left <= pending.Keys
      invariant forall i :: 0 <= i < |out| ==>
                  out[i].shown == if slots[i].open && slots[i].shown.suffix.callId !in left
                                  then Unrecorded(slots[i].shown) else slots[i].shown
    {
      var id :| id in left;
      var entry := pending[id];
      assert entry == out[at[id]] && IsOpen(slots[at[id]], id);
      entry.shown := Unrecorded(entry.shown);
      left := left - {id};
    }
  }

  /** A result completes the entry its call id leads to, at the place where the call started. */
  method CompletePending(out: seq<Entry>, pending: map<string, Entry>, row: Row, ghost slots: seq<Slot>,
                         ghost at: map<string, nat>)
    requires Mirrors(slots, out, pending, at) && row.callId.Some? && row.callId.value in pending
    modifies out
    ensures Shows(out, Fill(slots, row))
  {
    var entry := pending[row.callId.value];
    ghost var k := at[row.callId.value];
    assert entry == out[k] && IsOpen(slots[k], row.callId.value);
    entry.shown := Completed(row, entry.shown.toolName, entry.shown.toolArgs);
    forall i: nat | i < |out|
      ensures out[i].shown == Fill(slots, row)[i].shown
    {
      assert out[i] == out[k] <==> i == k;
      assert Fill(slots, row)[i] == FillSlot(slots[i], row);
    }
  }

  /** A completed entry at the end of the transcript. */
  method Append(out: seq<Entry>, shown: Shown, ghost slots: seq<Slot>) returns (longer: seq<Entry>)
    requires Shows(out, slots) && Distinct(out)
    ensures Shows(longer, slots + [Slot(shown, false)]) && Distinct(longer)
    ensures |longer| == |out| + 1 && longer[..|out|] == out && fresh(longer[|out|])
  {
    var entry := new Entry(shown);
    longer := out + [entry];
  }

  method Start(out: seq<Entry>, pending: map<string, Entry>, row: Row, ghost slots: seq<Slot>, ghost at: map<string, nat>)
    returns (longer: seq<Entry>, known: map<string, Entry>)
    requires Mirrors(slots, out, pending, at) && row.callId.Some?
    ensures Mirrors(OnStart(slots, row), longer, known, at[row.callId.value := |slots|])
    ensures |longer| == |out| + 1 && longer[..|out|] == out && fresh(longer[|out|])
  {
    var entry := new Entry(Started(row));
    known := pending[row.callId.value := entry];
    longer := out + [entry];
    PlacesAfterStart(slots, at, row);
  }

  method Result(out: seq<Entry>, pending: map<string, Entry>, row: Row, maxEntries: int, ghost slots: seq<Slot>,
                ghost at: map<string, nat>)
    returns (longer: seq<Entry>, known: map<string, Entry>)
    requires Mirrors(slots, out, pending, at) && row.callId.Some?
    modifies out
    ensures Mirrors(OnResult(slots, row, maxEntries), longer, known, at - {row.callId.value})
    ensures |longer| >= |out| && longer[..|out|] == out
    ensures forall i :: |out| <= i < |longer| ==> fresh(longer[i])
  {
    PendingIsPlaced(slots, at, row.callId.value);
    longer, known := out, pending - {row.callId.value};
    if row.callId.value in pending {
      CompletePending(out, pending, row, slots, at);
      PlacesAfterFill(slots, at, row);
    } else {
      assert at - {row.callId.value} == at && known == pending;
      if |out| < maxEntries {
        var shown := Completed(row, None, None);
        longer := Append(out, shown, slots);
        PlacesAfterPush(slots, at, shown);
      }
    }
  }

  /** A line of narration, if the row has one. */
  method Narrate(out: seq<Entry>, pending: map<string, Entry>, row: Row, ghost slots: seq<Slot>, ghost at: map<string, nat>)
    returns (longer: seq<Entry>)
    requires Mirrors(slots, out, pending, at)
    ensures Mirrors(OnLine(slots, row), longer, pending, at)
    ensures |longer| >= |out| && longer[..|out|] == out
    ensures forall i :: |out| <= i < |longer| ==> fresh(longer[i])
  {
    longer := out;
    var line := Line(row, |out|);
    if line.Some? {
      longer := Append(out, line.value, slots);
      PlacesAfterPush(slots, at, line.value);
    }
  }

  /** One row of the log. */
  method ReadRow(out: seq<Entry>, pending: map<string, Entry>, closed: bool, row: Row, maxEntries: int,
                 ghost slots: seq<Slot>, ghost at: map<string, nat>)
    returns (longer: seq<Entry>, known: map<string, Entry>, shut: bool, ghost places: map<string, nat>)
    requires Mirrors(slots, out, pending, at)
    modifies out
    ensures var next := Step(State(slots, closed), row, maxEntries);
            Mirrors(next.slots, longer, known, places) && shut == next.closed
    ensures |longer| >= |out| && longer[..|out|] == out
    ensures forall i :: |out| <= i < |longer| ==> fresh(longer[i])
  {
    shut := closed && !row.event.SendStart?;
    if row.event.TurnEnd? {
      CloseAll(out, pending, slots, at);
      return out, map[], true, map[];
    }
    if (shut && IgnoredOnceClosed(row.event)) || (|out| >= maxEntries && !row.event.ToolResult?) {
      return out, pending, shut, at;
    }
    if IsStart(row) {
      longer, known := Start(out, pending, row, slots, at);
      places := at[row.callId.value := |slots|];
    } else if IsResult(row) {
      longer, known := Result(out, pending, row, maxEntries, slots, at);
      places := at - {row.callId.value};
    } else {
      longer := Narrate(out, pending, row, slots, at);
      known, places := pending, at;
    }
  }

  /** Entries still pending are dropped; the others keep their places. */
  method DropPending(out: seq<Entry>, pending: map<string, Entry>, ghost slots: seq<Slot>, ghost at: map<string, nat>)
    returns (kept: seq<Entry>)
    requires Mirrors(slots, out, pending, at)
    ensures |kept| == |Kept(slots)| && forall i :: 0 <= i < |kept| ==> kept[i].shown == Kept(slots)[i]
  {
    kept := [];
    ghost var shown: seq<Shown> := [];
    var i := 0;
    while i < |out|
      invariant 0 <= i <= |out| && |kept| == |shown| && shown + Kept(slots[i..]) == Kept(slots)
      invariant forall k :: 0 <= k < |kept| ==> kept[k].shown == shown[k]
    {
      KeptStep(slots[i..], shown);
      assert slots[i..][1..] == slots[i + 1..];
      DroppedIffOpen(out, pending, slots, at, i);
      if out[i] !in pending.Values {
        kept := kept + [out[i]];
        shown := shown + [slots[i].shown];
      } else {
        assert shown + [] == shown;
      }
      i := i + 1;
    }
  }

  lemma KeptStep(rest: seq<Slot>, shown: seq<Shown>)
    requires rest != []
    ensures shown + Kept(rest) == shown + (if rest[0].open then [] else [rest[0].shown]) + Kept(rest[1..])
  {
    Assoc(shown, if rest[0].open then [] else [rest[0].shown], Kept(rest[1..]));
  }

  lemma DroppedIffOpen(out: seq<Entry>, pending: map<string, Entry>, slots: seq<Slot>, at: map<string, nat>, i: nat)
    requires Mirrors(slots, out, pending, at) && i < |out|
    ensures out[i] in pending.Values <==> slots[i].open
  {
    if slots[i].open {
      var id := slots[i].shown.suffix.callId;
      assert id in pending && pending[id] == out[i];
    }
    if out[i] in pending.Values {
      var id :| id in pending && pending[id] == out[i];
      assert at[id] == i;
    }
  }

  method ParseSessionJsonlForReplay(rows: seq<Row>, maxEntries: int) returns (kept: seq<Entry>)
    ensures var transcript := Parse(rows, maxEntries);
            |kept| == |transcript| && forall i :: 0 <= i < |kept| ==> kept[i].shown == transcript[i]
  {
    var out: seq<Entry> := [];
    var pending: map<string, Entry> := map[];
    var closed := false;
    ghost var st := State([], false);
    ghost var at: map<string, nat> := map[];
    var i := 0;
    while i < |rows|
      invariant 0 <= i <= |rows|
      invariant Mirrors(st.slots, out, pending, at) && st.closed == closed
      invariant forall k :: 0 <= k < |out| ==> fresh(out[k])
      invariant Run(st, rows[i..], maxEntries) == Run(State([], false), rows, maxEntries)
    {
      assert rows[i..][1..] == rows[i + 1..];
      out, pending, closed, at := ReadRow(out, pending, closed, rows[i], maxEntries, st.slots, at);
      st := Step(st, rows[i], maxEntries);
      i := i + 1;
    }
    kept := DropPending(out, pending, st.slots, at);
  }
}
