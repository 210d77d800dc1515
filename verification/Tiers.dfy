/** Dividing the compressed rounds into one cold summary and warm blocks of up to four rounds. */
module Tiers {
  import opened Conversation

  const BLOCK_SIZE: nat := 4

  /** The provenance id of a block, from the rounds it digests and the turn it starts at. */
  type Provenance = (seq<Round>, nat) -> string

  function Chunk(rounds: seq<Round>): nat {
    if |rounds| < BLOCK_SIZE then |rounds| else BLOCK_SIZE
  }

  function MakeBlock(rounds: seq<Round>, base: nat, provenance: Provenance): Tier2Block
    requires rounds != []
  {
    Tier2Block(provenance(rounds, base), base, base + |rounds| - 1, rounds)
  }

  function Blocks(rounds: seq<Round>, base: nat, provenance: Provenance): seq<Tier2Block> {
    if rounds == [] then []
    else [MakeBlock(rounds[..Chunk(rounds)], base, provenance)]
         + Blocks(rounds[Chunk(rounds)..], base + Chunk(rounds), provenance)
  }

  function WarmMessages(blocks: seq<Tier2Block>): (messages: seq<Message>)
    ensures |messages| == |blocks|
    ensures forall m :: m in messages ==> m.User? && m.content.WarmSummary?
  {
    if blocks == [] then [] else [User(WarmSummary(blocks[0]))] + WarmMessages(blocks[1..])
  }

  lemma Shift<T>(a: seq<T>, x: T, b: seq<T>)
    ensures a + ([x] + b) == (a + [x]) + b
  {
  }

  method BuildWarmTierMessages(rounds: seq<Round>, base: nat, provenance: Provenance)
    returns (messages: seq<Message>)
    ensures messages == WarmMessages(Blocks(rounds, base, provenance))
  {
    messages := [];
    var i := 0;
    ghost var done := 0;
    assert rounds[0..] == rounds;
    while i < |rounds|
      invariant 0 <= i && done == if i < |rounds| then i else |rounds|
      invariant messages + WarmMessages(Blocks(rounds[done..], base + done, provenance)) ==
                WarmMessages(Blocks(rounds, base, provenance))
    {
      var n := if i + BLOCK_SIZE <= |rounds| then i + BLOCK_SIZE else |rounds|;
      NextBlock(rounds, i, n, base, provenance);
      var block := MakeBlock(rounds[i..n], base + i, provenance);
      Shift(messages, User(WarmSummary(block)), WarmMessages(Blocks(rounds[n..], base + n, provenance)));
      messages := messages + [User(WarmSummary(block))];
      i := i + BLOCK_SIZE;
      done := n;
    }
  }

  /** Peeling one chunk off the blocks and off the messages that show them. */
  lemma NextBlock(rounds: seq<Round>, i: nat, n: nat, base: nat, provenance: Provenance)
    requires i < |rounds| && n == if i + BLOCK_SIZE <= |rounds| then i + BLOCK_SIZE else |rounds|
    ensures var block := MakeBlock(rounds[i..n], base + i, provenance);
            var rest := Blocks(rounds[n..], base + n, provenance);
            && Blocks(rounds[i..], base + i, provenance) == [block] + rest
            && WarmMessages([block] + rest) == [User(WarmSummary(block))] + WarmMessages(rest)
  {
    assert rounds[i..][..Chunk(rounds[i..])] == rounds[i..n];
    assert rounds[i..][Chunk(rounds[i..])..] == rounds[n..];
    var block := MakeBlock(rounds[i..n], base + i, provenance);
    var rest := Blocks(rounds[n..], base + n, provenance);
    assert ([block] + rest)[1..] == rest;
  }

  /** The ids under which an artifact write is attempted, one per block, failed writes included. */
  method WriteProvenanceArtifacts(rounds: seq<Round>, base: nat, provenance: Provenance)
    returns (attempted: seq<Tier2Block>)
    ensures attempted == Blocks(rounds, base, provenance)
  {
    attempted := [];
    var i := 0;
    ghost var done := 0;
    assert rounds[0..] == rounds;
    ghost var all := Blocks(rounds, base, provenance);
    ghost var rest := all;
    while i < |rounds|
      invariant 0 <= i && done == if i < |rounds| then i else |rounds|
      invariant rest == Blocks(rounds[done..], base + done, provenance) && attempted + rest == all
    {
      var n := if i + BLOCK_SIZE <= |rounds| then i + BLOCK_SIZE else |rounds|;
      NextBlock(rounds, i, n, base, provenance);
      var block := MakeBlock(rounds[i..n], base + i, provenance);
      rest := Blocks(rounds[n..], base + n, provenance);
      Shift(attempted, block, rest);
      attempted := attempted + [block];
      i := i + BLOCK_SIZE;
      done := n;
    }
  }

  /** How many of the selected rounds fall beyond the warm budget. */
  function ColdCount(selected: seq<Round>, warmCount: nat): nat {
    if |selected| > warmCount then |selected| - warmCount else 0
  }

  function TieredSummaries(selected: seq<Round>, warmCount: nat, provenance: Provenance): seq<Message> {
    var cold := ColdCount(selected, warmCount);
    ColdMessages(selected, cold) + WarmMessages(Blocks(selected[cold..], cold, provenance))
  }

  method BuildTiers(selected: seq<Round>, warmCount: nat, provenance: Provenance)
    returns (summaries: seq<Message>, attempted: seq<Tier2Block>)
    ensures summaries == TieredSummaries(selected, warmCount, provenance)
    ensures attempted == Blocks(selected[ColdCount(selected, warmCount)..], ColdCount(selected, warmCount), provenance)
  {
    summaries, attempted := [], [];
    if |selected| > warmCount {
      var cold := selected[..|selected| - warmCount];
      summaries := [User(ColdSummary(0, |cold| - 1, cold))];
      var warm := selected[|selected| - warmCount..];
      if |warm| > 0 {
        var messages := BuildWarmTierMessages(warm, |cold|, provenance);
        summaries := summaries + messages;
        attempted := WriteProvenanceArtifacts(warm, |cold|, provenance);
      }
    } else {
      assert selected[0..] == selected;
      summaries := BuildWarmTierMessages(selected, 0, provenance);
      attempted := WriteProvenanceArtifacts(selected, 0, provenance);
    }
  }

  // ---------------------------------------------------------------- the partition

  function RoundsShown(m: Message): seq<Round> {
    match m
    case User(ColdSummary(_, _, rounds)) => rounds
    case User(WarmSummary(block)) => block.rounds
    case _ => []
  }

  function AllShown(messages: seq<Message>): seq<Round> {
    if messages == [] then [] else RoundsShown(messages[0]) + AllShown(messages[1..])
  }

  /** `m` summarises the turns from `lo` up to, not including, `next`. */
  predicate Covers(m: Message, lo: nat, next: nat) {
    && m.User? && lo < next && |RoundsShown(m)| == next - lo
    && match m.content
       case ColdSummary(first, last, _) => first == lo && last + 1 == next
       case WarmSummary(b) => b.firstTurn == lo && b.lastTurn + 1 == next && next - lo <= BLOCK_SIZE
       case _ => false
  }

  /** The turn ranges tile `lo..hi`, in order and without overlap. */
  ghost predicate Tiles(messages: seq<Message>, lo: nat, hi: nat)
    decreases |messages|
  {
    if messages == [] then lo == hi
    else lo + |RoundsShown(messages[0])| <= hi
         && Covers(messages[0], lo, lo + |RoundsShown(messages[0])|)
         && Tiles(messages[1..], lo + |RoundsShown(messages[0])|, hi)
  }

  /** The messages show exactly `rounds`, in order, over the turns `lo..hi`. */
  ghost predicate Partition(messages: seq<Message>, rounds: seq<Round>, lo: nat, hi: nat) {
    AllShown(messages) == rounds && Tiles(messages, lo, hi)
  }

  lemma {:induction false} WarmPartition(rounds: seq<Round>, base: nat, provenance: Provenance)
    ensures Partition(WarmMessages(Blocks(rounds, base, provenance)), rounds, base, base + |rounds|)
    decreases |rounds|
  {
    if rounds != [] {
      var n := Chunk(rounds);
      WarmPartition(rounds[n..], base + n, provenance);
      assert rounds[0..] == rounds && rounds[0..n] == rounds[..n];
      NextBlock(rounds, 0, n, base, provenance);
      var block := MakeBlock(rounds[..n], base, provenance);
      var rest := WarmMessages(Blocks(rounds[n..], base + n, provenance));
      assert ([User(WarmSummary(block))] + rest)[1..] == rest;
      assert rounds[..n] + rounds[n..] == rounds;
    }
  }

  function ColdMessages(selected: seq<Round>, cold: nat): seq<Message>
    requires cold <= |selected|
  {
    if cold > 0 then [User(ColdSummary(0, cold - 1, selected[..cold]))] else []
  }

  lemma ColdBeforeWarm(selected: seq<Round>, cold: nat, warm: seq<Message>)
    requires cold <= |selected|
    requires Partition(warm, selected[cold..], cold, |selected|)
    ensures Partition(ColdMessages(selected, cold) + warm, selected, 0, |selected|)
  {
    if cold > 0 {
      var head := User(ColdSummary(0, cold - 1, selected[..cold]));
      assert ([head] + warm)[1..] == warm;
      assert selected[..cold] + selected[cold..] == selected;
    } else {
      assert [] + warm == warm && selected[0..] == selected;
    }
  }

  /** Every compressed round lands in exactly one summary, in order; no turn range overlaps another. */
  lemma TiersPartition(selected: seq<Round>, warmCount: nat, provenance: Provenance)
    ensures Partition(TieredSummaries(selected, warmCount, provenance), selected, 0, |selected|)
  {
    var cold := ColdCount(selected, warmCount);
    WarmPartition(selected[cold..], cold, provenance);
    ColdBeforeWarm(selected, cold, WarmMessages(Blocks(selected[cold..], cold, provenance)));
  }

  function IdsShown(messages: seq<Message>): seq<string> {
    if messages == [] then []
    else (match messages[0] case User(WarmSummary(b)) => [b.provenanceId] case _ => []) + IdsShown(messages[1..])
  }

  function IdsOf(blocks: seq<Tier2Block>): seq<string> {
    if blocks == [] then [] else [blocks[0].provenanceId] + IdsOf(blocks[1..])
  }

  lemma {:induction false} IdsOfWarm(blocks: seq<Tier2Block>)
    ensures IdsShown(WarmMessages(blocks)) == IdsOf(blocks)
  {
    if blocks != [] {
      IdsOfWarm(blocks[1..]);
      assert WarmMessages(blocks)[1..] == WarmMessages(blocks[1..]);
    }
  }

  /** An id is offered for re-reading exactly when an artifact write under it was attempted. */
  lemma IdsShownAreAttempted(selected: seq<Round>, warmCount: nat, provenance: Provenance)
    ensures IdsShown(TieredSummaries(selected, warmCount, provenance)) ==
            IdsOf(Blocks(selected[ColdCount(selected, warmCount)..], ColdCount(selected, warmCount), provenance))
  {
    var cold := ColdCount(selected, warmCount);
    var warm := WarmMessages(Blocks(selected[cold..], cold, provenance));
    IdsOfWarm(Blocks(selected[cold..], cold, provenance));
    if cold > 0 {
      assert TieredSummaries(selected, warmCount, provenance)[1..] == warm;
    } else {
      assert TieredSummaries(selected, warmCount, provenance) == warm;
    }
  }
}
