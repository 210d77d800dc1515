/**
 The mutable conversation and the operations that shorten it.

 Automatic compression only shapes the request that is sent; forced compression and elision rewrite
 the stored conversation.  Token counts, provenance ids and archive outcomes are parameters.
 */
module ContextManager {
  import opened Common
  import opened Conversation
  import opened Compression
  import opened Tiers
  import opened Masking
  import CompressionCache

  const DEFAULT_KEEP_ROUNDS: nat := 6

  datatype Config = Config(keepRecentRounds: Option<nat>, tokens: seq<Message> -> nat, provenance: Provenance,
                           summarize: seq<Round> -> Option<string>)

  /** The limits a model's context policy sets. */
  datatype Limits = Limits(maxTokens: nat, threshold: real, hotRounds: nat, warmRounds: nat)

  /** Everything that determines a compressed request; the source hashes this, here the value itself is the key. */
  datatype CacheKey = CacheKey(inception: seq<Message>, conv: seq<Message>, limits: Limits, tiered: bool)

  type CacheEntry = CompressionCache.Entry<CacheKey, seq<Message>>

  predicate OverBudget(config: Config, limits: Limits, messages: seq<Message>) {
    config.tokens(messages) as real >= limits.threshold * limits.maxTokens as real
  }

  function KeepRecent(config: Config, limits: Limits): nat {
    if config.keepRecentRounds.Some? then config.keepRecentRounds.value else limits.hotRounds
  }

  function MaskKeep(config: Config): nat {
    2 * if config.keepRecentRounds.Some? then config.keepRecentRounds.value else DEFAULT_KEEP_ROUNDS
  }

  /** The summary messages that replace `selected`. */
  function Summaries(config: Config, limits: Limits, tiered: bool, selected: seq<Round>): seq<Message> {
    if tiered then TieredSummaries(selected, limits.warmRounds, config.provenance)
    else [User(FlatSummary(config.summarize(selected), selected))]
  }

  lemma SummariesAreNotes(config: Config, limits: Limits, tiered: bool, selected: seq<Round>)
    requires selected != []
    ensures AreNotes(Summaries(config, limits, tiered, selected))
  {
    if tiered {
      TiersPartition(selected, limits.warmRounds, config.provenance);
    }
  }

  lemma {:induction false} UnplannedIs(rounds: seq<Round>, round: Round)
    ensures round in Unplanned(rounds) <==> round in rounds && !round.hasThinkOrPlan
  {
    if rounds != [] {
      UnplannedIs(rounds[1..], round);
      assert rounds == [rounds[0]] + rounds[1..];
    }
  }

  /** Compressed are the rounds before the last `keepRecentRounds`, or before the hot ones, that neither think nor plan. */
  lemma CompressedRoundsAre(config: Config, limits: Limits, rounds: seq<Round>, round: Round)
    ensures var kept := match config.keepRecentRounds case Some(n) => n case None => limits.hotRounds;
            round in ToCompress(rounds, KeepRecent(config, limits)) <==>
            !round.hasThinkOrPlan && exists i :: 0 <= i < |rounds| - kept && rounds[i] == round
  {
    var kept := match config.keepRecentRounds case Some(n) => n case None => limits.hotRounds;
    if |rounds| > kept {
      UnplannedIs(rounds[..|rounds| - kept], round);
      assert forall i :: 0 <= i < |rounds| - kept ==> rounds[..|rounds| - kept][i] == rounds[i];
    }
  }

  /** Message `k` of the tiers is the cold one only if it is the first and some rounds are beyond the warm budget. */
  ghost predicate IsTier(m: Message, k: nat, anyCold: bool) {
    m.User? && if k == 0 && anyCold then m.content.ColdSummary? else m.content.WarmSummary?
  }

  /** Flat compression leaves one digest of everything; tiers show every round once, the earliest ones in the cold message. */
  lemma SummariesShow(config: Config, limits: Limits, tiered: bool, selected: seq<Round>)
    ensures var summaries := Summaries(config, limits, tiered, selected);
            if tiered then Partition(summaries, selected, 0, |selected|)
                           && forall k :: 0 <= k < |summaries| ==> IsTier(summaries[k], k, |selected| > limits.warmRounds)
            else summaries == [User(FlatSummary(config.summarize(selected), selected))]
    ensures var (cold, summaries) := (|selected| - limits.warmRounds, Summaries(config, limits, tiered, selected));
            tiered && cold > 0 ==> summaries[..1] == [User(ColdSummary(0, cold - 1, selected[..cold]))]
  {
    TiersPartition(selected, limits.warmRounds, config.provenance);
  }

  // ---------------------------------------------------------------- what a request may look like

  /**
   `request` is the automatic compression of `conv`: old rounds replaced by summaries, or, when
   there is nothing to compress, the oldest tool bodies masked until the request fits.
   */
  ghost predicate IsCompressionOf(config: Config, limits: Limits, tiered: bool, inception: seq<Message>,
                                  conv: seq<Message>, request: seq<Message>)
  {
    var selected := ToCompress(RoundsFrom(conv, 0), KeepRecent(config, limits));
    if selected == [] then
      exists cut, archive ::
        && MaskCut(conv, cut, if |conv| < MaskKeep(config) then 0 else |conv| - MaskKeep(config), archive,
                   ms => OverBudget(config, limits, inception + ms))
        && request == inception + MaskedUpTo(conv, cut, archive)
    else
      selected[0].assistantIdx <= |conv| &&
      request == inception + Recomposed(conv, selected, Summaries(config, limits, tiered, selected))
  }

  /** Nothing but system and user messages. */
  ghost predicate NotesOnly(s: seq<Message>) {
    forall m :: m in s ==> m.System? || m.User?
  }

  lemma {:induction false} NotesFollow(open: set<string>, s: seq<Message>, notes: seq<Message>)
    requires Paired(open, s) && NotesOnly(notes)
    ensures Paired(open, s + notes)
    decreases |s| + |notes|
  {
    if s != [] {
      assert (s + notes)[1..] == s[1..] + notes;
      NotesFollow(match s[0] case System(_) => open case Tool(_, _) => open case _ => CallIds(s[0]), s[1..], notes);
    } else if notes != [] {
      assert s + notes == notes && notes[0] in notes && [] + notes[1..] == notes[1..];
      NotesFollow(if notes[0].System? then open else CallIds(notes[0]), [], notes[1..]);
    }
  }

  lemma {:induction false} NotesPrecede(notes: seq<Message>, s: seq<Message>)
    requires NotesOnly(notes) && Paired({}, s)
    ensures Paired({}, notes + s)
    decreases |notes|
  {
    if notes == [] {
      assert notes + s == s;
    } else {
      assert notes[0] in notes && (notes + s)[1..] == notes[1..] + s;
      NotesPrecede(notes[1..], s);
    }
  }

  /** Notes before and behind a list without orphans make none. */
  lemma PairedAmongNotes(front: seq<Message>, more: seq<Message>, body: seq<Message>, back: seq<Message>, last: seq<Message>)
    requires NotesOnly(front) && NotesOnly(more) && NotesOnly(back) && NotesOnly(last) && Paired({}, body)
    ensures Paired({}, front + more + body + back + last)
  {
    NotesPrecede(more, body);
    NotesPrecede(front, more + body);
    NotesFollow({}, front + (more + body), back);
    NotesFollow({}, front + (more + body) + back, last);
    assert front + more + body == front + (more + body);
  }

  /** Every message that is neither call nor result is still there, in order, around one run of notes. */
  ghost predicate OthersAround(conv: seq<Message>, body: seq<Message>, notes: seq<Message>, first: nat) {
    && AreNotes(notes) && first <= |conv|
    && (|| Others(body) == Others(conv[..first]) + notes + Others(conv[first..])
        || (Others(conv[first..]) == [] && Others(body) == notes + Others(conv[..first])))
  }

  /**
   The part of a request that stands for the conversation: the same messages up to tool bodies, or the
   surviving exchanges, each complete, and all other messages around the summaries.
   */
  ghost predicate Faithful(conv: seq<Message>, keepRecent: nat, body: seq<Message>) {
    && Paired({}, body)
    && (|| SameShape(conv, body)
        || (&& Exchanges(body) == Surviving(Exchanges(conv), keepRecent)
            && exists notes, first :: OthersAround(conv, body, notes, first)))
  }

  lemma CompressionIsFaithful(config: Config, limits: Limits, tiered: bool, inception: seq<Message>,
                              conv: seq<Message>, request: seq<Message>)
    requires Paired({}, conv) && IsCompressionOf(config, limits, tiered, inception, conv, request)
    ensures inception <= request && Faithful(conv, KeepRecent(config, limits), request[|inception|..])
  {
    var keep := KeepRecent(config, limits);
    var selected := ToCompress(RoundsFrom(conv, 0), keep);
    if selected == [] {
      var cut, archive :|
        && MaskCut(conv, cut, if |conv| < MaskKeep(config) then 0 else |conv| - MaskKeep(config), archive,
                   ms => OverBudget(config, limits, inception + ms))
        && request == inception + MaskedUpTo(conv, cut, archive);
      MaskingKeepsShape(conv, cut, archive);
      ShapeKeepsPairing({}, conv, MaskedUpTo(conv, cut, archive));
      assert request[|inception|..] == MaskedUpTo(conv, cut, archive);
    } else {
      var notes := Summaries(config, limits, tiered, selected);
      SummariesAreNotes(config, limits, tiered, selected);
      CompressionKeepsExchanges(conv, keep, notes);
      assert request[|inception|..] == Recomposed(conv, selected, notes);
      assert OthersAround(conv, Recomposed(conv, selected, notes), notes, selected[0].assistantIdx);
    }
  }

  lemma CompressionStartsWith(config: Config, limits: Limits, tiered: bool, inception: seq<Message>,
                              conv: seq<Message>, request: seq<Message>)
    requires IsCompressionOf(config, limits, tiered, inception, conv, request)
    ensures inception <= request && request == inception + request[|inception|..]
  {
  }

  predicate BelowThreshold(config: Config, limits: Limits, messages: seq<Message>) {
    config.tokens(messages) as real < limits.threshold * limits.maxTokens as real
  }

  /** The messages spared from masking: two a round kept, or twelve. */
  function Spared(config: Config): nat {
    2 * if config.keepRecentRounds.Some? then config.keepRecentRounds.value else 6
  }

  /** The bodies before `cut` are masked, none of the recent ones, and no more than it takes. */
  ghost predicate MaskedInTime(config: Config, limits: Limits, inception: seq<Message>, conv: seq<Message>, cut: nat,
                               archive: Archive)
  {
    && cut <= |conv| && (cut > 0 ==> cut + Spared(config) <= |conv|)
    && (cut + Spared(config) < |conv| ==> BelowThreshold(config, limits, inception + MaskedUpTo(conv, cut, archive)))
    && (forall c :: 0 < c < cut && Maskable(conv[c - 1]) ==>
          !BelowThreshold(config, limits, inception + MaskedUpTo(conv, c, archive)))
  }

  lemma CutIsInTime(config: Config, limits: Limits, inception: seq<Message>, conv: seq<Message>, cut: nat, archive: Archive)
    requires MaskCut(conv, cut, if |conv| < MaskKeep(config) then 0 else |conv| - MaskKeep(config), archive,
                     ms => OverBudget(config, limits, inception + ms))
    ensures MaskedInTime(config, limits, inception, conv, cut, archive)
  {
  }

  /**
   With no round to replace, tool bodies are masked oldest first: the request is below the threshold unless
   every body up to the recent messages is masked, and stopping at an earlier maskable body would have left
   it at or above.
   */
  lemma MaskingStopsInTime(config: Config, limits: Limits, tiered: bool, inception: seq<Message>,
                           conv: seq<Message>, request: seq<Message>) returns (cut: nat, archive: Archive)
    requires IsCompressionOf(config, limits, tiered, inception, conv, request)
    requires ToCompress(RoundsFrom(conv, 0), KeepRecent(config, limits)) == []
    ensures MaskedInTime(config, limits, inception, conv, cut, archive)
    ensures request == inception + MaskedUpTo(conv, cut, archive)
  {
    cut, archive :|
      && MaskCut(conv, cut, if |conv| < MaskKeep(config) then 0 else |conv| - MaskKeep(config), archive,
                 ms => OverBudget(config, limits, inception + ms))
      && request == inception + MaskedUpTo(conv, cut, archive);
    CutIsInTime(config, limits, inception, conv, cut, archive);
  }

  // ---------------------------------------------------------------- the whole request

  /** Instructions, working blocks, images and what stands for the conversation, in the layout asked for. */
  function Laid(inception: seq<Message>, working: seq<Message>, body: seq<Message>, images: seq<Message>,
                volatileTail: bool): seq<Message> {
    if volatileTail then inception + body + images + working else inception + working + body + images
  }

  /** Below the threshold the whole conversation goes out; at or above it, a compression does. */
  ghost predicate IsRequest(config: Config, limits: Limits, tiered: bool, volatileTail: bool, inception: seq<Message>,
                            working: seq<Message>, conv: seq<Message>, images: seq<Message>, request: seq<Message>)
  {
    var whole := Laid(inception, working, conv, images, volatileTail);
    if BelowThreshold(config, limits, whole) then request == whole
    else exists body :: IsCompressionOf(config, limits, tiered, inception, conv, inception + body)
                        && request == Laid(inception, working, body, images, volatileTail)
  }

  lemma RequestIsFaithful(config: Config, limits: Limits, tiered: bool, volatileTail: bool, inception: seq<Message>,
                          working: seq<Message>, conv: seq<Message>, images: seq<Message>, request: seq<Message>)
    returns (body: seq<Message>)
    requires Paired({}, conv)
    requires IsRequest(config, limits, tiered, volatileTail, inception, working, conv, images, request)
    ensures Faithful(conv, KeepRecent(config, limits), body)
    ensures request == Laid(inception, working, body, images, volatileTail)
  {
    if BelowThreshold(config, limits, Laid(inception, working, conv, images, volatileTail)) {
      body := conv;
      assert SameShape(conv, conv);
    } else {
      body :| IsCompressionOf(config, limits, tiered, inception, conv, inception + body)
              && request == Laid(inception, working, body, images, volatileTail);
      CompressionIsFaithful(config, limits, tiered, inception, conv, inception + body);
      assert (inception + body)[|inception|..] == body;
    }
  }

  lemma LaidIsPaired(inception: seq<Message>, working: seq<Message>, body: seq<Message>, images: seq<Message>,
                     volatileTail: bool)
    requires NotesOnly(inception) && NotesOnly(working) && NotesOnly(images) && Paired({}, body)
    ensures Paired({}, Laid(inception, working, body, images, volatileTail))
  {
    if volatileTail {
      PairedAmongNotes(inception, [], body, images, working);
      assert inception + [] == inception;
    } else {
      PairedAmongNotes(inception, working, body, images, []);
      assert Laid(inception, working, body, images, volatileTail) + [] == Laid(inception, working, body, images, volatileTail);
    }
  }

  /** What a compression becomes in either layout. */
  lemma CompressedIsRequest(config: Config, limits: Limits, tiered: bool, volatileTail: bool, inception: seq<Message>,
                            working: seq<Message>, conv: seq<Message>, images: seq<Message>, core: seq<Message>)
    requires IsCompressionOf(config, limits, tiered, inception, conv, core)
    requires !BelowThreshold(config, limits, Laid(inception, working, conv, images, volatileTail))
    ensures inception <= core
    ensures IsRequest(config, limits, tiered, volatileTail, inception, working, conv, images,
                      if volatileTail then core + images + working
                      else core[..|inception|] + working + core[|inception|..] + images)
  {
    CompressionStartsWith(config, limits, tiered, inception, conv, core);
    var body := core[|inception|..];
    assert core == inception + body && core[..|inception|] == inception;
    assert IsCompressionOf(config, limits, tiered, inception, conv, inception + body);
  }

  lemma RequestPromises(config: Config, limits: Limits, tiered: bool, volatileTail: bool, inception: seq<Message>,
                        working: seq<Message>, conv: seq<Message>, images: seq<Message>, request: seq<Message>)
    requires IsRequest(config, limits, tiered, volatileTail, inception, working, conv, images, request)
    ensures Paired({}, conv) ==>
              exists body :: Faithful(conv, KeepRecent(config, limits), body)
                             && request == Laid(inception, working, body, images, volatileTail)
    ensures Paired({}, conv) && NotesOnly(inception) && NotesOnly(working) && NotesOnly(images) ==> Paired({}, request)
  {
    if Paired({}, conv) {
      var body := RequestIsFaithful(config, limits, tiered, volatileTail, inception, working, conv, images, request);
      if NotesOnly(inception) && NotesOnly(working) && NotesOnly(images) {
        LaidIsPaired(inception, working, body, images, volatileTail);
      }
    }
  }

  // ---------------------------------------------------------------- the stored conversation

  /** What a forced compression makes of the conversation. */
  ghost function Forced(conv: seq<Message>, keepRecent: nat, anchor: string): seq<Message> {
    var selected := ToCompress(RoundsFrom(conv, 0), keepRecent);
    if selected == [] || selected[0].assistantIdx > |conv| then conv
    else Recomposed(conv, selected, [User(ForcedSummary(anchor, selected))])
  }

  /** The tool result indices of the last `keepRounds` rounds. */
  ghost function RecentResults(conv: seq<Message>, keepRounds: nat): set<nat> {
    var rounds := RoundsFrom(conv, 0);
    ResultIdxsOf(if |rounds| < keepRounds then rounds else rounds[|rounds| - keepRounds..])
  }

  ghost function ResultIdxsOf(rounds: seq<Round>): set<nat> {
    if rounds == [] then {} else (set j | j in rounds[0].resultIdxs) + ResultIdxsOf(rounds[1..])
  }

  class ContextManager {
    const config: Config
    var limits: Limits
    var conversation: seq<Message>
    var compressionCache: Option<CacheEntry>

    /** A cached request is a compression of the conversation it was made for. */
    ghost predicate Valid()
      reads this
    {
      compressionCache.Some? ==>
        var e := compressionCache.value;
        IsCompressionOf(config, e.key.limits, e.key.tiered, e.key.inception, e.key.conv, e.value)
    }

    constructor (config: Config, limits: Limits)
      ensures Valid() && this.config == config && this.limits == limits
      ensures conversation == [] && compressionCache == None
    {
      this.config, this.limits := config, limits;
      conversation, compressionCache := [], None;
    }

    method Append(message: Message)
      requires Valid()
      modifies this`conversation
      ensures Valid() && conversation == old(conversation) + [message]
    {
      conversation := conversation + [message];
    }

    method ApplyContextPolicy(contextLength: nat, threshold: real, hotRounds: nat, warmRounds: nat)
      requires Valid()
      modifies this`limits
      ensures Valid()
      ensures limits == Limits(if contextLength < 8192 then 8192 else contextLength, threshold, hotRounds, warmRounds)
    {
      limits := Limits(if contextLength < 8192 then 8192 else contextLength, threshold, hotRounds, warmRounds);
    }

    method ComputeCompressedRounds(inception: seq<Message>, conv: seq<Message>, tiered: bool, archive: Archive)
      returns (request: seq<Message>, attempted: seq<Tier2Block>)
      ensures IsCompressionOf(config, limits, tiered, inception, conv, request)
      ensures var selected := ToCompress(RoundsFrom(conv, 0), KeepRecent(config, limits));
              IdsOf(attempted) ==
              if selected != [] && tiered then IdsShown(TieredSummaries(selected, limits.warmRounds, config.provenance))
              else []
    {
      attempted := [];
      var rounds := ExtractRounds(conv);
      var selected := SelectRounds(rounds, KeepRecent(config, limits));
      if selected == [] {
        var cfg, lims := config, limits;
        var masked := FallbackMaskObservations(conv, MaskKeep(config), archive, ms => OverBudget(cfg, lims, inception + ms));
        request := inception + masked;
        return;
      }
      var summaries: seq<Message>;
      if tiered {
        summaries, attempted := BuildTiers(selected, limits.warmRounds, config.provenance);
        IdsShownAreAttempted(selected, limits.warmRounds, config.provenance);
      } else {
        summaries := [User(FlatSummary(config.summarize(selected), selected))];
      }
      var newConv := ReplaceRounds(conv, KeepRecent(config, limits), selected, summaries);
      request := inception + newConv;
    }

    /** Reuses the last result when nothing that determines it has changed. */
    method CompressOldRounds(inception: seq<Message>, conv: seq<Message>, tiered: bool, archive: Archive)
      returns (request: seq<Message>)
      requires Valid()
      modifies this`compressionCache
      ensures Valid()
      ensures IsCompressionOf(config, limits, tiered, inception, conv, request)
      ensures compressionCache == Some(CompressionCache.Entry(CacheKey(inception, conv, limits, tiered), request))
      ensures old(compressionCache).Some? && old(compressionCache).value.key == CacheKey(inception, conv, limits, tiered)
              ==> request == old(compressionCache).value.value
      ensures exists value ::
                compressionCache ==
                Some(CompressionCache.Called(old(compressionCache), CacheKey(inception, conv, limits, tiered), value))
    {
      var key := CacheKey(inception, conv, limits, tiered);
      if compressionCache == None || compressionCache.value.key != key {
        var value, _ := ComputeCompressedRounds(inception, conv, tiered, archive);
        compressionCache := Some(CompressionCache.Entry(key, value));
      }
      request := compressionCache.value.value;
      assert compressionCache == Some(CompressionCache.Called(old(compressionCache), key, request));
    }

    /** The request for the model; `volatileTail` puts the working blocks behind the conversation. */
    method BuildMessages(inception: seq<Message>, working: seq<Message>, images: seq<Message>, volatileTail: bool,
                         tiered: bool, archive: Archive)
      returns (request: seq<Message>)
      requires Valid()
      modifies this`compressionCache
      ensures Valid()
      ensures IsRequest(config, limits, tiered, volatileTail, inception, working, conversation, images, request)
      ensures Paired({}, conversation) ==>
                exists body :: Faithful(conversation, KeepRecent(config, limits), body)
                               && request == Laid(inception, working, body, images, volatileTail)
      ensures Paired({}, conversation) && NotesOnly(inception) && NotesOnly(working) && NotesOnly(images) ==>
                Paired({}, request)
    {
      if volatileTail {
        var core := inception + conversation;
        if OverBudget(config, limits, core + images + working) {
          core := CompressOldRounds(inception, conversation, tiered, archive);
          CompressedIsRequest(config, limits, tiered, volatileTail, inception, working, conversation, images, core);
        }
        request := core + images + working;
      } else {
        request := inception + working + conversation + images;
        if OverBudget(config, limits, request) {
          request := CompressOldRounds(inception, conversation, tiered, archive);
          CompressedIsRequest(config, limits, tiered, volatileTail, inception, working, conversation, images, request);
          request := request[..|inception|] + working + request[|inception|..] + images;
        }
      }
      RequestPromises(config, limits, tiered, volatileTail, inception, working, conversation, images, request);
    }

    method ForceCompress(anchor: string)
      requires Valid()
      modifies this`conversation
      ensures Valid() && conversation == Forced(old(conversation), KeepRecent(config, limits), anchor)
    {
      var keepRecent := KeepRecent(config, limits);
      var rounds := ExtractRounds(conversation);
      if |rounds| <= keepRecent {
        return;
      }
      var selected := SelectRounds(rounds, keepRecent);
      if selected == [] {
        return;
      }
      conversation := ReplaceRounds(conversation, keepRecent, selected, [User(ForcedSummary(anchor, selected))]);
    }

    /** The loop both elision operations share. */
    method ElideWhere(minChars: nat, wanted: (nat, string) -> bool, archive: Archive) returns (elided: nat)
      requires Valid()
      modifies this`conversation
      ensures Valid() && conversation == Elided(old(conversation), minChars, wanted, archive)
      ensures elided == ElidedCount(old(conversation), |old(conversation)|, minChars, wanted, archive)
    {
      ghost var before := conversation;
      var names := CollectNames(conversation);
      elided := 0;
      var i := 0;
      while i < |conversation|
        invariant 0 <= i <= |conversation| == |before|
        invariant forall k :: 0 <= k < i ==> conversation[k] == ElideOne(before, k, minChars, wanted, archive)
        invariant conversation[i..] == before[i..]
        invariant elided == ElidedCount(before, i, minChars, wanted, archive)
      {
        assert conversation[i] == before[i..][0];
        var m := ElideMessage(conversation[i], i, names, minChars, wanted, archive);
        elided := elided + if m == conversation[i] then 0 else 1;
        conversation := conversation[i := m];
        i := i + 1;
      }
    }

    method ElideOversizedToolBodies(minChars: nat, toolFilter: string -> bool, archive: Archive) returns (elided: nat)
      requires Valid()
      modifies this`conversation
      ensures Valid()
      ensures conversation == Elided(old(conversation), if minChars < 1000 then 1000 else minChars,
                                     (i, name) => toolFilter(name), archive)
      ensures elided == ElidedCount(old(conversation), |old(conversation)|, if minChars < 1000 then 1000 else minChars,
                                    (i, name) => toolFilter(name), archive)
    {
      elided := ElideWhere(if minChars < 1000 then 1000 else minChars, (i, name) => toolFilter(name), archive);
    }

    /** Results of the last `keepRounds` rounds are not considered. */
    method ElideStaleToolResults(minChars: nat, keepRounds: nat, archive: Archive)
      requires Valid()
      modifies this`conversation
      ensures Valid()
      ensures var keep := if keepRounds < 1 then 1 else keepRounds;
              var recent := RecentResults(old(conversation), keep);
              conversation == Elided(old(conversation), if minChars < 2000 then 2000 else minChars,
                                     (i, name) => i !in recent, archive)
    {
      var keep := if keepRounds < 1 then 1 else keepRounds;
      var rounds := ExtractRounds(conversation);
      var recent := if |rounds| < keep then rounds else rounds[|rounds| - keep..];
      var keepIdx: set<nat> := {};
      var k := 0;
      while k < |recent|
        invariant 0 <= k <= |recent|
        invariant keepIdx + ResultIdxsOf(recent[k..]) == ResultIdxsOf(recent)
      {
        assert recent[k..][1..] == recent[k + 1..];
        keepIdx := keepIdx + set j | j in recent[k].resultIdxs;
        k := k + 1;
      }
      var _ := ElideWhere(if minChars < 2000 then 2000 else minChars, (i, name) => i !in keepIdx, archive);
    }
  }

  // ---------------------------------------------------------------- runs of operations

  datatype Op =
    | Compress(anchor: string, keepRecent: nat)
    | Elide(minChars: nat, wanted: (nat, string) -> bool, archive: Archive)

  ghost function Apply(op: Op, conv: seq<Message>): seq<Message> {
    match op
    case Compress(anchor, keepRecent) => Forced(conv, keepRecent, anchor)
    case Elide(minChars, wanted, archive) => Elided(conv, minChars, wanted, archive)
  }

  ghost function Run(ops: seq<Op>, conv: seq<Message>): seq<Message> {
    if ops == [] then conv else Run(ops[1..], Apply(ops[0], conv))
  }

  lemma {:induction false} PlannedAreMembers(es: seq<Exchange>)
    ensures forall e :: e in Planned(es) ==> e in es
  {
    if es != [] {
      PlannedAreMembers(es[1..]);
    }
  }

  lemma SurvivorsAreMembers(es: seq<Exchange>, keepRecent: nat)
    ensures forall s :: s in Skeletons(Surviving(es, keepRecent)) ==> s in Skeletons(es)
  {
    var left := Surviving(es, keepRecent);
    if |es| > keepRecent {
      PlannedAreMembers(es[..|es| - keepRecent]);
    }
    forall s | s in Skeletons(left)
      ensures s in Skeletons(es)
    {
      var k :| 0 <= k < |left| && Skeletons(left)[k] == s;
      assert left[k] in left;
      assert left[k] in es;
      var j :| 0 <= j < |es| && es[j] == left[k];
      assert Skeletons(es)[j] == s;
    }
  }

  lemma ForcedStep(conv: seq<Message>, keepRecent: nat, anchor: string)
    requires Paired({}, conv)
    ensures Paired({}, Forced(conv, keepRecent, anchor))
    ensures forall s :: s in Skeletons(Exchanges(Forced(conv, keepRecent, anchor))) ==> s in Skeletons(Exchanges(conv))
  {
    var selected := ToCompress(RoundsFrom(conv, 0), keepRecent);
    if selected != [] {
      CompressionKeepsExchanges(conv, keepRecent, [User(ForcedSummary(anchor, selected))]);
      SurvivorsAreMembers(Exchanges(conv), keepRecent);
    }
  }

  /**
   Over any sequence of forced compressions and elisions no tool result is orphaned, and every call
   that is left still has exactly the results it had at the start, with no message between that would cut them off.
   */
  lemma {:induction false} AnyRunKeepsPairing(ops: seq<Op>, conv: seq<Message>)
    requires Paired({}, conv)
    ensures Paired({}, Run(ops, conv))
    ensures forall s :: s in Skeletons(Exchanges(Run(ops, conv))) ==> s in Skeletons(Exchanges(conv))
    decreases |ops|
  {
    if ops != [] {
      var next := Apply(ops[0], conv);
      match ops[0] {
        case Compress(anchor, keepRecent) =>
          ForcedStep(conv, keepRecent, anchor);
        case Elide(minChars, wanted, archive) =>
          ElisionIsFixedPoint(conv, minChars, wanted, archive);
          ShapeKeepsPairing({}, conv, next);
          ShapeKeepsSkeletons(conv, next);
      }
      AnyRunKeepsPairing(ops[1..], next);
    }
  }

  /** A second forced compression changes nothing, for every conversation. */
  lemma ForceCompressIsIdempotent(conv: seq<Message>, keepRecent: nat, anchor: string, again: string)
    ensures Forced(Forced(conv, keepRecent, anchor), keepRecent, again) == Forced(conv, keepRecent, anchor)
  {
    var selected := ToCompress(RoundsFrom(conv, 0), keepRecent);
    if selected != [] {
      CompressionIsFixedPoint(conv, keepRecent, [User(ForcedSummary(anchor, selected))]);
    }
  }
}
