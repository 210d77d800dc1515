/**
 Resumable download of a model file in parts, checked against the size and hash of a manifest entry.

 A run may fail, or stop at any point (the process is killed).  `Complete` says what a run that is not
 stopped does to the directory; a stopped run is only known to satisfy `Interrupted`.
 */
module Download {
  import opened Common

  type Byte = b: int | 0 <= b < 256

  type Bytes = seq<Byte>

  /** The hash is a parameter of everything below; nothing is assumed of it unless stated. */
  type Hash = Bytes -> string

  const CHUNK: nat := 16_777_216
  const ATTEMPTS: nat := 4

  datatype Manifest = Manifest(bytes: nat, sha: string)

  // ---------------------------------------------------------------- parts

  function Count(entry: Manifest): nat {
    (entry.bytes + CHUNK - 1) / CHUNK
  }

  function Min(a: nat, b: nat): nat {
    if a < b then a else b
  }

  function PartStart(index: nat): nat {
    index * CHUNK
  }

  /** One past the last byte of the part; the source's `end` is inclusive. */
  function PartEnd(entry: Manifest, index: nat): nat {
    Min(entry.bytes, PartStart(index) + CHUNK)
  }

  function PartLength(entry: Manifest, index: nat): int {
    PartEnd(entry, index) - PartStart(index)
  }

  /** The parts are not empty, follow each other from 0 to the end of the file, and each byte is in exactly one. */
  lemma RangesTile(entry: Manifest, index: nat, offset: nat)
    requires index < Count(entry) && offset < entry.bytes
    ensures 0 < PartLength(entry, index) <= CHUNK
    ensures PartStart(0) == 0 && (index + 1 < Count(entry) ==> PartEnd(entry, index) == PartStart(index + 1))
    ensures index + 1 == Count(entry) ==> PartEnd(entry, index) == entry.bytes
    ensures offset / CHUNK < Count(entry)
    ensures PartStart(index) <= offset < PartEnd(entry, index) <==> index == offset / CHUNK
  {
  }

  // ---------------------------------------------------------------- the server

  /**
   What one request yields: the status, the range announced in the header, the blocks received, and
   whether the connection broke after them.
   */
  datatype Response =
    | Unreachable
    | Served(status: nat, range: Option<(nat, nat)>, blocks: seq<Bytes>, broke: bool)

  /** The response to each attempt for each part. */
  type Server = (nat, nat) -> Response

  function Flatten(blocks: seq<Bytes>): Bytes {
    if blocks == [] then [] else Flatten(blocks[..|blocks| - 1]) + blocks[|blocks| - 1]
  }

  /** The body is read only if the server honoured the range, when one was asked for. */
  predicate Readable(entry: Manifest, index: nat, response: Response) {
    && response.Served? && response.status < 400
    && (entry.bytes > CHUNK ==>
          response.status == 206 && response.range == Some((PartStart(index), PartEnd(entry, index))))
  }

  predicate Acceptable(entry: Manifest, index: nat, response: Response) {
    Readable(entry, index, response) && !response.broke && |Flatten(response.blocks)| == PartLength(entry, index)
  }

  /** The body of the first acceptable response, counting attempts from `attempt`. */
  function Fetch(entry: Manifest, index: nat, server: Server, attempt: nat): Option<Bytes>
    decreases ATTEMPTS - attempt
  {
    if attempt >= ATTEMPTS then None
    else if Acceptable(entry, index, server(index, attempt)) then Some(Flatten(server(index, attempt).blocks))
    else Fetch(entry, index, server, attempt + 1)
  }

  // ---------------------------------------------------------------- a run that is not stopped

  datatype Disk = Disk(dest: Option<Bytes>, parts: map<nat, Bytes>, temporary: Option<Bytes>)

  datatype Result = Verified | Installed | PartFailed | Mismatch | Stopped

  predicate Full(entry: Manifest, parts: map<nat, Bytes>, index: nat) {
    index in parts && |parts[index]| == PartLength(entry, index)
  }

  /** A part of the right size is kept without looking at its bytes. */
  function PartAfter(entry: Manifest, parts: map<nat, Bytes>, server: Server, index: nat): Option<Bytes> {
    if Full(entry, parts, index) then Some(parts[index]) else Fetch(entry, index, server, 0)
  }

  function SetPart(parts: map<nat, Bytes>, index: nat, part: Option<Bytes>): map<nat, Bytes> {
    if part.Some? then parts[index := part.value] else parts - {index}
  }

  /** The parts once those below `n` have been fetched, whether or not all of them could be. */
  function PartsAfter(entry: Manifest, parts: map<nat, Bytes>, server: Server, n: nat): map<nat, Bytes> {
    if n == 0 then parts
    else SetPart(PartsAfter(entry, parts, server, n - 1), n - 1, PartAfter(entry, parts, server, n - 1))
  }

  predicate AllThere(parts: map<nat, Bytes>, n: nat) {
    forall i: nat :: i < n ==> i in parts
  }

  function Assemble(parts: map<nat, Bytes>, n: nat): Bytes
    requires AllThere(parts, n)
  {
    if n == 0 then [] else Assemble(parts, n - 1) + parts[n - 1]
  }

  predicate Matches(file: Option<Bytes>, entry: Manifest, hash: Hash) {
    file.Some? && hash(file.value) == entry.sha
  }

  predicate IsInstalled(disk: Disk, entry: Manifest, hash: Hash) {
    Matches(disk.dest, entry, hash) && |disk.dest.value| == entry.bytes
  }

  /** A run in which no fetch is cancelled; cancelling only happens, and only matters, when a part fails. */
  function Complete(disk: Disk, entry: Manifest, server: Server, hash: Hash): (Disk, Result) {
    if IsInstalled(disk, entry, hash) then (disk, Verified) else
    var n := Count(entry);
    var parts := PartsAfter(entry, disk.parts, server, n);
    if !AllThere(parts, n) then (disk.(parts := parts), PartFailed) else
    var file := Assemble(parts, n);
    if hash(file) != entry.sha then (Disk(disk.dest, map[], Some(file)), Mismatch)
    else (Disk(Some(file), map[], None), Installed)
  }

  // ---------------------------------------------------------------- a run that may be stopped

  /** A full part a stopped run may leave: what was there, or the blocks of a readable response so far. */
  ghost predicate Explained(entry: Manifest, before: map<nat, Bytes>, after: map<nat, Bytes>, server: Server, i: nat) {
    Full(entry, after, i) ==>
      || (i in before && after[i] == before[i])
      || (exists attempt, k :: Received(entry, server, i, attempt, k, after[i]))
  }

  ghost predicate Received(entry: Manifest, server: Server, i: nat, attempt: nat, k: nat, bytes: Bytes) {
    && Readable(entry, i, server(i, attempt)) && k <= |server(i, attempt).blocks|
    && bytes == Flatten(server(i, attempt).blocks[..k])
  }

  ghost predicate PartsExplained(entry: Manifest, before: map<nat, Bytes>, after: map<nat, Bytes>, server: Server) {
    forall i: nat :: i < Count(entry) ==> Explained(entry, before, after, server, i)
  }

  ghost predicate Interrupted(before: Disk, after: Disk, entry: Manifest, server: Server, hash: Hash) {
    && (after.dest == before.dest || Matches(after.dest, entry, hash))
    && PartsExplained(entry, before.parts, after.parts, server)
  }

  /** What a run may do to the directory; losing a part leaves no more than being stopped. */
  ghost predicate Possible(before: Disk, after: Disk, entry: Manifest, server: Server, hash: Hash) {
    after == Complete(before, entry, server, hash).0 || Interrupted(before, after, entry, server, hash)
  }

  lemma {:induction false} FlattenGrows(blocks: seq<Bytes>, k: nat)
    requires k <= |blocks|
    ensures |Flatten(blocks[..k])| <= |Flatten(blocks)|
    decreases |blocks| - k
  {
    if k == |blocks| {
      assert blocks[..k] == blocks;
    } else {
      FlattenGrows(blocks, k + 1);
      assert blocks[..k + 1][..k] == blocks[..k];
    }
  }

  lemma SameButOne<T>(before: map<nat, T>, after: map<nat, T>, index: nat)
    requires after - {index} == before - {index} && index in after
    ensures after == before[index := after[index]]
  {
    forall k | k in after && k != index
      ensures k in before && before[k] == after[k]
    {
      assert k in after - {index};
    }
    forall k | k in before && k != index
      ensures k in after
    {
      assert k in before - {index};
    }
  }

  lemma {:induction false} FetchIsReceived(entry: Manifest, index: nat, server: Server, attempt: nat)
    requires Fetch(entry, index, server, attempt).Some?
    ensures exists a, k :: Received(entry, server, index, a, k, Fetch(entry, index, server, attempt).value)
    decreases ATTEMPTS - attempt
  {
    if Acceptable(entry, index, server(index, attempt)) {
      var blocks := server(index, attempt).blocks;
      assert blocks[..|blocks|] == blocks;
      assert Received(entry, server, index, attempt, |blocks|, Fetch(entry, index, server, attempt).value);
    } else {
      FetchIsReceived(entry, index, server, attempt + 1);
    }
  }

  /** Fetching below `n` touches no other part, and decides each part on its own. */
  lemma {:induction false} PartsAfterAt(entry: Manifest, parts: map<nat, Bytes>, server: Server, n: nat, i: nat)
    ensures var after := PartsAfter(entry, parts, server, n);
            if i < n then
              (if PartAfter(entry, parts, server, i).Some? then i in after && after[i] == PartAfter(entry, parts, server, i).value
               else i !in after)
            else (i in after <==> i in parts) && (i in parts ==> after[i] == parts[i])
    decreases n
  {
    if n > 0 {
      PartsAfterAt(entry, parts, server, n - 1, i);
    }
  }

  lemma PartsAfterExplained(entry: Manifest, parts: map<nat, Bytes>, server: Server, n: nat, i: nat)
    ensures Explained(entry, parts, PartsAfter(entry, parts, server, n), server, i)
  {
    PartsAfterAt(entry, parts, server, n, i);
    if i < n && !Full(entry, parts, i) && Fetch(entry, i, server, 0).Some? {
      FetchIsReceived(entry, i, server, 0);
    }
  }

  class ModelDirectory {
    var dest: Option<Bytes>
    var parts: map<nat, Bytes>
    var temporary: Option<Bytes>

    ghost function Now(): Disk
      reads this
    {
      Disk(dest, parts, temporary)
    }

    /**
     One attempt, stopped at any block if `mayStop`: writes the blocks as they come and drops the part if
     anything is wrong with them.
     */
    method Attempt(entry: Manifest, index: nat, server: Server, attempt: nat, mayStop: bool) returns (ok: bool, stopped: bool)
      modifies `parts
      ensures stopped ==> mayStop && parts - {index} == old(parts) - {index}
      ensures stopped ==> index in parts && (parts[index] == [] || |parts[index]| <= PartLength(entry, index))
      ensures stopped ==> Explained(entry, old(parts), parts, server, index)
      ensures !stopped ==> ok == Acceptable(entry, index, server(index, attempt))
      ensures !stopped && ok ==> parts == old(parts)[index := Flatten(server(index, attempt).blocks)]
      ensures !stopped && !ok ==> parts == old(parts) - {index}
    {
      var response := server(index, attempt);
      ok, stopped := false, false;
      if Readable(entry, index, response) {
        var blocks := response.blocks;
        parts := parts[index := []];
        var i := 0;
        var tooLong := false;
        while i < |blocks|
          invariant 0 <= i <= |blocks| && index in parts && parts[index] == Flatten(blocks[..i]) && !tooLong
          invariant parts - {index} == old(parts) - {index}
          invariant parts[index] == [] || |parts[index]| <= PartLength(entry, index)
        {
          assert blocks[..i + 1][..i] == blocks[..i];
          var stop: bool := *;
          if mayStop && stop {
            assert Received(entry, server, index, attempt, i, parts[index]);
            return false, true;
          }
          if |parts[index]| + |blocks[i]| > PartLength(entry, index) {
            FlattenGrows(blocks, i + 1);
            tooLong := true;
            break;
          }
          parts := parts[index := parts[index] + blocks[i]];
          i := i + 1;
        }
        assert !tooLong ==> blocks[..i] == blocks;
        ok := !tooLong && !response.broke && |parts[index]| == PartLength(entry, index);
        SameButOne(old(parts), parts, index);
      }
      if !ok {
        parts := parts - {index};
      }
    }
  
    /** Up to four attempts, unless a part of the right size is already there. */
    method FetchPart(entry: Manifest, index: nat, server: Server, mayStop: bool) returns (ok: bool, stopped: bool)
      modifies `parts
      ensures stopped ==> mayStop && Explained(entry, old(parts), parts, server, index)
      ensures parts - {index} == old(parts) - {index}
      ensures !stopped ==> ok == PartAfter(entry, old(parts), server, index).Some?
      ensures !stopped ==> parts == SetPart(old(parts), index, PartAfter(entry, old(parts), server, index))
    {
      if index in parts && |parts[index]| == PartLength(entry, index) {
        return true, false;
      }
      ok, stopped := false, false;
      var attempt := 0;
      while attempt < ATTEMPTS
        invariant attempt <= ATTEMPTS && Fetch(entry, index, server, 0) == Fetch(entry, index, server, attempt)
        invariant parts == if attempt == 0 then old(parts) else old(parts) - {index}
      {
        label before:
        ok, stopped := Attempt(entry, index, server, attempt, mayStop);
        if stopped {
          StillExplained(entry, old(parts), old@before(parts), parts, server, index);
          return;
        }
        if ok {
          return;
        }
        attempt := attempt + 1;
      }
    }

    /** Once a part has failed, those not yet started are cancelled; those under way still finish. */
    method FetchAll(entry: Manifest, server: Server, mayStop: bool) returns (ok: bool, stopped: bool)
      modifies `parts
      ensures stopped ==> mayStop && PartsExplained(entry, old(parts), parts, server)
      ensures !stopped ==> ok == Obtainable(entry, old(parts), server)
      ensures !stopped && ok ==> parts == PartsAfter(entry, old(parts), server, Count(entry))
      ensures !stopped ==> PartlyFetched(entry, old(parts), parts, server)
    {
      ok, stopped := true, false;
      var i := 0;
      while i < Count(entry)
        invariant i <= Count(entry)
        invariant ok ==> parts == PartsAfter(entry, old(parts), server, i)
        invariant ok == ObtainableBelow(entry, old(parts), server, i)
        invariant PartlyFetched(entry, old(parts), parts, server)
        invariant UntouchedFrom(old(parts), parts, i)
      {
        if !ok {
          if * {
            i := i + 1;
            continue;
          }
        }
        ghost var before := parts;
        assert SamePart(old(parts), before, i);
        SamePartAfter(entry, old(parts), before, server, i);
        var one: bool;
        one, stopped := FetchPart(entry, i, server, mayStop);
        if stopped {
          StoppedExplained(entry, old(parts), before, parts, server, i);
          return;
        }
        OneMoreFetched(entry, old(parts), before, parts, server, i);
        ok := ok && one;
        i := i + 1;
      }
    }

    method Concatenate(entry: Manifest, mayStop: bool) returns (stopped: bool)
      requires AllThere(parts, Count(entry))
      modifies `temporary
      ensures stopped ==> mayStop
      ensures !stopped ==> temporary == Some(Assemble(parts, Count(entry)))
    {
      var file: Bytes := [];
      temporary := Some(file);
      var i := 0;
      while i < Count(entry)
        invariant i <= Count(entry) && file == Assemble(parts, i) && temporary == Some(file)
      {
        var stop: bool := *;
        if mayStop && stop {
          return true;
        }
        file := file + parts[i];
        temporary := Some(file);
        i := i + 1;
      }
      return false;
    }

    method RemoveParts(mayStop: bool) returns (stopped: bool)
      modifies `parts
      ensures stopped ==> mayStop
      ensures !stopped ==> parts == map[]
      ensures Fewer(parts, old(parts))
    {
      while parts != map[]
        invariant Fewer(parts, old(parts))
        decreases |parts.Keys|
      {
        var stop: bool := *;
        if mayStop && stop {
          return true;
        }
        var i :| i in parts;
        ghost var fewer := parts.Keys - {i};
        parts := parts - {i};
        assert parts.Keys == fewer;
      }
      return false;
    }

    /** One run, which is stopped at any step if `mayStop`. */
    method DownloadModel(entry: Manifest, server: Server, hash: Hash, mayStop: bool) returns (result: Result)
      modifies this
      ensures !result.Stopped? && !result.PartFailed? ==> (Now(), result) == Complete(old(Now()), entry, server, hash)
      ensures result.Stopped? ==> mayStop
      ensures result.PartFailed? ==> Complete(old(Now()), entry, server, hash).1 == result
      ensures result.PartFailed? ==> Now() == old(Now()).(parts := parts) && PartlyFetched(entry, old(parts), parts, server)
      ensures result.Stopped? || result.PartFailed? ==> Interrupted(old(Now()), Now(), entry, server, hash)
    {
      if dest.Some? && |dest.value| == entry.bytes && hash(dest.value) == entry.sha {
        return Verified;
      }
      var ok, stopped := FetchAll(entry, server, mayStop);
      if stopped {
        return Stopped;
      }
      ObtainableIsThere(entry, old(parts), server);
      if !ok {
        PartlyFetchedIsExplained(entry, old(parts), parts, server);
        return PartFailed;
      }
      FetchedExplained(entry, old(parts), parts, server);
      stopped := Concatenate(entry, mayStop);
      if stopped {
        return Stopped;
      }
      if hash(temporary.value) != entry.sha {
        stopped := RemoveParts(mayStop);
        FetchedExplained(entry, old(parts), parts, server);
        return if stopped then Stopped else Mismatch;
      }
      dest, temporary := temporary, None;
      stopped := RemoveParts(mayStop);
      FetchedExplained(entry, old(parts), parts, server);
      return if stopped then Stopped else Installed;
    }
  }

  predicate Fewer(after: map<nat, Bytes>, before: map<nat, Bytes>) {
    forall i :: i in after ==> i in before && after[i] == before[i]
  }

  lemma FetchedExplained(entry: Manifest, before: map<nat, Bytes>, after: map<nat, Bytes>, server: Server)
    requires Fewer(after, PartsAfter(entry, before, server, Count(entry)))
    ensures PartsExplained(entry, before, after, server)
  {
    forall i: nat | i < Count(entry)
      ensures Explained(entry, before, after, server, i)
    {
      PartsAfterExplained(entry, before, server, Count(entry), i);
    }
  }

  lemma StillExplained(entry: Manifest, before: map<nat, Bytes>, middle: map<nat, Bytes>, after: map<nat, Bytes>,
                       server: Server, index: nat)
    requires middle == before || middle == before - {index}
    requires after - {index} == middle - {index} && Explained(entry, middle, after, server, index)
    ensures after - {index} == before - {index} && Explained(entry, before, after, server, index)
  {
    assert (before - {index}) - {index} == before - {index};
  }

  lemma SamePartAfter(entry: Manifest, before: map<nat, Bytes>, middle: map<nat, Bytes>, server: Server, i: nat)
    requires SamePart(before, middle, i)
    ensures PartAfter(entry, middle, server, i) == PartAfter(entry, before, server, i)
  {
  }

  lemma StoppedExplained(entry: Manifest, before: map<nat, Bytes>, middle: map<nat, Bytes>, after: map<nat, Bytes>,
                         server: Server, i: nat)
    requires PartlyFetched(entry, before, middle, server) && SamePart(before, middle, i)
    requires after - {i} == middle - {i} && Explained(entry, middle, after, server, i)
    ensures PartsExplained(entry, before, after, server)
  {
    forall k: nat | k < Count(entry)
      ensures Explained(entry, before, after, server, k)
    {
      if k != i {
        assert k in after <==> k in after - {i};
        assert k in middle <==> k in middle - {i};
        PartIsExplained(entry, before, middle, server, k);
      }
    }
  }

  /** A part is as it was. */
  predicate SamePart(before: map<nat, Bytes>, after: map<nat, Bytes>, i: nat) {
    (i in after <==> i in before) && (i in before ==> after[i] == before[i])
  }

  ghost predicate UntouchedFrom(before: map<nat, Bytes>, after: map<nat, Bytes>, i: nat) {
    forall k: nat :: k >= i ==> SamePart(before, after, k)
  }

  /** A part is what fetching it leaves. */
  predicate FetchedPart(entry: Manifest, before: map<nat, Bytes>, after: map<nat, Bytes>, server: Server, i: nat) {
    var part := PartAfter(entry, before, server, i);
    (i in after <==> part.Some?) && (part.Some? ==> after[i] == part.value)
  }

  /** Each part has been fetched, or not touched. */
  ghost predicate PartlyFetched(entry: Manifest, before: map<nat, Bytes>, after: map<nat, Bytes>, server: Server) {
    forall i: nat :: SamePart(before, after, i) || (i < Count(entry) && FetchedPart(entry, before, after, server, i))
  }

  predicate ObtainableBelow(entry: Manifest, parts: map<nat, Bytes>, server: Server, n: nat) {
    forall i: nat :: i < n ==> PartAfter(entry, parts, server, i).Some?
  }

  predicate Obtainable(entry: Manifest, parts: map<nat, Bytes>, server: Server) {
    ObtainableBelow(entry, parts, server, Count(entry))
  }

  lemma PartIsExplained(entry: Manifest, before: map<nat, Bytes>, after: map<nat, Bytes>, server: Server, i: nat)
    requires SamePart(before, after, i) || FetchedPart(entry, before, after, server, i)
    ensures Explained(entry, before, after, server, i)
  {
    if !SamePart(before, after, i) && !Full(entry, before, i) && Fetch(entry, i, server, 0).Some? {
      FetchIsReceived(entry, i, server, 0);
    }
  }

  /** What a run that lost a part leaves is covered by what a stopped one may leave. */
  lemma PartlyFetchedIsExplained(entry: Manifest, before: map<nat, Bytes>, after: map<nat, Bytes>, server: Server)
    requires PartlyFetched(entry, before, after, server)
    ensures PartsExplained(entry, before, after, server)
  {
    forall i: nat | i < Count(entry)
      ensures Explained(entry, before, after, server, i)
    {
      PartIsExplained(entry, before, after, server, i);
    }
  }

  lemma OneMoreFetched(entry: Manifest, before: map<nat, Bytes>, middle: map<nat, Bytes>, after: map<nat, Bytes>,
                       server: Server, i: nat)
    requires i < Count(entry) && PartlyFetched(entry, before, middle, server) && UntouchedFrom(before, middle, i)
    requires after == SetPart(middle, i, PartAfter(entry, middle, server, i))
    ensures PartlyFetched(entry, before, after, server) && UntouchedFrom(before, after, i + 1)
  {
    assert SamePart(before, middle, i);
    SamePartAfter(entry, before, middle, server, i);
    forall k: nat
      ensures SamePart(before, after, k) || (k < Count(entry) && FetchedPart(entry, before, after, server, k))
    {
      assert SamePart(before, middle, k) || (k < Count(entry) && FetchedPart(entry, before, middle, server, k));
    }
    forall k: nat | k > i
      ensures SamePart(before, after, k)
    {
      assert SamePart(before, middle, k);
    }
  }

  lemma ObtainableIsThere(entry: Manifest, parts: map<nat, Bytes>, server: Server)
    ensures Obtainable(entry, parts, server) <==>
            AllThere(PartsAfter(entry, parts, server, Count(entry)), Count(entry))
  {
    forall i: nat | i < Count(entry)
      ensures i in PartsAfter(entry, parts, server, Count(entry)) <==> PartAfter(entry, parts, server, i).Some?
    {
      PartsAfterAt(entry, parts, server, Count(entry), i);
    }
  }

  // ---------------------------------------------------------------- what runs achieve

  /** The bytes of `content` that belong to a part. */
  function Slice(entry: Manifest, content: Bytes, i: nat): Bytes
    requires |content| == entry.bytes && i < Count(entry)
  {
    content[PartStart(i)..PartEnd(entry, i)]
  }

  /** Every part that would be kept holds the right bytes. */
  ghost predicate Clean(entry: Manifest, content: Bytes, parts: map<nat, Bytes>)
    requires |content| == entry.bytes
  {
    forall i: nat :: i < Count(entry) && Full(entry, parts, i) ==> parts[i] == Slice(entry, content, i)
  }

  /** In the end the server delivers every part. */
  ghost predicate Delivers(entry: Manifest, content: Bytes, server: Server)
    requires |content| == entry.bytes
  {
    forall i: nat :: i < Count(entry) ==> Fetch(entry, i, server, 0) == Some(Slice(entry, content, i))
  }

  ghost predicate Fits(entry: Manifest, content: Bytes, hash: Hash) {
    |content| == entry.bytes && hash(content) == entry.sha
  }

  ghost predicate AllRight(entry: Manifest, content: Bytes, parts: map<nat, Bytes>, n: nat)
    requires |content| == entry.bytes && n <= Count(entry)
  {
    forall i: nat :: i < n ==> i in parts && parts[i] == Slice(entry, content, i)
  }

  lemma {:induction false} RightPartsAssemble(entry: Manifest, content: Bytes, parts: map<nat, Bytes>, n: nat)
    requires |content| == entry.bytes && n <= Count(entry) && AllRight(entry, content, parts, n)
    ensures AllThere(parts, n) && Assemble(parts, n) == content[..Min(entry.bytes, n * CHUNK)]
    decreases n
  {
    if n > 0 {
      RightPartsAssemble(entry, content, parts, n - 1);
      var start, end := PartStart(n - 1), PartEnd(entry, n - 1);
      assert content[..start] + content[start..end] == content[..end];
    }
  }

  lemma WholeFile(entry: Manifest, content: Bytes, parts: map<nat, Bytes>)
    requires |content| == entry.bytes && AllRight(entry, content, parts, Count(entry))
    ensures AllThere(parts, Count(entry)) && Assemble(parts, Count(entry)) == content
  {
    RightPartsAssemble(entry, content, parts, Count(entry));
    assert content[..entry.bytes] == content;
  }

  lemma CleanDeliveryIsRight(entry: Manifest, content: Bytes, parts: map<nat, Bytes>, server: Server)
    requires |content| == entry.bytes && Clean(entry, content, parts) && Delivers(entry, content, server)
    ensures AllRight(entry, content, PartsAfter(entry, parts, server, Count(entry)), Count(entry))
  {
    forall i: nat | i < Count(entry)
      ensures var after := PartsAfter(entry, parts, server, Count(entry));
              i in after && after[i] == Slice(entry, content, i)
    {
      PartsAfterAt(entry, parts, server, Count(entry), i);
    }
  }

  /** With no wrong part kept, a server that delivers gets the file installed in one run. */
  lemma CleanRunInstalls(disk: Disk, entry: Manifest, content: Bytes, server: Server, hash: Hash)
    requires Fits(entry, content, hash) && Clean(entry, content, disk.parts) && Delivers(entry, content, server)
    ensures IsInstalled(Complete(disk, entry, server, hash).0, entry, hash)
    ensures !IsInstalled(disk, entry, hash) ==>
              Complete(disk, entry, server, hash) == (Disk(Some(content), map[], None), Installed)
  {
    CleanDeliveryIsRight(entry, content, disk.parts, server);
    WholeFile(entry, content, PartsAfter(entry, disk.parts, server, Count(entry)));
  }

  lemma DeliveryIsThere(entry: Manifest, content: Bytes, parts: map<nat, Bytes>, server: Server)
    requires |content| == entry.bytes && Delivers(entry, content, server)
    ensures AllThere(PartsAfter(entry, parts, server, Count(entry)), Count(entry))
  {
    forall i: nat | i < Count(entry)
      ensures i in PartsAfter(entry, parts, server, Count(entry))
    {
      PartsAfterAt(entry, parts, server, Count(entry), i);
    }
  }

  lemma {:induction false} AssembledLength(entry: Manifest, parts: map<nat, Bytes>, n: nat)
    requires n <= Count(entry) && AllThere(parts, n) && forall i: nat :: i < n ==> Full(entry, parts, i)
    ensures |Assemble(parts, n)| == Min(entry.bytes, n * CHUNK)
    decreases n
  {
    if n > 0 {
      AssembledLength(entry, parts, n - 1);
      assert Full(entry, parts, n - 1);
    }
  }

  lemma {:induction false} FetchedIsFull(entry: Manifest, i: nat, server: Server, attempt: nat)
    requires Fetch(entry, i, server, attempt).Some?
    ensures |Fetch(entry, i, server, attempt).value| == PartLength(entry, i)
    decreases ATTEMPTS - attempt
  {
    if !Acceptable(entry, i, server(i, attempt)) {
      FetchedIsFull(entry, i, server, attempt + 1);
    }
  }

  lemma FetchedAreFull(entry: Manifest, parts: map<nat, Bytes>, server: Server, i: nat)
    requires i < Count(entry) && i in PartsAfter(entry, parts, server, Count(entry))
    ensures Full(entry, PartsAfter(entry, parts, server, Count(entry)), i)
  {
    PartsAfterAt(entry, parts, server, Count(entry), i);
    if !Full(entry, parts, i) && Fetch(entry, i, server, 0).Some? {
      FetchedIsFull(entry, i, server, 0);
    }
  }

  /** An installed file has the size of the manifest as well as its hash. */
  lemma InstalledHasSize(disk: Disk, entry: Manifest, server: Server, hash: Hash)
    requires Complete(disk, entry, server, hash).1.Installed?
    ensures var dest := Complete(disk, entry, server, hash).0.dest;
            dest.Some? && hash(dest.value) == entry.sha && |dest.value| == entry.bytes
  {
    var n := Count(entry);
    var parts := PartsAfter(entry, disk.parts, server, n);
    forall i: nat | i < n
      ensures Full(entry, parts, i)
    {
      FetchedAreFull(entry, disk.parts, server, i);
    }
    AssembledLength(entry, parts, n);
  }

  /** Whatever is on disk, two runs against a server that delivers leave the file installed. */
  lemma TwoRunsInstall(disk: Disk, entry: Manifest, content: Bytes, first: Server, second: Server, hash: Hash)
    requires Fits(entry, content, hash) && Delivers(entry, content, first) && Delivers(entry, content, second)
    ensures var once := Complete(disk, entry, first, hash).0;
            IsInstalled(Complete(once, entry, second, hash).0, entry, hash)
  {
    var (once, result) := Complete(disk, entry, first, hash);
    DeliveryIsThere(entry, content, disk.parts, first);
    if result.Mismatch? {
      CleanRunInstalls(once, entry, content, second, hash);
    } else if result.Installed? {
      InstalledHasSize(disk, entry, first, hash);
    }
  }

  lemma {:induction false} AssembledSlice(entry: Manifest, parts: map<nat, Bytes>, n: nat, i: nat)
    requires i < n <= Count(entry) && AllThere(parts, n) && forall k: nat :: k < n ==> Full(entry, parts, k)
    ensures PartEnd(entry, i) <= |Assemble(parts, n)|
    ensures Assemble(parts, n)[PartStart(i)..PartEnd(entry, i)] == parts[i]
    decreases n
  {
    AssembledLength(entry, parts, n - 1);
    assert Full(entry, parts, n - 1) && Full(entry, parts, i);
    var shorter, last := Assemble(parts, n - 1), parts[n - 1];
    assert |shorter| == PartStart(n - 1);
    if i < n - 1 {
      AssembledSlice(entry, parts, n - 1, i);
      assert (shorter + last)[PartStart(i)..PartEnd(entry, i)] == shorter[PartStart(i)..PartEnd(entry, i)];
    } else {
      assert (shorter + last)[|shorter|..|shorter| + |last|] == last;
    }
  }

  /** A wrong part that is kept ends up in the assembled file. */
  lemma WrongPartShows(entry: Manifest, content: Bytes, parts: map<nat, Bytes>, server: Server, i: nat)
    requires |content| == entry.bytes && Delivers(entry, content, server)
    requires i < Count(entry) && Full(entry, parts, i) && parts[i] != Slice(entry, content, i)
    ensures var n := Count(entry);
            var after := PartsAfter(entry, parts, server, n);
            AllThere(after, n) && Assemble(after, n) != content
  {
    var n := Count(entry);
    var after := PartsAfter(entry, parts, server, n);
    DeliveryIsThere(entry, content, parts, server);
    forall k: nat | k < n
      ensures Full(entry, after, k)
    {
      FetchedAreFull(entry, parts, server, k);
    }
    AssembledSlice(entry, after, n, i);
    PartsAfterAt(entry, parts, server, n, i);
  }

  /**
   If only the right content has the manifest hash, one run against a server that delivers installs the
   file exactly when it was installed already or no part of the right size holds wrong bytes.
   */
  lemma OneRunInstallsIff(disk: Disk, entry: Manifest, content: Bytes, server: Server, hash: Hash)
    requires Fits(entry, content, hash) && Delivers(entry, content, server)
    requires forall other :: hash(other) == entry.sha ==> other == content
    ensures IsInstalled(Complete(disk, entry, server, hash).0, entry, hash) <==>
            IsInstalled(disk, entry, hash) || Clean(entry, content, disk.parts)
  {
    if Clean(entry, content, disk.parts) {
      CleanRunInstalls(disk, entry, content, server, hash);
    } else {
      var i: nat :| i < Count(entry) && Full(entry, disk.parts, i) && disk.parts[i] != Slice(entry, content, i);
      WrongPartShows(entry, content, disk.parts, server, i);
    }
  }

  // ---------------------------------------------------------------- over any sequence of runs

  datatype Attempted = Attempted(server: Server, after: Disk)

  /** Runs one after the other, each completed or stopped, against whatever server. */
  ghost predicate Runs(disk: Disk, runs: seq<Attempted>, entry: Manifest, hash: Hash)
    decreases |runs|
  {
    runs != [] ==>
      Possible(disk, runs[0].after, entry, runs[0].server, hash) && Runs(runs[0].after, runs[1..], entry, hash)
  }

  function Final(disk: Disk, runs: seq<Attempted>): Disk {
    if runs == [] then disk else runs[|runs| - 1].after
  }

  /** The destination is never touched, or holds content with the manifest hash. */
  lemma {:induction false} DestinationIsSafe(disk: Disk, runs: seq<Attempted>, entry: Manifest, hash: Hash)
    requires Runs(disk, runs, entry, hash)
    ensures var dest := Final(disk, runs).dest; dest == disk.dest || (dest.Some? && hash(dest.value) == entry.sha)
    decreases |runs|
  {
    if runs != [] {
      DestinationIsSafe(runs[0].after, runs[1..], entry, hash);
    }
  }

  /** No response that the downloader reads has wrong bytes at full length; requests may still fail. */
  ghost predicate Truthful(entry: Manifest, content: Bytes, server: Server)
    requires |content| == entry.bytes
  {
    forall i: nat, attempt: nat, k: nat, bytes: Bytes ::
      i < Count(entry) && Received(entry, server, i, attempt, k, bytes) && |bytes| == PartLength(entry, i) ==>
      bytes == Slice(entry, content, i)
  }

  lemma ExplainedIsClean(entry: Manifest, content: Bytes, before: map<nat, Bytes>, after: map<nat, Bytes>, server: Server)
    requires |content| == entry.bytes && Clean(entry, content, before) && Truthful(entry, content, server)
    requires PartsExplained(entry, before, after, server)
    ensures Clean(entry, content, after)
  {
    forall i: nat | i < Count(entry) && Full(entry, after, i)
      ensures after[i] == Slice(entry, content, i)
    {
      assert Explained(entry, before, after, server, i);
    }
  }

  lemma CompleteStaysClean(disk: Disk, entry: Manifest, content: Bytes, server: Server, hash: Hash)
    requires Fits(entry, content, hash) && Clean(entry, content, disk.parts) && Truthful(entry, content, server)
    ensures Clean(entry, content, Complete(disk, entry, server, hash).0.parts)
    ensures Complete(disk, entry, server, hash).1 != Mismatch
  {
    var n := Count(entry);
    var parts := PartsAfter(entry, disk.parts, server, n);
    FetchedExplained(entry, disk.parts, parts, server);
    ExplainedIsClean(entry, content, disk.parts, parts, server);
    if AllThere(parts, n) {
      forall i: nat | i < n
        ensures parts[i] == Slice(entry, content, i)
      {
        FetchedAreFull(entry, disk.parts, server, i);
      }
      WholeFile(entry, content, parts);
    }
  }

  /**
   Against truthful servers, however often runs are stopped or requests fail, no wrong part is ever kept:
   a later run never finds a mismatch, and one that gets every part installs the file.
   */
  lemma {:induction false} ResumingIsSound(disk: Disk, runs: seq<Attempted>, entry: Manifest, content: Bytes, hash: Hash,
                                           server: Server)
    requires Fits(entry, content, hash) && Clean(entry, content, disk.parts) && Runs(disk, runs, entry, hash)
    requires forall r :: r in runs ==> Truthful(entry, content, r.server)
    requires Truthful(entry, content, server)
    ensures Clean(entry, content, Final(disk, runs).parts)
    ensures Complete(Final(disk, runs), entry, server, hash).1 != Mismatch
    ensures Delivers(entry, content, server) ==> IsInstalled(Complete(Final(disk, runs), entry, server, hash).0, entry, hash)
    decreases |runs|
  {
    if runs == [] {
      CompleteStaysClean(disk, entry, content, server, hash);
      if Delivers(entry, content, server) {
        CleanRunInstalls(disk, entry, content, server, hash);
      }
    } else {
      var next := runs[0].after;
      assert runs[0] in runs;
      if next == Complete(disk, entry, runs[0].server, hash).0 {
        CompleteStaysClean(disk, entry, content, runs[0].server, hash);
      } else {
        ExplainedIsClean(entry, content, disk.parts, next.parts, runs[0].server);
      }
      assert Final(next, runs[1..]) == Final(disk, runs);
      ResumingIsSound(next, runs[1..], entry, content, hash, server);
    }
  }
}
