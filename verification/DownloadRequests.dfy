/** What a part is taken from, said of the requests themselves, and what a run that loses a part keeps. */
module DownloadRequests {
  import opened Common
  import opened Download

  /** What is written of a response is its blocks, one after the other. */
  lemma {:induction false} FlattenJoins(a: seq<Bytes>, b: seq<Bytes>, block: Bytes)
    ensures Flatten([block]) == block && Flatten(a + b) == Flatten(a) + Flatten(b)
    decreases |b|
  {
    assert [block][..0] == [];
    if b == [] {
      assert a + b == a;
    } else {
      var n := |b| - 1;
      assert (a + b)[..|a + b| - 1] == a + b[..n];
      FlattenJoins(a, b[..n], block);
      Assoc(Flatten(a), Flatten(b[..n]), b[n]);
    }
  }

  /** Parts start every 16 MiB and end with the next one or the file. */
  function StartOf(index: nat): nat {
    index * 16 * 1024 * 1024
  }

  function EndOf(entry: Manifest, index: nat): nat {
    if entry.bytes < StartOf(index) + 16 * 1024 * 1024 then entry.bytes else StartOf(index) + 16 * 1024 * 1024
  }

  /** All bytes of the part came, over a connection that held, from a server that honoured the range if one was asked for. */
  predicate IsGood(entry: Manifest, index: nat, response: Response) {
    && response.Served? && response.status <= 399 && !response.broke
    && |Flatten(response.blocks)| == EndOf(entry, index) - StartOf(index)
    && (entry.bytes > 16 * 1024 * 1024 ==>
          response.status == 206 && response.range == Some((StartOf(index), EndOf(entry, index))))
  }

  lemma AcceptableIs(entry: Manifest, index: nat, response: Response)
    ensures Acceptable(entry, index, response) <==> IsGood(entry, index, response)
  {
  }

  /** A part is the body of the first good response among four, or is lost. */
  lemma FetchIs(entry: Manifest, index: nat, server: Server) returns (attempt: nat)
    ensures attempt <= 4 && forall a: nat :: a < attempt ==> !IsGood(entry, index, server(index, a))
    ensures attempt < 4 ==> IsGood(entry, index, server(index, attempt))
    ensures Fetch(entry, index, server, 0) == if attempt < 4 then Some(Flatten(server(index, attempt).blocks)) else None
  {
    attempt := FirstGood(entry, index, server, 0);
  }

  lemma {:induction false} FirstGood(entry: Manifest, index: nat, server: Server, start: nat) returns (attempt: nat)
    requires start <= 4
    ensures start <= attempt <= 4 && forall a: nat :: start <= a < attempt ==> !IsGood(entry, index, server(index, a))
    ensures attempt < 4 ==> IsGood(entry, index, server(index, attempt))
    ensures Fetch(entry, index, server, start) == if attempt < 4 then Some(Flatten(server(index, attempt).blocks)) else None
    decreases 4 - start
  {
    attempt := start;
    if start < 4 {
      AcceptableIs(entry, index, server(index, start));
      if !IsGood(entry, index, server(index, start)) {
        attempt := FirstGood(entry, index, server, start + 1);
      }
    }
  }

  /** Nothing is downloaded exactly if what is there has the size and the hash of the manifest. */
  lemma VerifiedIff(disk: Disk, entry: Manifest, server: Server, hash: Hash)
    ensures Complete(disk, entry, server, hash).1.Verified? <==>
            disk.dest.Some? && |disk.dest.value| == entry.bytes && hash(disk.dest.value) == entry.sha
    ensures Complete(disk, entry, server, hash).1.Verified? ==> Complete(disk, entry, server, hash).0 == disk
  {
  }

  /** A run that loses a part keeps every part that was full or could be fetched, and the destination as it was. */
  lemma LostPartKeepsOthers(disk: Disk, entry: Manifest, server: Server, hash: Hash, i: nat)
    requires Complete(disk, entry, server, hash).1.PartFailed? && i < Count(entry)
    ensures var after := Complete(disk, entry, server, hash).0;
            && after.dest == disk.dest && after.temporary == disk.temporary
            && (Full(entry, disk.parts, i) ==> i in after.parts && after.parts[i] == disk.parts[i])
            && (!Full(entry, disk.parts, i) ==>
                  match Fetch(entry, i, server, 0)
                  case Some(body) => i in after.parts && after.parts[i] == body
                  case None => i !in after.parts)
  {
    PartsAfterAt(entry, disk.parts, server, Count(entry), i);
  }
}
