/** The Azure upload from creation to commit, for every listing order and every old blob underneath. */
module AzureTheorems {
  import opened Streams
  import opened AzureSpec
  import Base64

  /** The uncommitted blocks of an upload: the sentinel and one block per chunk. */
  function StagedMap(chunks: seq<bytes>): map<string, bytes> {
    if chunks == [] then map[SentinelId() := [0]]
    else StagedMap(chunks[..|chunks| - 1])[BlockId(|chunks| - 1) := chunks[|chunks| - 1]]
  }

  lemma {:induction false} StagedNames(chunks: seq<bytes>)
    requires |chunks| <= SENTINEL_INDEX
    ensures |StagedMap(chunks)| == |chunks| + 1
    ensures forall name :: name in StagedMap(chunks) ==>
                             && BlockIndex(name).Some?
                             && (BlockIndex(name).value < |chunks| || BlockIndex(name).value == SENTINEL_INDEX)
    ensures |chunks| < SENTINEL_INDEX ==> BlockId(|chunks|) !in StagedMap(chunks) && BlockId(|chunks|) != SentinelId()
  {
    hide BlockId, BlockIndex;
    IdRoundTrip(SENTINEL_INDEX);
    IdRoundTrip(|chunks|);
    if chunks != [] {
      var n := |chunks| - 1;
      IdRoundTrip(n);
      StagedNames(chunks[..n]);
      assert StagedMap(chunks).Keys == StagedMap(chunks[..n]).Keys + {BlockId(n)};
    }
  }

  // ------------------------------------------------- any order of the listing

  function Without(listing: seq<string>, j: nat): seq<string>
    requires j < |listing|
  {
    listing[..j] + listing[j + 1..]
  }

  lemma WithoutLast(listing: seq<string>)
    requires listing != []
    ensures Without(listing, |listing| - 1) == listing[..|listing| - 1]
  {
  }

  lemma WithoutInit(listing: seq<string>, j: nat)
    requires j < |listing| - 1
    ensures var w, n := Without(listing, j), |listing| - 1;
            |w| > 0 && w[|w| - 1] == listing[n] && w[..|w| - 1] == Without(listing[..n], j)
  {
    var w, n := Without(listing, j), |listing| - 1;
    var v := Without(listing[..n], j);
    assert |w| == n && |v| == n - 1;
    forall i | 0 <= i < n - 1 ensures w[i] == v[i] {
    }
  }

  lemma {:induction false} RemoveSize(staged: map<string, bytes>, listing: seq<string>, j: nat)
    requires j < |listing| && listing[j] != SentinelId()
    requires forall i :: 0 <= i < |listing| ==> listing[i] in staged
    ensures Sizes(staged, listing) == Sizes(staged, Without(listing, j)) + |staged[listing[j]]|
  {
    hide SentinelId, Without;
    var n := |listing| - 1;
    if j == n {
      WithoutLast(listing);
    } else {
      RemoveSize(staged, listing[..n], j);
      WithoutInit(listing, j);
    }
  }

  lemma {:induction false} RemoveIndex(listing: seq<string>, j: nat, index: nat)
    requires j < |listing| && listing[j] != SentinelId() && BlockIndex(listing[j]) == Some(index)
    ensures multiset(Indexes(listing)) == multiset(Indexes(Without(listing, j))) + multiset{index as int}
  {
    hide BlockIndex, SentinelId, IndexIn, Without;
    var n := |listing| - 1;
    var w := Without(listing, j);
    if j == n {
      WithoutLast(listing);
      assert IndexIn(listing[n]) == [index] by { IndexOfData(listing[n], index); }
    } else {
      RemoveIndex(listing[..n], j, index);
      WithoutInit(listing, j);
      assert Indexes(w) == Indexes(Without(listing[..n], j)) + IndexIn(listing[n]);
    }
    assert Indexes(listing) == Indexes(listing[..n]) + IndexIn(listing[n]);
  }

  lemma IndexOfData(name: string, index: nat)
    requires name != SentinelId() && BlockIndex(name) == Some(index)
    ensures IndexIn(name) == [index]
  {
  }

  lemma {:induction false} SizesFrame(a: map<string, bytes>, b: map<string, bytes>, listing: seq<string>)
    requires forall i :: 0 <= i < |listing| ==> listing[i] in a && listing[i] in b && a[listing[i]] == b[listing[i]]
    ensures Sizes(a, listing) == Sizes(b, listing)
  {
    if listing != [] {
      SizesFrame(a, b, listing[..|listing| - 1]);
    }
  }

  /** Whatever the order of the listing, the offset is the data staged and the indexes are 0 .. k-1. */
  lemma {:induction false} RecoverStaged(chunks: seq<bytes>, listing: seq<string>)
    requires |chunks| <= SENTINEL_INDEX && IsListing(StagedMap(chunks), listing)
    ensures Sizes(StagedMap(chunks), listing) == |Flatten(chunks)|
    ensures multiset(Indexes(listing)) == multiset(Range(|chunks|))
  {
    hide BlockId, BlockIndex, SentinelId, IsListing, Sizes, Indexes, StagedMap, Flatten, Without;
    if chunks == [] {
      OnlySentinel(listing);
      assert Flatten([]) == [] by { FlattenNone(); }
    } else {
      var n := |chunks| - 1;
      var name, rest := BlockId(n), chunks[..n];
      assert chunks == rest + [chunks[n]];
      StagedNext(rest, chunks[n]);
      IdRoundTrip(n);
      StagedNames(rest);
      var j := PositionOf(StagedMap(chunks), listing, name);
      var without := Without(listing, j);
      WithoutIsListing(StagedMap(rest), name, chunks[n], listing, j);
      RecoverStaged(rest, without);
      RemoveSize(StagedMap(chunks), listing, j);
      RemoveIndex(listing, j, n);
      SizesFrame(StagedMap(chunks), StagedMap(rest), without);
      FlattenSnoc(rest, chunks[n]);
      assert chunks == rest + [chunks[n]] && Range(n + 1) == Range(n) + [n];
    }
  }

  lemma PositionOf(staged: map<string, bytes>, listing: seq<string>, name: string) returns (j: nat)
    requires IsListing(staged, listing) && name in staged
    ensures j < |listing| && listing[j] == name
    ensures forall i :: 0 <= i < |listing| ==> listing[i] in staged
  {
    assert name in listing;
    j :| 0 <= j < |listing| && listing[j] == name;
  }

  lemma OnlySentinel(listing: seq<string>)
    requires IsListing(StagedMap([]), listing)
    ensures Sizes(StagedMap([]), listing) == 0 && Indexes(listing) == []
  {
    hide SentinelId;
    assert SentinelId() in listing;
    forall i | 0 <= i < |listing| ensures listing[i] == SentinelId() {
      assert listing[i] in listing;
    }
    ListingLength(StagedMap([]), listing);
    assert |StagedMap([])| == 1;
    assert listing[..0] == [] && IndexIn(SentinelId()) == [];
  }

  lemma {:induction false} ListingLength(staged: map<string, bytes>, listing: seq<string>)
    requires IsListing(staged, listing)
    ensures |listing| == |staged|
  {
    if listing == [] {
      assert staged.Keys == {};
    } else {
      var n := |listing| - 1;
      var rest := staged - {listing[n]};
      assert listing[n] in listing;
      assert rest.Keys == staged.Keys - {listing[n]};
      assert IsListing(rest, listing[..n]) by {
        forall name | name in rest ensures name in listing[..n] {
          assert name in listing;
        }
        forall name | name in listing[..n] ensures name in rest {
          assert name in listing;
        }
      }
      ListingLength(rest, listing[..n]);
      assert |rest.Keys| == |staged.Keys| - 1;
    }
  }

  lemma WithoutIsListing(staged: map<string, bytes>, name: string, body: bytes, listing: seq<string>, j: nat)
    requires IsListing(staged[name := body], listing) && name !in staged && j < |listing| && listing[j] == name
    ensures IsListing(staged, Without(listing, j))
    ensures forall i :: 0 <= i < |Without(listing, j)| ==>
                          Without(listing, j)[i] in staged && Without(listing, j)[i] != name
  {
    var w := Without(listing, j);
    forall i | 0 <= i < |w| ensures w[i] != name && w[i] in staged {
      assert w[i] == listing[if i < j then i else i + 1];
      assert w[i] in listing;
    }
    forall other | other in staged ensures other in w {
      assert other in listing;
      var i :| 0 <= i < |listing| && listing[i] == other;
      assert w[if i < j then i else i - 1] == other;
    }
  }

  lemma RecoverSorted(chunks: seq<bytes>, listing: seq<string>)
    requires |chunks| <= SENTINEL_INDEX && IsListing(StagedMap(chunks), listing)
    ensures Sizes(StagedMap(chunks), listing) == |Flatten(chunks)|
    ensures Sort(Indexes(listing)) == Range(|chunks|)
    ensures listing != []
  {
    hide Sort, Indexes, Sizes, SentinelId;
    RecoverStaged(chunks, listing);
    SortOrdered(Indexes(listing));
    OrderedUnique(Sort(Indexes(listing)), Range(|chunks|));
    SentinelStaged(chunks);
  }

  lemma {:induction false} SentinelStaged(chunks: seq<bytes>)
    ensures SentinelId() in StagedMap(chunks)
  {
    if chunks != [] {
      SentinelStaged(chunks[..|chunks| - 1]);
    }
  }

  // ---------------------------------------------------------------- committing

  lemma {:induction false} StagedBlock(chunks: seq<bytes>, i: nat)
    requires |chunks| <= SENTINEL_INDEX && i < |chunks|
    ensures BlockId(i) in StagedMap(chunks) && StagedMap(chunks)[BlockId(i)] == chunks[i]
  {
    hide BlockId, BlockIndex, SentinelId;
    var n := |chunks| - 1;
    if i < n {
      StagedBlock(chunks[..n], i);
      StagedNames(chunks[..n]);
    }
  }

  lemma {:induction false} CollectRange(blob: Blob, chunks: seq<bytes>, k: nat)
    requires |chunks| <= SENTINEL_INDEX && blob.staged == StagedMap(chunks) && k <= |chunks|
    ensures Collect(blob, Names(Range(k))).Some?
    ensures Data(Collect(blob, Names(Range(k))).value) == Flatten(chunks[..k])
  {
    hide BlockId;
    if k > 0 {
      CollectRange(blob, chunks, k - 1);
      StagedBlock(chunks, k - 1);
      assert Names(Range(k))[..k - 1] == Names(Range(k - 1));
      FlattenSnoc(chunks[..k - 1], chunks[k - 1]);
      assert chunks[..k] == chunks[..k - 1] + [chunks[k - 1]];
      var blocks := Collect(blob, Names(Range(k - 1))).value;
      var last := (Names(Range(k))[k - 1], chunks[k - 1]);
      assert (blocks + [last])[..|blocks|] == blocks;
    }
  }

  /** Committing the recovered indexes yields the chunks in upload order and drops the sentinel. */
  lemma CommitAssembles(blob: Blob, chunks: seq<bytes>)
    requires |chunks| <= SENTINEL_INDEX && blob.staged == StagedMap(chunks)
    ensures var r := CommitBlockList(blob, Names(Range(|chunks|)));
            r.Ok? && r.value.staged == map[] && Data(r.value.committed) == Flatten(chunks)
  {
    CollectRange(blob, chunks, |chunks|);
    assert chunks[..|chunks|] == chunks;
  }

  /** An old block is found exactly if the blob was committed with one of that name, the first such one. */
  lemma {:induction false} OldBlockIsFirst(committed: seq<(string, bytes)>, name: string)
    ensures OldBlock(committed, name).Some? <==> exists i :: 0 <= i < |committed| && committed[i].0 == name
    ensures forall i :: 0 <= i < |committed| && committed[i].0 == name && (forall j :: 0 <= j < i ==> committed[j].0 != name) ==>
                          OldBlock(committed, name) == Some(committed[i].1)
  {
    if committed != [] {
      OldBlockIsFirst(committed[1..], name);
      assert forall i :: 0 < i < |committed| ==> committed[i] == committed[1..][i - 1];
    }
  }

  lemma CommitOneMore(blob: Blob, chunks: seq<bytes>)
    requires |chunks| < SENTINEL_INDEX && blob.staged == StagedMap(chunks)
    ensures var leftover := OldBlock(blob.committed, BlockId(|chunks|));
            var r := CommitBlockList(blob, Names(Range(|chunks| + 1)));
            && (r.Ok? <==> leftover.Some?)
            && (r.Ok? ==> Data(r.value.committed) == Flatten(chunks) + leftover.value)
  {
    hide BlockId, BlockIndex, SentinelId, StagedMap, Collect, Data, OldBlock;
    var k := |chunks|;
    CollectRange(blob, chunks, k);
    StagedNames(chunks);
    assert chunks[..k] == chunks;
    CollectOneMore(blob, Names(Range(k)), BlockId(k));
    assert Names(Range(k + 1)) == Names(Range(k)) + [BlockId(k)];
  }

  lemma CollectOneMore(blob: Blob, names: seq<string>, name: string)
    requires Collect(blob, names).Some?
    ensures var more := Collect(blob, names + [name]);
            && (more.Some? <==> Latest(blob, name).Some?)
            && (more.Some? ==> Data(more.value) == Data(Collect(blob, names).value) + Latest(blob, name).value)
  {
    hide OldBlock;
    var all := names + [name];
    assert all[..|all| - 1] == names;
    var blocks := Collect(blob, names).value;
    if Latest(blob, name).Some? {
      var longer := blocks + [(name, Latest(blob, name).value)];
      assert longer[..|longer| - 1] == blocks;
    }
  }

  lemma {:induction false} CommittedSize(blocks: seq<(string, bytes)>)
    ensures CommittedSizes(blocks) == |Data(blocks)|
  {
    if blocks != [] {
      CommittedSize(blocks[..|blocks| - 1]);
    }
  }

  // -------------------------------------------------------------- the lifecycle

  /** The bodies that end up as blocks: neither empty nor too large, while blocks are left. */
  function Kept(lim: Limits, bodies: seq<bytes>): (r: seq<bytes>)
    ensures |r| <= lim.maxBlocks
  {
    if bodies == [] then []
    else
      var kept, last := Kept(lim, bodies[..|bodies| - 1]), bodies[|bodies| - 1];
      if 0 < |last| <= lim.maxChunk && |kept| < lim.maxBlocks then kept + [last] else kept
  }

  lemma StagedNext(chunks: seq<bytes>, body: bytes)
    ensures StagedMap(chunks + [body]) == StagedMap(chunks)[BlockId(|chunks|) := body]
  {
    assert (chunks + [body])[..|chunks|] == chunks;
  }

  /** One request on a freshly fetched handle stages its body as the next block, or changes nothing. */
  lemma WriteStages(lim: Limits, chunks: seq<bytes>, committed: seq<(string, bytes)>, listing: seq<string>, body: bytes)
    requires lim.Valid() && |chunks| <= lim.maxBlocks && IsListing(StagedMap(chunks), listing)
    ensures forall i :: 0 <= i < |listing| ==> listing[i] in StagedMap(chunks)
    ensures var blob := Blob(StagedMap(chunks), committed);
            var h := Open(blob, listing);
            var (blob', h', res) := WriteChunk(lim, blob, h, body);
            && h == Handle(Range(|chunks|), |Flatten(chunks)|)
            && NextIndex(h.indexes) == |chunks| < SENTINEL_INDEX
            && (res.Ok? <==> 0 < |body| <= lim.maxChunk && |chunks| < lim.maxBlocks)
            && (res.Ok? ==>
                  && res.value == |body| && blob' == Blob(StagedMap(chunks + [body]), committed)
                  && h' == Handle(Range(|chunks| + 1), |Flatten(chunks + [body])|))
            && (res.Err? ==>
                  && blob' == blob && h'.offset == h.offset
                  && res.error == (if |body| > lim.maxChunk then ChunkTooLarge else if body == [] then EmptyBlock else TooManyBlocks)
                  && h'.indexes == Range(if |body| > lim.maxChunk then |chunks| else |chunks| + 1))
  {
    hide BlockId, BlockIndex, SentinelId, Sort, Indexes, Sizes, StagedMap, Flatten;
    StagedNext(chunks, body);
    assert forall i :: 0 <= i < |listing| ==> listing[i] in listing;
    RecoverSorted(chunks, listing);
    StagedNames(chunks);
    FlattenSnoc(chunks, body);
    assert Range(|chunks| + 1) == Range(|chunks|) + [|chunks| as int];
  }

  /**
   * A write that fails at Azure leaves its index behind in the handle. If the upload is then
   * finished on that handle, the commit succeeds if and only if the blob underneath has an old
   * block of that index, and what it commits is the upload with that old block behind it. An
   * empty body always fails so; a body that is too large fails before the index is taken, and
   * does no harm.
   */
  lemma CommitAfterFailedWrite(
    lim: Limits, chunks: seq<bytes>, committed: seq<(string, bytes)>, listing: seq<string>, body: bytes)
    requires lim.Valid() && |chunks| <= lim.maxBlocks && IsListing(StagedMap(chunks), listing)
    ensures forall i :: 0 <= i < |listing| ==> listing[i] in StagedMap(chunks)
    ensures var blob := Blob(StagedMap(chunks), committed);
            var (blob', h', res) := WriteChunk(lim, blob, Open(blob, listing), body);
            var leftover := OldBlock(committed, BlockId(|chunks|));
            var done := CommitBlockList(blob', Names(h'.indexes));
            && (body == [] ==> res == Err(EmptyBlock))
            && (res.Err? && |body| <= lim.maxChunk ==>
                  && (done.Ok? <==> leftover.Some?)
                  && (done.Err? ==> done.error == InvalidBlockList)
                  && (done.Ok? ==> Data(done.value.committed) == Flatten(chunks) + leftover.value))
            && (res.Err? && |body| > lim.maxChunk ==> done.Ok? && Data(done.value.committed) == Flatten(chunks))
  {
    hide BlockId, BlockIndex, SentinelId, StagedMap, Collect, Data, OldBlock, Sort, Indexes, Sizes, Flatten;
    var blob := Blob(StagedMap(chunks), committed);
    WriteStages(lim, chunks, committed, listing, body);
    CommitAssembles(blob, chunks);
    CommitOneMore(blob, chunks);
  }

  lemma {:induction false} SizesZero(staged: map<string, bytes>, listing: seq<string>)
    requires forall i :: 0 <= i < |listing| ==> listing[i] in staged
    ensures Sizes(staged, listing) == 0 <==> forall i :: 0 <= i < |listing| ==> listing[i] == SentinelId() || staged[listing[i]] == []
  {
    hide SentinelId;
    if listing != [] {
      SizesZero(staged, listing[..|listing| - 1]);
    }
  }

  /**
   * NewUpload stages the sentinel on whatever is there. The new upload reports offset 0 when it
   * is fetched if and only if no data block was left uncommitted on the blob; old committed
   * blocks do not matter.
   */
  lemma NewUploadStartsAtZeroIff(blob: Blob, listing: seq<string>)
    requires IsListing(blob.staged[SentinelId() := [0]], listing)
    ensures forall i :: 0 <= i < |listing| ==> listing[i] in blob.staged[SentinelId() := [0]]
    ensures Open(blob.(staged := blob.staged[SentinelId() := [0]]), listing).offset == 0 <==>
            forall name :: name in blob.staged ==> name == SentinelId() || blob.staged[name] == []
  {
    hide SentinelId, Sizes, Sort, Indexes;
    var staged := blob.staged[SentinelId() := [0]];
    assert forall i :: 0 <= i < |listing| ==> listing[i] in listing;
    SizesZero(staged, listing);
    assert SentinelId() in listing;
    forall name | name in blob.staged
      ensures name == SentinelId() || exists i :: 0 <= i < |listing| && listing[i] == name && staged[listing[i]] == blob.staged[name]
    {
      assert name in listing;
    }
  }

  /** A run: an upload created over an old blob, then requests, each with its own listing order. */
  ghost predicate IsRun(
    lim: Limits, committed: seq<(string, bytes)>, blobs: seq<Blob>, listings: seq<seq<string>>, bodies: seq<bytes>)
  {
    && |blobs| == |bodies| + 1 && |listings| == |bodies|
    && blobs[0] == Blob(StagedMap([]), committed)
    && (forall i :: 0 <= i < |bodies| ==>
                      && IsListing(blobs[i].staged, listings[i])
                      && (forall j :: 0 <= j < |listings[i]| ==> listings[i][j] in blobs[i].staged)
                      && blobs[i + 1] == WriteChunk(lim, blobs[i], Open(blobs[i], listings[i]), bodies[i]).0)
  }

  lemma {:induction false} RunStages(
    lim: Limits, committed: seq<(string, bytes)>, blobs: seq<Blob>, listings: seq<seq<string>>, bodies: seq<bytes>, i: nat)
    requires lim.Valid() && IsRun(lim, committed, blobs, listings, bodies) && i < |blobs|
    ensures blobs[i] == Blob(StagedMap(Kept(lim, bodies[..i])), committed)
  {
    hide StagedMap, IsListing, WriteChunk, Open;
    if i > 0 {
      RunStages(lim, committed, blobs, listings, bodies, i - 1);
      assert bodies[..i][..i - 1] == bodies[..i - 1];
      WriteStages(lim, Kept(lim, bodies[..i - 1]), committed, listings[i - 1], bodies[i - 1]);
    } else {
      assert bodies[..0] == [];
    }
  }

  /**
   * In every state from creation to commit, for any listing order and any old committed
   * blocks: the offset is the data staged without the sentinel, the recovered indexes are
   * exactly 0 .. k-1, the next index is k and not the sentinel, and committing yields the
   * chunks in upload order, whose length stays the offset.
   */
  lemma Lifecycle(
    lim: Limits, committed: seq<(string, bytes)>, blobs: seq<Blob>, listings: seq<seq<string>>, bodies: seq<bytes>,
    i: nat, listing: seq<string>)
    requires lim.Valid() && IsRun(lim, committed, blobs, listings, bodies) && i < |blobs|
    requires IsListing(blobs[i].staged, listing) && forall j :: 0 <= j < |listing| ==> listing[j] in blobs[i].staged
    ensures var chunks := Kept(lim, bodies[..i]);
            var h := Open(blobs[i], listing);
            && h.offset == |Flatten(chunks)|
            && h.indexes == Range(|chunks|)
            && NextIndex(h.indexes) == |chunks| < SENTINEL_INDEX
            && var done := CommitBlockList(blobs[i], Names(h.indexes));
               && done.Ok? && done.value.staged == map[] && Data(done.value.committed) == Flatten(chunks)
               && Open(done.value, []).offset == h.offset
  {
    hide StagedMap, IsListing, WriteChunk, CommitBlockList, Sort, Indexes, Sizes;
    RunStages(lim, committed, blobs, listings, bodies, i);
    var chunks := Kept(lim, bodies[..i]);
    WriteStages(lim, chunks, committed, listing, []);
    CommitAssembles(blobs[i], chunks);
    CommittedSize(CommitBlockList(blobs[i], Names(Range(|chunks|))).value.committed);
  }
}
