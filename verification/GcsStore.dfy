/** An upload in the Google Cloud Storage backend: numbered chunks, the offset from their names, and finishing. */
module GcsStore {
  import opened Streams
  import opened Strings
  import opened GcsNames
  import opened GcsBucket

  // ---------------------------------------------------- the phases of an upload

  /** The bucket holds these chunks of the upload, and under its key nothing else but the info object. */
  ghost predicate Chunked(objects: map<string, bytes>, key: string, chunks: seq<bytes>) {
    && InfoName(key) in objects
    && (forall i: nat :: i < |chunks| ==> ChunkName(key, i) in objects && objects[ChunkName(key, i)] == chunks[i])
    && (forall n :: n in objects && key <= n ==> n == key || n == InfoName(key) || InfoOrChunk(key, |chunks|, n))
    && (forall n :: n in objects && key <= n && HasInfoSuffix(n) ==> n == InfoName(key))
  }

  /** Before finishing. */
  ghost predicate Unfinished(objects: map<string, bytes>, key: string, chunks: seq<bytes>) {
    Chunked(objects, key, chunks) && key !in objects
  }

  /** The chunks have been composed but not yet deleted. */
  ghost predicate Composed(objects: map<string, bytes>, key: string, chunks: seq<bytes>) {
    Chunked(objects, key, chunks) && key in objects && objects[key] == Flatten(chunks)
  }

  /** Only the finished object and its info object are left. */
  ghost predicate Finished(objects: map<string, bytes>, key: string, data: bytes) {
    Chunked(objects, key, []) && key in objects && objects[key] == data
  }

  // ------------------------------------------------------------------- offsets

  function SumSizes(objects: map<string, bytes>, names: seq<string>): Option<nat> {
    if names == [] then Some(0)
    else
      var n := |names| - 1;
      match SumSizes(objects, names[..n])
      case None => None
      case Some(sum) => if names[n] in objects then Some(sum + |objects[names[n]]|) else None
  }

  /** GetInfo's offset: the sizes of what the filter returns for the key's prefix. */
  function OffsetFrom(objects: map<string, bytes>, listing: seq<string>): Result<nat, GcsError> {
    match Filter(listing)
    case Err(e) => Err(e)
    case Ok(names) =>
      match SumSizes(objects, names)
      case None => Err(NotFound)
      case Some(sum) => Ok(sum)
  }

  lemma {:induction false} SumChunks(objects: map<string, bytes>, key: string, chunks: seq<bytes>, k: nat)
    requires k <= |chunks|
    requires forall i: nat :: i < |chunks| ==> ChunkName(key, i) in objects && objects[ChunkName(key, i)] == chunks[i]
    ensures SumSizes(objects, ChunkNames(key, k)) == Some(|Flatten(chunks[..k])|)
  {
    hide ChunkName;
    if k > 0 {
      SumChunks(objects, key, chunks, k - 1);
      var names := ChunkNames(key, k);
      assert names[..k - 1] == ChunkNames(key, k - 1) && names[k - 1] == ChunkName(key, k - 1);
      assert chunks[..k] == chunks[..k - 1] + [chunks[k - 1]];
      FlattenSnoc(chunks[..k - 1], chunks[k - 1]);
    }
  }

  lemma ListedChunks(objects: map<string, bytes>, key: string, chunks: seq<bytes>, prefix: string, listing: seq<string>)
    requires KeyOk(key) && Chunked(objects, key, chunks) && IsListing(objects, prefix, listing)
    requires key <= prefix && forall i: nat :: i < |chunks| ==> prefix <= ChunkName(key, i)
    ensures forall k :: 0 <= k < |listing| ==> listing[k] == key || InfoOrChunk(key, |chunks|, listing[k])
    ensures forall i: nat :: i < |chunks| ==> ChunkName(key, i) in listing
    ensures key in listing <==> key in objects && prefix <= key
  {
    hide ChunkName, InfoName;
    InfoSuffix(key);
    forall k | 0 <= k < |listing| ensures listing[k] == key || InfoOrChunk(key, |chunks|, listing[k]) {
      assert listing[k] in listing;
      assert key <= prefix <= listing[k];
    }
  }

  lemma ChunkPrefix(key: string)
    ensures forall i: nat :: key <= ChunkName(key, i) && key + "_" <= ChunkName(key, i)
    ensures !(key + "_" <= key) && !(key + "_" <= InfoName(key)) && key <= InfoName(key)
  {
    assert InfoName(key)[|key|] == '.' && (key + "_")[|key|] == '_';
  }

  /** For every listing order: before finishing the offset is the sum of the chunks. */
  lemma OffsetUnfinished(objects: map<string, bytes>, key: string, chunks: seq<bytes>, listing: seq<string>)
    requires KeyOk(key) && Unfinished(objects, key, chunks) && IsListing(objects, key, listing)
    ensures OffsetFrom(objects, listing) == Ok(|Flatten(chunks)|)
  {
    hide ChunkName, Filter, SumSizes, KeyOk;
    ChunkPrefix(key);
    ListedChunks(objects, key, chunks, key, listing);
    FilterChunks(key, |chunks|, listing);
    SumChunks(objects, key, chunks, |chunks|);
    assert chunks[..|chunks|] == chunks;
  }

  lemma OffsetWithObject(objects: map<string, bytes>, key: string, chunks: seq<bytes>, data: bytes, listing: seq<string>)
    requires KeyOk(key) && Chunked(objects, key, chunks) && key in objects && objects[key] == data
    requires IsListing(objects, key, listing)
    ensures OffsetFrom(objects, listing) == Ok(|data|)
  {
    hide ChunkName, FilterFrom, KeyOk;
    ChunkPrefix(key);
    ListedChunks(objects, key, chunks, key, listing);
    FilterFinds(key, |chunks|, [], listing);
    assert SumSizes(objects, [key][..0]) == Some(0);
  }

  /**
   * The offset of an upload is the same before finishing, after the composition while the
   * chunks still exist, and after they are deleted, for every order of the three listings.
   */
  lemma SameOffset(
    a: map<string, bytes>, b: map<string, bytes>, c: map<string, bytes>, key: string, chunks: seq<bytes>,
    la: seq<string>, lb: seq<string>, lc: seq<string>)
    requires KeyOk(key) && Unfinished(a, key, chunks) && Composed(b, key, chunks) && Finished(c, key, Flatten(chunks))
    requires IsListing(a, key, la) && IsListing(b, key, lb) && IsListing(c, key, lc)
    ensures OffsetFrom(a, la) == OffsetFrom(b, lb) == OffsetFrom(c, lc) == Ok(|Flatten(chunks)|)
  {
    hide OffsetFrom, KeyOk, Chunked;
    OffsetUnfinished(a, key, chunks, la);
    OffsetWithObject(b, key, chunks, Flatten(chunks), lb);
    OffsetWithObject(c, key, [], Flatten(chunks), lc);
  }

  // -------------------------------------------------------------- writing chunks

  /** Storing the next number keeps the numbering contiguous. */
  lemma NextChunk(objects: map<string, bytes>, key: string, chunks: seq<bytes>, body: bytes)
    requires KeyOk(key) && Unfinished(objects, key, chunks)
    ensures Unfinished(objects[ChunkName(key, |chunks|) := body], key, chunks + [body])
  {
    hide ChunkName, KeyOk, HasInfoSuffix, InfoName;
    var n := |chunks|;
    var objects' := objects[ChunkName(key, n) := body];
    NamesDiffer(key);
    ChunkPieces(key, n);
    forall i: nat | i < n + 1
      ensures ChunkName(key, i) in objects' && objects'[ChunkName(key, i)] == (chunks + [body])[i]
    {
      assert i < n ==> ChunkName(key, i) != ChunkName(key, n);
    }
    forall m | m in objects' && key <= m ensures m == key || m == InfoName(key) || InfoOrChunk(key, n + 1, m) {
      if m != ChunkName(key, n) && m != key && m != InfoName(key) {
        assert InfoOrChunk(key, n, m);
      }
    }
  }

  /** The number after the highest one the names end in, or None if one of them ends in none. */
  function NextNumber(names: seq<string>): Option<nat> {
    if names == [] then Some(0)
    else
      var n := |names| - 1;
      match NextNumber(names[..n])
      case None => None
      case Some(next) =>
        match Atoi(LastPart(names[n], '_'))
        case None => None
        case Some(idx) => if idx >= next then Some(idx + 1) else Some(next)
  }

  function NumberOf(name: string): Option<nat> {
    Atoi(LastPart(name, '_'))
  }

  /** There is a next number exactly if every name ends in one, and it is the one after the highest. */
  lemma {:induction false} NextNumberIsHighest(names: seq<string>)
    ensures NextNumber(names).Some? <==> forall i :: 0 <= i < |names| ==> NumberOf(names[i]).Some?
    ensures NextNumber(names).Some? ==>
              && (forall i :: 0 <= i < |names| ==> NumberOf(names[i]).value < NextNumber(names).value)
              && (names == [] ==> NextNumber(names).value == 0)
              && (names != [] ==> exists i :: 0 <= i < |names| && NumberOf(names[i]).value + 1 == NextNumber(names).value)
  {
    hide Atoi, LastPart;
    if names != [] {
      var n := |names| - 1;
      NextNumberIsHighest(names[..n]);
      assert forall i :: 0 <= i < n ==> names[..n][i] == names[i];
      if NextNumber(names).Some? && NumberOf(names[n]).value + 1 < NextNumber(names).value {
        var i :| 0 <= i < n && NumberOf(names[..n][i]).value + 1 == NextNumber(names[..n]).value;
        assert NumberOf(names[i]).value + 1 == NextNumber(names).value;
      }
    }
  }

  /** WriteChunk on the bucket, with the listing it gets to see. */
  function WriteNext(objects: map<string, bytes>, key: string, listing: seq<string>, body: bytes): Result<map<string, bytes>, GcsError> {
    match Filter(listing)
    case Err(e) => Err(e)
    case Ok(names) =>
      match NextNumber(names)
      case None => Err(BadName)
      case Some(n) => Ok(objects[ChunkName(key, n) := body])
  }

  lemma {:induction false} NextAfterChunks(key: string, n: nat)
    ensures NextNumber(ChunkNames(key, n)) == Some(n)
  {
    hide ChunkName;
    if n > 0 {
      NextAfterChunks(key, n - 1);
      ChunkNumber(key, n - 1);
      assert ChunkNames(key, n)[..n - 1] == ChunkNames(key, n - 1);
    }
  }

  lemma {:induction false} NoNumber(names: seq<string>, i: nat)
    requires i <= |names| && NextNumber(names[..i]) == None
    ensures NextNumber(names) == None
    decreases |names|
  {
    var n := |names| - 1;
    if i == |names| {
      assert names[..i] == names;
    } else {
      assert names[..n][..i] == names[..i];
      NoNumber(names[..n], i);
    }
  }

  /** Whatever the order of the listing, the number computed from it is the next free one. */
  lemma WriteNextAppends(objects: map<string, bytes>, key: string, chunks: seq<bytes>, listing: seq<string>, body: bytes)
    requires KeyOk(key) && Unfinished(objects, key, chunks) && IsListing(objects, key + "_", listing)
    ensures WriteNext(objects, key, listing, body) == Ok(objects[ChunkName(key, |chunks|) := body])
    ensures Unfinished(objects[ChunkName(key, |chunks|) := body], key, chunks + [body])
  {
    hide ChunkName, ChunkNames, KeyOk, Filter, NextNumber, Chunked;
    ListedUnderscore(objects, key, chunks, listing);
    NextAfterChunks(key, |chunks|);
    NextChunk(objects, key, chunks, body);
  }

  /** A write can fail only because a name in the listing is not a chunk's. */
  lemma WriteNextFails(objects: map<string, bytes>, key: string, listing: seq<string>, body: bytes)
    ensures WriteNext(objects, key, listing, body).Err? ==> WriteNext(objects, key, listing, body) == Err(BadName)
  {
    FilterFails([], listing);
  }

  function Kept(objects: map<string, bytes>, written: Result<map<string, bytes>, GcsError>): map<string, bytes> {
    if written.Ok? then written.value else objects
  }

  /** A run of WriteChunk calls, each of which sees the bucket listed in some order of its own. */
  ghost predicate IsRun(key: string, states: seq<map<string, bytes>>, listings: seq<seq<string>>, bodies: seq<bytes>) {
    && |states| == |bodies| + 1 && |listings| == |bodies|
    && (forall i :: 0 <= i < |bodies| ==>
                      && IsListing(states[i], key + "_", listings[i])
                      && states[i + 1] == Kept(states[i], WriteNext(states[i], key, listings[i], bodies[i])))
  }

  /** In every state of every run the chunks are the bodies so far, numbered from 0 without a gap,
      and the offset is their total length for every order of its own listing. No call fails. */
  lemma {:induction false} RunContiguous(
    key: string, states: seq<map<string, bytes>>, listings: seq<seq<string>>, bodies: seq<bytes>, i: nat)
    requires KeyOk(key) && IsRun(key, states, listings, bodies) && Unfinished(states[0], key, []) && i < |states|
    ensures Unfinished(states[i], key, bodies[..i])
    ensures i < |bodies| ==> WriteNext(states[i], key, listings[i], bodies[i]).Ok?
    ensures forall listing :: IsListing(states[i], key, listing) ==> OffsetFrom(states[i], listing) == Ok(|Flatten(bodies[..i])|)
  {
    hide ChunkName, KeyOk, Unfinished, OffsetFrom, IsListing, WriteNext;
    if i == 0 {
      assert bodies[..0] == [];
    } else {
      RunContiguous(key, states, listings, bodies, i - 1);
      WriteNextAppends(states[i - 1], key, bodies[..i - 1], listings[i - 1], bodies[i - 1]);
      assert bodies[..i] == bodies[..i - 1] + [bodies[i - 1]];
    }
    if i < |bodies| {
      WriteNextAppends(states[i], key, bodies[..i], listings[i], bodies[i]);
    }
    forall listing | IsListing(states[i], key, listing) ensures OffsetFrom(states[i], listing) == Ok(|Flatten(bodies[..i])|) {
      OffsetUnfinished(states[i], key, bodies[..i], listing);
    }
  }

  /** What a WriteChunk call did: what its listing asked for, or nothing. */
  ghost predicate Wrote(
    before: map<string, bytes>, key: string, src: bytes, after: map<string, bytes>, res: Result<nat, GcsError>)
  {
    exists listing ::
      && IsListing(before, key + "_", listing)
      && after == Kept(before, WriteNext(before, key, listing, src))
      && res == match WriteNext(before, key, listing, src)
                case Ok(_) => Ok(|src|)
                case Err(e) => Err(e)
  }

  // ----------------------------------------------------- sizes asked concurrently

  /** The sizes that have come back while those at the `pending` positions have not. */
  function SumDone(objects: map<string, bytes>, names: seq<string>, pending: set<nat>): nat {
    if names == [] then 0
    else
      var n := |names| - 1;
      SumDone(objects, names[..n], pending) + if n in pending || names[n] !in objects then 0 else |objects[names[n]]|
  }

  lemma {:induction false} DoneOne(objects: map<string, bytes>, names: seq<string>, pending: set<nat>, i: nat)
    requires i in pending
    ensures SumDone(objects, names, pending - {i}) ==
            SumDone(objects, names, pending) + if i < |names| && names[i] in objects then |objects[names[i]]| else 0
  {
    if names != [] {
      DoneOne(objects, names[..|names| - 1], pending, i);
    }
  }

  lemma {:induction false} NoneDone(objects: map<string, bytes>, names: seq<string>, pending: set<nat>)
    requires forall i :: 0 <= i < |names| ==> i in pending
    ensures SumDone(objects, names, pending) == 0
  {
    if names != [] {
      NoneDone(objects, names[..|names| - 1], pending);
    }
  }

  lemma {:induction false} AllDone(objects: map<string, bytes>, names: seq<string>)
    requires forall i :: 0 <= i < |names| ==> names[i] in objects
    ensures SumSizes(objects, names) == Some(SumDone(objects, names, {}))
  {
    if names != [] {
      AllDone(objects, names[..|names| - 1]);
    }
  }

  class GcsUpload {
    const bucket: Bucket
    const key: string

    constructor (bucket: Bucket, key: string)
      ensures this.bucket == bucket && this.key == key
    {
      this.bucket, this.key := bucket, key;
    }

    /** WriteChunk: the body becomes the chunk after the highest number found. */
    method WriteChunk(src: bytes) returns (res: Result<nat, GcsError>)
      modifies bucket
      ensures Wrote(old(bucket.objects), key, src, bucket.objects, res)
    {
      hide Filter, Atoi, LastPart, ChunkName;
      var listing := bucket.List(key + "_");
      var filtered := FilterObjects(listing);
      if filtered.Err? {
        return Err(filtered.error);
      }
      var names := filtered.value;
      var maxIdx: int := -1;
      for i := 0 to |names|
        invariant maxIdx >= -1 && NextNumber(names[..i]) == Some(maxIdx + 1) && bucket.objects == old(bucket.objects)
      {
        assert names[..i + 1][..i] == names[..i];
        var idx := Atoi(LastPart(names[i], '_'));
        if idx.None? {
          NoNumber(names, i + 1);
          return Err(BadName);
        }
        if idx.value > maxIdx {
          maxIdx := idx.value;
        }
      }
      assert names[..|names|] == names;
      bucket.objects := bucket.objects[ChunkName(key, maxIdx + 1) := src];
      return Ok(|src|);
    }

    method ListChunks(ghost chunks: seq<bytes>) returns (names: seq<string>)
      requires KeyOk(key) && Chunked(bucket.objects, key, chunks)
      ensures names == ChunkNames(key, |chunks|)
    {
      var listing := bucket.List(key + "_");
      ListedUnderscore(bucket.objects, key, chunks, listing);
      var res := FilterObjects(listing);
      names := res.value;
    }

    /** GetInfo's offset: without the info object there is no upload; otherwise the sizes are
        asked for concurrently and added up in whatever order the answers come. */
    method GetOffset() returns (res: Result<nat, GcsError>)
      ensures InfoName(key) !in bucket.objects ==> res == Err(NotFound)
      ensures InfoName(key) in bucket.objects ==>
                exists listing :: IsListing(bucket.objects, key, listing) && res == OffsetFrom(bucket.objects, listing)
    {
      hide Filter, InfoName, IsListing;
      if InfoName(key) !in bucket.objects {
        return Err(NotFound);
      }
      var listing := bucket.List(key);
      var filtered := FilterObjects(listing);
      if filtered.Err? {
        return Err(filtered.error);
      }
      var names := filtered.value;
      var offset, missing := 0, false;
      var pending: set<nat> := Positions(|names|);
      NoneDone(bucket.objects, names, pending);
      while pending != {}
        invariant forall i :: i in pending ==> i < |names|
        invariant offset == SumDone(bucket.objects, names, pending)
        invariant missing <==> exists i :: 0 <= i < |names| && i !in pending && names[i] !in bucket.objects
        decreases |pending|
      {
        var i :| i in pending;
        DoneOne(bucket.objects, names, pending, i);
        if names[i] in bucket.objects {
          offset := offset + |bucket.objects[names[i]]|;
        } else {
          missing := true;
        }
        pending := pending - {i};
      }
      if missing {
        var i :| 0 <= i < |names| && names[i] !in bucket.objects;
        MissingName(bucket.objects, names, i);
        return Err(NotFound);
      }
      AllDone(bucket.objects, names);
      return Ok(offset);
    }

    /** Terminate leaves nothing of the upload behind if and only if the composed object and
        chunks do not exist together: the filter then returns the object only. */
    method Terminate(ghost chunks: seq<bytes>)
      requires KeyOk(key) && Chunked(bucket.objects, key, chunks)
      modifies bucket
      ensures (forall n :: n in bucket.objects ==> !(key <= n)) <==> key !in old(bucket.objects) || chunks == []
      ensures forall n :: n in bucket.objects ==> n in old(bucket.objects) && bucket.objects[n] == old(bucket.objects)[n]
      ensures forall n :: n in old(bucket.objects) && !(key <= n) ==> n in bucket.objects
    {
      hide Filter, KeyOk, ChunkName, InfoName;
      ghost var before := bucket.objects;
      var listing := bucket.List(key);
      DeletedByFilter(before, key, chunks, listing);
      var names := FilterObjects(listing);
      bucket.DeleteNames(names.value);
      bucket.objects := bucket.objects - {InfoName(key)};
      assert bucket.objects == map n | n in before && n !in names.value && n != InfoName(key) :: before[n];
      LeftAfterDelete(before, key, chunks, names.value, bucket.objects);
    }

    /** FinishUpload: the chunks in order become the object, and only it and the info object remain.
        An upload into which no chunk was ever written cannot be finished. */
    method FinishUpload(ghost chunks: seq<bytes>) returns (res: Result<(), GcsError>)
      requires KeyOk(key) && Unfinished(bucket.objects, key, chunks)
      modifies bucket
      ensures res == if chunks != [] then Ok(()) else Err(NoObjects)
      ensures res.Err? ==> bucket.objects == old(bucket.objects)
      ensures res.Ok? ==> Finished(bucket.objects, key, Flatten(chunks))
      ensures forall n :: n in old(bucket.objects) && !(key <= n) ==>
                            n in bucket.objects && bucket.objects[n] == old(bucket.objects)[n]
    {
      hide Filter, KeyOk, Flatten, TmpPrefix, ChunkName;
      var names := ListChunks(chunks);
      if |names| == 0 {
        return Err(NoObjects);
      }
      ghost var before := bucket.objects;
      ReadyToCompose(before, key, chunks);
      res := bucket.RecursiveCompose(names, key, 0);
      ghost var composed := bucket.objects;
      assert composed == before[key := Flatten(chunks)];
      ComposedPhase(before, key, chunks);
      names := ListChunks(chunks);
      bucket.DeleteNames(names);
      ChunksDeleted(composed, key, chunks);
    }
  }

  lemma DeletedByFilter(objects: map<string, bytes>, key: string, chunks: seq<bytes>, listing: seq<string>)
    requires KeyOk(key) && Chunked(objects, key, chunks) && IsListing(objects, key, listing)
    ensures Filter(listing) == Ok(if key in objects then [key] else ChunkNames(key, |chunks|))
  {
    hide ChunkName, FilterFrom, KeyOk;
    ChunkPrefix(key);
    ListedChunks(objects, key, chunks, key, listing);
    if key in objects {
      FilterFinds(key, |chunks|, [], listing);
    } else {
      FilterChunks(key, |chunks|, listing);
    }
  }

  /** What is left under the key once the filtered names and the info object are deleted. */
  lemma LeftAfterDelete(objects: map<string, bytes>, key: string, chunks: seq<bytes>, names: seq<string>, left: map<string, bytes>)
    requires KeyOk(key) && Chunked(objects, key, chunks)
    requires names == if key in objects then [key] else ChunkNames(key, |chunks|)
    requires left == map n | n in objects && n !in names && n != InfoName(key) :: objects[n]
    ensures (forall n :: n in left ==> !(key <= n)) <==> key !in objects || chunks == []
    ensures forall n :: n in objects && !(key <= n) ==> n in left
  {
    hide ChunkName, KeyOk;
    NamesDiffer(key);
    ChunkPrefix(key);
    assert forall n :: n in names ==> key <= n by {
      forall n | n in names ensures key <= n {
        var i :| 0 <= i < |names| && names[i] == n;
        assert key !in objects ==> n == ChunkName(key, i);
      }
    }
    if key in objects {
      if chunks != [] {
        assert ChunkName(key, 0) in left;
      }
    } else {
      forall n | n in objects && key <= n && n != InfoName(key) ensures n in names {
        var i: nat :| i < |chunks| && n == ChunkName(key, i);
        assert names[i] == n;
      }
    }
  }

  lemma {:induction false} MissingName(objects: map<string, bytes>, names: seq<string>, i: nat)
    requires i < |names| && names[i] !in objects
    ensures SumSizes(objects, names) == None
    decreases |names|
  {
    var n := |names| - 1;
    if i < n {
      MissingName(objects, names[..n], i);
    }
  }

  lemma ChunkNumber(key: string, i: nat)
    ensures Atoi(LastPart(ChunkName(key, i), '_')) == Some(i)
  {
    DigitsAvoid(i, '_');
    assert ChunkName(key, i) == key + ['_'] + Itoa(i);
    LastAfter(key, '_', Itoa(i));
    AtoiItoa(i);
  }

  lemma ListedUnderscore(objects: map<string, bytes>, key: string, chunks: seq<bytes>, listing: seq<string>)
    requires KeyOk(key) && Chunked(objects, key, chunks) && IsListing(objects, key + "_", listing)
    ensures Filter(listing) == Ok(ChunkNames(key, |chunks|))
  {
    hide ChunkName, Filter, KeyOk;
    ChunkPrefix(key);
    ListedChunks(objects, key, chunks, key + "_", listing);
    forall k | 0 <= k < |listing| ensures InfoOrChunk(key, |chunks|, listing[k]) {
      assert listing[k] in listing;
    }
    FilterChunks(key, |chunks|, listing);
  }

  lemma ReadyToCompose(objects: map<string, bytes>, key: string, chunks: seq<bytes>)
    requires KeyOk(key) && Unfinished(objects, key, chunks)
    ensures TmpsOnly(objects, key) && WithoutPrefix(objects, TmpPrefix(key)) == objects
    ensures forall i :: 0 <= i < |chunks| ==> ChunkNames(key, |chunks|)[i] in objects && Below(key, 0, ChunkNames(key, |chunks|)[i])
    ensures Contents(objects, ChunkNames(key, |chunks|)) == chunks
  {
    hide ChunkName, KeyOk, TmpName;
    NamesDiffer(key);
    forall n | n in objects ensures !(TmpPrefix(key) <= n) {
      if key <= n {
        NotTmp(key, |chunks|, n);
      }
    }
  }

  lemma NotTmp(key: string, n: nat, name: string)
    requires name == key || name == InfoName(key) || (InfoOrChunk(key, n, name) && !HasInfoSuffix(name))
    ensures !(TmpPrefix(key) <= name)
  {
    hide ChunkName;
    if name == InfoName(key) {
      assert name[|key|] == '.' && TmpPrefix(key)[|key|] == '_';
    } else if name != key {
      var i: nat :| i < n && name == ChunkName(key, i);
      ChunkNotTmp(key, i);
    }
  }

  lemma ComposedPhase(objects: map<string, bytes>, key: string, chunks: seq<bytes>)
    requires KeyOk(key) && Unfinished(objects, key, chunks)
    ensures Composed(objects[key := Flatten(chunks)], key, chunks)
  {
    hide ChunkName, Flatten;
    NamesDiffer(key);
  }

  lemma ChunksDeleted(objects: map<string, bytes>, key: string, chunks: seq<bytes>)
    requires KeyOk(key) && Composed(objects, key, chunks)
    ensures Finished(map n | n in objects && n !in ChunkNames(key, |chunks|) :: objects[n], key, Flatten(chunks))
    ensures forall n :: n in ChunkNames(key, |chunks|) ==> key <= n
  {
    hide ChunkName, KeyOk, Flatten, InfoName, ChunkNames, InfoOrChunk, HasInfoSuffix;
    OwnNames(objects, key, chunks);
    var names := ChunkNames(key, |chunks|);
    OnlyOwnLeft(objects, key, chunks, names, map n | n in objects && n !in names :: objects[n]);
  }

  /** With its chunks gone, only the object and the info object of an upload are left. */
  lemma OnlyOwnLeft(objects: map<string, bytes>, key: string, chunks: seq<bytes>, names: seq<string>, left: map<string, bytes>)
    requires Composed(objects, key, chunks) && left == map n | n in objects && n !in names :: objects[n]
    requires key !in names && InfoName(key) !in names
    requires forall n :: n in objects && key <= n && n != key && n != InfoName(key) ==> n in names
    ensures Finished(left, key, Flatten(chunks))
  {
    hide ChunkName, Flatten, InfoName, InfoOrChunk, HasInfoSuffix;
    assert forall n :: n in left ==> n in objects && left[n] == objects[n];
    assert forall n :: n in left && key <= n ==> n == key || n == InfoName(key);
  }

  lemma OwnNames(objects: map<string, bytes>, key: string, chunks: seq<bytes>)
    requires KeyOk(key) && Chunked(objects, key, chunks)
    ensures forall n :: n in ChunkNames(key, |chunks|) ==> key <= n && n != key && n != InfoName(key)
    ensures forall n :: n in objects && key <= n && n != key && n != InfoName(key) ==> n in ChunkNames(key, |chunks|)
  {
    hide ChunkName, KeyOk, InfoName;
    NamesDiffer(key);
    ChunkPrefix(key);
    var names := ChunkNames(key, |chunks|);
    forall n | n in names ensures key <= n && n != key && n != InfoName(key) {
      var i :| 0 <= i < |names| && names[i] == n;
      assert n == ChunkName(key, i);
    }
    forall n | n in objects && key <= n && n != key && n != InfoName(key) ensures n in names {
      assert InfoOrChunk(key, |chunks|, n) && !HasInfoSuffix(n);
      var i: nat :| i < |chunks| && n == ChunkName(key, i);
      assert names[i] == n;
    }
  }
}
