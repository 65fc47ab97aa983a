/** Where the S3 store's promises end: part counts, equal parts, lost bytes and stale handles. */
module S3Limits {
  import opened Streams
  import opened PartSize
  import opened S3Spec
  import opened S3Theorems

  // ----------------------------------------------------- bytes that are lost

  /**
   * A declared size that no part size can serve makes WriteChunk fail after it has already
   * deleted the `.part` object. So WriteChunk succeeds exactly when the size fits, and it
   * keeps what was stored exactly when the size fits or there was no `.part` object. The
   * handle does not notice.
   */
  lemma WriteKeepsBytesIff(cfg: Config, h: Handle, r: Remote, body: bytes)
    requires cfg.Valid() && Wf(cfg, r) && Synced(h, r) && Room(r, |body|)
    ensures var out := WriteChunk(cfg, h, r, |Content(r)|, body);
            && out.remote.table.Some?
            && (out.result.Ok? <==> Fits(cfg, r.info.value.size))
            && (Content(r) <= Content(out.remote) <==> Fits(cfg, r.info.value.size) || r.tail.None?)
            && (!Fits(cfg, r.info.value.size) ==>
                  && out.remote == r.(tail := None) && out.result == Err(SizeNotPossible)
                  && out.handle == Fetch(r).value)
  {
    hide SortedKeys, Gather, AllParts, Contiguous, CalcOptimalPartSize, PutAll, Cut;
    FetchOffset(r);
    OptimalPartSize(cfg, r.info.value.size);
    if Fits(cfg, r.info.value.size) {
      WriteChunkAppends(cfg, h, r, body);
    } else {
      assert WriteChunk(cfg, h, r, |Content(r)|, body).remote == r.(tail := None);
      assert Content(r) == Content(r.(tail := None)) + TailOf(r);
    }
  }

  /** Two requests that lose three acknowledged bytes: a deferred upload whose late length is too large. */
  lemma LostBytes()
    ensures var cfg := Config(5, 5, 5, 2);
            var r0 := Remote(Some(Info(0, true, 0)), Some(map[]), None, None);
            var r1 := PatchStep(cfg, r0, Patch(None, [1, 2, 3]));
            && cfg.Valid() && Inv(cfg, r0)
            && r1.result == Ok(3) && r1.remote.table.Some? && Content(r1.remote) == [1, 2, 3]
            && var r2 := PatchStep(cfg, r1.remote, Patch(Some(11), [4]));
               r2.result.Err? && r2.remote.table.Some? && Content(r2.remote) == []
  {
    var cfg := Config(5, 5, 5, 2);
    var r0 := Remote(Some(Info(0, true, 0)), Some(map[]), None, None);
    assert Content(r0) == [];
    PatchAppends(cfg, r0, Patch(None, [1, 2, 3]));
    var r1 := PatchStep(cfg, r0, Patch(None, [1, 2, 3])).remote;
    SmallIsTail(cfg, r1);
    var d := DeclareLength(FRESH, r1, 11);
    FetchOffset(r1);
    FetchOffset(d.remote);
    WriteKeepsBytesIff(cfg, d.handle, d.remote, [4]);
  }

  lemma SmallIsTail(cfg: Config, r: Remote)
    requires cfg.Valid() && Wf(cfg, r) && r.info.value.deferred && |Content(r)| < cfg.minPart
    ensures r.table.value == map[] && TailOf(r) == Content(r)
  {
    LastPartWithin(r.table.value);
  }

  lemma LastPartWithin(table: map<nat, bytes>)
    requires Contiguous(table, |table|)
    ensures |table| == 0 || |table[|table|]| <= |TableBytes(table)|
  {
    hide SortedKeys;
    var n, keys := |table|, SortedKeys(table.Keys);
    SortedContiguous(table.Keys, n);
    if n > 0 {
      assert keys[n - 1] == n;
      assert Gather(table, keys) == Gather(table, keys[..n - 1]) + table[n];
    }
  }

  // ------------------------------------------------------- completed uploads

  /** Finishing twice: the second call fails, on the same handle or on a new one, and the object stays. */
  lemma FinishOnlyOnce(cfg: Config, h: Handle, r: Remote, again: Handle)
    requires cfg.Valid() && Wf(cfg, r) && (h.info.Some? ==> h.parts == AllParts(r.table.value))
    ensures var (r1, first) := FinishUpload(cfg, h, r);
            var (r2, second) := FinishUpload(cfg, again, r1);
            first.Ok? && second == Err(NoSuchUpload) && r2 == r1
  {
    hide Complete;
    FinishAssembles(cfg, h, r);
  }

  /**
   * A write to an upload whose multipart upload is already completed never touches the
   * finished object. It fails exactly when it brings at least the minimum part size; fewer
   * bytes are acknowledged into a `.part` object that nothing will read.
   */
  lemma WriteAfterFinish(cfg: Config, r: Remote, body: bytes)
    requires cfg.Valid() && r.info.Some? && r.table.None? && r.tail.None? && Fits(cfg, r.info.value.size)
    ensures var out := WriteChunk(cfg, FRESH, r, r.info.value.size, body);
            && out.remote.finished == r.finished && out.remote.table.None?
            && (out.result == Err(NoSuchUpload) <==> |body| >= cfg.minPart)
            && (|body| < cfg.minPart ==> out.result == Ok(|body|) && TailOf(out.remote) == body)
  {
    hide CalcOptimalPartSize, Fits;
    var info := r.info.value.(offset := r.info.value.size);
    var partSize := PartSizeFor(cfg, info.size);
    var p := Start(Handle(Some(info), [], 0), r);
    if |body| >= cfg.minPart {
      var chunks := Cut(body, partSize);
      assert |chunks[0]| >= cfg.minPart;
      PutAllGrows(cfg, info, info.size, PutChunk(cfg, info, info.size, p, chunks[0]), chunks[1..]);
    } else if body != [] {
      assert Cut(body, partSize) == [body];
      assert PutAll(cfg, info, info.size, p, [body]) == PutChunk(cfg, info, info.size, p, body);
    }
  }

  lemma {:induction false} PutAllGrows(cfg: Config, info: Info, base: int, p: Progress, chunks: seq<bytes>)
    ensures |PutAll(cfg, info, base, p, chunks).parts| >= |p.parts|
    decreases chunks
  {
    if chunks != [] {
      PutAllGrows(cfg, info, base, PutChunk(cfg, info, base, p, chunks[0]), chunks[1..]);
    }
  }

  // ----------------------------------------------------------- stale handles

  /** A second WriteChunk on the same handle fails exactly when the first one used up a `.part`
      object and left none: the cached size still promises one. */
  lemma SecondWriteOnHandle(cfg: Config, h: Handle, r: Remote, body: bytes, offset: int, more: bytes)
    requires cfg.Valid() && Inv(cfg, r) && Synced(h, r) && Room(r, |body|)
    ensures var first := WriteChunk(cfg, h, r, |Content(r)|, body);
            var second := WriteChunk(cfg, first.handle, first.remote, offset, more);
            && (second.result.Err? <==> r.tail.Some? && first.remote.tail.None?)
            && (second.result.Err? ==> second.result == Err(MissingIncompletePart))
  {
    hide SortedKeys, Gather, AllParts, Contiguous, CalcOptimalPartSize, PutAll, Cut, Content;
    WriteChunkAppends(cfg, h, r, body);
    FetchOffset(r);
    var first := WriteChunk(cfg, h, r, |Content(r)|, body);
    FetchOffset(first.remote);
    var _ := PartSizeFor(cfg, first.remote.info.value.size);
  }

  // ------------------------------------------------------- parts as a list

  ghost function PartSeq(table: map<nat, bytes>): seq<bytes>
    requires Contiguous(table, |table|)
  {
    seq(|table|, i requires 0 <= i < |table| => table[i + 1])
  }

  lemma {:induction false} GatherFlat(table: map<nat, bytes>, numbers: seq<nat>, pieces: seq<bytes>)
    requires |pieces| == |numbers|
    requires forall i :: 0 <= i < |numbers| ==> numbers[i] in table && pieces[i] == table[numbers[i]]
    ensures Gather(table, numbers) == Flatten(pieces)
  {
    if pieces != [] {
      var n := |pieces| - 1;
      GatherFlat(table, numbers[..n], pieces[..n]);
      FlattenSnoc(pieces[..n], pieces[n]);
      assert pieces == pieces[..n] + [pieces[n]];
    }
  }

  lemma PartSeqFlat(table: map<nat, bytes>)
    requires Contiguous(table, |table|)
    ensures Flatten(PartSeq(table)) == TableBytes(table)
  {
    hide Gather, Flatten;
    SortedContiguous(table.Keys, |table|);
    GatherFlat(table, SortedKeys(table.Keys), PartSeq(table));
  }

  /** There is only one way to cut a stream into full pieces and a non-empty rest. */
  lemma {:induction false} CutUnique(pieces: seq<bytes>, size: nat)
    requires size > 0
    requires forall i :: 0 <= i < |pieces| ==> 0 < |pieces[i]| <= size
    requires forall i :: 0 <= i < |pieces| - 1 ==> |pieces[i]| == size
    ensures Cut(Flatten(pieces), size) == pieces
  {
    if |pieces| == 1 {
      assert Flatten(pieces) == pieces[0];
    } else if pieces != [] {
      CutUnique(pieces[1..], size);
      var rest := Flatten(pieces[1..]);
      assert rest != [] by {
        assert rest == pieces[1..][0] + Flatten(pieces[1..][1..]);
      }
      assert (pieces[0] + rest)[..size] == pieces[0] && (pieces[0] + rest)[size..] == rest;
    }
  }

  // ------------------------------------------------------------ equal parts

  /** While all sizes need no part larger than the preferred one, the maximum part size is never used. */
  lemma CapUnused(cfg: Config, h: Handle, r: Remote, offset: int, body: bytes)
    requires cfg.Valid() && r.info.Some? && r.table.Some?
    requires Load(h, r).Ok? && Fits(cfg.(maxPart := cfg.preferred), Load(h, r).value.info.value.size)
    ensures WriteChunk(cfg, h, r, offset, body) == WriteChunk(cfg.(maxPart := cfg.preferred), h, r, offset, body)
  {
    hide SortedKeys, Gather, AllParts, CalcOptimalPartSize, Cut;
    var tight := cfg.(maxPart := cfg.preferred);
    var h1 := Load(h, r).value;
    var _ := PartSizeFor(tight, h1.info.value.size);
    SameSize(cfg, h1.info.value.size);
    if h1.incomplete > 0 && r.tail.Some? {
      CapUnusedIn(cfg, h1, r.(tail := None), offset - h1.incomplete, r.tail.value + body);
    } else {
      CapUnusedIn(cfg, h1, r, offset, body);
    }
  }

  lemma SameSize(cfg: Config, size: nat)
    requires cfg.Valid() && Fits(cfg.(maxPart := cfg.preferred), size)
    ensures CalcOptimalPartSize(cfg, size) == CalcOptimalPartSize(cfg.(maxPart := cfg.preferred), size) == Ok(cfg.preferred)
  {
  }

  lemma CapUnusedIn(cfg: Config, h: Handle, r: Remote, base: int, stream: bytes)
    requires cfg.Valid() && h.info.Some? && r.table.Some? && Fits(cfg.(maxPart := cfg.preferred), h.info.value.size)
    ensures UploadParts(cfg, h, r, base, stream) == UploadParts(cfg.(maxPart := cfg.preferred), h, r, base, stream)
  {
    hide Cut, CalcOptimalPartSize;
    SameSize(cfg, h.info.value.size);
    CapUnusedPut(cfg, h.info.value, base, Start(h, r), Cut(stream, cfg.preferred));
  }

  lemma {:induction false} CapUnusedPut(cfg: Config, info: Info, base: int, p: Progress, chunks: seq<bytes>)
    ensures PutAll(cfg, info, base, p, chunks) == PutAll(cfg.(maxPart := cfg.preferred), info, base, p, chunks)
    decreases chunks
  {
    if chunks != [] {
      CapUnusedPut(cfg, info, base, PutChunk(cfg, info, base, p, chunks[0]), chunks[1..]);
    }
  }

  lemma {:induction false} CapUnusedRun(cfg: Config, r: Remote, patches: seq<Patch>)
    requires cfg.Valid()
    requires Inv(cfg.(maxPart := cfg.preferred), r) && AllAllowed(cfg.(maxPart := cfg.preferred), r, patches)
    ensures Run(cfg, r, patches) == Run(cfg.(maxPart := cfg.preferred), r, patches)
    decreases patches
  {
    hide Contiguous, Content, AllParts, SumSizes, WriteChunk;
    if patches != [] {
      var tight, p := cfg.(maxPart := cfg.preferred), patches[0];
      FetchOffset(r);
      var offset := Fetch(r).value.info.value.offset;
      if p.declare.None? {
        CapUnused(cfg, FRESH, r, offset, p.body);
      } else {
        var d := DeclareLength(FRESH, r, p.declare.value);
        CapUnused(cfg, d.handle, d.remote, offset, p.body);
      }
      PatchAppends(tight, r, p);
      CapUnusedRun(cfg, PatchStep(tight, r, p).remote, patches[1..]);
    }
  }

  /**
   * With the minimum part size set to the preferred one, the parts of a completed upload do
   * not depend on how the client cut its requests: they are the upload cut at the preferred
   * size, so all but the last are equal and their number is the size divided by it, rounded up.
   */
  lemma EqualParts(cfg: Config, r: Remote, patches: seq<Patch>)
    requires cfg.Valid() && cfg.minPart == cfg.preferred && patches != []
    requires Inv(cfg.(maxPart := cfg.preferred), r) && AllAllowed(cfg.(maxPart := cfg.preferred), r, patches)
    ensures var r' := Run(cfg, r, patches);
            && Inv(cfg.(maxPart := cfg.preferred), r')
            && var info := r'.info.value;
               !info.deferred && |Content(r')| == info.size ==>
                 && PartSeq(r'.table.value) == Cut(Content(r'), cfg.preferred)
                 && |r'.table.value| == CeilDiv(info.size, cfg.preferred) <= cfg.maxParts
  {
    hide Gather, AllParts, SumSizes, AllAllowed, Run;
    var tight := cfg.(maxPart := cfg.preferred);
    CapUnusedRun(cfg, r, patches);
    RunAppends(tight, r, patches);
    var r' := Run(cfg, r, patches);
    var info := r'.info.value;
    if !info.deferred && |Content(r')| == info.size {
      var pieces := PartSeq(r'.table.value);
      PartSeqFlat(r'.table.value);
      CutUnique(pieces, cfg.preferred);
      assert Content(r') == TableBytes(r'.table.value);
      CutCount(Content(r'), cfg.preferred);
      CeilDivLeast(info.size, cfg.preferred, cfg.maxParts);
    }
  }

  // ------------------------------------------------- the number of parts

  lemma PartCountBound(cfg: Config, r: Remote)
    requires cfg.Valid() && Wf(cfg, r)
    ensures |r.table.value| <= CeilDiv(|Content(r)|, cfg.minPart)
  {
    hide Gather, CeilDiv;
    var pieces := PartSeq(r.table.value);
    var n := |pieces|;
    if n > 0 {
      PartSeqFlat(r.table.value);
      FlattenSnoc(pieces[..n - 1], pieces[n - 1]);
      assert pieces == pieces[..n - 1] + [pieces[n - 1]];
      FlattenAtLeast(pieces[..n - 1], cfg.minPart);
      CeilDivLeast(|Content(r)|, cfg.minPart, n - 1);
    }
  }

  function Writes(bodies: seq<bytes>): seq<Patch> {
    seq(|bodies|, i requires 0 <= i < |bodies| => Patch(None, bodies[i]))
  }

  /** A request of exactly the minimum size, or one that ends the upload, becomes one part. */
  lemma OneWriteOnePart(cfg: Config, r: Remote, body: bytes)
    requires cfg.Valid() && Inv(cfg, r) && r.tail.None? && !r.info.value.deferred
    requires 0 < |body| <= cfg.minPart && |Content(r)| + |body| <= r.info.value.size
    requires |body| == cfg.minPart || |Content(r)| + |body| == r.info.value.size
    ensures var r' := PatchStep(cfg, r, Patch(None, body)).remote;
            r'.tail.None? && r'.table.Some? && |r'.table.value| == |r.table.value| + 1
  {
    hide SortedKeys, Gather, CalcOptimalPartSize, WriteChunk, AllParts;
    FetchOffset(r);
    var partSize := PartSizeFor(cfg, r.info.value.size);
    WriteChunkUnfolds(cfg, FRESH, r, body, partSize);
    assert TailOf(r) + body == body && Cut(body, partSize) == [body];
    var h, base := Fetch(r).value, |Content(r)|;
    var p := Start(h, r).(tail := None);
    assert PutAll(cfg, h.info.value, base, p, [body]) == PutChunk(cfg, h.info.value, base, p, body);
    SortedContiguous(r.table.value.Keys, |r.table.value|);
    AddPart(r.table.value, |r.table.value|, body);
  }

  /** Requests of the minimum size each make one part each. */
  lemma {:induction false} SmallestRequests(cfg: Config, r: Remote, rest: bytes)
    requires cfg.Valid() && Inv(cfg, r) && r.tail.None?
    requires !r.info.value.deferred && r.info.value.size == |Content(r)| + |rest|
    ensures var patches := Writes(Cut(rest, cfg.minPart));
            && AllAllowed(cfg, r, patches)
            && var r' := Run(cfg, r, patches);
               r'.table.Some? && |r'.table.value| == |r.table.value| + |Cut(rest, cfg.minPart)|
    decreases |rest|
  {
    hide Contiguous, Content, AllParts, SumSizes, PatchStep, Fits;
    var pieces := Cut(rest, cfg.minPart);
    if rest != [] {
      var body := pieces[0];
      var rest' := if |rest| <= cfg.minPart then [] else rest[cfg.minPart..];
      assert rest == body + rest' && pieces[1..] == Cut(rest', cfg.minPart);
      var p := Patch(None, body);
      PatchAppends(cfg, r, p);
      OneWriteOnePart(cfg, r, body);
      SmallestRequests(cfg, PatchStep(cfg, r, p).remote, rest');
      assert Writes(pieces)[1..] == Writes(pieces[1..]);
    }
  }

  /**
   * Every way of cutting an upload into requests stays within the allowed number of parts
   * if and only if the upload is at most the minimum part size times that number. The
   * preferred part size, which the part size computation is based on, does not protect it.
   */
  lemma PartLimitExact(cfg: Config, file: bytes)
    requires cfg.Valid() && Fits(cfg, |file|)
    ensures (forall patches ::
               AllAllowed(cfg, Created(|file|), patches) && Flatten(Bodies(patches)) == file ==>
                 WithinLimit(cfg, Run(cfg, Created(|file|), patches)))
       <==> |file| <= cfg.minPart * cfg.maxParts
  {
    hide CeilDiv, AllAllowed, Run, Inv, Content, Bodies, Cut, Fits;
    var r := Created(|file|);
    CreatedInv(cfg, |file|);
    CeilDivLeast(|file|, cfg.minPart, cfg.maxParts);
    forall patches | AllAllowed(cfg, r, patches) && Flatten(Bodies(patches)) == file
      ensures |file| <= cfg.minPart * cfg.maxParts ==> WithinLimit(cfg, Run(cfg, r, patches))
    {
      CountOfRun(cfg, file, patches);
    }
    SmallestRequestsOf(cfg, file);
    var smallest := Writes(Cut(file, cfg.minPart));
    assert WithinLimit(cfg, Run(cfg, r, smallest)) <==> |file| <= cfg.minPart * cfg.maxParts;
  }

  predicate WithinLimit(cfg: Config, r: Remote) {
    r.table.Some? && |r.table.value| <= cfg.maxParts
  }

  lemma CountOfRun(cfg: Config, file: bytes, patches: seq<Patch>)
    requires cfg.Valid() && Fits(cfg, |file|)
    requires AllAllowed(cfg, Created(|file|), patches) && Flatten(Bodies(patches)) == file
    ensures var r := Run(cfg, Created(|file|), patches);
            r.table.Some? && |r.table.value| <= CeilDiv(|file|, cfg.minPart)
  {
    hide CeilDiv, AllAllowed, Run, Content, Bodies, Fits, Flatten, Contiguous;
    CreatedInv(cfg, |file|);
    RunAppends(cfg, Created(|file|), patches);
    assert [] + file == file;
    PartCountBound(cfg, Run(cfg, Created(|file|), patches));
  }

  lemma SmallestRequestsOf(cfg: Config, file: bytes)
    requires cfg.Valid() && Fits(cfg, |file|)
    ensures var patches := Writes(Cut(file, cfg.minPart));
            && AllAllowed(cfg, Created(|file|), patches) && Flatten(Bodies(patches)) == file
            && var r := Run(cfg, Created(|file|), patches);
               r.table.Some? && |r.table.value| == CeilDiv(|file|, cfg.minPart)
  {
    hide CeilDiv, AllAllowed, Run, Content, Fits;
    CreatedInv(cfg, |file|);
    SmallestRequests(cfg, Created(|file|), file);
    CutPieces(file, cfg.minPart);
    CutCount(file, cfg.minPart);
    assert Bodies(Writes(Cut(file, cfg.minPart))) == Cut(file, cfg.minPart);
  }
}
