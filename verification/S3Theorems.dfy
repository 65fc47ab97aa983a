/** What whole runs of the S3 store do: appending, finishing, part counts, and where they fail. */
module S3Theorems {
  import opened Streams
  import opened PartSize
  import opened S3Spec

  // ------------------------------------------------- contiguous part tables

  ghost predicate Contiguous(table: map<nat, bytes>, n: nat) {
    forall k :: k in table <==> 1 <= k <= n
  }

  function TableBytes(table: map<nat, bytes>): bytes {
    Gather(table, SortedKeys(table.Keys))
  }

  lemma {:induction false} SortedContiguous(keys: set<nat>, n: nat)
    requires forall k :: k in keys <==> 1 <= k <= n
    ensures |keys| == n
    ensures SortedKeys(keys) == seq(n, i => i + 1)
  {
    if n == 0 {
      assert keys == {};
    } else {
      assert n in keys;
      assert MaxOf(keys) == n;
      SortedContiguous(keys - {n}, n - 1);
    }
  }

  lemma {:induction false} GatherFrame(a: map<nat, bytes>, b: map<nat, bytes>, numbers: seq<nat>)
    requires forall i :: 0 <= i < |numbers| ==> numbers[i] in a && numbers[i] in b && a[numbers[i]] == b[numbers[i]]
    ensures Gather(a, numbers) == Gather(b, numbers)
  {
    if numbers != [] {
      GatherFrame(a, b, numbers[..|numbers| - 1]);
    }
  }

  /** Storing the next part number appends its bytes and its list entry. */
  lemma AddPart(table: map<nat, bytes>, n: nat, chunk: bytes)
    requires Contiguous(table, n)
    ensures var table' := table[n + 1 := chunk];
            && Contiguous(table', n + 1)
            && |table| == n && |table'| == n + 1
            && TableBytes(table') == TableBytes(table) + chunk
            && AllParts(table') == AllParts(table) + [Part(n + 1, |chunk|)]
  {
    hide SortedKeys, Gather, AllParts;
    var table' := table[n + 1 := chunk];
    SortedContiguous(table.Keys, n);
    SortedContiguous(table'.Keys, n + 1);
    AddBytes(table, n, chunk, SortedKeys(table.Keys), SortedKeys(table'.Keys));
    AddEntry(table, n, chunk);
  }

  lemma AddBytes(table: map<nat, bytes>, n: nat, chunk: bytes, keys: seq<nat>, keys': seq<nat>)
    requires Contiguous(table, n) && keys == seq(n, i => i + 1) && keys' == seq(n + 1, i => i + 1)
    ensures Gather(table[n + 1 := chunk], keys') == Gather(table, keys) + chunk
  {
    assert keys'[..n] == keys;
    GatherFrame(table, table[n + 1 := chunk], keys);
  }

  lemma AddEntry(table: map<nat, bytes>, n: nat, chunk: bytes)
    requires Contiguous(table, n)
    ensures AllParts(table[n + 1 := chunk]) == AllParts(table) + [Part(n + 1, |chunk|)]
  {
    hide SortedKeys;
    SortedContiguous(table.Keys, n);
    SortedContiguous(table[n + 1 := chunk].Keys, n + 1);
  }

  // --------------------------------------------------- one uploadParts call

  ghost predicate Ready(p: Progress, n: nat) {
    Contiguous(p.table, n) && p.next == n + 1 && p.tail.None? && p.parts == AllParts(p.table) && |p.parts| == n
  }

  function TailBytes(tail: Option<bytes>): bytes {
    if tail.Some? then tail.value else []
  }

  ghost predicate Chunks(cfg: Config, chunks: seq<bytes>, partSize: nat) {
    && (forall i :: 0 <= i < |chunks| ==> 0 < |chunks[i]| <= partSize)
    && (forall i :: 0 <= i < |chunks| - 1 ==> |chunks[i]| >= cfg.minPart)
  }

  /** Every part of `to` was in `from`, or is large, or is the last one and ends the upload. */
  ghost predicate NewPartsLarge(cfg: Config, from: map<nat, bytes>, to: map<nat, bytes>, partSize: nat, ends: bool) {
    forall k :: k in to ==>
                  || (k in from && from[k] == to[k])
                  || (0 < |to[k]| <= partSize && (|to[k]| >= cfg.minPart || (k == |to| && ends)))
  }

  /** The effect of one uploadParts loop: the chunks follow the old parts, a small rest is the tail. */
  ghost predicate Appended(cfg: Config, info: Info, base: int, p: Progress, q: Progress, data: bytes, partSize: nat) {
    && q.uploaded == p.uploaded + |data| && (data == [] ==> q == p)
    && |q.table| >= |p.table| && Contiguous(q.table, |q.table|) && q.parts == AllParts(q.table)
    && TableBytes(q.table) + TailBytes(q.tail) == TableBytes(p.table) + data
    && q.incomplete == (if q.tail.Some? then |q.tail.value| else p.incomplete)
    && (q.tail.Some? ==> 0 < |q.tail.value| < cfg.minPart && (info.deferred || info.size != base + q.uploaded))
    && NewPartsLarge(cfg, p.table, q.table, partSize, !info.deferred && info.size == base + q.uploaded)
  }

  lemma {:induction false} PutAllAppends(
    cfg: Config, info: Info, base: int, p: Progress, chunks: seq<bytes>, n: nat, partSize: nat)
    requires Ready(p, n) && Chunks(cfg, chunks, partSize)
    ensures Appended(cfg, info, base, p, PutAll(cfg, info, base, p, chunks), Flatten(chunks), partSize)
    decreases chunks
  {
    hide SortedKeys, Gather;
    AddPart(p.table, n, []);
    if chunks == [] {
    } else if IsPart(cfg, info, base, p.uploaded, chunks[0]) {
      var p' := PutChunk(cfg, info, base, p, chunks[0]);
      AddPart(p.table, n, chunks[0]);
      PutAllAppends(cfg, info, base, p', chunks[1..], n + 1, partSize);
      PutOnePart(cfg, info, base, p, chunks[0], PutAll(cfg, info, base, p, chunks), Flatten(chunks[1..]), partSize);
    } else {
      assert chunks[1..] == [] && Flatten(chunks) == chunks[0];
    }
  }

  lemma PutOnePart(
    cfg: Config, info: Info, base: int, p: Progress, chunk: bytes, q: Progress, rest: bytes, partSize: nat)
    requires Ready(p, |p.table|) && IsPart(cfg, info, base, p.uploaded, chunk) && 0 < |chunk| <= partSize
    requires |chunk| >= cfg.minPart || rest == []
    requires Appended(cfg, info, base, PutChunk(cfg, info, base, p, chunk), q, rest, partSize)
    ensures Appended(cfg, info, base, p, q, chunk + rest, partSize)
  {
    hide Contiguous, NewPartsLarge, TableBytes, AllParts;
    AddPart(p.table, |p.table|, chunk);
    assert TableBytes(p.table) + chunk + rest == TableBytes(p.table) + (chunk + rest);
    LargeThrough(cfg, p.table, |p.table| + 1, chunk, q.table, partSize, !info.deferred && info.size == base + q.uploaded);
  }

  lemma LargeThrough(
    cfg: Config, from: map<nat, bytes>, next: nat, chunk: bytes, to: map<nat, bytes>, partSize: nat, ends: bool)
    requires NewPartsLarge(cfg, from[next := chunk], to, partSize, ends)
    requires 0 < |chunk| <= partSize && next > 0 && Contiguous(from, next - 1)
    requires |chunk| >= cfg.minPart || (ends && next == |to|)
    ensures NewPartsLarge(cfg, from, to, partSize, ends)
  {
  }

  // ------------------------------------------------------ the run invariant

  ghost predicate Wf(cfg: Config, r: Remote) {
    && r.info.Some? && r.table.Some? && r.finished.None?
    && Contiguous(r.table.value, |r.table.value|)
    && (r.tail.Some? ==> 0 < |r.tail.value| < cfg.minPart)
    && (!r.info.value.deferred ==> |Content(r)| <= r.info.value.size)
    && (forall k :: k in r.table.value ==> 0 < |r.table.value[k]| <= cfg.maxPart)
    && (forall k :: k in r.table.value ==>
                      || |r.table.value[k]| >= cfg.minPart
                      || (k == |r.table.value| && IsComplete(r)))
  }

  ghost predicate Inv(cfg: Config, r: Remote) {
    Wf(cfg, r) && Fits(cfg, r.info.value.size)
  }

  /** All bytes of a declared length are there and none of them waits in the `.part` object. */
  ghost predicate IsComplete(r: Remote)
    requires r.info.Some? && r.table.Some?
  {
    !r.info.value.deferred && |Content(r)| == r.info.value.size && r.tail.None?
  }

  ghost predicate Room(r: Remote, count: nat)
    requires r.info.Some? && r.table.Some?
  {
    !r.info.value.deferred ==> |Content(r)| + count <= r.info.value.size
  }

  /** A handle that has just been fetched, or will be fetched on first use. */
  ghost predicate Synced(h: Handle, r: Remote) {
    Load(h, r) == Fetch(r)
  }

  lemma FetchOffset(r: Remote)
    requires r.info.Some? && r.table.Some?
    ensures Fetch(r).Ok?
    ensures Fetch(r).value == Handle(Some(r.info.value.(offset := |Content(r)|)), AllParts(r.table.value), |TailOf(r)|)
  {
    PartsSize(r.table.value);
  }

  /** What WriteChunk does on a synced handle, as one run of the consumer loop. */
  lemma WriteChunkUnfolds(cfg: Config, h: Handle, r: Remote, body: bytes, partSize: nat)
    requires cfg.Valid() && Inv(cfg, r) && Synced(h, r)
    requires CalcOptimalPartSize(cfg, r.info.value.size) == Ok(partSize) && partSize > 0
    ensures var h1 := Fetch(r).value;
            var q := PutAll(cfg, h1.info.value, |Content(r)| - |TailOf(r)|, Start(h1, r).(tail := None),
                            Cut(TailOf(r) + body, partSize));
            var count := Max(q.uploaded - |TailOf(r)|, 0);
            WriteChunk(cfg, h, r, |Content(r)|, body) ==
            Outcome(Handle(Some(h1.info.value.(offset := |Content(r)| + count)), q.parts, q.incomplete),
                    r.(table := Some(q.table), tail := q.tail), Ok(count))
  {
    hide SortedKeys, Gather, PutAll, Cut, CalcOptimalPartSize;
    FetchOffset(r);
    if r.tail.None? {
      assert TailOf(r) + body == body;
    }
  }

  /**
   * S3 refines append: on a synced handle WriteChunk stores exactly the body after what
   * was there, reports the body's length, keeps the part table well formed, and leaves
   * the cached offset and part list equal to what a later fetch rebuilds. When a declared
   * size is reached no `.part` object remains. Only the cached size of the `.part` object
   * can go stale: exactly when one was consumed and no new one was written.
   */
  lemma WriteChunkAppends(cfg: Config, h: Handle, r: Remote, body: bytes)
    requires cfg.Valid() && Inv(cfg, r) && Synced(h, r) && Room(r, |body|)
    ensures var out := WriteChunk(cfg, h, r, |Content(r)|, body);
            && out.result == Ok(|body|)
            && Inv(cfg, out.remote) && out.remote.info == r.info
            && Content(out.remote) == Content(r) + body
            && (Room(r, |body| + 1) || IsComplete(out.remote))
            && out.handle.info == Fetch(out.remote).value.info
            && out.handle.parts == Fetch(out.remote).value.parts
            && (out.handle.incomplete == Fetch(out.remote).value.incomplete <==> r.tail.None? || out.remote.tail.Some?)
  {
    hide SortedKeys, Gather, PutAll, Cut, CalcOptimalPartSize, WriteChunk, Fits, NewPartsLarge, AllParts;
    FetchOffset(r);
    var h1 := Fetch(r).value;
    var info := h1.info.value;
    var partSize := PartSizeFor(cfg, info.size);
    WriteChunkUnfolds(cfg, h, r, body, partSize);
    var stream, base := TailOf(r) + body, |Content(r)| - |TailOf(r)|;
    CutPieces(stream, partSize);
    var p := Start(h1, r).(tail := None);
    PutAllAppends(cfg, info, base, p, Cut(stream, partSize), |r.table.value|, partSize);
    var q := PutAll(cfg, info, base, p, Cut(stream, partSize));
    AppendedKeepsInv(cfg, r, p, q, body, partSize);
    FetchOffset(r.(table := Some(q.table), tail := q.tail));
  }

  lemma PartSizeFor(cfg: Config, size: nat) returns (partSize: nat)
    requires cfg.Valid() && Fits(cfg, size)
    ensures CalcOptimalPartSize(cfg, size) == Ok(partSize)
    ensures cfg.minPart <= partSize <= cfg.maxPart
  {
    OptimalPartSize(cfg, size);
    partSize := CalcOptimalPartSize(cfg, size).value;
  }

  lemma AppendedKeepsInv(cfg: Config, r: Remote, p: Progress, q: Progress, body: bytes, partSize: nat)
    requires Inv(cfg, r) && Room(r, |body|) && p.table == r.table.value && p.uploaded == 0
    requires cfg.minPart <= partSize <= cfg.maxPart
    requires Appended(cfg, r.info.value, |Content(r)| - |TailOf(r)|, p, q, TailOf(r) + body, partSize)
    ensures var r' := r.(table := Some(q.table), tail := q.tail);
            && Inv(cfg, r') && Content(r') == Content(r) + body
            && (Room(r, |body| + 1) || IsComplete(r'))
  {
    hide SortedKeys, Gather, Fits;
    var r' := r.(table := Some(q.table), tail := q.tail);
    assert Content(r') == TableBytes(r.table.value) + (TailOf(r) + body) == Content(r) + body;
  }

  /** Declaring a length changes nothing else: the handle and every later fetch report it, with the
      same offset. */
  lemma DeclareLengthReported(h: Handle, r: Remote, length: nat)
    requires r.info.Some? && r.table.Some? && Synced(h, r)
    ensures var out := DeclareLength(h, r, length);
            && out.result == Ok(0) && out.remote == r.(info := out.remote.info)
            && Fetch(out.remote) == Ok(out.handle)
            && out.handle.info == Some(Info(length, false, |Content(r)|))
  {
    hide SortedKeys, Gather, AllParts;
    FetchOffset(r);
    FetchOffset(DeclareLength(h, r, length).remote);
  }

  // ------------------------------------------------------------ whole runs

  /** One PATCH request: a fresh handle, an optional length declaration, then the body. */
  datatype Patch = Patch(declare: Option<nat>, body: bytes)

  function PatchStep(cfg: Config, r: Remote, p: Patch): Outcome
    requires cfg.Valid() && r.table.Some? && r.info.Some?
  {
    var offset := Fetch(r).value.info.value.offset;
    if p.declare.None? then WriteChunk(cfg, FRESH, r, offset, p.body)
    else
      var d := DeclareLength(FRESH, r, p.declare.value);
      WriteChunk(cfg, d.handle, d.remote, offset, p.body)
  }

  function Declared(r: Remote, p: Patch): Remote
    requires r.info.Some?
  {
    if p.declare.None? then r
    else r.(info := Some(r.info.value.(size := p.declare.value, deferred := false)))
  }

  /** What the request handler guarantees about a PATCH before it reaches the store, as
      S3EndToEnd.AdmittedIsAllowed proves, and that a declared length fits, which nobody checks. */
  ghost predicate Allowed(cfg: Config, r: Remote, p: Patch)
    requires r.info.Some? && r.table.Some?
  {
    && (p.declare.Some? ==> r.info.value.deferred && |Content(r)| <= p.declare.value && Fits(cfg, p.declare.value))
    && Room(Declared(r, p), |p.body|)
  }

  lemma PatchAppends(cfg: Config, r: Remote, p: Patch)
    requires cfg.Valid() && Inv(cfg, r) && Allowed(cfg, r, p)
    ensures var out := PatchStep(cfg, r, p);
            && out.result == Ok(|p.body|)
            && Inv(cfg, out.remote) && Content(out.remote) == Content(r) + p.body
            && out.remote.info.value.size == Declared(r, p).info.value.size
            && out.remote.info.value.deferred == Declared(r, p).info.value.deferred
            && (out.remote.info.value.deferred || |Content(out.remote)| < out.remote.info.value.size || IsComplete(out.remote))
  {
    hide SortedKeys, Gather, WriteChunk, AllParts, Contiguous;
    FetchOffset(r);
    if p.declare.None? {
      WriteChunkAppends(cfg, FRESH, r, p.body);
    } else {
      var d := DeclareLength(FRESH, r, p.declare.value);
      FetchOffset(d.remote);
      WriteChunkAppends(cfg, d.handle, d.remote, p.body);
    }
  }

  function Run(cfg: Config, r: Remote, patches: seq<Patch>): Remote
    requires cfg.Valid() && r.table.Some? && r.info.Some?
    decreases patches
  {
    if patches == [] then r
    else
      var r' := PatchStep(cfg, r, patches[0]).remote;
      if r'.table.Some? && r'.info.Some? then Run(cfg, r', patches[1..]) else r'
  }

  ghost predicate AllAllowed(cfg: Config, r: Remote, patches: seq<Patch>)
    requires cfg.Valid() && r.table.Some? && r.info.Some?
    decreases patches
  {
    patches != [] ==>
      && Allowed(cfg, r, patches[0])
      && var r' := PatchStep(cfg, r, patches[0]).remote;
         r'.table.Some? && r'.info.Some? && AllAllowed(cfg, r', patches[1..])
  }

  function Bodies(patches: seq<Patch>): seq<bytes> {
    seq(|patches|, i requires 0 <= i < |patches| => patches[i].body)
  }

  /**
   * For every run of PATCH requests the parts in number order followed by the `.part` object
   * are exactly all the bodies, part numbers are contiguous from 1, and the offset rebuilt
   * from the part list is their total length. If the last request completed a declared
   * length, every byte is in a part.
   */
  lemma {:induction false} RunAppends(cfg: Config, r: Remote, patches: seq<Patch>)
    requires cfg.Valid() && Inv(cfg, r) && AllAllowed(cfg, r, patches)
    ensures var r' := Run(cfg, r, patches);
            && Inv(cfg, r')
            && Content(r') == Content(r) + Flatten(Bodies(patches))
            && Fetch(r').value.info.value.offset == |Content(r')|
            && (patches != [] && !r'.info.value.deferred && |Content(r')| == r'.info.value.size ==> IsComplete(r'))
    decreases patches
  {
    hide Contiguous, Fits, Allowed, PatchStep, Content, AllParts, SumSizes;
    if patches == [] {
      FetchOffset(r);
      assert Content(r) + [] == Content(r);
    } else {
      PatchAppends(cfg, r, patches[0]);
      var r1 := PatchStep(cfg, r, patches[0]).remote;
      RunAppends(cfg, r1, patches[1..]);
      assert Bodies(patches)[1..] == Bodies(patches[1..]);
    }
  }

  // -------------------------------------------------------------- finishing

  /** S3 completes a multipart upload exactly from a list of parts it has, in ascending order, all
      but the last of at least the minimum size; otherwise it changes nothing. */
  lemma CompleteIff(cfg: Config, r: Remote, numbers: seq<nat>)
    requires r.table.Some?
    ensures var (r', res) := Complete(cfg, r, numbers);
            && (res.Ok? <==>
                && numbers != [] && (forall i :: 0 <= i < |numbers| ==> numbers[i] in r.table.value)
                && (forall i, j :: 0 <= i < j < |numbers| ==> numbers[i] < numbers[j])
                && (forall i :: 0 <= i < |numbers| - 1 ==> |r.table.value[numbers[i]]| >= cfg.minPart))
            && (res.Ok? ==> r' == r.(table := None, finished := Some(Gather(r.table.value, numbers))))
            && (res.Err? ==> r' == r)
            && (res == Err(MalformedList) <==> numbers == [])
            && (res == Err(InvalidPart) ==> exists i :: 0 <= i < |numbers| && numbers[i] !in r.table.value)
            && (res == Err(InvalidPartOrder) ==> !Ascending(numbers))
            && (res == Err(EntityTooSmall) ==>
                  exists i :: 0 <= i < |numbers| - 1 && numbers[i] in r.table.value && |r.table.value[numbers[i]]| < cfg.minPart)
            && (res.Err? ==> res.error.MalformedList? || res.error.InvalidPart? || res.error.InvalidPartOrder? || res.error.EntityTooSmall?)
  {
    hide Gather;
  }

  lemma NumbersOfParts(table: map<nat, bytes>)
    ensures Numbers(AllParts(table)) == SortedKeys(table.Keys)
  {
  }

  /**
   * FinishUpload on any handle whose part list is current: S3 accepts the list, and the
   * finished object is everything uploaded if and only if no `.part` object is left over.
   */
  lemma FinishAssembles(cfg: Config, h: Handle, r: Remote)
    requires cfg.Valid() && Wf(cfg, r)
    requires h.info.Some? ==> h.parts == AllParts(r.table.value)
    ensures var (r', res) := FinishUpload(cfg, h, r);
            && res.Ok? && r'.table.None? && r'.info == r.info && r'.finished.Some?
            && r'.finished.value == TableBytes(r.table.value)
            && (r'.finished.value == Content(r) <==> r.tail.None?)
            && Fetch(r').value.info.value.offset == r.info.value.size
  {
    hide SortedKeys;
    var table := r.table.value;
    FetchOffset(r);
    SortedContiguous(table.Keys, |table|);
    NumbersOfParts(table);
    if |table| == 0 {
      assert SortedKeys(table.Keys) == [];
      assert Gather(table[1 := []], [1]) == Gather(table[1 := []], []) + [];
    }
  }

  /** A completed upload is finished into exactly its bytes, and still reports them afterwards. */
  lemma FinishAfterRun(cfg: Config, r: Remote)
    requires cfg.Valid() && Inv(cfg, r) && IsComplete(r)
    ensures var (r', res) := FinishUpload(cfg, FRESH, r);
            && res.Ok? && r'.finished == Some(Content(r))
            && Fetch(r').value.info.value.offset == |Content(r)|
  {
    FinishAssembles(cfg, FRESH, r);
  }

  // ----------------------------------------------------------------- resume

  function Created(size: nat): Remote {
    Remote(Some(Info(size, false, 0)), Some(map[]), None, None)
  }

  lemma CreatedInv(cfg: Config, size: nat)
    requires cfg.Valid() && Fits(cfg, size)
    ensures Inv(cfg, Created(size)) && Content(Created(size)) == []
  {
  }

  /** The request of a client that has asked for the offset: the rest of its file, cut off somewhere. */
  function ResumePatch(r: Remote, file: bytes, cut: nat): Patch
    requires r.table.Some? && r.info.Some?
  {
    var offset := Fetch(r).value.info.value.offset;
    if offset <= |file| then Patch(None, file[offset..][..Min(cut, |file| - offset)]) else Patch(None, [])
  }

  function Resume(cfg: Config, r: Remote, file: bytes, cuts: seq<nat>): Remote
    requires cfg.Valid() && r.table.Some? && r.info.Some?
    decreases cuts
  {
    if cuts == [] then r
    else
      var r' := PatchStep(cfg, r, ResumePatch(r, file, cuts[0])).remote;
      if r'.table.Some? && r'.info.Some? then Resume(cfg, r', file, cuts[1..]) else r'
  }

  lemma {:induction false} ResumeFrom(cfg: Config, r: Remote, file: bytes, cuts: seq<nat>)
    requires cfg.Valid() && Inv(cfg, r) && Content(r) <= file
    requires !r.info.value.deferred && r.info.value.size == |file|
    ensures var r' := Resume(cfg, r, file, cuts);
            && Inv(cfg, r') && Content(r') <= file
            && !r'.info.value.deferred && r'.info.value.size == |file|
            && (cuts != [] && |Content(r')| == |file| ==> IsComplete(r'))
            && (cuts != [] && cuts[|cuts| - 1] >= |file| ==> Content(r') == file)
    decreases cuts
  {
    hide Contiguous, Fits, PatchStep, Content, AllParts, SumSizes;
    if cuts != [] {
      FetchOffset(r);
      var p := ResumePatch(r, file, cuts[0]);
      PatchAppends(cfg, r, p);
      var r1 := PatchStep(cfg, r, p).remote;
      assert Content(r1) <= file;
      ResumeFrom(cfg, r1, file, cuts[1..]);
    }
  }

  /**
   * Resume correctness on S3: a client that asks for the offset and sends the rest of its
   * file, with every request cut off at an arbitrary point, always sees an offset whose
   * prefix of the file is what is stored; a last request that is not cut off reaches the
   * end; and once the offset is the file's length, finishing yields the file and the
   * offset stays.
   */
  lemma ResumeCorrect(cfg: Config, file: bytes, cuts: seq<nat>)
    requires cfg.Valid() && Fits(cfg, |file|)
    ensures var r := Resume(cfg, Created(|file|), file, cuts);
            && r.table.Some? && r.info.Some?
            && var offset := Fetch(r).value.info.value.offset;
               && offset <= |file| && Content(r) == file[..offset]
               && (cuts != [] && cuts[|cuts| - 1] >= |file| ==> offset == |file|)
               && (offset == |file| ==>
                     var (r', res) := FinishUpload(cfg, FRESH, r);
                     && res.Ok? && r'.finished == Some(file)
                     && Fetch(r').value.info.value.offset == |file|)
  {
    hide Contiguous, Fits, Content, AllParts, SumSizes, FinishUpload;
    CreatedInv(cfg, |file|);
    ResumeFrom(cfg, Created(|file|), file, cuts);
    var r := Resume(cfg, Created(|file|), file, cuts);
    FetchOffset(r);
    FinishAssembles(cfg, FRESH, r);
    if |Content(r)| == |file| {
      assert Content(r) == file;
      assert r.tail.None?;
    }
  }
}
