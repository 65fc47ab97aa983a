/** The S3 store as it runs: a remote service, the part producer, and the upload handle. */
module S3Upload {
  import opened Streams
  import opened PartSize
  import opened S3Spec

  /** How many of the ascending `parts` a listing that starts after `marker` skips. */
  function StartIndex(parts: seq<Part>, marker: Option<nat>): (i: nat)
    ensures i <= |parts|
  {
    if marker.None? || parts == [] || parts[0].number > marker.value then 0
    else 1 + StartIndex(parts[1..], marker)
  }

  ghost predicate AscendingParts(parts: seq<Part>) {
    forall i, j :: 0 <= i < j < |parts| ==> parts[i].number < parts[j].number
  }

  lemma {:induction false} StartAfter(parts: seq<Part>, k: nat)
    requires AscendingParts(parts) && k < |parts|
    ensures StartIndex(parts, Some(parts[k].number)) == k + 1
  {
    if k > 0 {
      StartAfter(parts[1..], k - 1);
    }
  }

  lemma StartAtOnce(parts: seq<Part>)
    ensures StartIndex(parts, None) == 0
  {
  }

  lemma AllPartsAscending(table: map<nat, bytes>)
    ensures AscendingParts(AllParts(table))
  {
    SortedKeysOrder(table.Keys);
  }

  lemma NextPage(want: seq<Part>, all: seq<Part>, page: seq<Part>)
    requires |all| + |page| <= |want| && all == want[..|all|] && page == want[|all|..|all| + |page|]
    ensures all + page == want[..|all| + |page|]
    ensures page != [] ==> (all + page)[|all| + |page| - 1] == page[|page| - 1]
    ensures |all| + |page| == |want| ==> all + page == want
  {
  }

  lemma PutNext(cfg: Config, info: Info, base: int, p: Progress, chunk: bytes, rest: seq<bytes>)
    ensures PutAll(cfg, info, base, p, [chunk] + rest) ==
            PutAll(cfg, info, base, PutChunk(cfg, info, base, p, chunk), rest)
  {
    assert ([chunk] + rest)[1..] == rest;
  }

  lemma PutCounts(cfg: Config, info: Info, base: int, p: Progress, chunk: bytes)
    ensures var p' := PutChunk(cfg, info, base, p, chunk); p'.uploaded == p.uploaded + |chunk| && p'.next == p.next + 1
  {
  }

  lemma PutNone(cfg: Config, info: Info, base: int, p: Progress)
    ensures PutAll(cfg, info, base, p, []) == p
  {
  }

  class Service {
    var state: Remote

    constructor (state: Remote)
      ensures this.state == state
    {
      this.state := state;
    }

    /** ListParts: one page of the ascending part list after `marker`, of any non-zero length. */
    method ListParts(marker: Option<nat>) returns (page: seq<Part>, truncated: bool, next: Option<nat>)
      requires state.table.Some?
      ensures var all := AllParts(state.table.value);
              var i := StartIndex(all, marker);
              && i + |page| <= |all| && page == all[i..i + |page|]
              && (truncated <==> i + |page| < |all|)
              && (truncated ==> page != [] && next == Some(page[|page| - 1].number))
    {
      hide AllParts, StartIndex;
      var all := AllParts(state.table.value);
      var i := StartIndex(all, marker);
      var j :| i <= j <= |all| && (i < |all| ==> i < j);
      page := all[i..j];
      truncated := j < |all|;
      next := if truncated then Some(page[|page| - 1].number) else None;
    }

    method UploadPart(number: nat, body: bytes) returns (err: Option<S3Error>)
      modifies this
      ensures old(state).table.Some? ==> err == None && state == old(state).(table := Some(old(state).table.value[number := body]))
      ensures old(state).table.None? ==> err == Some(NoSuchUpload) && state == old(state)
    {
      if state.table.None? {
        return Some(NoSuchUpload);
      }
      state := state.(table := Some(state.table.value[number := body]));
      return None;
    }

    method AbortMultipartUpload()
      modifies this
      ensures state == Aborted(old(state))
    {
      state := state.(table := None);
    }

    method PutIncompletePart(body: bytes)
      modifies this
      ensures state == old(state).(tail := Some(body))
    {
      state := state.(tail := Some(body));
    }

    method DeleteIncompletePart()
      modifies this
      ensures state == old(state).(tail := None)
    {
      state := state.(tail := None);
    }

    method PutInfo(info: Info)
      modifies this
      ensures state == old(state).(info := Some(info))
    {
      state := state.(info := Some(info));
    }

    method CompleteMultipartUpload(cfg: Config, numbers: seq<nat>) returns (res: Result<(), S3Error>)
      modifies this
      ensures old(state).table.Some? ==> (state, res) == Complete(cfg, old(state), numbers)
      ensures old(state).table.None? ==> state == old(state) && res == Err(NoSuchUpload)
    {
      if state.table.None? {
        return Err(NoSuchUpload);
      }
      var (state', res') := Complete(cfg, state, numbers);
      state, res := state', res';
    }
  }

  /** The reader side of uploadParts: hands out at most `size` bytes of what is left. */
  class PartProducer {
    var rest: bytes

    constructor (source: bytes)
      ensures rest == source
    {
      rest := source;
    }

    method NextPart(size: nat) returns (chunk: bytes, ok: bool)
      requires size > 0
      modifies this
      ensures ok <==> Cut(old(rest), size) != []
      ensures Cut(old(rest), size) == (if ok then [chunk] else []) + Cut(rest, size)
      ensures |rest| + |chunk| == |old(rest)| && (ok <==> chunk != [])
    {
      var n := Min(size, |rest|);
      assert |rest| <= size ==> rest[..n] == rest && rest[n..] == [];
      chunk, rest := rest[..n], rest[n..];
      ok := n > 0;
    }
  }

  class Upload {
    const cfg: Config
    const service: Service
    var info: Option<Info>
    var parts: seq<Part>
    var incompletePartSize: nat

    ghost function View(): Handle
      reads this
    {
      Handle(info, parts, incompletePartSize)
    }

    constructor (cfg: Config, service: Service)
      ensures this.cfg == cfg && this.service == service && View() == FRESH
    {
      this.cfg, this.service := cfg, service;
      info, parts, incompletePartSize := None, [], 0;
    }

    /** listAllParts: whatever the page sizes, all pages together are the whole part list. */
    method ListAllParts() returns (all: seq<Part>)
      requires service.state.table.Some?
      ensures all == AllParts(service.state.table.value)
    {
      hide AllParts, StartIndex;
      StartAtOnce(AllParts(service.state.table.value));
      all := [];
      var marker: Option<nat> := None;
      var more := true;
      ghost var want := AllParts(service.state.table.value);
      AllPartsAscending(service.state.table.value);
      while more
        invariant |all| <= |want| && all == want[..|all|]
        invariant more ==> marker == if all == [] then None else Some(all[|all| - 1].number)
        invariant !more ==> all == want
        decreases more, |want| - |all|
      {
        if all != [] {
          StartAfter(want, |all| - 1);
        }
        var page, truncated, next := service.ListParts(marker);
        NextPage(want, all, page);
        all := all + page;
        if truncated {
          marker := next;
        } else {
          more := false;
        }
      }
    }

    method FetchInfo() returns (res: Result<Handle, S3Error>)
      ensures res == Fetch(service.state)
    {
      if service.state.info.None? {
        return Err(NotFound);
      }
      var fetched := service.state.info.value;
      var incomplete := if service.state.tail.Some? then |service.state.tail.value| else 0;
      if service.state.table.None? {
        return Ok(Handle(Some(fetched.(offset := fetched.size)), [], incomplete));
      }
      var list := ListAllParts();
      PartsSize(service.state.table.value);
      var offset: int := incomplete;
      for i := 0 to |list|
        invariant offset == incomplete + SumSizes(list[..i])
      {
        assert list[..i + 1][..i] == list[..i];
        offset := offset + list[i].size;
      }
      assert list[..|list|] == list;
      return Ok(Handle(Some(fetched.(offset := offset)), list, incomplete));
    }

    method GetInternalInfo() returns (err: Option<S3Error>)
      modifies this
      ensures match Load(old(View()), service.state)
              case Ok(h) => err == None && View() == h && info.Some?
              case Err(e) => err == Some(e) && View() == old(View())
    {
      if info.Some? {
        return None;
      }
      var res := FetchInfo();
      if res.Err? {
        return Some(res.error);
      }
      info, parts, incompletePartSize := res.value.info, res.value.parts, res.value.incomplete;
      return None;
    }

    /** The fields and the remote objects are as far as this progress, except that a multipart
        upload that is gone takes no parts. */
    ghost predicate Shows(p: Progress)
      reads this, service
    {
      && p.tail == service.state.tail && p.parts == parts && p.incomplete == incompletePartSize
      && (service.state.table.Some? ==> service.state.table.value == p.table)
    }

    /** One turn of the consumer loop: the chunk becomes the next part or the `.part` object. */
    method StoreChunk(offset: int, uploaded: nat, next: nat, chunk: bytes, ghost p: Progress) returns (err: Option<S3Error>)
      requires info.Some? && Shows(p) && p.uploaded == uploaded && p.next == next
      modifies this, service
      ensures service.state == old(service.state).(table := service.state.table, tail := service.state.tail)
      ensures service.state.table.Some? <==> old(service.state).table.Some?
      ensures info == old(info) && Shows(PutChunk(cfg, info.value, offset, p, chunk))
      ensures err == if service.state.table.None? && |parts| > |old(parts)| then Some(NoSuchUpload) else None
      ensures |parts| >= |old(parts)|
    {
      err := None;
      var isFinalChunk := !info.value.deferred && info.value.size == offset + uploaded + |chunk|;
      if |chunk| >= cfg.minPart || isFinalChunk {
        parts := parts + [Part(next, |chunk|)];
        err := service.UploadPart(next, chunk);
      } else {
        service.PutIncompletePart(chunk);
        incompletePartSize := |chunk|;
      }
    }

    /** uploadParts, with the part uploads taken in the order they are started. */
    method UploadParts(offset: int, src: bytes) returns (res: Result<nat, S3Error>)
      requires cfg.Valid() && info.Some?
      modifies this, service
      ensures var out := S3Spec.UploadParts(cfg, old(View()), old(service.state), offset, src);
              View() == out.handle && service.state == out.remote && res == out.result
    {
      var size := CalcOptimalPartSize(cfg, info.value.size);
      if size.Err? {
        return Err(SizeNotPossible);
      }
      hide Cut, PutAll, PutChunk, CalcOptimalPartSize;
      OptimalPartSize(cfg, info.value.size);
      var partSize := size.value;
      var producer := new PartProducer(src);
      var bytesUploaded: nat, nextPartNum: nat := 0, |parts| + 1;
      var uploadErr: Option<S3Error> := None;
      ghost var progress := Start(View(), service.state);
      ghost var goal := PutAll(cfg, info.value, offset, progress, Cut(src, partSize));
      var chunk, more := producer.NextPart(partSize);
      while more
        invariant service.state == old(service.state).(table := service.state.table, tail := service.state.tail)
        invariant service.state.table.Some? <==> old(service.state).table.Some?
        invariant info == old(info) && fresh(producer) && |parts| >= |old(parts)|
        invariant Shows(progress) && progress.uploaded == bytesUploaded && progress.next == nextPartNum
        invariant uploadErr == if service.state.table.None? && |parts| > |old(parts)| then Some(NoSuchUpload) else None
        invariant goal == PutAll(cfg, info.value, offset, progress, (if more then [chunk] else []) + Cut(producer.rest, partSize))
        invariant !more ==> Cut(producer.rest, partSize) == []
        decreases more, |producer.rest|
      {
        PutNext(cfg, info.value, offset, progress, chunk, Cut(producer.rest, partSize));
        PutCounts(cfg, info.value, offset, progress, chunk);
        var err := StoreChunk(offset, bytesUploaded, nextPartNum, chunk, progress);
        if uploadErr.None? {
          uploadErr := err;
        }
        bytesUploaded := bytesUploaded + |chunk|;
        nextPartNum := nextPartNum + 1;
        progress := PutChunk(cfg, info.value, offset, progress, chunk);
        chunk, more := producer.NextPart(partSize);
      }
      assert [] + Cut(producer.rest, partSize) == [];
      PutNone(cfg, info.value, offset, progress);
      if uploadErr.Some? {
        return Err(uploadErr.value);
      }
      return Ok(bytesUploaded);
    }

    method WriteChunk(offset: int, src: bytes) returns (res: Result<nat, S3Error>)
      requires cfg.Valid()
      modifies this, service
      ensures var out := S3Spec.WriteChunk(cfg, old(View()), old(service.state), offset, src);
              View() == out.handle && service.state == out.remote && res == out.result
    {
      var err := GetInternalInfo();
      if err.Some? {
        return Err(err.value);
      }
      var stream, base, incomplete := src, offset, incompletePartSize;
      if incomplete > 0 {
        var file := service.state.tail;
        if file.None? {
          return Err(MissingIncompletePart);
        }
        service.DeleteIncompletePart();
        stream, base := file.value + src, offset - incomplete;
      }
      res := UploadParts(base, stream);
      var count := if res.Ok? then Max(res.value - incomplete, 0) else 0;
      info := Some(info.value.(offset := info.value.offset + count));
      res := if res.Ok? then Ok(count) else res;
    }

    method DeclareLength(length: nat) returns (res: Result<nat, S3Error>)
      modifies this, service
      ensures var out := S3Spec.DeclareLength(old(View()), old(service.state), length);
              View() == out.handle && service.state == out.remote && res == out.result
    {
      var err := GetInternalInfo();
      if err.Some? {
        return Err(err.value);
      }
      info := Some(info.value.(size := length, deferred := false));
      service.PutInfo(info.value);
      return Ok(0);
    }

    method FinishUpload() returns (res: Result<(), S3Error>)
      modifies this, service
      ensures (service.state, res) == S3Spec.FinishUpload(cfg, old(View()), old(service.state))
    {
      var err := GetInternalInfo();
      if err.Some? {
        return Err(err.value);
      }
      var list := parts;
      if |list| == 0 {
        var putErr := service.UploadPart(1, []);
        if putErr.Some? {
          return Err(putErr.value);
        }
        list := [Part(1, 0)];
      }
      var completed: seq<nat> := [];
      for i := 0 to |list|
        invariant completed == Numbers(list[..i])
      {
        completed := completed + [list[i].number];
      }
      assert list[..|list|] == list;
      res := service.CompleteMultipartUpload(cfg, completed);
    }

    /** Server-side copies, in whatever order they complete, then FinishUpload. */
    method ConcatUsingMultipart(partials: seq<Remote>) returns (res: Result<(), S3Error>)
      requires cfg.Valid() && info.Some? && service.state.table == Some(map[])
      requires FinishedUploads(partials) && forall i :: 0 <= i < |partials| ==> |Objects(partials)[i]| >= cfg.minPart
      modifies this, service
      ensures res.Ok? && service.state == old(service.state).(table := None, finished := Some(Flatten(Objects(partials))))
    {
      hide Copied, FinishedUploads, Complete, LargeEnough;
      ghost var objects := Objects(partials);
      var slots: seq<Part> := seq(|partials|, i => Part(0, 0));
      var pending: set<nat> := Positions(|partials|);
      NothingCopied(slots, objects);
      while pending != {}
        invariant forall i :: i in pending ==> i < |partials|
        invariant service.state.table.Some? && info == old(info)
        invariant service.state == old(service.state).(table := service.state.table)
        invariant Copied(service.state.table.value, slots, objects, pending)
        decreases |pending|
      {
        var i :| i in pending;
        CopyOne(service.state.table.value, slots, objects, pending, i);
        var data := FinishedObject(partials, i);
        var _ := service.UploadPart(i + 1, data);
        slots := slots[i := Part(i + 1, -1)];
        pending := pending - {i};
      }
      parts := slots;
      FinishCopies(cfg, View(), service.state, objects);
      res := FinishUpload();
    }

    /** The concatenation is built locally and stored in one request; the multipart upload is aborted later. */
    method ConcatUsingDownload(partials: seq<Remote>)
      requires FinishedUploads(partials)
      modifies service
      ensures service.state == Downloaded(old(service.state), partials)
    {
      var file: bytes := [];
      for i := 0 to |partials|
        invariant file == Flatten(Objects(partials)[..i]) && service.state == old(service.state)
      {
        FlattenSnoc(Objects(partials)[..i], Objects(partials)[i]);
        assert Objects(partials)[..i] + [Objects(partials)[i]] == Objects(partials)[..i + 1];
        file := file + partials[i].finished.value;
      }
      assert Objects(partials)[..|partials|] == Objects(partials);
      service.state := service.state.(finished := Some(file));
    }

    /** ConcatUploads: whichever strategy is chosen, S3 accepts it and the object is the
        in-order concatenation of the partial uploads. */
    method ConcatUploads(partials: seq<Remote>) returns (res: Result<(), S3Error>)
      requires cfg.Valid() && info.Some? && service.state.table == Some(map[]) && FinishedUploads(partials)
      modifies this, service
      ensures res.Ok? && service.state.finished == Some(Flatten(Objects(partials)))
      ensures service.state == old(service.state).(table := service.state.table, finished := service.state.finished)
      ensures service.state.table == if exists i :: 0 <= i < |partials| && |Objects(partials)[i]| < cfg.minPart
                                     then old(service.state).table else None
    {
      var hasSmallPart := false;
      for i := 0 to |partials|
        invariant hasSmallPart <==> exists j :: 0 <= j < i && |Objects(partials)[j]| < cfg.minPart
      {
        assert |Objects(partials)[i]| == partials[i].info.value.size;
        if partials[i].info.value.size < cfg.minPart {
          hasSmallPart := true;
        }
      }
      if hasSmallPart {
        ConcatUsingDownload(partials);
        res := Ok(());
      } else {
        res := ConcatUsingMultipart(partials);
      }
    }
  }

  // -------------------------------------------------------- concatenation

  predicate FinishedUploads(partials: seq<Remote>) {
    forall i :: 0 <= i < |partials| ==>
                  && partials[i].info.Some? && partials[i].finished.Some?
                  && !partials[i].info.value.deferred && partials[i].info.value.size == |partials[i].finished.value|
  }

  function Objects(partials: seq<Remote>): (r: seq<bytes>)
    requires FinishedUploads(partials)
    ensures |r| == |partials|
  {
    seq(|partials|, i requires 0 <= i < |partials| => partials[i].finished.value)
  }

  function FinishedObject(partials: seq<Remote>, i: nat): (data: bytes)
    requires FinishedUploads(partials) && i < |partials|
    ensures data == Objects(partials)[i]
  {
    partials[i].finished.value
  }

  /** All copies but the pending ones are in the part table and in their slots. */
  ghost predicate Copied(table: map<nat, bytes>, slots: seq<Part>, objects: seq<bytes>, pending: set<nat>) {
    && |slots| == |objects|
    && (forall k :: k in table ==> 1 <= k <= |objects|)
    && (forall i: nat :: i < |objects| && i !in pending ==>
                           slots[i] == Part(i + 1, -1) && i + 1 in table && table[i + 1] == objects[i])
  }

  lemma NothingCopied(slots: seq<Part>, objects: seq<bytes>)
    requires |slots| == |objects|
    ensures Copied(map[], slots, objects, Positions(|objects|))
  {
  }

  lemma CopyOne(table: map<nat, bytes>, slots: seq<Part>, objects: seq<bytes>, pending: set<nat>, i: nat)
    requires Copied(table, slots, objects, pending) && i < |objects|
    ensures |slots| == |objects|
    ensures Copied(table[i + 1 := objects[i]], slots[i := Part(i + 1, -1)], objects, pending - {i})
  {
  }

  lemma FinishCopies(cfg: Config, h: Handle, r: Remote, objects: seq<bytes>)
    requires h.info.Some? && r.table.Some? && Copied(r.table.value, h.parts, objects, {})
    requires forall i :: 0 <= i < |objects| ==> |objects[i]| >= cfg.minPart
    ensures S3Spec.FinishUpload(cfg, h, r) == (r.(table := None, finished := Some(Flatten(objects))), Ok(()))
  {
    if objects != [] {
      GatherCopies(r.table.value, Numbers(h.parts), objects);
    } else {
      assert r.table.value == map[];
      assert Gather(map[1 := []], [1]) == [] + [];
    }
  }

  lemma {:induction false} GatherCopies(table: map<nat, bytes>, numbers: seq<nat>, objects: seq<bytes>)
    requires |numbers| == |objects|
    requires forall i :: 0 <= i < |numbers| ==> numbers[i] in table && table[numbers[i]] == objects[i]
    ensures Gather(table, numbers) == Flatten(objects)
  {
    if numbers != [] {
      var n := |numbers| - 1;
      GatherCopies(table, numbers[..n], objects[..n]);
      FlattenSnoc(objects[..n], objects[n]);
      assert objects == objects[..n] + [objects[n]];
    }
  }

  /** sizeOfUploads: the size of a final upload, or None while a partial upload is unfinished. */
  function SizeOfUploads(infos: seq<Info>): Option<nat> {
    if infos == [] then Some(0)
    else if infos[0].deferred || infos[0].offset != infos[0].size then None
    else
      match SizeOfUploads(infos[1..])
      case None => None
      case Some(rest) => Some(infos[0].size + rest)
  }

  /** What GetInfo answers for each partial upload. */
  function FetchedInfos(partials: seq<Remote>): (r: seq<Info>)
    requires FinishedUploads(partials)
    ensures |r| == |partials|
  {
    seq(|partials|, i requires 0 <= i < |partials| => Fetch(partials[i]).value.info.value)
  }

  /** The multipart upload is gone, or what is left of it happens to have the right length. */
  predicate ReportsAll(r: Remote)
    requires r.info.Some?
  {
    r.table.None? || |Content(r)| == r.info.value.size
  }

  lemma ReportsAllIff(r: Remote)
    requires r.info.Some?
    ensures Fetch(r).Ok?
    ensures var info := Fetch(r).value.info.value;
            && info.size == r.info.value.size && info.deferred == r.info.value.deferred
            && (info.offset == info.size <==> ReportsAll(r))
  {
    hide SortedKeys, Gather, AllParts;
    if r.table.Some? {
      PartsSize(r.table.value);
    }
  }

  /**
   * A final upload can be announced exactly when every partial upload's multipart upload is
   * gone or holds the declared number of bytes, and its announced size is then the length of
   * the object both strategies build.
   */
  lemma {:induction false} FinalSize(partials: seq<Remote>)
    requires FinishedUploads(partials)
    ensures SizeOfUploads(FetchedInfos(partials)) ==
            if forall i :: 0 <= i < |partials| ==> ReportsAll(partials[i])
            then Some(|Flatten(Objects(partials))|) else None
  {
    hide Fetch, ReportsAll;
    if partials != [] {
      FinalSize(partials[1..]);
      ReportsAllIff(partials[0]);
      assert FetchedInfos(partials)[1..] == FetchedInfos(partials[1..]);
      assert Objects(partials)[1..] == Objects(partials[1..]);
      if forall i :: 0 <= i < |partials[1..]| ==> ReportsAll(partials[1..][i]) {
        assert forall i :: 0 < i < |partials| ==> partials[i] == partials[1..][i - 1];
      } else {
        var i :| 0 <= i < |partials[1..]| && !ReportsAll(partials[1..][i]);
        assert !ReportsAll(partials[i + 1]);
      }
    }
  }

  /** The final upload as the download strategy leaves it: the multipart upload is still open. */
  function Downloaded(r: Remote, partials: seq<Remote>): Remote
    requires FinishedUploads(partials)
  {
    r.(finished := Some(Flatten(Objects(partials))))
  }

  function Aborted(r: Remote): Remote {
    r.(table := None)
  }

  /**
   * A final upload reports its full length as soon as ConcatUploads returns if and only if no
   * partial upload is smaller than the minimum part size, or it is empty.
   */
  lemma ReportsAtOnceIff(cfg: Config, r: Remote, partials: seq<Remote>, r': Remote)
    requires FinishedUploads(partials)
    requires r.info == Some(Info(|Flatten(Objects(partials))|, false, 0)) && r.table == Some(map[]) && r.tail.None?
    requires r' == r.(table := r'.table, finished := Some(Flatten(Objects(partials))))
    requires r'.table == if exists i :: 0 <= i < |partials| && |Objects(partials)[i]| < cfg.minPart then r.table else None
    ensures Fetch(r').Ok? && Fetch(r').value.info.value.size == |Flatten(Objects(partials))|
    ensures Fetch(r').value.info.value.offset == |Flatten(Objects(partials))| <==>
            || Flatten(Objects(partials)) == []
            || forall i :: 0 <= i < |partials| ==> |Objects(partials)[i]| >= cfg.minPart
  {
    hide Flatten, Objects, FinishedUploads, Fetch;
    var open := r.(finished := r'.finished);
    NothingFetched(open);
    FetchKeepsSize(r');
  }

  lemma FetchKeepsSize(r: Remote)
    requires r.info.Some?
    ensures Fetch(r).Ok? && Fetch(r).value.info.value.size == r.info.value.size
  {
  }

  /**
   * A final upload built by download: until the background abort has happened it reports
   * offset 0, and every concatenation that names it among its partial uploads is refused
   * unless it is empty; after the abort it reports its length, and whether a concatenation is
   * possible depends on the other partial uploads only.
   */
  lemma OffsetAfterDownload(r: Remote, partials: seq<Remote>, list: seq<Remote>, k: nat)
    requires FinishedUploads(partials) && FinishedUploads(list) && k < |list|
    requires r.info == Some(Info(|Flatten(Objects(partials))|, false, 0)) && r.table == Some(map[]) && r.tail.None?
    ensures var length := |Flatten(Objects(partials))|;
            var r1 := Downloaded(r, partials);
            var r2 := Aborted(r1);
            && Fetch(r1).value.info.value.offset == 0 && Fetch(r2).value.info.value.offset == length
            && FinishedUploads(list[k := r1]) && FinishedUploads(list[k := r2])
            && (length > 0 ==> SizeOfUploads(FetchedInfos(list[k := r1])) == None)
            && (SizeOfUploads(FetchedInfos(list[k := r2])).Some? <==>
                forall i :: 0 <= i < |list| && i != k ==> ReportsAll(list[i]))
  {
    hide Flatten, SizeOfUploads, FetchedInfos, Objects, FinishedUploads, ReportsAll, Fetch;
    var r1 := Downloaded(r, partials);
    NothingFetched(r1);
    ReplaceOne(list, k, r1);
    ReplaceOne(list, k, Aborted(r1));
  }

  lemma NothingFetched(r: Remote)
    requires r.info.Some? && r.table == Some(map[]) && r.tail.None?
    ensures Fetch(r).Ok? && Fetch(r).value.info.value.offset == 0
    ensures Fetch(Aborted(r)).value.info.value.offset == r.info.value.size
    ensures (ReportsAll(r) <==> r.info.value.size == 0) && ReportsAll(Aborted(r))
  {
    PartsSize(map[]);
    assert Content(r) == [];
  }

  /** One partial upload of a list replaced by another finished one. */
  lemma ReplaceOne(list: seq<Remote>, k: nat, r: Remote)
    requires FinishedUploads(list) && k < |list| && r.info.Some? && r.finished.Some?
    requires !r.info.value.deferred && r.info.value.size == |r.finished.value|
    ensures FinishedUploads(list[k := r])
    ensures SizeOfUploads(FetchedInfos(list[k := r])).Some? <==>
            ReportsAll(r) && forall i :: 0 <= i < |list| && i != k ==> ReportsAll(list[i])
  {
    hide Flatten, SizeOfUploads, FetchedInfos, Objects, ReportsAll;
    var list' := list[k := r];
    FinalSize(list');
    assert list'[k] == r;
    assert forall i :: 0 <= i < |list| && i != k ==> list'[i] == list[i];
  }
}
