/**
 * The S3 store on values: what the remote objects of one upload hold, and what
 * each store operation does to them. The classes in S3Upload.dfy are proved
 * against these functions; S3Theorems.dfy proves what whole runs of them do.
 */
module S3Spec {
  import opened Streams
  import opened PartSize

  datatype Info = Info(size: nat, deferred: bool, offset: nat)

  /** Everything S3 keeps for one upload: the info object, the multipart upload
      (None once completed or aborted), the `.part` object and the finished object. */
  datatype Remote = Remote(
    info: Option<Info>,
    table: Option<map<nat, bytes>>,
    tail: Option<bytes>,
    finished: Option<bytes>)

  datatype Part = Part(number: nat, size: int)

  /** The cached fields of an upload handle; `info` is None until it is first fetched. */
  datatype Handle = Handle(info: Option<Info>, parts: seq<Part>, incomplete: nat)

  datatype S3Error =
    | NotFound
    | NoSuchUpload
    | SizeNotPossible
    | MissingIncompletePart
    | MalformedList
    | InvalidPart
    | InvalidPartOrder
    | EntityTooSmall

  const FRESH := Handle(None, [], 0)

  // ---------------------------------------------------------------- listing

  lemma {:induction false} FindMax(s: set<nat>) returns (m: nat)
    requires s != {}
    ensures m in s && forall k | k in s :: k <= m
  {
    m :| m in s;
    var rest := s - {m};
    if rest != {} {
      var m' := FindMax(rest);
      m := Max(m, m');
    }
    assert forall k | k in s :: k in rest || k <= m;
  }

  lemma MaxExists(s: set<nat>)
    requires s != {}
    ensures exists m :: m in s && forall k | k in s :: k <= m
  {
    var m := FindMax(s);
  }

  function MaxOf(s: set<nat>): (m: nat)
    requires s != {}
    ensures m in s && forall k | k in s :: k <= m
  {
    MaxExists(s);
    var m :| m in s && forall k | k in s :: k <= m;
    m
  }

  /** Part numbers in ascending order, as S3 lists them. */
  function SortedKeys(s: set<nat>): (r: seq<nat>)
    ensures |r| == |s|
    ensures forall i :: 0 <= i < |r| ==> r[i] in s
  {
    if s == {} then [] else SortedKeys(s - {MaxOf(s)}) + [MaxOf(s)]
  }

  lemma {:induction false} SortedKeysOrder(s: set<nat>)
    ensures Ascending(SortedKeys(s)) && |SortedKeys(s)| == |s|
    ensures forall k :: k in s <==> k in SortedKeys(s)
  {
    if s != {} {
      SortedKeysOrder(s - {MaxOf(s)});
    }
  }

  predicate Ascending(numbers: seq<nat>) {
    forall i, j :: 0 <= i < j < |numbers| ==> numbers[i] < numbers[j]
  }

  /** The bytes of the numbered parts, in the order of the numbers. */
  function Gather(table: map<nat, bytes>, numbers: seq<nat>): bytes
    requires forall i :: 0 <= i < |numbers| ==> numbers[i] in table
  {
    if numbers == [] then []
    else Gather(table, numbers[..|numbers| - 1]) + table[numbers[|numbers| - 1]]
  }

  function AllParts(table: map<nat, bytes>): (r: seq<Part>)
    ensures |r| == |table|
  {
    var keys := SortedKeys(table.Keys);
    seq(|keys|, i requires 0 <= i < |keys| => Part(keys[i], |table[keys[i]]|))
  }

  function SumSizes(parts: seq<Part>): int {
    if parts == [] then 0 else SumSizes(parts[..|parts| - 1]) + parts[|parts| - 1].size
  }

  function TailOf(r: Remote): bytes {
    if r.tail.Some? then r.tail.value else []
  }

  /** The bytes an unfinished upload holds: its parts in number order, then the `.part` object. */
  function Content(r: Remote): bytes
    requires r.table.Some?
  {
    Gather(r.table.value, SortedKeys(r.table.value.Keys)) + TailOf(r)
  }

  // ------------------------------------------------------- getInternalInfo

  /** fetchInfo: the offset is rebuilt from the part list and the `.part` object;
      a vanished multipart upload means the upload is complete. */
  function Fetch(r: Remote): Result<Handle, S3Error> {
    if r.info.None? then Err(NotFound)
    else if r.table.None? then
      Ok(Handle(Some(r.info.value.(offset := r.info.value.size)), [], |TailOf(r)|))
    else
      var parts := AllParts(r.table.value);
      PartsSize(r.table.value);
      Ok(Handle(Some(r.info.value.(offset := |TailOf(r)| + SumSizes(parts))), parts, |TailOf(r)|))
  }

  function Load(h: Handle, r: Remote): Result<Handle, S3Error> {
    if h.info.Some? then Ok(h) else Fetch(r)
  }

  lemma {:induction false} GatherSize(table: map<nat, bytes>, numbers: seq<nat>, parts: seq<Part>)
    requires forall i :: 0 <= i < |numbers| ==> numbers[i] in table
    requires |parts| == |numbers|
    requires forall i :: 0 <= i < |parts| ==> parts[i] == Part(numbers[i], |table[numbers[i]]|)
    ensures SumSizes(parts) == |Gather(table, numbers)|
  {
    if parts != [] {
      var n := |parts| - 1;
      GatherSize(table, numbers[..n], parts[..n]);
    }
  }

  lemma PartsSize(table: map<nat, bytes>)
    ensures SumSizes(AllParts(table)) == |Gather(table, SortedKeys(table.Keys))|
  {
    GatherSize(table, SortedKeys(table.Keys), AllParts(table));
  }

  // ------------------------------------------------------------ WriteChunk

  /** The state of the consumer loop in uploadParts, between two chunks. */
  datatype Progress = Progress(
    table: map<nat, bytes>,
    tail: Option<bytes>,
    parts: seq<Part>,
    incomplete: nat,
    uploaded: nat,
    next: nat)

  predicate IsPart(cfg: Config, info: Info, base: int, uploaded: nat, chunk: bytes) {
    |chunk| >= cfg.minPart || (!info.deferred && info.size == base + uploaded + |chunk|)
  }

  function PutChunk(cfg: Config, info: Info, base: int, p: Progress, chunk: bytes): Progress {
    if IsPart(cfg, info, base, p.uploaded, chunk) then
      p.(table := p.table[p.next := chunk],
         parts := p.parts + [Part(p.next, |chunk|)],
         uploaded := p.uploaded + |chunk|,
         next := p.next + 1)
    else
      p.(tail := Some(chunk), incomplete := |chunk|, uploaded := p.uploaded + |chunk|, next := p.next + 1)
  }

  function PutAll(cfg: Config, info: Info, base: int, p: Progress, chunks: seq<bytes>): Progress
    decreases chunks
  {
    if chunks == [] then p
    else PutAll(cfg, info, base, PutChunk(cfg, info, base, p, chunks[0]), chunks[1..])
  }

  datatype Outcome = Outcome(handle: Handle, remote: Remote, result: Result<nat, S3Error>)

  function TableOf(r: Remote): map<nat, bytes> {
    if r.table.Some? then r.table.value else map[]
  }

  function Start(h: Handle, r: Remote): Progress {
    Progress(TableOf(r), r.tail, h.parts, h.incomplete, 0, |h.parts| + 1)
  }

  /** uploadParts: the stream is cut, every chunk but a small tail becomes a part. Once the
      multipart upload is gone S3 refuses parts, but a small tail is still stored. */
  function UploadParts(cfg: Config, h: Handle, r: Remote, base: int, stream: bytes): Outcome
    requires cfg.Valid() && h.info.Some?
  {
    var info := h.info.value;
    match CalcOptimalPartSize(cfg, info.size)
    case Err(_) => Outcome(h, r, Err(SizeNotPossible))
    case Ok(partSize) =>
      OptimalPartSize(cfg, info.size);
      var p := PutAll(cfg, info, base, Start(h, r), Cut(stream, partSize));
      Outcome(h.(parts := p.parts, incomplete := p.incomplete),
              r.(table := if r.table.Some? then Some(p.table) else None, tail := p.tail),
              if r.table.None? && |p.parts| > |h.parts| then Err(NoSuchUpload) else Ok(p.uploaded))
  }

  /** WriteChunk: a leftover `.part` object is taken back in front of the body first. */
  function WriteChunk(cfg: Config, h: Handle, r: Remote, offset: int, body: bytes): Outcome
    requires cfg.Valid()
  {
    match Load(h, r)
    case Err(e) => Outcome(h, r, Err(e))
    case Ok(h) =>
      if h.incomplete > 0 && r.tail.None? then Outcome(h, r, Err(MissingIncompletePart))
      else
        var out :=
          if h.incomplete > 0
          then UploadParts(cfg, h, r.(tail := None), offset - h.incomplete, r.tail.value + body)
          else UploadParts(cfg, h, r, offset, body);
        var count := if out.result.Ok? then Max(out.result.value - h.incomplete, 0) else 0;
        var info := h.info.value;
        Outcome(out.handle.(info := Some(info.(offset := info.offset + count))), out.remote,
                if out.result.Ok? then Ok(count) else out.result)
  }

  /** DeclareLength rewrites the info object and the cached info. */
  function DeclareLength(h: Handle, r: Remote, length: nat): Outcome {
    match Load(h, r)
    case Err(e) => Outcome(h, r, Err(e))
    case Ok(h) =>
      var info := h.info.value.(size := length, deferred := false);
      Outcome(h.(info := Some(info)), r.(info := Some(info)), Ok(0))
  }

  // ---------------------------------------------------------- FinishUpload

  function Numbers(parts: seq<Part>): (r: seq<nat>)
    ensures |r| == |parts|
  {
    seq(|parts|, i requires 0 <= i < |parts| => parts[i].number)
  }

  predicate LargeEnough(cfg: Config, table: map<nat, bytes>, numbers: seq<nat>)
    requires forall i :: 0 <= i < |numbers| ==> numbers[i] in table
  {
    forall i :: 0 <= i < |numbers| - 1 ==> |table[numbers[i]]| >= cfg.minPart
  }

  /** CompleteMultipartUpload with the checks S3 makes on the part list it is given. */
  function Complete(cfg: Config, r: Remote, numbers: seq<nat>): (Remote, Result<(), S3Error>)
    requires r.table.Some?
  {
    var table := r.table.value;
    if numbers == [] then (r, Err(MalformedList))
    else if !forall i :: 0 <= i < |numbers| ==> numbers[i] in table then (r, Err(InvalidPart))
    else if !Ascending(numbers) then (r, Err(InvalidPartOrder))
    else if !LargeEnough(cfg, table, numbers) then (r, Err(EntityTooSmall))
    else (r.(table := None, finished := Some(Gather(table, numbers))), Ok(()))
  }

  /** FinishUpload: an upload without parts is completed from one empty part. */
  function FinishUpload(cfg: Config, h: Handle, r: Remote): (Remote, Result<(), S3Error>) {
    match Load(h, r)
    case Err(e) => (r, Err(e))
    case Ok(h) =>
      if r.table.None? then (r, Err(NoSuchUpload))
      else if h.parts == [] then Complete(cfg, r.(table := Some(r.table.value[1 := []])), [1])
      else Complete(cfg, r, Numbers(h.parts))
  }
}
