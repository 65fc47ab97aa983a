/** The Azure block store on values: block ids, staged and committed blocks, and what is recovered from them. */
module AzureSpec {
  import opened Streams
  import Base64

  // ---------------------------------------------------------------- block ids

  const SENTINEL_INDEX := 0x7fff_ffff

  /** Little-endian, four bytes, as an unsigned 32-bit number. */
  function LittleEndian(index: int): bytes {
    var n := index % 0x1_0000_0000;
    [n % 256, n / 256 % 256, n / 256 / 256 % 256, n / 256 / 256 / 256]
  }

  function FromLittleEndian(b: bytes): nat
    requires |b| >= 4
  {
    var b0: int, b1: int, b2: int, b3: int := b[0], b[1], b[2], b[3];
    b0 + 256 * (b1 + 256 * (b2 + 256 * b3))
  }

  function BlockId(index: int): string {
    Base64.Encode(LittleEndian(index))
  }

  function SentinelId(): string {
    BlockId(SENTINEL_INDEX)
  }

  /** None where the source would panic on a name of fewer than four bytes. */
  function BlockIndex(name: string): Option<nat> {
    var b := Base64.Decode(name);
    if b.Some? && |b.value| >= 4 then Some(FromLittleEndian(b.value)) else None
  }

  lemma EndianRoundTrip(n: nat)
    requires n < 0x1_0000_0000
    ensures FromLittleEndian(LittleEndian(n)) == n
  {
  }

  /** Every 32-bit index is recovered from its block id, so different indexes have different ids. */
  lemma IdRoundTrip(n: nat)
    requires n < 0x1_0000_0000
    ensures BlockIndex(BlockId(n)) == Some(n)
  {
    hide Base64.Encode, Base64.Decode, FromLittleEndian;
    Base64.RoundTrip(LittleEndian(n));
    EndianRoundTrip(n);
  }

  // -------------------------------------------------------------------- blobs

  datatype AzError = NotFound | UploadTooLarge | EmptyBlock | TooManyBlocks | ChunkTooLarge | InvalidBlockList

  /** What the info blob keeps. */
  datatype AzInfo = AzInfo(size: nat, deferred: bool)

  /** `staged` are the uncommitted blocks; `committed` the blob as it was last committed. A blob
      that does not exist has neither. */
  datatype Blob = Blob(staged: map<string, bytes>, committed: seq<(string, bytes)>)

  datatype Limits = Limits(maxSize: nat, maxBlocks: nat, maxChunk: nat) {
    ghost predicate Valid() {
      maxBlocks < SENTINEL_INDEX
    }
  }

  /** Azure refuses an empty block. */
  function StageBlock(lim: Limits, blob: Blob, name: string, body: bytes): Result<Blob, AzError> {
    if body == [] then Err(EmptyBlock)
    else if |blob.staged| > lim.maxBlocks then Err(TooManyBlocks)
    else Ok(blob.(staged := blob.staged[name := body]))
  }

  function OldBlock(committed: seq<(string, bytes)>, name: string): Option<bytes> {
    if committed == [] then None
    else if committed[0].0 == name then Some(committed[0].1)
    else OldBlock(committed[1..], name)
  }

  /** The latest block of a name: the staged one if there is one, else the committed one. */
  function Latest(blob: Blob, name: string): Option<bytes> {
    if name in blob.staged then Some(blob.staged[name]) else OldBlock(blob.committed, name)
  }

  function Collect(blob: Blob, names: seq<string>): Option<seq<(string, bytes)>> {
    if names == [] then Some([])
    else
      var n := |names| - 1;
      match Collect(blob, names[..n])
      case None => None
      case Some(blocks) =>
        match Latest(blob, names[n])
        case None => None
        case Some(b) => Some(blocks + [(names[n], b)])
  }

  /** Committing drops every staged block that is not in the list. */
  function CommitBlockList(blob: Blob, names: seq<string>): Result<Blob, AzError> {
    match Collect(blob, names)
    case None => Err(InvalidBlockList)
    case Some(blocks) => Ok(Blob(map[], blocks))
  }

  function Data(blocks: seq<(string, bytes)>): bytes {
    if blocks == [] then [] else Data(blocks[..|blocks| - 1]) + blocks[|blocks| - 1].1
  }

  // ------------------------------------------------------------ recovering state

  /** Any order in which Azure may list the uncommitted blocks. */
  ghost predicate IsListing(staged: map<string, bytes>, listing: seq<string>) {
    && (forall name :: name in listing <==> name in staged)
    && (forall i, j :: 0 <= i < j < |listing| ==> listing[i] != listing[j])
  }

  /** The data bytes and indexes of a listing, without the sentinel. */
  function Sizes(staged: map<string, bytes>, listing: seq<string>): nat
    requires forall i :: 0 <= i < |listing| ==> listing[i] in staged
  {
    if listing == [] then 0
    else
      var n := |listing| - 1;
      Sizes(staged, listing[..n]) + if listing[n] == SentinelId() then 0 else |staged[listing[n]]|
  }

  function Indexes(listing: seq<string>): seq<int> {
    if listing == [] then [] else Indexes(listing[..|listing| - 1]) + IndexIn(listing[|listing| - 1])
  }

  function IndexIn(name: string): seq<int> {
    if name == SentinelId() then [] else [if BlockIndex(name).Some? then BlockIndex(name).value else -1]
  }

  // -------------------------------------------------------------------- sorting

  ghost predicate Ordered(s: seq<int>) {
    forall i, j :: 0 <= i < j < |s| ==> s[i] <= s[j]
  }

  function Insert(s: seq<int>, x: int): (r: seq<int>)
    ensures multiset(r) == multiset(s) + multiset{x}
  {
    if s == [] || s[|s| - 1] <= x then s + [x]
    else
      assert s == s[..|s| - 1] + [s[|s| - 1]];
      Insert(s[..|s| - 1], x) + [s[|s| - 1]]
  }

  function Sort(s: seq<int>): (r: seq<int>)
    ensures multiset(r) == multiset(s)
  {
    if s == [] then []
    else
      assert s == s[..|s| - 1] + [s[|s| - 1]];
      Insert(Sort(s[..|s| - 1]), s[|s| - 1])
  }

  lemma {:induction false} InsertOrdered(s: seq<int>, x: int)
    requires Ordered(s)
    ensures Ordered(Insert(s, x))
  {
    if s != [] && s[|s| - 1] > x {
      var rest, last := s[..|s| - 1], s[|s| - 1];
      InsertOrdered(rest, x);
      var r := Insert(rest, x);
      forall i | 0 <= i < |r| ensures r[i] <= last {
        assert r[i] in multiset(r);
        assert r[i] in multiset(rest) || r[i] == x;
      }
    }
  }

  lemma {:induction false} SortOrdered(s: seq<int>)
    ensures Ordered(Sort(s))
  {
    if s != [] {
      SortOrdered(s[..|s| - 1]);
      InsertOrdered(Sort(s[..|s| - 1]), s[|s| - 1]);
    }
  }

  lemma LastIsLargest(s: seq<int>, x: int)
    requires Ordered(s) && x in multiset(s)
    ensures s != [] && x <= s[|s| - 1]
  {
    assert x in s;
  }

  lemma DropLast(s: seq<int>)
    requires s != []
    ensures multiset(s[..|s| - 1]) == multiset(s) - multiset{s[|s| - 1]}
    ensures s[|s| - 1] in multiset(s)
  {
    assert s == s[..|s| - 1] + [s[|s| - 1]];
  }

  lemma OrderedInit(s: seq<int>)
    requires Ordered(s) && s != []
    ensures Ordered(s[..|s| - 1])
  {
  }

  /** An ordered list is determined by its elements. */
  lemma {:induction false} OrderedUnique(a: seq<int>, b: seq<int>)
    requires Ordered(a) && Ordered(b) && multiset(a) == multiset(b)
    ensures a == b
  {
    hide Ordered;
    assert |a| == |multiset(a)| && |b| == |multiset(b)|;
    if a != [] {
      DropLast(a);
      DropLast(b);
      LastIsLargest(b, a[|a| - 1]);
      LastIsLargest(a, b[|b| - 1]);
      OrderedInit(a);
      OrderedInit(b);
      OrderedUnique(a[..|a| - 1], b[..|b| - 1]);
      assert a == a[..|a| - 1] + [a[|a| - 1]];
      assert b == b[..|b| - 1] + [b[|b| - 1]];
    }
  }

  function Range(k: nat): seq<int> {
    seq(k, i => i)
  }

  function CommittedSizes(blocks: seq<(string, bytes)>): nat {
    if blocks == [] then 0 else CommittedSizes(blocks[..|blocks| - 1]) + |blocks[|blocks| - 1].1|
  }

  // ------------------------------------------------------------- the operations

  /** What an upload handle caches: the block indexes in order, and the offset. */
  datatype Handle = Handle(indexes: seq<int>, offset: nat)

  /** GetUpload: without uncommitted blocks the upload is finished and the committed ones count. */
  function Open(blob: Blob, listing: seq<string>): Handle
    requires forall i :: 0 <= i < |listing| ==> listing[i] in blob.staged
  {
    if listing == [] then Handle([], CommittedSizes(blob.committed))
    else Handle(Sort(Indexes(listing)), Sizes(blob.staged, listing))
  }

  function NextIndex(indexes: seq<int>): int {
    if indexes == [] then 0 else indexes[|indexes| - 1] + 1
  }

  /** WriteChunk: the index is recorded before the block is staged. */
  function WriteChunk(lim: Limits, blob: Blob, h: Handle, body: bytes): (Blob, Handle, Result<nat, AzError>) {
    if |body| > lim.maxChunk then (blob, h, Err(ChunkTooLarge))
    else
      var index := NextIndex(h.indexes);
      var h1 := h.(indexes := h.indexes + [index]);
      match StageBlock(lim, blob, BlockId(index), body)
      case Err(e) => (blob, h1, Err(e))
      case Ok(blob') => (blob', h1.(offset := h.offset + |body|), Ok(|body|))
  }

  function Names(indexes: seq<int>): (r: seq<string>)
    ensures |r| == |indexes|
  {
    seq(|indexes|, i requires 0 <= i < |indexes| => BlockId(indexes[i]))
  }
}
