/** The Azure store as it runs: the block blob with its index list, and the upload around it. */
module AzureStore {
  import opened Streams
  import Spec = AzureSpec
  import opened AzureSpec
  import AzureTheorems

  /** What Azure keeps for an upload, shared by all its handles: the blob and the info blob. */
  class Container {
    var blob: Blob
    var info: Option<AzInfo>

    constructor (blob: Blob)
      ensures this.blob == blob && info == None
    {
      this.blob, info := blob, None;
    }
  }

  class BlockBlob {
    const lim: Limits
    const remote: Container
    var indexes: seq<int>

    constructor (lim: Limits, remote: Container)
      ensures this.lim == lim && this.remote == remote && indexes == []
    {
      this.lim, this.remote, indexes := lim, remote, [];
    }

    method Upload(body: bytes) returns (err: Option<AzError>)
      modifies this, remote
      ensures remote.info == old(remote.info)
      ensures indexes == old(indexes) + [NextIndex(old(indexes))]
      ensures match StageBlock(lim, old(remote.blob), BlockId(NextIndex(old(indexes))), body)
              case Ok(b) => err == None && remote.blob == b
              case Err(e) => err == Some(e) && remote.blob == old(remote.blob)
    {
      var index := 0;
      if |indexes| > 0 {
        index := indexes[|indexes| - 1] + 1;
      }
      indexes := indexes + [index];
      var staged := StageBlock(lim, remote.blob, BlockId(index), body);
      if staged.Err? {
        return Some(staged.error);
      }
      remote.blob := staged.value;
      return None;
    }

    /** The marker block: one byte under the reserved id. */
    method StageSentinelBlock() returns (err: Option<AzError>)
      modifies remote
      ensures remote.info == old(remote.info)
      ensures remote.blob == (if err.None? then old(remote.blob).(staged := old(remote.blob).staged[SentinelId() := [0]])
                              else old(remote.blob))
      ensures err.None? <==> |old(remote.blob).staged| <= lim.maxBlocks
    {
      var staged := StageBlock(lim, remote.blob, SentinelId(), [0]);
      if staged.Err? {
        return Some(staged.error);
      }
      remote.blob := staged.value;
      return None;
    }

    /** GetOffset over the block list Azure returned, in whatever order it is. */
    method GetOffset(listing: seq<string>) returns (offset: nat)
      requires IsListing(remote.blob.staged, listing)
      requires forall i :: 0 <= i < |listing| ==> listing[i] in remote.blob.staged
      modifies this
      ensures offset == Open(remote.blob, listing).offset
      ensures indexes == if listing == [] then old(indexes) else Open(remote.blob, listing).indexes
    {
      offset := 0;
      if |listing| == 0 {
        var blocks := remote.blob.committed;
        for i := 0 to |blocks|
          invariant offset == CommittedSizes(blocks[..i]) && indexes == old(indexes)
        {
          assert blocks[..i + 1][..i] == blocks[..i];
          offset := offset + |blocks[i].1|;
        }
        assert blocks[..|blocks|] == blocks;
        return;
      }
      var found: seq<int> := [];
      for i := 0 to |listing|
        invariant offset == Sizes(remote.blob.staged, listing[..i]) && found == Indexes(listing[..i])
      {
        assert listing[..i + 1][..i] == listing[..i];
        if listing[i] == SentinelId() {
          continue;
        }
        offset := offset + |remote.blob.staged[listing[i]]|;
        found := found + IndexIn(listing[i]);
      }
      assert listing[..|listing|] == listing;
      indexes := Sort(found);
    }

    method Commit() returns (err: Option<AzError>)
      modifies remote
      ensures match CommitBlockList(old(remote.blob), Names(indexes))
              case Ok(b) => err == None && remote.blob == b
              case Err(e) => err == Some(e) && remote.blob == old(remote.blob)
    {
      var ids: seq<string> := [];
      for i := 0 to |indexes|
        invariant ids == Names(indexes[..i]) && remote.blob == old(remote.blob)
      {
        ids := ids + [BlockId(indexes[i])];
      }
      assert indexes[..|indexes|] == indexes;
      var done := CommitBlockList(remote.blob, ids);
      if done.Err? {
        return Some(done.error);
      }
      remote.blob := done.value;
      return None;
    }
  }

  class AzUpload {
    const blockBlob: BlockBlob
    var offset: nat
    var info: AzInfo

    ghost function View(): Handle
      reads this, blockBlob
    {
      Handle(blockBlob.indexes, offset)
    }

    constructor (blockBlob: BlockBlob, offset: nat, info: AzInfo)
      ensures this.blockBlob == blockBlob && this.offset == offset && this.info == info
    {
      this.blockBlob, this.offset, this.info := blockBlob, offset, info;
    }

    /** NewUpload: the info blob is written, and the sentinel is staged on whatever blocks the
        blob still has. */
    static method NewUpload(lim: Limits, remote: Container, info: AzInfo) returns (res: Result<AzUpload, AzError>)
      modifies remote
      ensures info.size > lim.maxSize ==> res == Err(UploadTooLarge) && remote.blob == old(remote.blob) && remote.info == old(remote.info)
      ensures info.size <= lim.maxSize ==>
                && remote.info == Some(info)
                && (res.Ok? <==> |old(remote.blob).staged| <= lim.maxBlocks)
                && remote.blob == (if res.Ok? then old(remote.blob).(staged := old(remote.blob).staged[SentinelId() := [0]])
                                   else old(remote.blob))
      ensures res.Ok? && old(remote.blob).staged == map[] ==>
                remote.blob == Blob(AzureTheorems.StagedMap([]), old(remote.blob).committed)
      ensures res.Ok? ==>
                && fresh(res.value) && fresh(res.value.blockBlob)
                && res.value.blockBlob.lim == lim && res.value.blockBlob.remote == remote
                && res.value.info == info && res.value.View() == Handle([], 0)
    {
      if info.size > lim.maxSize {
        return Err(UploadTooLarge);
      }
      remote.info := Some(info);
      var b := new BlockBlob(lim, remote);
      var err := b.StageSentinelBlock();
      if err.Some? {
        return Err(err.value);
      }
      var upload := new AzUpload(b, 0, info);
      return Ok(upload);
    }

    /** GetUpload: size and deferral come from the info blob, offset and indexes from the block
        list; a blob that does not exist counts as empty. */
    static method GetUpload(lim: Limits, remote: Container, listing: seq<string>) returns (res: Result<AzUpload, AzError>)
      requires IsListing(remote.blob.staged, listing)
      requires forall i :: 0 <= i < |listing| ==> listing[i] in remote.blob.staged
      ensures remote.info.None? ==> res == Err(NotFound)
      ensures remote.info.Some? && remote.info.value.size > lim.maxSize ==> res == Err(UploadTooLarge)
      ensures res.Ok? <==> remote.info.Some? && remote.info.value.size <= lim.maxSize
      ensures res.Ok? ==>
                && fresh(res.value) && fresh(res.value.blockBlob)
                && res.value.blockBlob.lim == lim && res.value.blockBlob.remote == remote
                && Some(res.value.info) == remote.info && res.value.View() == Open(remote.blob, listing)
    {
      if remote.info.None? {
        return Err(NotFound);
      }
      if remote.info.value.size > lim.maxSize {
        return Err(UploadTooLarge);
      }
      var b := new BlockBlob(lim, remote);
      var n := b.GetOffset(listing);
      var upload := new AzUpload(b, n, remote.info.value);
      return Ok(upload);
    }

    method WriteChunk(src: bytes) returns (res: Result<nat, AzError>)
      modifies this, blockBlob, blockBlob.remote
      ensures (blockBlob.remote.blob, View(), res) ==
              Spec.WriteChunk(blockBlob.lim, old(blockBlob.remote.blob), old(View()), src)
      ensures info == old(info) && blockBlob.remote.info == old(blockBlob.remote.info)
    {
      if |src| > blockBlob.lim.maxChunk {
        return Err(ChunkTooLarge);
      }
      var err := blockBlob.Upload(src);
      if err.Some? {
        return Err(err.value);
      }
      offset := offset + |src|;
      return Ok(|src|);
    }

    /** DeclareLength: the length is set here and in the info blob, so the next handle has it too. */
    method DeclareLength(length: nat)
      modifies this, blockBlob.remote
      ensures info == AzInfo(length, false) && View() == old(View())
      ensures blockBlob.remote.info == Some(info) && blockBlob.remote.blob == old(blockBlob.remote.blob)
    {
      info := AzInfo(length, false);
      blockBlob.remote.info := Some(info);
    }

    method FinishUpload() returns (err: Option<AzError>)
      modifies blockBlob.remote
      ensures match CommitBlockList(old(blockBlob.remote.blob), Names(blockBlob.indexes))
              case Ok(b) => err == None && blockBlob.remote.blob == b
              case Err(e) => err == Some(e) && blockBlob.remote.blob == old(blockBlob.remote.blob)
    {
      err := blockBlob.Commit();
    }
  }
}
