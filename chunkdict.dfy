/** The chunk-dictionary generator as the source runs it: a blob manager
    whose contexts are updated in place, the insert_chunks loop pushing one
    chunk per descriptor, and generate, which validates a copy of the
    descriptors in place and hangs the built file under the root. */
module Chunkdict {
  import opened Common
  import opened ChunkFilter
  import opened ChunkdictSpec

  /** BlobManager: the blob contexts of the build, by blob index. */
  class BlobManager {
    var blobs: seq<BlobContext>

    constructor(blobs: seq<BlobContext>)
      ensures this.blobs == blobs
    {
      this.blobs := blobs;
    }

    /** get_blob_idx_by_id: the index of the first context named `id`. */
    method GetBlobIdxById(id: string) returns (r: Option<nat>)
      ensures r == FindBlobCtx(blobs, id)
    {
      var i := 0;
      while i < |blobs|
        invariant i <= |blobs|
        invariant forall k :: 0 <= k < i ==> blobs[k].blobId != id
      {
        if blobs[i].blobId == id {
          return Some(i);
        }
        i := i + 1;
      }
      return None;
    }

    /** get_or_cerate_blob_for_chunkdict: the context named `id`, or a fresh
        one pushed at the next index, which alloc_index refuses past u32. */
    method GetOrCreateBlobForChunkdict(id: string, compressor: Algorithm) returns (r: Result<nat>)
      modifies this
      ensures var e := GetOrCreateBlob(old(blobs), id, compressor);
              (r.Ok? <==> e.Ok?)
              && (r.Ok? ==> r.value == e.value.0 && blobs == e.value.1)
              && (r.Err? ==> r.error == e.error && blobs == old(blobs))
    {
      var found := GetBlobIdxById(id);
      if found.Some? {
        return Ok(found.value);
      }
      if |blobs| >= U32_LIMIT {
        return Err(BlobIndexOverflow);
      }
      blobs := blobs + [FreshBlobContext(id, compressor)];
      return Ok(|blobs| - 1);
    }
  }

  /** The updates insert_chunks makes through the `&mut BlobContext` of the
      descriptor's blob, in the source's order, on a copy of the context:
      the advanced context, or the error that stops the loop. */
  method AdvanceBlobContext(b: BlobContext, infos: seq<ChunkdictBlobInfo>, ci: ChunkdictChunkInfo)
    returns (r: Result<BlobContext>)
    ensures r == AdvanceBlob(b, infos, ci)
  {
    var c := b;
    var preOffset := c.currentUncompressedOffset;
    c := c.(uncompressedBlobSize := preOffset + ci.chunkUncompressedSize);
    c := c.(currentUncompressedOffset := c.currentUncompressedOffset + ci.chunkUncompressedSize);
    c := c.(metaHeader := c.metaHeader.(ciUncompressedSize := c.metaHeader.ciUncompressedSize + RECORD_SIZE));
    c := c.(metaHeader := c.metaHeader.(ciCompressedSize := c.metaHeader.ciUncompressedSize + RECORD_SIZE));
    var info := FindBlobInfo(infos, ci.chunkBlobId);
    if info.None? {
      return Err(UnknownChunkBlob(ci.chunkBlobId));
    }
    var alg := AlgorithmFromStr(info.value.blobCompressor);
    if alg.Err? {
      return Err(alg.error);
    }
    c := c.(compressor := alg.value);
    c := c.(metaHeader := c.metaHeader.(ciUncompressedSize := info.value.blobMetaCiUncompressedSize));
    c := c.(metaHeader := c.metaHeader.(ciCompressedSize := info.value.blobMetaCiCompressedSize));
    c := c.(metaHeader := c.metaHeader.(ciCompressedOffset := info.value.blobMetaCiOffset));
    c := c.(metaHeader := c.metaHeader.(ciCompressor := Zstd));
    if c.chunkCount >= CHUNK_INDEX_LIMIT {
      return Err(ChunkIndexOverflow);
    }
    c := c.(chunkCount := c.chunkCount + 1);
    return Ok(c);
  }

  /** One turn of insert_chunks' loop: the descriptor's blob context
      advances and a chunk bound to it is pushed onto `chunks`. */
  method InsertChunkInfo(mgr: BlobManager, chunks: seq<Chunk>, infos: seq<ChunkdictBlobInfo>, compressor: Algorithm,
                         index: nat, ci: ChunkdictChunkInfo)
    returns (r: Outcome, chunks': seq<Chunk>)
    modifies mgr
    ensures var e := InsertChunk(Inserted(old(mgr.blobs), chunks), infos, compressor, index, ci);
            (r.Pass? <==> e.Ok?)
            && (r.Pass? ==> Inserted(mgr.blobs, chunks') == e.value)
            && (r.Fail? ==> r.error == e.error)
  {
    var fileOffset := index * ci.chunkCompressedSize;
    var found := mgr.GetOrCreateBlobForChunkdict(ci.chunkBlobId, compressor);
    if found.Err? {
      return Fail(found.error), chunks;
    }
    var blobIndex := found.value;
    var chunkIndex := mgr.blobs[blobIndex].chunkCount;
    var advanced := AdvanceBlobContext(mgr.blobs[blobIndex], infos, ci);
    if advanced.Err? {
      return Fail(advanced.error), chunks;
    }
    mgr.blobs := mgr.blobs[blobIndex := advanced.value];
    var chunk := Chunk(blobIndex, chunkIndex, fileOffset, ci.chunkCompressedOffset, ci.chunkCompressedSize,
                       ci.chunkUncompressedOffset, ci.chunkUncompressedSize, ci.chunkDigest);
    return Pass, chunks + [chunk];
  }

  /** insert_chunks: every descriptor in order, stopping at the first
      error; the node's chunks are returned. */
  method InsertChunks(mgr: BlobManager, cis: seq<ChunkdictChunkInfo>, infos: seq<ChunkdictBlobInfo>,
                      compressor: Algorithm)
    returns (r: Outcome, chunks: seq<Chunk>)
    modifies mgr
    ensures var e := InsertAll(old(mgr.blobs), infos, compressor, cis);
            (r.Pass? <==> e.Ok?)
            && (r.Pass? ==> mgr.blobs == e.value.blobs && chunks == e.value.chunks)
            && (r.Fail? ==> r.error == e.error)
  {
    ghost var blobs0 := mgr.blobs;
    chunks := [];
    var i := 0;
    while i < |cis|
      invariant i <= |cis|
      invariant InsertAll(blobs0, infos, compressor, cis[..i]) == Ok(Inserted(mgr.blobs, chunks))
    {
      InsertAllStep(blobs0, infos, compressor, cis, i);
      r, chunks := InsertChunkInfo(mgr, chunks, infos, compressor, i, cis[i]);
      if r.Fail? {
        InsertAllErrSticky(blobs0, infos, compressor, cis, i + 1);
        return;
      }
      i := i + 1;
    }
    assert cis[..i] == cis;
    r := Pass;
  }

  /** build_child_tree: the "/chunkdict" file around the inserted chunks. */
  method BuildChildTree(ctx: BuildContext, mgr: BlobManager, cis: seq<ChunkdictChunkInfo>,
                        infos: seq<ChunkdictBlobInfo>)
    returns (r: Outcome, child: Node)
    modifies mgr
    ensures var e := ChunkdictSpec.BuildChildTree(old(mgr.blobs), infos, ctx.compressor, cis);
            (r.Pass? <==> e.Ok?)
            && (r.Pass? ==> (child, mgr.blobs) == e.value)
            && (r.Fail? ==> r.error == e.error)
  {
    var chunks;
    r, chunks := InsertChunks(mgr, cis, infos, ctx.compressor);
    child := ChildNode(chunks);
  }

  /** generate up to the bootstrap: the descriptors are copied, validated in
      place against the RAFS v6 block size, and the two-node tree is built;
      `warned` is the set of blob ids reported as too small. */
  method Generate(ctx: BuildContext, mgr: BlobManager, origin: seq<ChunkdictChunkInfo>,
                  infos: seq<ChunkdictBlobInfo>)
    returns (r: Outcome, tree: seq<Node>, warned: set<string>)
    modifies mgr
    ensures warned == SmallBlobIds(origin, ctx.v6BlockSize)
    ensures var e := GenerateTree(old(mgr.blobs), infos, ctx.compressor, ctx.v6BlockSize, origin);
            (r.Pass? <==> e.Ok?)
            && (r.Pass? ==> (tree, mgr.blobs) == e.value)
            && (r.Fail? ==> r.error == e.error)
  {
    var chunkdict := new ChunkdictChunkInfo[|origin|](i requires 0 <= i < |origin| => origin[i]);
    assert chunkdict[..] == origin;
    var len;
    len, warned := ValidateAndRemoveChunks(chunkdict, ctx.v6BlockSize);
    var root := RootNode();
    var child;
    r, child := BuildChildTree(ctx, mgr, chunkdict[..len], infos);
    tree := [];
    if r.Pass? {
      tree := [root.(children := [1]), child];
    }
  }
}
