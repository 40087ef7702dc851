/** generate_prefetch as the source runs it: the build tree and the blob table
    are updated in place, the prefetch blob's state lives in one object that
    the chunk loop advances, and every chunk is read through a
    BlobNodeReader. Each method is proved against the functions of
    PrefetchSpec, where the properties of the result are proved. */
module Prefetch {
  import opened Common
  import opened Reader
  import opened PrefetchSpec

  /** The build tree (Tree): an arena of nodes updated in place. */
  class Tree {
    var nodes: seq<Node>

    constructor(nodes: seq<Node>)
      ensures this.nodes == nodes
    {
      this.nodes := nodes;
    }
  }

  /** The RAFS v6 blob table (RafsV6BlobTable). */
  class BlobTable {
    var entries: seq<BlobInfo>

    constructor(entries: seq<BlobInfo>)
      ensures this.entries == entries
    {
      this.entries := entries;
    }

    /** finalize_blob's `blobtable.entries.push(...)`. */
    method Push(info: BlobInfo)
      modifies this
      ensures entries == old(entries) + [info]
    {
      entries := entries + [info];
    }

    /** `entries.iter().filter(|b| b.blob_id() == id).count()`. */
    method CountEntries(id: string) returns (n: nat)
      ensures n == CountId(entries, id)
    {
      n := 0;
      var i := 0;
      while i < |entries|
        invariant i <= |entries|
        invariant n == CountId(entries[..i], id)
      {
        assert entries[..i + 1][..i] == entries[..i];
        if entries[i].blobId == id {
          n := n + 1;
        }
        i := i + 1;
      }
      assert entries[..i] == entries;
    }

    /** build_and_dump_bootstrap's check and rename: fails unless exactly one
        entry is named "Prefetch-blob", and then gives that entry `newId`. */
    method CommitPrefetchBlob(newId: string) returns (r: Outcome)
      modifies this
      ensures r.Pass? <==> Commit(old(entries), newId).Ok?
      ensures r.Pass? ==> entries == Commit(old(entries), newId).value
      ensures r.Fail? ==> r.error == Commit(old(entries), newId).error && entries == old(entries)
    {
      var n := CountEntries(PREFETCH_BLOB_ID);
      if n != 1 {
        return Fail(PlaceholderCount(n));
      }
      Rename(PREFETCH_BLOB_ID, newId);
      return Pass;
    }

    /** The `iter_mut().filter(..).for_each(..)` that gives every entry named
        `from` the id `to`. */
    method Rename(from: string, to: string)
      modifies this
      ensures entries == RewriteId(old(entries), from, to)
    {
      ghost var orig := entries;
      ghost var renamed := RewriteId(orig, from, to);
      RewriteIdEntries(orig, from, to);
      var i := 0;
      while i < |entries|
        invariant |entries| == |orig| && i <= |entries|
        invariant forall k :: 0 <= k < i ==> entries[k] == renamed[k]
        invariant forall k :: i <= k < |orig| ==> entries[k] == orig[k]
      {
        if entries[i].blobId == from {
          entries := entries[i := entries[i].(blobId := to)];
        }
        i := i + 1;
      }
    }
  }

  /** PrefetchBlobState: the prefetch blob's table entry, its blob context,
      the bytes written to the blob file and the chunk count. */
  class PrefetchBlobState {
    var blobInfo: BlobInfo
    var blobCtx: BlobContext
    var blobWriter: seq<bv8>
    var chunkCount: nat

    function State(): RepackState
      reads this
    {
      RepackState(blobInfo, blobCtx, blobWriter, chunkCount)
    }

    /** PrefetchBlobState::new. */
    constructor(ctx: BuildContext, blobLayerNum: u32)
      ensures State() == InitialState(blobLayerNum, ctx.chunkSize)
    {
      var info := BlobInfo(blobLayerNum, PREFETCH_BLOB_ID, 0, 0, ctx.chunkSize, U32_LIMIT - 1,
                           PREFETCH_FEATURES, Plain, 0, 0, 0);
      info := info.(compressor := Zstd);
      var blobContext := FreshBlobContext(info.blobId, info.compressor);
      blobInfo := info;
      blobCtx := blobContext.(chunkCount := 0);
      blobWriter := [];
      chunkCount := 0;
    }

    /** One chunk's turn in the chunk loop, after its bytes were read: they
        are written to the blob file and hashed, the chunk is rebound to this
        blob at the next chunk index and the current offsets, the offsets and
        sizes advance (the uncompressed side by the 4 KiB-aligned size), and
        its record is added to the chunk-info table. */
    method Append(chunk: Chunk, bytes: seq<bv8>) returns (moved: Chunk)
      modifies this
      ensures (State(), moved) == RepackChunk(old(State()), chunk, bytes)
    {
      blobWriter := blobWriter + bytes;
      moved := chunk.(blobIndex := blobInfo.blobIndex, index := chunkCount);
      chunkCount := chunkCount + 1;
      moved := moved.(compressedOffset := blobCtx.currentCompressedOffset,
                      uncompressedOffset := blobCtx.currentUncompressedOffset);
      var aligned := AlignedSize(chunk.uncompressedSize);
      blobCtx := blobCtx.(compressedBlobSize := blobCtx.compressedBlobSize + chunk.compressedSize);
      blobCtx := blobCtx.(uncompressedBlobSize := blobCtx.uncompressedBlobSize + aligned);
      blobCtx := blobCtx.(currentCompressedOffset := blobCtx.currentCompressedOffset + chunk.compressedSize);
      blobCtx := blobCtx.(currentUncompressedOffset := blobCtx.currentUncompressedOffset + aligned);
      blobCtx := blobCtx.(chunkMeta := blobCtx.chunkMeta + [MetaOf(moved)]);
      blobCtx := blobCtx.(hashLog := blobCtx.hashLog + bytes);
      blobInfo := blobInfo.(metaCiCompressedSize := blobInfo.metaCiCompressedSize + RECORD_SIZE);
      blobInfo := blobInfo.(metaCiUncompressedSize := blobInfo.metaCiUncompressedSize + RECORD_SIZE);
    }
  }

  /** process_prefetch_node: finds the node, opens the blob of its first
      chunk, sets the node's layer and copies each chunk into the prefetch
      blob, rebinding it there. The outcome and the new tree and state are
      those of ProcessNode. */
  method ProcessPrefetchNode(tree: Tree, path: string, state: PrefetchBlobState, table: BlobTable,
                             blobs: map<string, seq<bv8>>) returns (r: Outcome)
    modifies tree, state
    ensures r.Pass? <==> ProcessNode(old(tree.nodes), path, old(state.State()), table.entries, blobs).Ok?
    ensures r.Pass? ==> (tree.nodes, state.State())
                        == ProcessNode(old(tree.nodes), path, old(state.State()), table.entries, blobs).value
    ensures r.Fail? ==> r.error == ProcessNode(old(tree.nodes), path, old(state.State()), table.entries, blobs).error
  {
    var found := FindNode(tree.nodes, path);
    if found.None? {
      return Fail(NodeNotFound);
    }
    var k := found.value;
    var node := tree.nodes[k];
    if node.chunks == [] {
      return Fail(NodeWithoutChunks);
    }
    if node.chunks[0].blobIndex >= |table.entries| {
      return Fail(BlobIndexOutOfRange);
    }
    var blobId := table.entries[node.chunks[0].blobIndex].blobId;
    if blobId !in blobs {
      return Fail(BlobFileMissing);
    }
    var blobFile := new BlobFile.Open(blobs[blobId]);
    assert SourceBlob(node, table.entries, blobs) == Ok(blobFile.data);
    ghost var nodes0 := tree.nodes;
    ghost var s0 := state.State();
    var layer := state.blobInfo.blobIndex % U16_LIMIT;
    tree.nodes := tree.nodes[k := tree.nodes[k].(layerIdx := layer)];
    var repacked;
    r, repacked := RepackNodeChunks(blobFile, node.chunks, state);
    if r.Pass? {
      tree.nodes := tree.nodes[k := tree.nodes[k].(chunks := repacked)];
      assert tree.nodes == nodes0[k := node.(layerIdx := s0.info.blobIndex % U16_LIMIT, chunks := repacked)];
    }
  }

  /** The chunk loop of process_prefetch_node over the node's chunk vector:
      each chunk is read from `blobFile` through its own BlobNodeReader,
      appended to the prefetch blob and replaced by its rebound copy. */
  method RepackNodeChunks(blobFile: BlobFile, chunks: seq<Chunk>, state: PrefetchBlobState)
    returns (r: Outcome, repacked: seq<Chunk>)
    modifies blobFile, state
    ensures r.Pass? <==> RepackChunks(old(state.State()), chunks, blobFile.data).Ok?
    ensures r.Pass? ==> (state.State(), repacked) == RepackChunks(old(state.State()), chunks, blobFile.data).value
    ensures r.Fail? ==> r.error == RepackChunks(old(state.State()), chunks, blobFile.data).error
  {
    ghost var s0 := state.State();
    ghost var src := blobFile.data;
    assert chunks[..0] == [];
    repacked := chunks;
    var i := 0;
    while i < |chunks|
      invariant i <= |chunks| == |repacked|
      invariant RepackChunks(s0, chunks[..i], src) == Ok((state.State(), repacked[..i]))
      invariant repacked[i..] == chunks[i..]
    {
      RepackChunksStep(s0, chunks, src, i);
      var ok, bytes := ReadChunkBytes(blobFile, chunks[i]);
      if !ok {
        RepackErrSticky(s0, chunks, src, i + 1);
        return Fail(UnexpectedEof), repacked;
      }
      ghost var prefix := repacked[..i];
      var moved := state.Append(chunks[i], bytes);
      repacked := repacked[i := moved];
      assert repacked[..i + 1] == prefix + [moved];
      assert repacked[i + 1..] == chunks[i + 1..];
      i := i + 1;
    }
    assert chunks[..i] == chunks && repacked[..i] == repacked;
    r := Pass;
  }

  /** Reads one chunk's compressed bytes from its range of the blob file: a
      BlobNodeReader over `[offset, offset + size)` fills a buffer of the
      chunk's compressed size with read_exact. */
  method ReadChunkBytes(blobFile: BlobFile, chunk: Chunk) returns (ok: bool, bytes: seq<bv8>)
    modifies blobFile
    ensures ok <==> ReadChunk(blobFile.data, chunk).Ok?
    ensures ok ==> bytes == ReadChunk(blobFile.data, chunk).value
  {
    var reader := new BlobNodeReader(blobFile, chunk.compressedOffset,
                                     chunk.compressedOffset + chunk.compressedSize);
    var buf := new bv8[chunk.compressedSize];
    ok := reader.ReadExact(buf);
    bytes := buf[..];
  }

  /** finalize_blob as far as the table and the build context go: the
      finalized entry is pushed, and `ctx.blob_id`, cleared first, ends as
      the id that sealing the blob gave it (`sealedId`). */
  method FinalizeBlob(ctx: BuildContext, table: BlobTable, state: PrefetchBlobState, sealedId: string)
    modifies ctx, table
    ensures table.entries == old(table.entries) + [state.blobInfo]
    ensures ctx.blobId == sealedId
  {
    table.Push(state.blobInfo);
    ctx.blobId := "";
    ctx.blobId := sealedId;
  }

  /** generate_prefetch: a fresh prefetch blob at index `|entries|` (as u32),
      every selected node processed in order, the entry finalized, pushed
      and committed under the sealed id. The outcome, the new tree and
      table, and the bytes written to the blob (`blob`) are those of
      PrefetchResult. */
  method GeneratePrefetch(tree: Tree, ctx: BuildContext, table: BlobTable, prefetchNodes: seq<string>,
                          blobs: map<string, seq<bv8>>, sealedId: string) returns (r: Outcome, blob: seq<bv8>)
    modifies tree, ctx, table
    ensures r.Pass? <==> PrefetchResult(old(tree.nodes), prefetchNodes, old(table.entries), blobs,
                                        ctx.chunkSize, sealedId).Ok?
    ensures r.Pass? ==> (tree.nodes, table.entries, blob)
                        == PrefetchResult(old(tree.nodes), prefetchNodes, old(table.entries), blobs,
                                          ctx.chunkSize, sealedId).value
                        && ctx.blobId == sealedId
    ensures r.Fail? ==> r.error == PrefetchResult(old(tree.nodes), prefetchNodes, old(table.entries), blobs,
                                                  ctx.chunkSize, sealedId).error
  {
    var blobLayerNum := |table.entries| % U32_LIMIT;
    var state := new PrefetchBlobState(ctx, blobLayerNum);
    blob := [];
    ghost var s0 := state.State();
    ghost var nodes0 := tree.nodes;
    ghost var table0 := table.entries;
    r := ProcessPrefetchNodes(tree, prefetchNodes, state, table, blobs);
    if r.Fail? {
      return;
    }
    ghost var s := state.State();
    blob := state.blobWriter;
    state.blobInfo := FinalizeBlobinfoMetaData(state.blobInfo, state.chunkCount,
                                               state.blobCtx.currentCompressedOffset,
                                               state.blobCtx.currentUncompressedOffset);
    ghost var info := state.blobInfo;
    FinalizeBlob(ctx, table, state, sealedId);
    ghost var committed := Commit(table0 + [info], sealedId);
    assert PrefetchResult(nodes0, prefetchNodes, table0, blobs, ctx.chunkSize, sealedId)
        == if committed.Ok? then Ok((tree.nodes, committed.value, blob)) else Err(committed.error);
    r := table.CommitPrefetchBlob(ctx.blobId);
  }

  /** generate_prefetch's loop: process_prefetch_node for every selected
      node, in order. */
  method ProcessPrefetchNodes(tree: Tree, paths: seq<string>, state: PrefetchBlobState, table: BlobTable,
                              blobs: map<string, seq<bv8>>) returns (r: Outcome)
    modifies tree, state
    ensures r.Pass? <==> ProcessNodes(old(tree.nodes), paths, old(state.State()), table.entries, blobs).Ok?
    ensures r.Pass? ==> (tree.nodes, state.State())
                        == ProcessNodes(old(tree.nodes), paths, old(state.State()), table.entries, blobs).value
    ensures r.Fail? ==> r.error == ProcessNodes(old(tree.nodes), paths, old(state.State()), table.entries, blobs).error
  {
    ghost var s0 := state.State();
    ghost var nodes0 := tree.nodes;
    ghost var entries := table.entries;
    assert paths[..0] == [];
    var i := 0;
    while i < |paths|
      invariant i <= |paths|
      invariant ProcessNodes(nodes0, paths[..i], s0, entries, blobs) == Ok((tree.nodes, state.State()))
    {
      ghost var nodes, s := tree.nodes, state.State();
      ProcessNodesStep(nodes0, paths, s0, entries, blobs, i);
      ghost var next := ProcessNode(nodes, paths[i], s, entries, blobs);
      assert ProcessNodes(nodes0, paths[..i + 1], s0, entries, blobs) == next;
      r := ProcessPrefetchNode(tree, paths[i], state, table, blobs);
      if r.Fail? {
        assert next == Err(r.error);
        ProcessNodesErrSticky(nodes0, paths, s0, entries, blobs, i + 1);
        return;
      }
      assert next == Ok((tree.nodes, state.State()));
      i := i + 1;
    }
    assert paths[..i] == paths;
    r := Pass;
  }
}
