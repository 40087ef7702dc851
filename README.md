# Chunk-dictionary and prefetch-blob generator (nydus builder)

This project models the generator in `builder/src/chunkdict_generator.rs`
of the nydus image builder and proves properties of that model. The file
does two jobs:

- **generate** builds a chunk dictionary from chunk descriptors
  (`ChunkdictChunkInfo`) and blob descriptors (`ChunkdictBlobInfo`).
  1. `validate_and_remove_chunks` drops every chunk whose blob's chunks
     add up to less than the RAFS v6 block size, and warns about each such
     blob.
  2. `build_root_tree` makes the root directory `/`.
  3. `build_child_tree` makes the regular file `/chunkdict`.
  4. `insert_chunks` binds each kept chunk to the build's blob context for
     its source blob, creating the context when needed. It gives the chunk
     that blob's next chunk index and advances the blob's uncompressed
     offset.
- **generate_prefetch** repacks the chunks of the selected tree nodes into
  one new blob, the prefetch blob.
  1. `process_prefetch_node` reads every chunk of a node through a
     `BlobNodeReader`, a reader bounded to one chunk's byte range. It
     appends the bytes to the new blob and rebinds the chunk there. The new
     compressed offsets are the running byte counts. The uncompressed
     offsets advance by 4 KiB-aligned sizes.
  2. `finalize_blobinfo_meta_data` fills in the new blob's table entry.
  3. `finalize_blob` pushes that entry onto the blob table.
  4. `build_and_dump_bootstrap` checks that exactly one entry carries the
     placeholder id `"Prefetch-blob"` and renames that entry to the sealed
     blob's id.

Layout:

| file | module | contents |
|---|---|---|
| `common.dfy` | `Common` | integer widths, errors, chunk, blob and tree records, `try_round_up_4k`, `Algorithm::from_str` |
| `reader.dfy` | `Reader` | the source blob file and `BlobNodeReader` as classes: `new`, `read`, `read_exact` |
| `chunk_filter.dfy` | `ChunkFilter` | `validate_and_remove_chunks`: the accumulation loop, `Vec::retain` in place on an array, and the reference filter with its lemmas |
| `prefetch_spec.dfy` | `PrefetchSpec` | the repacking, node loop, finalization and id rewrite as functions, with their lemmas |
| `prefetch.dfy` | `Prefetch` | `generate_prefetch` as the source runs it: the tree, the blob table and `PrefetchBlobState` as classes updated in place, each method proved against `PrefetchSpec` |
| `chunkdict_spec.dfy` | `ChunkdictSpec` | `insert_chunks`, `build_root_tree`, `build_child_tree` and `generate` as functions, with their lemmas |
| `chunkdict.dfy` | `Chunkdict` | `generate` as the source runs it: a `BlobManager` class updated in place, each method proved against `ChunkdictSpec` |

Conventions:

- Every `unwrap()` or `assert!` that can panic and every `?` is an error
  value, either `Result.Err` or `Outcome.Fail`. Each kind of failure has
  its own `Error` constructor.
- Byte buffers are `seq<bv8>`.
- The blob files under `blobs_dir_path` are a map from blob id to bytes.
- The id that sealing the prefetch blob writes into `ctx.blob_id` is the
  parameter `sealedId`.
- The tree is an arena of nodes, and `children` holds arena indices.

## Model

| member | source | states |
|---|---|---|
| `Common.TryRoundUp4k` | builder/src/chunkdict_generator.rs:374-375 | the result exists exactly when `x + 4095` fits in 64 bits; it is then the least multiple of 4096 not below `x` |
| `Common.AlignedSize` | builder/src/chunkdict_generator.rs:374-375 | the unwrap never panics for a u32 size; the result is 4 KiB aligned and less than 4096 above the size |
| `Common.AlgorithmFromStr` | builder/src/chunkdict_generator.rs:552-553 | fails exactly on names other than none, lz4_block, gzip and zstd, and reports the name |
| `Common.FindNode` | builder/src/chunkdict_generator.rs:323-327 | the first node with the path, or none exactly when no node has it |
| `Reader.BlobFile.Open` | builder/src/chunkdict_generator.rs:337 | an opened file holds its bytes and starts at offset 0 |
| `Reader.BlobFile.Seek` | builder/src/chunkdict_generator.rs:90 | the file offset becomes the position asked for |
| `Reader.BlobFile.Read` | builder/src/chunkdict_generator.rs:103 | copies min(room, bytes left) file bytes into the buffer, leaves the rest of the buffer alone and advances the offset by the count |
| `Reader.BlobNodeReader.constructor` | builder/src/chunkdict_generator.rs:83-92 | the cursor starts at `start` and the shared file is positioned there |
| `Reader.BlobNodeReader.Read` | builder/src/chunkdict_generator.rs:96-106 | returns 0 once the cursor is past `end`; otherwise returns min(buffer room, end - position, file bytes left) bytes from the file; the cursor and file offset move by that count; the cursor never passes `end` |
| `Reader.BlobNodeReader.ReadExact` | builder/src/chunkdict_generator.rs:358-359 | succeeds exactly when the range and the file both hold the buffer's length; the buffer then holds the file bytes from the old offset, and the cursor and the file offset have both moved by the buffer's length |
| `ChunkFilter.SmallBlobIds` | builder/src/chunkdict_generator.rs:421-433 | the blob ids whose chunks add up to less than the block size, the ids warned about; their meaning is stated by `RetainedSmallIsValidated` |
| `ChunkFilter.Validated` | builder/src/chunkdict_generator.rs:413-437 | the reference filter: the chunks, in order, whose blob total reaches the block size; its properties are the `Validated*` and `KeepLarge*` lemmas below |
| `ChunkFilter.GroupTotalAbsent` | builder/src/chunkdict_generator.rs:417-420 | a blob with no chunks has total 0 |
| `ChunkFilter.AccumulateSizes` | builder/src/chunkdict_generator.rs:414-420 | the map's keys are exactly the blob ids that occur, each mapped to its summed uncompressed size |
| `ChunkFilter.Retain` | builder/src/chunkdict_generator.rs:436 | compacts in place: the first `len` elements are the old elements, in order, whose blob id is not in the small set |
| `ChunkFilter.RetainedSmallIsValidated` | builder/src/chunkdict_generator.rs:421-436 | dropping the ids below the block size keeps exactly the chunks whose blob total reaches it |
| `ChunkFilter.ValidateAndRemoveChunks` | builder/src/chunkdict_generator.rs:413-437 | the warned ids are exactly the blobs below the block size; the vector shrinks to the validated list |
| `ChunkFilter.KeepLargeCount` | builder/src/chunkdict_generator.rs:436 | each chunk keeps its multiplicity when its blob is large enough, and 0 otherwise |
| `ChunkFilter.ValidatedCount` | builder/src/chunkdict_generator.rs:413-437 | as a multiset, the result is the input restricted to large blobs: none dropped from a kept blob, none surviving from a small one |
| `ChunkFilter.KeepLargeGroupTotal` | builder/src/chunkdict_generator.rs:436 | each blob's total in the filtered part is its total in the part when the blob is large, and 0 otherwise |
| `ChunkFilter.ValidatedGroupTotal` | builder/src/chunkdict_generator.rs:413-437 | every blob keeps its whole total when it reaches the block size, and nothing otherwise |
| `ChunkFilter.KeepLargeElements` | builder/src/chunkdict_generator.rs:435-436 | every surviving chunk's blob reaches the block size |
| `ChunkFilter.KeepLargeKeepsAll` | builder/src/chunkdict_generator.rs:435-436 | a list whose blobs all reach the block size is left unchanged |
| `ChunkFilter.ValidatedIdempotent` | builder/src/chunkdict_generator.rs:413-437 | validating twice removes nothing more |
| `ChunkFilter.KeepLargeAppend` | builder/src/chunkdict_generator.rs:436 | filtering distributes over concatenation |
| `ChunkFilter.ValidatedPreservesOrder` | builder/src/chunkdict_generator.rs:436 | at any split point the result is the filtered prefix followed by the filtered suffix, so the kept chunks keep their order |
| `ChunkFilter.FilterExample` | builder/src/chunkdict_generator.rs:413-437 | blob A (2048+2048+512 bytes) survives a 4096-byte block; the 1000-byte blob B is dropped and is the one id warned about |
| `ChunkFilter.FilterExampleTotals` | builder/src/chunkdict_generator.rs:417-420 | the example's totals are 4608 for A and 1000 for B, and its ids are {A, B} |
| `PrefetchSpec.InitialState` | builder/src/chunkdict_generator.rs:126-154 | the state `PrefetchBlobState::new` builds: entry at the given index, id "Prefetch-blob", zstd, the build's chunk size, chunk count u32::MAX, the five features, a fresh zstd context, no chunks and nothing written; `InitialStateInv` proves its invariant |
| `PrefetchSpec.InitialStateInv` | builder/src/chunkdict_generator.rs:126-154 | the new state, named "Prefetch-blob", satisfies the repacking invariant: hash = bytes written = compressed offset, aligned uncompressed offset, one record per chunk, meta sizes counting them |
| `PrefetchSpec.ReadChunk` | builder/src/chunkdict_generator.rs:351-359 | succeeds exactly when the chunk's range can be read, and then yields exactly compressed-size bytes |
| `PrefetchSpec.RepackChunk` | builder/src/chunkdict_generator.rs:360-391 | one chunk: its bytes appended to the blob and the hash, the chunk rebound to the new blob at the running offsets and the next chunk index, the offsets advanced (the uncompressed one by the 4 KiB-rounded size) and one meta record added; `RepackChunkKeepsInv` proves it keeps the invariant |
| `PrefetchSpec.RepackChunks` | builder/src/chunkdict_generator.rs:350-393 | the chunk loop of one node, in order, stopping at the first chunk that cannot be read; its effect is stated by `RepackedState`, `RepackedChunks`, `RepackedBytes` and `RepackSucceeds` |
| `PrefetchSpec.RepackedState` | builder/src/chunkdict_generator.rs:350-392 | after a node's chunks: the count grows by one per chunk; the compressed offset and blob size grow by the compressed total; the uncompressed ones grow by the aligned total; the meta sizes grow by 16 per chunk |
| `PrefetchSpec.RepackedChunks` | builder/src/chunkdict_generator.rs:365-373 | chunk i keeps its sizes, digest and file offset and gets the new blob index, chunk index `chunkCount + i`, and the running offsets before it |
| `PrefetchSpec.RepackedOffsetsOrdered` | builder/src/chunkdict_generator.rs:370-377 | repacked chunks do not overlap: each starts after the compressed extent and the 4 KiB-rounded extent of every earlier one |
| `PrefetchSpec.RepackedOffsetsAligned` | builder/src/chunkdict_generator.rs:373-377 | starting from an aligned offset, every uncompressed offset is a multiple of 4096 |
| `PrefetchSpec.RepackSucceeds` | builder/src/chunkdict_generator.rs:350-359 | the chunk loop completes exactly when every chunk's range is readable |
| `PrefetchSpec.RepackedBytes` | builder/src/chunkdict_generator.rs:358-360 | round trip: the new blob holds, at each chunk's new compressed offset, exactly the bytes read from its old range; earlier bytes are untouched |
| `PrefetchSpec.RepackChunkKeepsInv` | builder/src/chunkdict_generator.rs:360-391 | one chunk keeps the repacking invariant |
| `PrefetchSpec.RepackKeepsInv` | builder/src/chunkdict_generator.rs:350-392 | the whole chunk loop keeps the repacking invariant |
| `PrefetchSpec.RepackExample` | builder/src/chunkdict_generator.rs:365-377 | chunks of 100 and 5000 bytes land at uncompressed offsets 0 and 4096; the offset ends at 12288 |
| `PrefetchSpec.ProcessNode` | builder/src/chunkdict_generator.rs:315-395 | process_prefetch_node: find the node (else NodeNotFound), look up its first chunk's blob in the table (else NodeWithoutChunks or BlobIndexOutOfRange) and on disk (else BlobFileMissing), set the layer, repack the chunks; stated by `ProcessNodeEffect` and `ProcessNodeKeepsInv` |
| `PrefetchSpec.ProcessNodes` | builder/src/chunkdict_generator.rs:206-215 | the loop over the selected nodes, in order, stopping at the first failure; stated by `ProcessNodesKeepsInv`, `ProcessNodesMoved` and `PrefetchMoved` |
| `PrefetchSpec.ProcessNodeEffect` | builder/src/chunkdict_generator.rs:315-395 | on success: the node was found; it has chunks; its first chunk's blob is in the table and on disk; only that node changes; its layer becomes the blob index as u16; each chunk is rebound and holds its source bytes at its new offset |
| `PrefetchSpec.ProcessNodeKeepsInv` | builder/src/chunkdict_generator.rs:315-395 | one node keeps the invariant, the entry's index and id, and every node's path and chunk count; the chunk count grows by exactly that node's chunks; bytes are only appended |
| `PrefetchSpec.ProcessNodesKeepsInv` | builder/src/chunkdict_generator.rs:204-215 | the node loop keeps the same facts over all selected nodes; the chunk count grows by exactly the chunks of the nodes the paths name, counted path by path |
| `PrefetchSpec.NotRevisited` | builder/src/chunkdict_generator.rs:328-336 | a node the loop has already repacked cannot be processed again: its first chunk now names the new blob, which is past the end of the table, so the lookup fails |
| `PrefetchSpec.PassMovedStep` | builder/src/chunkdict_generator.rs:206-215 | one more node extends what the loop has done: that node moves, with chunk indices following all earlier ones; the nodes moved earlier still hold their bytes; nodes no path names stay as they were |
| `PrefetchSpec.ProcessNodesMoved` | builder/src/chunkdict_generator.rs:206-215 | after the whole loop: no path repeats; the node of each path has moved into the new blob with its chunk indices following those of the earlier paths, and holds its source bytes there; nodes no path names are unchanged |

| `PrefetchSpec.FinalizeBlobinfoMetaData` | builder/src/chunkdict_generator.rs:303-313 | the entry's meta offset becomes 0x200 plus the uncompressed offset; its chunk count and both sizes become the running values; `FinalizedHeader` proves the result consistent |
| `PrefetchSpec.FinalizedHeader` | builder/src/chunkdict_generator.rs:303-313 | the finalized entry is consistent: meta sizes are 16 per chunk; the chunk count matches the records; the compressed size is the bytes written; the uncompressed size is aligned; the meta table starts at 0x200 plus the uncompressed size |
| `PrefetchSpec.RewriteId` | builder/src/chunkdict_generator.rs:261-269 | every entry with the old id is renamed; stated by `RewriteIdEntries` and `RewriteIdCounts` |
| `PrefetchSpec.RewriteIdEntries` | builder/src/chunkdict_generator.rs:261-269 | the rename keeps the length and changes only the id, and only of entries with the old id |
| `PrefetchSpec.RewriteIdCounts` | builder/src/chunkdict_generator.rs:261-269 | afterwards no entry has the old id, and the new id counts both groups |
| `PrefetchSpec.CountIdAppend` | builder/src/chunkdict_generator.rs:249-255 | pushing an entry adds one to its id's count and nothing to the others |
| `PrefetchSpec.Commit` | builder/src/chunkdict_generator.rs:249-269 | the assertion and the rename: fails with the count unless exactly one entry carries the placeholder id, and otherwise renames it to the sealed id |
| `PrefetchSpec.PrefetchResult` | builder/src/chunkdict_generator.rs:192-235 | generate_prefetch as a function: the new tree, the new table and the bytes written to the prefetch blob; stated by `PrefetchCommitted` and `PrefetchMoved` |
| `PrefetchSpec.PrefetchCommitted` | builder/src/chunkdict_generator.rs:192-235 | on success (see below) |
| `PrefetchSpec.PrefetchMoved` | builder/src/chunkdict_generator.rs:192-235 | on success, with fewer than 2^32 table entries: no path is processed twice; nodes no path names are unchanged; the node of the i-th path takes layer `|table|` as u16 and binds every chunk to blob `|table|`; chunk indices run 0, 1, … across the nodes in path order, all below the chunk count; every chunk finds its source bytes in the new blob at its new compressed offset |

| `Prefetch.BlobTable.Push` | builder/src/chunkdict_generator.rs:288 | the entry is appended at the end |
| `Prefetch.BlobTable.CountEntries` | builder/src/chunkdict_generator.rs:249-255 | returns the number of entries with the id |
| `Prefetch.BlobTable.CommitPrefetchBlob` | builder/src/chunkdict_generator.rs:249-269 | fails with the count unless exactly one placeholder exists, and then leaves the table unchanged; otherwise the table is the renamed one |
| `Prefetch.BlobTable.Rename` | builder/src/chunkdict_generator.rs:261-269 | the table becomes RewriteId of the old table |
| `Prefetch.PrefetchBlobState.constructor` | builder/src/chunkdict_generator.rs:126-154 | the state is the initial one: entry at the given index, placeholder id, zstd, chunk count u32::MAX, the five features, nothing written |
| `Prefetch.PrefetchBlobState.Append` | builder/src/chunkdict_generator.rs:360-391 | the state and rebound chunk are one RepackChunk step |
| `Prefetch.ReadChunkBytes` | builder/src/chunkdict_generator.rs:352-359 | reading through a BlobNodeReader succeeds exactly as ReadChunk does, with its bytes |
| `Prefetch.RepackNodeChunks` | builder/src/chunkdict_generator.rs:350-393 | outcome, new state and rebound chunks are those of RepackChunks |
| `Prefetch.ProcessPrefetchNode` | builder/src/chunkdict_generator.rs:315-395 | outcome, tree and state are those of ProcessNode |
| `Prefetch.ProcessPrefetchNodes` | builder/src/chunkdict_generator.rs:204-215 | outcome, tree and state are those of ProcessNodes |
| `Prefetch.FinalizeBlob` | builder/src/chunkdict_generator.rs:283-301 | the state's entry is pushed, and `ctx.blob_id` ends as the sealed id |
| `Prefetch.GeneratePrefetch` | builder/src/chunkdict_generator.rs:192-235 | outcome, tree, table and the bytes written to the blob are those of PrefetchResult, and `ctx.blob_id` is the sealed id |
| `ChunkdictSpec.GetOrCreateBlob` | builder/src/chunkdict_generator.rs:533-534 | finds the first context with the id, or appends a fresh one at the next index; fails only when the id is new and the table is full (u32); every other id is found where it was |
| `ChunkdictSpec.FindBlobInfo` | builder/src/chunkdict_generator.rs:548-551 | a descriptor with the id from the list, or none exactly when no descriptor has it |
| `ChunkdictSpec.AdvanceBlob` | builder/src/chunkdict_generator.rs:535-566 | one descriptor's effect on its blob context, in the source's order: offset and size advance, the descriptor's blob gives the meta header and compressor (else UnknownChunkBlob or UnknownCompressor), and a chunk index is taken (else ChunkIndexOverflow); stated by `InsertChunkShape` |
| `ChunkdictSpec.InsertChunk` | builder/src/chunkdict_generator.rs:527-579 | one loop turn: find or create the blob context, advance it, and push the chunk built from the descriptor; stated by `InsertChunkShape` and `InsertChunkSucceeds` |
| `ChunkdictSpec.InsertAll` | builder/src/chunkdict_generator.rs:520-582 | insert_chunks: the loop over the descriptors in order, stopping at the first failure; stated by `InsertAllTracks`, `InsertedChunks`, `InsertedContexts`, `InsertedFrame`, `InsertAllNeeds` and `InsertAllSucceeds` |
| `ChunkdictSpec.InsertChunkShape` | builder/src/chunkdict_generator.rs:532-579 | one insert changes only the found-or-created context (one more chunk index, offset advanced, descriptor header and compressor) and pushes one chunk |
| `ChunkdictSpec.InsertAllTracks` | builder/src/chunkdict_generator.rs:527-580 | the loop invariant Tracks holds after all descriptors |
| `ChunkdictSpec.InsertedChunks` | builder/src/chunkdict_generator.rs:527-579 | chunk i comes from descriptor i: same sizes, offsets and digest; file offset `i * compressed size`; bound to its blob's context; index = the blob's old count + earlier descriptors of that blob |
| `ChunkdictSpec.InsertedIndicesDistinct` | builder/src/chunkdict_generator.rs:566-568 | chunk indices are below 0xffffff and strictly increase among chunks of the same blob |
| `ChunkdictSpec.InsertedContexts` | builder/src/chunkdict_generator.rs:533-566 | every named blob's context is found and has grown by its descriptors' count and uncompressed sizes, with the blob's header and compressor |
| `ChunkdictSpec.InsertedFrame` | builder/src/chunkdict_generator.rs:533-534 | nothing else changes: other contexts stay put; only named blobs are added; old lookups keep their index |
| `ChunkdictSpec.InsertAllNeeds` | builder/src/chunkdict_generator.rs:548-566 | success implies every blob has a descriptor with a known compressor and stays under the chunk index limit |
| `ChunkdictSpec.InsertChunkSucceeds` | builder/src/chunkdict_generator.rs:532-566 | one insert succeeds when its context can be found or added, its descriptor and compressor are known and its count is below the limit |
| `ChunkdictSpec.InsertAllSucceeds` | builder/src/chunkdict_generator.rs:527-582 | conversely, those needs plus room in the u32 blob table make the loop succeed |
| `ChunkdictSpec.ChunksSizeMatches` | builder/src/chunkdict_generator.rs:503-508 | the node size summed over the chunks equals the sum over the descriptors |
| `ChunkdictSpec.RootNode` | builder/src/chunkdict_generator.rs:440-467 | a directory at "/" with permission bits 0o660: inode 1, uid and gid 1000, three links, 256 blocks, no chunks or children |
| `ChunkdictSpec.ChildNode` | builder/src/chunkdict_generator.rs:476-511 | a regular file at "/chunkdict" with permission bits 0o660: inode 2, uid and gid 0, one link, 256 blocks; it holds exactly the given chunks, its size is their uncompressed total and its child count their number as u32 |
| `ChunkdictSpec.BuildChildTree` | builder/src/chunkdict_generator.rs:470-517 | build_child_tree: insert the chunks, then the child node around them and the contexts the blob manager ends with; stated by `GenerateShape` |

| `ChunkdictSpec.GenerateTree` | builder/src/chunkdict_generator.rs:159-177 | generate up to the bootstrap: validate, build the child from the kept descriptors and hang it under the root; stated by `GenerateShape` |
| `ChunkdictSpec.GenerateShape` | builder/src/chunkdict_generator.rs:159-177 | the tree is "/" (inode 1, uid and gid 1000, three links) with the single child "/chunkdict" (inode 2, uid and gid 0, one link); the file holds one chunk per kept descriptor, in order, each from a large blob; its size is the kept total and its child count the number kept (as u32) |
| `ChunkdictSpec.GenerateExample` | builder/src/chunkdict_generator.rs:159-175 | with a 4096-byte block, the small blob B is dropped before insertion; A's two chunks take indices 0 and 1 and file offsets 0 and 2048 in a fresh context 0; the file is 4096 bytes |
| `Chunkdict.BlobManager.GetBlobIdxById` | builder/src/chunkdict_generator.rs:533-534 | returns the first context index with the id |
| `Chunkdict.BlobManager.GetOrCreateBlobForChunkdict` | builder/src/chunkdict_generator.rs:533-534 | result and new contexts are those of GetOrCreateBlob; on failure nothing changes |
| `Chunkdict.AdvanceBlobContext` | builder/src/chunkdict_generator.rs:535-566 | the context updates, in the source's order, are those of AdvanceBlob |
| `Chunkdict.InsertChunkInfo` | builder/src/chunkdict_generator.rs:527-579 | one loop turn: outcome, contexts and chunks are those of InsertChunk |
| `Chunkdict.InsertChunks` | builder/src/chunkdict_generator.rs:520-582 | outcome, contexts and chunks are those of InsertAll |
| `Chunkdict.BuildChildTree` | builder/src/chunkdict_generator.rs:470-517 | outcome, node and contexts are those of `ChunkdictSpec.BuildChildTree` |
| `Chunkdict.Generate` | builder/src/chunkdict_generator.rs:159-177 | the warned ids are the small blobs; outcome, tree and contexts are those of GenerateTree |

`PrefetchSpec.PrefetchCommitted` states that a successful generate_prefetch means:

- the old table had no placeholder entry;
- the tree kept its size;
- the table grew by exactly one entry and the old entries are unchanged;
- the new entry sits at index `|table|` (as u32) and carries the sealed id;
- no placeholder remains;
- the new entry's header is consistent, as in `FinalizedHeader`;
- its chunk count is the number of chunks of the nodes the paths name;
- its compressed size is the number of bytes written to the blob.

## Left out

- Building and dumping the bootstrap is not modelled: `Bootstrap::new`,
  `build`, `dump`, `to_blob_table` and `BuildOutput` (lines 179-188,
  243-247, 271-278). The model stops at the tree and the blob table they
  would serialize.
- `validate_tree` (lines 397-410) only logs, so it is left out.
  `v5_set_dir_size` (line 515) only matters for RAFS v5, so it is left out
  too.
- The internals of `finalize_blob` are not modelled: `finalize_blob_data`,
  `dump_meta_data` and the sealing `finalize_blob` (lines 289-300). They
  write blob trailers and compute the blob digest. Their one effect the
  model keeps is `ctx.blob_id`, which becomes the parameter `sealedId`.
- `BatchContextGenerator::generate_chunk_info` (lines 361-368) is left
  out. It builds the batch and encryption record that goes with each
  chunk-info entry. The model keeps only the four offset and size fields
  of each `BlobChunkInfoV1Ondisk` record (16 bytes each).
- `NodeInfo` fields, xattrs, the `InodeWrapper` version and `ChunkSource`
  are left out: nothing here reads them.
- `RafsDigest::from_string` (line 574) is left out. The chunk digest stays
  the descriptor's string.
- `eprintln!` (lines 426-430) becomes the returned set `warned` of blob
  ids. The order of the warnings follows HashMap iteration, so it is
  unspecified and not modelled.
- File I/O is modelled on in-memory bytes. Only a missing file and a short
  read (EOF) are modelled as failures. Other I/O errors, and
  `write_all` to the artifact writer, cannot fail in the model.
- `builder/src/core/context.rs` is not part of this model. The model
  assumes what it needs from it:
  * `get_or_cerate_blob_for_chunkdict` returns the first context with the
    id, or appends a fresh context that takes the chunk's blob id, with
    `ctx.blob_id` empty and the build's compressor.
  * `alloc_index` refuses a blob index past u32.
  * `alloc_chunk_index` refuses a chunk index at 0xff_ffff.
- `Algorithm::from_str` is assumed to accept exactly "none", "lz4_block",
  "gzip" and "zstd". The crate that defines it is not part of this model.
- The `unwrap()` of `PrefetchBlobState::new` and of
  `BatchContextGenerator::new(4096)` (lines 203-205) is assumed never to
  fail. They fail only when `BlobContext::from` or the writer of the new
  blob file fails, or when the batch generator refuses its size; none of
  these is modelled.
- `set_current_blob_index` and `current_blob_index` are not modelled. The
  temporary blob manager inside `finalize_blob` holds only the prefetch
  blob.
- Chunkdict.InsertChunks: says nothing of the blob contexts after a
  failure. The source has already updated a context in place by the time
  `from_str` or `alloc_chunk_index` fails.
- Chunkdict.InsertChunkInfo: says nothing of the blob contexts after a
  failure, for the same reason.
- ChunkdictSpec.InsertedChunks: treats file offsets (`index * chunk_size`)
  as unbounded integers. They are u64 in the source, and overflowing them
  needs more than 16 EiB of data.
- ChunkdictSpec.InsertedContexts: treats the blob sizes and offsets as
  unbounded integers rather than u64, for the same reason.
- ChunkdictSpec.GenerateShape: treats the node size as an unbounded sum
  rather than a u64.
- PrefetchSpec.RepackedState: treats `chunk_count` and the running
  offsets as unbounded. In the source `chunk_count` is a u32 and the
  offsets are u64, so wrap-around after 2^32 chunks is not modelled.
- ChunkFilter.AccumulateSizes: sums the uncompressed sizes per blob as
  unbounded integers. The source sums into a u64 (lines 418-419); the
  sum overflows only past 16 EiB of chunks in one blob.
- PrefetchSpec.PrefetchMoved: needs fewer than 2^32 table entries. With
  more, the u32 blob index wraps, a repacked node looks bound to an
  existing blob, and the source could process it again.
- Prefetch.PrefetchBlobState.Append: does not model the u32 wrap-around
  of `chunk_count`, for the same reason.
- `Tree::get_node_mut` is not part of this model. Its search is modelled
  as the first node of the arena with a matching path.
- The meta table offset is computed as 0x200 plus the uncompressed data
  offset, as the code does at line 309. A description of the format that
  adds the uncompressed meta size instead is not followed.
- Lines 540-547 set the header's ci sizes from the running ci
  uncompressed size. Lines 555-563 overwrite them with the descriptor's
  values. The model keeps both writes in `ChunkdictSpec.AdvanceBlob`, but
  only the second is observable on success.
