/** Types and constants shared by the chunk-dictionary generator and the
    prefetch-blob repacker: the fixed-width integers of the Rust source, the
    error paths it panics or returns on, chunk and blob records, tree nodes and
    the 4 KiB round-up. */
module Common {

  datatype Option<T> = None | Some(value: T)

  /** Every way the modelled code stops: an `unwrap`/`assert!` that panics or
      an `Err` returned through `?`. */
  datatype Error =
    | UnexpectedEof              // read_exact could not fill its buffer
    | NodeNotFound               // tree.get_node_mut(path) found nothing
    | NodeWithoutChunks          // chunks.first() of a prefetch node is None
    | BlobIndexOutOfRange        // blobtable.entries.get(blob_index) is None
    | BlobFileMissing            // File::open of the source blob failed
    | PlaceholderCount(n: nat)   // not exactly one "Prefetch-blob" entry
    | UnknownChunkBlob(id: string)   // no ChunkdictBlobInfo carries this blob id
    | UnknownCompressor(name: string) // Algorithm::from_str failed
    | ChunkIndexOverflow         // alloc_chunk_index ran out of chunk ids
    | BlobIndexOverflow          // alloc_index: the blob count does not fit in u32

  datatype Result<T> = Ok(value: T) | Err(error: Error)

  datatype Outcome = Pass | Fail(error: Error)

  const U16_LIMIT: nat := 0x1_0000
  const U32_LIMIT: nat := 0x1_0000_0000
  const U64_LIMIT: nat := 0x1_0000_0000_0000_0000

  type u32 = x: nat | x < U32_LIMIT
  type u64 = x: nat | x < U64_LIMIT

  function Min(a: nat, b: nat): nat { if a <= b then a else b }

  /** Alignment of every chunk's uncompressed offset in a repacked blob. */
  const PAGE_SIZE: nat := 4096
  /** size_of::<BlobChunkInfoV1Ondisk>(): two little-endian u64 words. */
  const RECORD_SIZE: nat := 16
  /** Size of the blob meta header that precedes the chunk-info table. */
  const META_HEADER_SIZE: nat := 0x200
  /** RAFS v6 chunk ids are 24 bits wide; alloc_chunk_index refuses beyond. */
  const CHUNK_INDEX_LIMIT: nat := 0xff_ffff
  /** The placeholder id under which the prefetch blob is built. */
  const PREFETCH_BLOB_ID: string := "Prefetch-blob"

  /** `try_round_up_4k` on a u64: the least multiple of 4096 not below `x`,
      or None when `x + 4095` does not fit in 64 bits. */
  function TryRoundUp4k(x: u64): (r: Option<u64>)
    ensures r.Some? <==> x + (PAGE_SIZE - 1) < U64_LIMIT
    ensures r.Some? ==> r.value % PAGE_SIZE == 0 && x <= r.value < x + PAGE_SIZE
  {
    if x + (PAGE_SIZE - 1) < U64_LIMIT then Some((x + (PAGE_SIZE - 1)) / PAGE_SIZE * PAGE_SIZE)
    else None
  }

  /** The 4 KiB-aligned size of a chunk: `try_round_up_4k(size).unwrap()`,
      which never panics for a u32 size. */
  function AlignedSize(size: u32): (r: nat)
    ensures r % PAGE_SIZE == 0 && size <= r < size + PAGE_SIZE
  {
    TryRoundUp4k(size).value
  }

  /** nydus_utils::compress::Algorithm (`None` is named Plain here). */
  datatype Algorithm = Plain | Lz4Block | GZip | Zstd

  /** Algorithm::from_str. */
  function AlgorithmFromStr(name: string): (r: Result<Algorithm>)
    ensures r.Err? <==> name !in {"none", "lz4_block", "gzip", "zstd"}
    ensures r.Err? ==> r.error == UnknownCompressor(name)
  {
    if name == "none" then Ok(Plain)
    else if name == "lz4_block" then Ok(Lz4Block)
    else if name == "gzip" then Ok(GZip)
    else if name == "zstd" then Ok(Zstd)
    else Err(UnknownCompressor(name))
  }

  /** One chunk descriptor of the chunk dictionary (ChunkdictChunkInfo). */
  datatype ChunkdictChunkInfo = ChunkdictChunkInfo(
    imageReference: string,
    version: string,
    chunkBlobId: string,
    chunkDigest: string,
    chunkCompressedSize: u32,
    chunkUncompressedSize: u32,
    chunkCompressedOffset: u64,
    chunkUncompressedOffset: u64)

  /** A chunk of a tree node (ChunkWrapper): where its bytes live. */
  datatype Chunk = Chunk(
    blobIndex: nat,
    index: nat,
    fileOffset: nat,
    compressedOffset: nat,
    compressedSize: u32,
    uncompressedOffset: nat,
    uncompressedSize: u32,
    digest: string)

  /** One record of a blob's chunk-info table (BlobChunkInfoV1Ondisk). */
  datatype ChunkMeta = ChunkMeta(
    compressedOffset: nat,
    compressedSize: u32,
    uncompressedOffset: nat,
    uncompressedSize: u32)

  function MetaOf(c: Chunk): ChunkMeta {
    ChunkMeta(c.compressedOffset, c.compressedSize, c.uncompressedOffset, c.uncompressedSize)
  }

  /** The ci_* fields of a blob's meta header (BlobCompMetaHeader). */
  datatype MetaHeader = MetaHeader(
    ciCompressedSize: nat,
    ciUncompressedSize: nat,
    ciCompressedOffset: nat,
    ciCompressor: Algorithm)

  /** The state of one blob being written (BlobContext); `hashLog` is every
      byte absorbed by `blob_hash.update`, in order. */
  datatype BlobContext = BlobContext(
    blobId: string,
    compressor: Algorithm,
    chunkCount: nat,
    currentCompressedOffset: nat,
    currentUncompressedOffset: nat,
    compressedBlobSize: nat,
    uncompressedBlobSize: nat,
    metaHeader: MetaHeader,
    chunkMeta: seq<ChunkMeta>,
    hashLog: seq<bv8>)

  /** A blob context with nothing written yet. */
  function FreshBlobContext(id: string, compressor: Algorithm): BlobContext {
    BlobContext(id, compressor, 0, 0, 0, 0, 0, MetaHeader(0, 0, 0, Plain), [], [])
  }

  datatype BlobFeature = Aligned | InlinedChunkDigest | HasTarHeader | HasToc | CapTarToc

  /** One entry of the RAFS v6 blob table (BlobInfo). */
  datatype BlobInfo = BlobInfo(
    blobIndex: u32,
    blobId: string,
    uncompressedSize: nat,
    compressedSize: nat,
    chunkSize: u32,
    chunkCount: nat,
    features: set<BlobFeature>,
    compressor: Algorithm,
    metaCiCompressedSize: nat,
    metaCiUncompressedSize: nat,
    metaCiOffset: nat)

  /** The parts of BuildContext this model reads or writes. */
  class BuildContext {
    const compressor: Algorithm
    const chunkSize: u32
    const v6BlockSize: nat
    var blobId: string

    constructor(compressor: Algorithm, chunkSize: u32, v6BlockSize: nat)
      ensures this.compressor == compressor && this.chunkSize == chunkSize
      ensures this.v6BlockSize == v6BlockSize && blobId == ""
    {
      this.compressor := compressor;
      this.chunkSize := chunkSize;
      this.v6BlockSize := v6BlockSize;
      blobId := "";
    }
  }

  /** File type bits of an inode mode (S_IFMT, S_IFDIR, S_IFREG) and the
      permission bits 0o660 the generator sets. */
  const S_IFMT: nat := 0xF000
  const S_IFDIR: nat := 0x4000
  const S_IFREG: nat := 0x8000
  const MODE_RW_RW: nat := 0x1B0

  function FileType(mode: nat): nat { mode / 0x1000 % 16 * 0x1000 }

  datatype Inode = Inode(
    ino: nat,
    uid: nat,
    gid: nat,
    projid: nat,
    mode: nat,
    nlink: nat,
    nameSize: nat,
    rdev: nat,
    blocks: nat,
    size: nat,
    childCount: nat)

  /** A tree node; the tree is an arena of nodes and `children` holds arena
      indices. */
  datatype Node = Node(
    path: string,
    inode: Inode,
    layerIdx: nat,
    chunks: seq<Chunk>,
    children: seq<nat>)

  /** The arena index of the first node whose path is `path`
      (Tree::get_node_mut). */
  function FindNode(nodes: seq<Node>, path: string): (r: Option<nat>)
    ensures r.Some? ==> r.value < |nodes| && nodes[r.value].path == path
    ensures r.Some? ==> forall i :: 0 <= i < r.value ==> nodes[i].path != path
    ensures r.None? <==> forall i :: 0 <= i < |nodes| ==> nodes[i].path != path
  {
    if nodes == [] then None
    else if nodes[0].path == path then Some(0)
    else match FindNode(nodes[1..], path)
      case None => None
      case Some(k) => Some(k + 1)
  }

  /** Number of entries of a blob table whose id is `id`. */
  function CountId(entries: seq<BlobInfo>, id: string): (n: nat)
    ensures n <= |entries|
  {
    if entries == [] then 0
    else CountId(entries[..|entries| - 1], id) + (if entries[|entries| - 1].blobId == id then 1 else 0)
  }
}
