/** validate_and_remove_chunks: chunks are grouped by their source blob id,
    and every chunk of a group whose uncompressed sizes sum to less than the
    RAFS v6 block size is dropped, in place, keeping the order of the rest. */
module ChunkFilter {
  import opened Common

  /** Sum of the uncompressed sizes of the chunks of `cs` from blob `id`. */
  function GroupTotal(cs: seq<ChunkdictChunkInfo>, id: string): nat
  {
    if cs == [] then 0
    else GroupTotal(cs[..|cs| - 1], id)
         + (if cs[|cs| - 1].chunkBlobId == id then cs[|cs| - 1].chunkUncompressedSize else 0)
  }

  /** The blob ids that occur in `cs`. */
  function BlobIds(cs: seq<ChunkdictChunkInfo>): set<string>
  {
    if cs == [] then {} else BlobIds(cs[..|cs| - 1]) + {cs[|cs| - 1].chunkBlobId}
  }

  /** The ids of the groups that are too small: the ones the source warns about. */
  function SmallBlobIds(cs: seq<ChunkdictChunkInfo>, blockSize: nat): set<string>
  {
    set id | id in BlobIds(cs) && GroupTotal(cs, id) < blockSize
  }

  /** The chunks of `cs`, in order, whose blob id is not in `small`
      (what `retain` keeps). */
  function Retained(cs: seq<ChunkdictChunkInfo>, small: set<string>): seq<ChunkdictChunkInfo>
  {
    if cs == [] then []
    else Retained(cs[..|cs| - 1], small)
         + (if cs[|cs| - 1].chunkBlobId in small then [] else [cs[|cs| - 1]])
  }

  /** The chunks of `part`, in order, whose group in `whole` reaches `blockSize`. */
  function KeepLarge(whole: seq<ChunkdictChunkInfo>, part: seq<ChunkdictChunkInfo>, blockSize: nat)
    : seq<ChunkdictChunkInfo>
  {
    if part == [] then []
    else KeepLarge(whole, part[..|part| - 1], blockSize)
         + (if GroupTotal(whole, part[|part| - 1].chunkBlobId) >= blockSize then [part[|part| - 1]] else [])
  }

  /** Reference definition of the validated chunk list. */
  function Validated(cs: seq<ChunkdictChunkInfo>, blockSize: nat): seq<ChunkdictChunkInfo>
  {
    KeepLarge(cs, cs, blockSize)
  }

  lemma {:induction false} GroupTotalAbsent(cs: seq<ChunkdictChunkInfo>, id: string)
    requires id !in BlobIds(cs)
    ensures GroupTotal(cs, id) == 0
  {
    if cs != [] {
      GroupTotalAbsent(cs[..|cs| - 1], id);
    }
  }

  /** The accumulation loop: a map from each blob id to its group total. */
  method AccumulateSizes(cs: seq<ChunkdictChunkInfo>) returns (sizes: map<string, nat>)
    ensures sizes.Keys == BlobIds(cs)
    ensures forall id :: id in sizes ==> sizes[id] == GroupTotal(cs, id)
  {
    sizes := map[];
    var i := 0;
    while i < |cs|
      invariant i <= |cs|
      invariant sizes.Keys == BlobIds(cs[..i])
      invariant forall id :: id in sizes ==> sizes[id] == GroupTotal(cs[..i], id)
    {
      var chunk := cs[i];
      assert cs[..i + 1][..i] == cs[..i];
      if chunk.chunkBlobId !in sizes {
        GroupTotalAbsent(cs[..i], chunk.chunkBlobId);
      }
      var sum := if chunk.chunkBlobId in sizes then sizes[chunk.chunkBlobId] else 0;
      sizes := sizes[chunk.chunkBlobId := sum + chunk.chunkUncompressedSize];
      i := i + 1;
    }
    assert cs[..i] == cs;
  }

  /** Vec::retain: compacts the chunks whose blob id is not in `small` to the
      front of `a`, in order, and returns the vector's new length. */
  method Retain(a: array<ChunkdictChunkInfo>, small: set<string>) returns (len: nat)
    modifies a
    ensures len <= a.Length
    ensures a[..len] == Retained(old(a[..]), small)
  {
    ghost var orig := a[..];
    var i, w := 0, 0;
    while i < a.Length
      invariant w <= i <= a.Length
      invariant a[..w] == Retained(orig[..i], small)
      invariant forall k :: i <= k < a.Length ==> a[k] == orig[k]
    {
      var chunk := a[i];
      assert orig[..i + 1][..i] == orig[..i];
      if chunk.chunkBlobId !in small {
        ghost var kept := a[..w];
        a[w] := chunk;
        assert a[..w + 1] == kept + [chunk];
        w := w + 1;
      }
      i := i + 1;
    }
    assert orig[..i] == orig;
    len := w;
  }

  lemma {:induction false} RetainedSmallIsValidated(whole: seq<ChunkdictChunkInfo>,
                                                   part: seq<ChunkdictChunkInfo>, blockSize: nat)
    requires BlobIds(part) <= BlobIds(whole)
    ensures Retained(part, SmallBlobIds(whole, blockSize)) == KeepLarge(whole, part, blockSize)
  {
    if part != [] {
      RetainedSmallIsValidated(whole, part[..|part| - 1], blockSize);
    }
  }

  /** validate_and_remove_chunks: returns the new length of the vector and
      the ids it warns about; the vector's first `len` chunks are the
      validated list. */
  method ValidateAndRemoveChunks(chunkdict: array<ChunkdictChunkInfo>, blockSize: nat)
    returns (len: nat, warned: set<string>)
    modifies chunkdict
    ensures warned == SmallBlobIds(old(chunkdict[..]), blockSize)
    ensures len <= chunkdict.Length
    ensures chunkdict[..len] == Validated(old(chunkdict[..]), blockSize)
  {
    ghost var orig := chunkdict[..];
    var chunkSizes := AccumulateSizes(chunkdict[..]);
    warned := set id | id in chunkSizes && chunkSizes[id] < blockSize;
    assert warned == SmallBlobIds(orig, blockSize);
    len := Retain(chunkdict, warned);
    RetainedSmallIsValidated(orig, orig, blockSize);
  }

  // ---------------------------------------------------------------------
  // What the validated list is

  lemma {:induction false} KeepLargeCount(whole: seq<ChunkdictChunkInfo>, part: seq<ChunkdictChunkInfo>,
                                          blockSize: nat, c: ChunkdictChunkInfo)
    ensures multiset(KeepLarge(whole, part, blockSize))[c]
         == if GroupTotal(whole, c.chunkBlobId) >= blockSize then multiset(part)[c] else 0
  {
    if part != [] {
      var init := part[..|part| - 1];
      KeepLargeCount(whole, init, blockSize, c);
      assert part == init + [part[|part| - 1]];
    }
  }

  /** A chunk is kept as often as it occurs when its group reaches the block
      size, and never otherwise: no chunk of a kept group is dropped and no
      chunk of a small group survives. */
  lemma {:induction false} ValidatedCount(cs: seq<ChunkdictChunkInfo>, blockSize: nat, c: ChunkdictChunkInfo)
    ensures multiset(Validated(cs, blockSize))[c]
         == if GroupTotal(cs, c.chunkBlobId) >= blockSize then multiset(cs)[c] else 0
  {
    KeepLargeCount(cs, cs, blockSize, c);
  }

  lemma {:induction false} KeepLargeGroupTotal(whole: seq<ChunkdictChunkInfo>, part: seq<ChunkdictChunkInfo>,
                                               blockSize: nat, id: string)
    ensures GroupTotal(KeepLarge(whole, part, blockSize), id)
         == if GroupTotal(whole, id) >= blockSize then GroupTotal(part, id) else 0
  {
    if part != [] {
      var init := part[..|part| - 1];
      var last := part[|part| - 1];
      KeepLargeGroupTotal(whole, init, blockSize, id);
      var k := KeepLarge(whole, init, blockSize);
      if GroupTotal(whole, last.chunkBlobId) >= blockSize {
        assert (k + [last])[..|k + [last]| - 1] == k;
      } else {
        assert KeepLarge(whole, part, blockSize) == k;
      }
    }
  }

  /** Every group keeps its whole total when it reaches the block size and
      keeps nothing otherwise. */
  lemma {:induction false} ValidatedGroupTotal(cs: seq<ChunkdictChunkInfo>, blockSize: nat, id: string)
    ensures GroupTotal(Validated(cs, blockSize), id)
         == if GroupTotal(cs, id) >= blockSize then GroupTotal(cs, id) else 0
  {
    KeepLargeGroupTotal(cs, cs, blockSize, id);
  }

  lemma {:induction false} KeepLargeElements(whole: seq<ChunkdictChunkInfo>, part: seq<ChunkdictChunkInfo>,
                                             blockSize: nat)
    ensures forall i :: 0 <= i < |KeepLarge(whole, part, blockSize)| ==>
              GroupTotal(whole, KeepLarge(whole, part, blockSize)[i].chunkBlobId) >= blockSize
  {
    if part != [] {
      KeepLargeElements(whole, part[..|part| - 1], blockSize);
    }
  }

  lemma {:induction false} KeepLargeKeepsAll(whole: seq<ChunkdictChunkInfo>, part: seq<ChunkdictChunkInfo>,
                                             blockSize: nat)
    requires forall i :: 0 <= i < |part| ==> GroupTotal(whole, part[i].chunkBlobId) >= blockSize
    ensures KeepLarge(whole, part, blockSize) == part
  {
    if part != [] {
      KeepLargeKeepsAll(whole, part[..|part| - 1], blockSize);
    }
  }

  /** Validating twice removes nothing more. */
  lemma {:induction false} ValidatedIdempotent(cs: seq<ChunkdictChunkInfo>, blockSize: nat)
    ensures Validated(Validated(cs, blockSize), blockSize) == Validated(cs, blockSize)
  {
    var v := Validated(cs, blockSize);
    KeepLargeElements(cs, cs, blockSize);
    forall i | 0 <= i < |v|
      ensures GroupTotal(v, v[i].chunkBlobId) >= blockSize
    {
      ValidatedGroupTotal(cs, blockSize, v[i].chunkBlobId);
    }
    KeepLargeKeepsAll(v, v, blockSize);
  }

  lemma {:induction false} KeepLargeAppend(whole: seq<ChunkdictChunkInfo>, p: seq<ChunkdictChunkInfo>,
                                           q: seq<ChunkdictChunkInfo>, blockSize: nat)
    ensures KeepLarge(whole, p + q, blockSize) == KeepLarge(whole, p, blockSize) + KeepLarge(whole, q, blockSize)
  {
    if q != [] {
      KeepLargeAppend(whole, p, q[..|q| - 1], blockSize);
      assert (p + q)[..|p + q| - 1] == p + q[..|q| - 1];
    } else {
      assert p + q == p;
    }
  }

  /** The kept chunks stay in their relative order: validating a list split
      in two validates each part in place. */
  lemma {:induction false} ValidatedPreservesOrder(cs: seq<ChunkdictChunkInfo>, blockSize: nat, split: nat)
    requires split <= |cs|
    ensures Validated(cs, blockSize)
         == KeepLarge(cs, cs[..split], blockSize) + KeepLarge(cs, cs[split..], blockSize)
  {
    assert cs == cs[..split] + cs[split..];
    KeepLargeAppend(cs, cs[..split], cs[split..], blockSize);
  }

  /** Three chunks of blob "A" (2048, 2048, 512 bytes) survive a 4096-byte
      block size; the one 1000-byte chunk of blob "B" is dropped and "B" is
      the one id warned about. */
  lemma {:induction false} FilterExample()
    ensures var a1 := ChunkdictChunkInfo("img", "v1", "A", "d1", 2048, 2048, 0, 0);
            var a2 := ChunkdictChunkInfo("img", "v1", "A", "d2", 2048, 2048, 2048, 2048);
            var a3 := ChunkdictChunkInfo("img", "v1", "A", "d3", 512, 512, 4096, 4096);
            var b1 := ChunkdictChunkInfo("img", "v1", "B", "d4", 1000, 1000, 0, 0);
            Validated([a1, a2, b1, a3], 4096) == [a1, a2, a3]
            && SmallBlobIds([a1, a2, b1, a3], 4096) == {"B"}
  {
    var a1 := ChunkdictChunkInfo("img", "v1", "A", "d1", 2048, 2048, 0, 0);
    var a2 := ChunkdictChunkInfo("img", "v1", "A", "d2", 2048, 2048, 2048, 2048);
    var a3 := ChunkdictChunkInfo("img", "v1", "A", "d3", 512, 512, 4096, 4096);
    var b1 := ChunkdictChunkInfo("img", "v1", "B", "d4", 1000, 1000, 0, 0);
    var cs := [a1, a2, b1, a3];
    var p1, p2, p3 := [a1], [a1, a2], [a1, a2, b1];
    FilterExampleTotals(a1, a2, b1, a3);
    assert cs[..3] == p3 && p3[..2] == p2 && p2[..1] == p1 && p1[..0] == [];
    assert KeepLarge(cs, p1, 4096) == [a1];
    assert KeepLarge(cs, p2, 4096) == [a1, a2];
    assert KeepLarge(cs, p3, 4096) == [a1, a2];
  }

  /** The group totals and blob ids of FilterExample's list. */
  lemma {:induction false} FilterExampleTotals(a1: ChunkdictChunkInfo, a2: ChunkdictChunkInfo,
                                               b1: ChunkdictChunkInfo, a3: ChunkdictChunkInfo)
    requires a1.chunkBlobId == a2.chunkBlobId == a3.chunkBlobId == "A" && b1.chunkBlobId == "B"
    requires a1.chunkUncompressedSize == a2.chunkUncompressedSize == 2048
    requires a3.chunkUncompressedSize == 512 && b1.chunkUncompressedSize == 1000
    ensures GroupTotal([a1, a2, b1, a3], "A") == 4608 && GroupTotal([a1, a2, b1, a3], "B") == 1000
    ensures BlobIds([a1, a2, b1, a3]) == {"A", "B"}
  {
    var cs := [a1, a2, b1, a3];
    var p1, p2, p3 := [a1], [a1, a2], [a1, a2, b1];
    assert cs[..3] == p3 && p3[..2] == p2 && p2[..1] == p1 && p1[..0] == [];
    assert GroupTotal(p1, "A") == 2048 && GroupTotal(p1, "B") == 0;
    assert GroupTotal(p2, "A") == 4096 && GroupTotal(p2, "B") == 0;
    assert GroupTotal(p3, "A") == 4096 && GroupTotal(p3, "B") == 1000;
    assert BlobIds(p1) == {"A"} && BlobIds(p2) == {"A"} && BlobIds(p3) == {"A", "B"};
  }
}
