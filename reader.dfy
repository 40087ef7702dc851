/** The bounded range reader (BlobNodeReader) over an open blob file. The file
    is its bytes in memory plus the offset that `seek` and `read` move; a
    reader shares the file and owns the `[start, end)` range and its cursor. */
module Reader {
  import opened Common

  /** An open source blob file (std::fs::File). */
  class BlobFile {
    const data: seq<bv8>
    var offset: nat

    constructor Open(data: seq<bv8>)
      ensures this.data == data && offset == 0
    {
      this.data := data;
      offset := 0;
    }

    /** Bytes between the file offset and the end of the file. */
    function Remaining(): nat
      reads this
    {
      if offset <= |data| then |data| - offset else 0
    }

    /** Seek to an absolute position; past the end of the file is allowed. */
    method Seek(pos: nat)
      modifies this
      ensures offset == pos
    {
      offset := pos;
    }

    /** File::read into `buf[lo..hi]`: copies as much of the rest of the file
        as fits and moves the offset past what it copied. */
    method Read(buf: array<bv8>, lo: nat, hi: nat) returns (n: nat)
      requires lo <= hi <= buf.Length
      modifies this, buf
      ensures n == Min(hi - lo, old(Remaining()))
      ensures offset == old(offset) + n
      ensures buf[..lo] == old(buf[..lo]) && buf[lo + n..] == old(buf[lo + n..])
      ensures n > 0 ==> buf[lo..lo + n] == data[old(offset)..old(offset) + n]
    {
      n := Min(hi - lo, Remaining());
      forall k | lo <= k < lo + n {
        buf[k] := data[offset + (k - lo)];
      }
      offset := offset + n;
    }
  }

  class BlobNodeReader {
    const blob: BlobFile
    const start: nat
    const end: nat
    var position: nat

    /** Bytes the range still lets this reader hand out. */
    function Left(): nat
      reads this
    {
      if position <= end then end - position else 0
    }

    /** BlobNodeReader::new: the cursor starts at `start` and the shared file
        is positioned there. */
    constructor(blob: BlobFile, start: nat, end: nat)
      modifies blob
      ensures this.blob == blob && this.start == start && this.end == end
      ensures position == start && blob.offset == start
    {
      this.blob := blob;
      this.start := start;
      this.end := end;
      position := start;
      new;
      blob.Seek(start);
    }

    /** Read::read into `buf[lo..]`: nothing once the cursor is past `end`,
        otherwise at most `min(buf.len(), end - position)` bytes from the
        file, and the cursor moves by exactly the count returned. */
    method Read(buf: array<bv8>, lo: nat) returns (n: nat)
      requires lo <= buf.Length
      modifies this, blob, buf
      ensures old(position) > end ==> n == 0
      ensures n == Min(Min(buf.Length - lo, old(Left())), old(blob.Remaining()))
      ensures position == old(position) + n && blob.offset == old(blob.offset) + n
      ensures old(position) <= end ==> position <= end
      ensures buf[..lo] == old(buf[..lo]) && buf[lo + n..] == old(buf[lo + n..])
      ensures n > 0 ==> buf[lo..lo + n] == blob.data[old(blob.offset)..old(blob.offset) + n]
    {
      if position > end {
        return 0;
      }
      var maxRead := end - position;
      var toRead := Min(buf.Length - lo, maxRead);
      n := blob.Read(buf, lo, lo + toRead);
      position := position + n;
    }

    /** Read::read_exact (the trait's default): reads until `buf` is full and
        fails when a read returns nothing first. It succeeds exactly when
        both the range and the file still hold `buf.Length` bytes, and then
        `buf` holds the file's bytes from the old file offset on. */
    method ReadExact(buf: array<bv8>) returns (ok: bool)
      modifies this, blob, buf
      ensures ok <==> buf.Length <= Min(old(Left()), old(blob.Remaining()))
      ensures ok && buf.Length > 0 ==> buf[..] == blob.data[old(blob.offset)..old(blob.offset) + buf.Length]
      ensures ok ==> position == old(position) + buf.Length && blob.offset == old(blob.offset) + buf.Length
    {
      var filled := 0;
      while filled < buf.Length
        invariant filled <= buf.Length
        invariant filled <= Min(old(Left()), old(blob.Remaining()))
        invariant position == old(position) + filled && blob.offset == old(blob.offset) + filled
        invariant Left() == old(Left()) - filled && blob.Remaining() == old(blob.Remaining()) - filled
        invariant filled > 0 ==> buf[..filled] == blob.data[old(blob.offset)..old(blob.offset) + filled]
      {
        ghost var before := buf[..filled];
        var n := Read(buf, filled);
        if n == 0 {
          return false;
        }
        ghost var from := old(blob.offset);
        ghost var got := buf[filled..filled + n];
        assert buf[..filled] == before;
        assert buf[..filled + n] == before + got;
        SliceConcat(blob.data, from, filled, n);
        filled := filled + n;
      }
      return true;
    }
  }

  /** Two adjacent slices of a sequence make up the slice across both. */
  lemma {:induction false} SliceConcat(data: seq<bv8>, from: nat, a: nat, b: nat)
    requires from + a + b <= |data|
    ensures data[from..from + a + b] == data[from..from + a] + data[from + a..from + a + b]
  {
  }
}
