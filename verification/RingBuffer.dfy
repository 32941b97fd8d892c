/** Byte positions on a circle of cells: what lies between two of them, and how moving one of
    them splits that stretch. */
module Circle {
  import opened Types

  /** The position `n` cells after `p`, for `n` up to one turn. */
  function Advance(cells: nat, p: nat, n: nat): (q: nat)
    requires p < cells && n <= cells
    ensures q < cells && q == (p + n) % cells
  {
    ModOneTurn(cells, p + n);
    if p + n < cells then p + n else p + n - cells
  }

  lemma ModOneTurn(cells: nat, x: nat)
    requires 0 < cells && x < 2 * cells
    ensures x % cells == if x < cells then x else x - cells
  {
    if x >= cells {
      assert x == (x - cells) + 1 * cells;
      assert x % cells == (x - cells) % cells;
    }
  }

  /** The number of cells from `r` up to, but not including, `w`. */
  function Distance(cells: nat, r: nat, w: nat): (d: nat)
    requires r < cells && w < cells
    ensures d < cells && Advance(cells, r, d) == w
  {
    if r <= w then w - r else cells - r + w
  }

  /** The bytes from position `r` up to, but not including, position `w`, going round the end. */
  function Segment(cells: seq<byte>, r: nat, w: nat): (s: seq<byte>)
    requires r < |cells| && w < |cells|
    ensures |s| == Distance(|cells|, r, w)
  {
    if r <= w then cells[r..w] else cells[r..] + cells[..w]
  }

  /** The segment, read cell by cell with the usual index arithmetic. */
  lemma SegmentAt(cells: seq<byte>, r: nat, w: nat, i: nat)
    requires r < |cells| && w < |cells| && i < Distance(|cells|, r, w)
    ensures Segment(cells, r, w)[i] == cells[(r + i) % |cells|]
  {
    ModOneTurn(|cells|, r + i);
  }

  /** A position inside a segment splits it in two. */
  lemma SegmentSplit(cells: seq<byte>, r: nat, n: nat, w: nat)
    requires r < |cells| && w < |cells| && n <= Distance(|cells|, r, w)
    ensures var m := Advance(|cells|, r, n);
            && Segment(cells, r, m) == Segment(cells, r, w)[..n]
            && Segment(cells, m, w) == Segment(cells, r, w)[n..]
  {
    var m := Advance(|cells|, r, n);
    var s := Segment(cells, r, w);
    assert Segment(cells, r, m) == s[..n];
    assert Segment(cells, m, w) == s[n..];
  }

  /** Going `n` past the end of a segment, without completing the turn, appends to it. */
  lemma SegmentExtend(cells: seq<byte>, r: nat, w: nat, n: nat)
    requires r < |cells| && w < |cells| && Distance(|cells|, r, w) + n < |cells|
    ensures var q := Advance(|cells|, w, n);
            && Distance(|cells|, r, q) == Distance(|cells|, r, w) + n
            && Segment(cells, r, q) == Segment(cells, r, w) + Segment(cells, w, q)
  {
    var q := Advance(|cells|, w, n);
    var d := Distance(|cells|, r, w);
    assert Advance(|cells|, r, d) == w;
    assert Distance(|cells|, r, q) == d + n;
    SegmentSplit(cells, r, d, q);
  }

  /** `s` written at position `w`, going round the end. */
  function Overlay(cells: seq<byte>, w: nat, s: seq<byte>): (r: seq<byte>)
    requires w < |cells| && |s| <= |cells|
    ensures |r| == |cells|
  {
    if w + |s| <= |cells| then
      cells[..w] + s + cells[w + |s|..]
    else
      var k := |cells| - w;
      s[k..] + cells[|s| - k..w] + s[..k]
  }

  /** What is written is found there, and a segment ending at the write position keeps its bytes
      as long as the write does not complete the turn. */
  lemma OverlayKeepsSegment(cells: seq<byte>, r: nat, w: nat, s: seq<byte>)
    requires r < |cells| && w < |cells| && Distance(|cells|, r, w) + |s| < |cells|
    ensures var after := Overlay(cells, w, s);
            && Segment(after, r, w) == Segment(cells, r, w)
            && Segment(after, w, Advance(|cells|, w, |s|)) == s
  {
    var after := Overlay(cells, w, s);
    assert Segment(after, r, w) == Segment(cells, r, w);
    assert Segment(after, w, Advance(|cells|, w, |s|)) == s;
  }

  /** Two copies, one up to the end and one at the front, make up a write that goes round. */
  lemma OverlayInTwo(cells: seq<byte>, w: nat, s: seq<byte>)
    requires w < |cells| < w + |s| && |s| < |cells|
    ensures var k := |cells| - w;
            var once := cells[..w] + s[..k] + cells[w + k..];
            [] + s[k..] + once[|s| - k..] == Overlay(cells, w, s)
  {
  }

  /** A write that leaves a cell free appends to the segment that ends where it starts. */
  lemma AppendInPlace(cells: seq<byte>, r: nat, w: nat, s: seq<byte>)
    requires r < |cells| && w < |cells| && Distance(|cells|, r, w) + |s| < |cells|
    ensures Segment(Overlay(cells, w, s), r, Advance(|cells|, w, |s|)) == Segment(cells, r, w) + s
  {
    OverlayKeepsSegment(cells, r, w, s);
    SegmentExtend(Overlay(cells, w, s), r, w, |s|);
  }

  /** Writable cells that follow `w` without going round, one cell always being left free. */
  function ContiguousWrite(cells: nat, r: nat, w: nat): nat
    requires r < cells && w < cells
  {
    if w >= r then (if r == 0 then cells - w - 1 else cells - w) else r - w - 1
  }

  function ContiguousRead(cells: nat, r: nat, w: nat): nat
    requires r < cells && w < cells
  {
    if w >= r then w - r else cells - r
  }

  /** The oldest `n` bytes are one piece up to the end of the array, or that and another at the front. */
  lemma Front(cells: seq<byte>, r: nat, w: nat, n: nat)
    requires r < |cells| && w < |cells| && n <= Distance(|cells|, r, w)
    ensures var k := ContiguousRead(|cells|, r, w);
            if n <= k then Segment(cells, r, w)[..n] == cells[r..r + n]
            else Segment(cells, r, w)[..n] == cells[r..r + k] + cells[..n - k]
  {
  }

  /** Two contiguous rounds are enough to use up all the free space, wherever the positions are. */
  lemma TwoWriteRounds(cells: nat, r: nat, w: nat)
    requires r < cells && w < cells
    ensures var free := cells - 1 - Distance(cells, r, w);
            var first := ContiguousWrite(cells, r, w);
            && first <= free
            && (first == 0 <==> free == 0)
            && first + ContiguousWrite(cells, r, Advance(cells, w, first)) == free
  {
  }

  /** Two contiguous rounds are enough to read all there is. */
  lemma TwoReadRounds(cells: nat, r: nat, w: nat)
    requires r < cells && w < cells
    ensures var used := Distance(cells, r, w);
            var first := ContiguousRead(cells, r, w);
            && first <= used
            && (first == 0 <==> used == 0)
            && first + ContiguousRead(cells, Advance(cells, r, first), w) == used
  {
  }
}

/** The circular byte buffer of a session. */
module RingBuffers {
  import opened Types
  import opened Circle

  /** The effect of `memcpy(dst + at, src, |src|)`. */
  method CopyInto(dst: array<byte>, at: nat, src: seq<byte>)
    requires at + |src| <= dst.Length
    modifies dst
    ensures dst[..] == old(dst[..at]) + src + old(dst[at + |src|..])
  {
    forall i | 0 <= i < |src| {
      dst[at + i] := src[i];
    }
  }

  lemma TwoPieces(was: seq<byte>, first: seq<byte>, second: seq<byte>)
    requires |first| + |second| <= |was|
    ensures var once := [] + first + was[|first|..];
            once[..|first|] + second + once[|first| + |second|..] == first + second + was[|first| + |second|..]
  {
  }

  /** One piece, at the front. */
  method CopyOnce(dst: array<byte>, piece: seq<byte>)
    requires |piece| <= dst.Length
    modifies dst
    ensures dst[..] == piece + old(dst[|piece|..])
  {
    CopyInto(dst, 0, piece);
  }

  /** Two pieces, one behind the other. */
  method CopyTwice(dst: array<byte>, first: seq<byte>, second: seq<byte>)
    requires |first| + |second| <= dst.Length
    modifies dst
    ensures dst[..] == first + second + old(dst[|first| + |second|..])
  {
    ghost var was := dst[..];
    CopyInto(dst, 0, first);
    CopyInto(dst, |first|, second);
    TwoPieces(was, first, second);
  }

  class RingBuffer {
    const mBuffer: array<byte>
    const mCapacity: SizeT
    var mReadPos: SizeT
    var mWritePos: SizeT

    // Everything ever put into the buffer and everything ever taken out of it.
    ghost var written: seq<byte>
    ghost var consumed: seq<byte>

    /** Besides the ranges of the fields, this is the history law: what was written is what was
        consumed followed by what can still be read. */
    ghost predicate Valid()
      reads this, mBuffer
    {
      && mBuffer.Length == mCapacity as int
      && 0 < mBuffer.Length <= MAX_VECTOR_SIZE
      && mReadPos < mCapacity
      && mWritePos < mCapacity
      && written == consumed + Contents()
    }

    /** The readable bytes, oldest first. */
    ghost function Contents(): seq<byte>
      requires mBuffer.Length == mCapacity as int && mReadPos < mCapacity && mWritePos < mCapacity
      reads this, mBuffer
    {
      Segment(mBuffer[..], mReadPos as nat, mWritePos as nat)
    }

    /** The most bytes the buffer can hold: the argument of the constructor. */
    ghost function Capacity(): nat
      requires 0 < mCapacity
    {
      mCapacity as nat - 1
    }

    constructor (capacity: SizeT)
      requires capacity as int < MAX_VECTOR_SIZE  // a larger vector cannot be allocated
      ensures Valid() && fresh(mBuffer)
      ensures Contents() == [] && Capacity() == capacity as nat
      ensures written == [] && consumed == []
    {
      mCapacity := capacity + 1;
      mReadPos := 0;
      mWritePos := 0;
      mBuffer := new byte[capacity as int + 1](_ => 0);
      written := [];
      consumed := [];
    }

    function GetAvailableRead(): (n: SizeT)
      requires Valid()
      reads this, mBuffer
      ensures n as int == |Contents()| <= Capacity()
    {
      if mWritePos >= mReadPos then mWritePos - mReadPos else mCapacity - mReadPos + mWritePos
    }

    function GetAvailableWrite(): (n: SizeT)
      requires Valid()
      reads this, mBuffer
      ensures n as int + |Contents()| == Capacity()
    {
      mCapacity - 1 - GetAvailableRead()
    }

    predicate IsEmpty()
      requires Valid()
      reads this, mBuffer
      ensures IsEmpty() <==> Contents() == []
    {
      mReadPos == mWritePos
    }

    predicate IsFull()
      requires Valid()
      reads this, mBuffer
      ensures IsFull() <==> |Contents()| == Capacity()
    {
      GetAvailableWrite() == 0
    }

    /** How much can be written at `mWritePos` in one piece; zero only when nothing can be. */
    function GetContiguousWriteSize(): (n: SizeT)
      requires Valid()
      reads this, mBuffer
      ensures n as int == ContiguousWrite(mCapacity as int, mReadPos as int, mWritePos as int)
      ensures n <= GetAvailableWrite() && mWritePos as int + n as int <= mBuffer.Length
      ensures n == 0 <==> GetAvailableWrite() == 0
    {
      if mWritePos >= mReadPos then
        var toEnd := mCapacity - mWritePos;
        if mReadPos == 0 then toEnd - 1 else toEnd
      else
        mReadPos - mWritePos - 1
    }

    /** How much can be read at `mReadPos` in one piece; zero only when nothing can be. */
    function GetContiguousReadSize(): (n: SizeT)
      requires Valid()
      reads this, mBuffer
      ensures n as int == ContiguousRead(mCapacity as int, mReadPos as int, mWritePos as int)
      ensures n <= GetAvailableRead() && mReadPos as int + n as int <= mBuffer.Length
      ensures n == 0 <==> GetAvailableRead() == 0
      ensures mBuffer[mReadPos..mReadPos + n] == Contents()[..n]
    {
      if mWritePos >= mReadPos then mWritePos - mReadPos else mCapacity - mReadPos
    }

    /** The copying half of Write: one piece when it fits before the end, else two. */
    method Store(src: seq<byte>, writeSize: SizeT)
      requires Valid() && 0 < writeSize <= GetAvailableWrite() && writeSize as int <= |src|
      modifies `mWritePos, mBuffer
      ensures mBuffer[..] == Overlay(old(mBuffer[..]), old(mWritePos) as nat, src[..writeSize])
      ensures mWritePos as nat == Circle.Advance(mBuffer.Length, old(mWritePos) as nat, writeSize as nat)
    {
      var contiguousSize := GetContiguousWriteSize();
      if writeSize <= contiguousSize {
        CopyInto(mBuffer, mWritePos as int, src[..writeSize]);
        mWritePos := (mWritePos + writeSize) % mCapacity;
      } else {
        ghost var w, s := mWritePos as nat, src[..writeSize];
        assert contiguousSize as nat == mBuffer.Length - w;
        CopyInto(mBuffer, mWritePos as int, src[..contiguousSize]);
        CopyInto(mBuffer, 0, src[contiguousSize..writeSize]);
        OverlayInTwo(old(mBuffer[..]), w, s);
        assert src[..contiguousSize] == s[..contiguousSize] && src[contiguousSize..writeSize] == s[contiguousSize..];
        mWritePos := writeSize - contiguousSize;
      }
    }

    /** Appends as much of `data` as fits.  `data` is None for a null pointer. */
    method Write(data: Option<seq<byte>>, size: SizeT) returns (n: SizeT)
      requires Valid() && (data.Some? ==> size as int <= |data.value|)
      modifies this, mBuffer
      ensures Valid()
      ensures n as int == if data.None? then 0 else Min(size as int, Capacity() - old(|Contents()|))
      ensures Contents() == old(Contents()) + (if data.None? then [] else data.value[..n])
      ensures written == old(written) + (if data.None? then [] else data.value[..n])
      ensures consumed == old(consumed) && mReadPos == old(mReadPos)
    {
      if data.None? || size == 0 {
        return 0;
      }
      var availableWrite := GetAvailableWrite();
      var writeSize := if size <= availableWrite then size else availableWrite;
      if writeSize == 0 {
        return 0;
      }
      ghost var src := data.value[..writeSize];
      AppendInPlace(mBuffer[..], mReadPos as nat, mWritePos as nat, src);
      Store(data.value, writeSize);
      written := written + src;
      return writeSize;
    }

    /** The copying half of Peek: one piece when it ends before the end, else two. */
    method Fetch(dest: array<byte>, peekSize: SizeT)
      requires Valid() && dest != mBuffer
      requires 0 < peekSize <= GetAvailableRead() && peekSize as int <= dest.Length
      modifies dest
      ensures dest[..] == Contents()[..peekSize] + old(dest[..])[peekSize..]
    {
      var contiguousSize := GetContiguousReadSize();
      ghost var oldest := Contents()[..peekSize];
      Front(mBuffer[..], mReadPos as nat, mWritePos as nat, peekSize as nat);
      if peekSize <= contiguousSize {
        var piece := mBuffer[mReadPos..mReadPos + peekSize];
        assert piece == oldest;
        CopyOnce(dest, piece);
      } else {
        var rest := peekSize - contiguousSize;
        var first, second := mBuffer[mReadPos..mReadPos + contiguousSize], mBuffer[..rest];
        assert first + second == oldest;
        CopyTwice(dest, first, second);
      }
    }

    /** Copies the oldest bytes out and leaves the buffer as it was. */
    method Peek(buffer: array?<byte>, size: SizeT) returns (n: SizeT)
      requires Valid() && (buffer != null ==> size as int <= buffer.Length && buffer != mBuffer)
      modifies buffer
      ensures Valid() && Contents() == old(Contents())
      ensures n as int == if buffer == null then 0 else Min(size as int, |Contents()|)
      ensures buffer != null ==> buffer[..] == Contents()[..n] + old(buffer[..])[n..]
    {
      if buffer == null || size == 0 {
        return 0;
      }
      var availableRead := GetAvailableRead();
      var peekSize := if size <= availableRead then size else availableRead;
      if peekSize == 0 {
        return 0;
      }
      Fetch(buffer, peekSize);
      return peekSize;
    }

    /** Moves the read position past the `n` oldest bytes. */
    method Advance(n: SizeT)
      requires Valid() && n as int <= |Contents()|
      modifies `mReadPos, `consumed
      ensures Valid()
      ensures Contents() == old(Contents())[n..]
      ensures consumed == old(consumed) + old(Contents())[..n]
      ensures mReadPos as nat == Circle.Advance(mBuffer.Length, old(mReadPos) as nat, n as nat)
    {
      SegmentSplit(mBuffer[..], mReadPos as nat, n as nat, mWritePos as nat);
      consumed := consumed + Contents()[..n];
      mReadPos := (mReadPos + n) % mCapacity;
    }

    method Read(buffer: array?<byte>, size: SizeT) returns (n: SizeT)
      requires Valid() && (buffer != null ==> size as int <= buffer.Length && buffer != mBuffer)
      modifies `mReadPos, `consumed, buffer
      ensures Valid()
      ensures n as int == if buffer == null then 0 else Min(size as int, old(|Contents()|))
      ensures Contents() == old(Contents())[n..]
      ensures consumed == old(consumed) + old(Contents())[..n]
      ensures buffer != null ==> buffer[..] == old(Contents())[..n] + old(buffer[..])[n..]
    {
      n := Peek(buffer, size);
      if n > 0 {
        Advance(n);
      }
    }

    /** Drops the oldest bytes without reading them. */
    method Skip(size: SizeT) returns (n: SizeT)
      requires Valid()
      modifies `mReadPos, `consumed
      ensures Valid()
      ensures n as int == Min(size as int, old(|Contents()|))
      ensures Contents() == old(Contents())[n..]
      ensures consumed == old(consumed) + old(Contents())[..n]
    {
      var availableRead := GetAvailableRead();
      n := if size <= availableRead then size else availableRead;
      if n > 0 {
        Advance(n);
      }
    }

    /** Forgets everything that was readable. */
    method Clear()
      requires Valid()
      modifies `mReadPos, `mWritePos, `consumed
      ensures Valid()
      ensures Contents() == [] && consumed == written
    {
      mReadPos := 0;
      mWritePos := 0;
      consumed := written;
    }

    /** The bytes that already lie in the `n` cells from the write position on. */
    ghost function Ahead(n: nat): seq<byte>
      requires Valid() && n < mBuffer.Length
      reads this, mBuffer
    {
      Segment(mBuffer[..], mWritePos as nat, Circle.Advance(mBuffer.Length, mWritePos as nat, n))
    }

    /** Makes readable what the caller has put in the free cells. */
    method CommitWrite(size: SizeT)
      requires Valid()
      modifies `mWritePos, `written
      ensures Valid()
      ensures var n := Min(size as int, Capacity() - old(|Contents()|));
              && Contents() == old(Contents()) + old(Ahead(n))
              && written == old(written) + old(Ahead(n))
              && mWritePos as nat == Circle.Advance(mBuffer.Length, old(mWritePos) as nat, n)
    {
      var availableWrite := GetAvailableWrite();
      var commitSize := if size <= availableWrite then size else availableWrite;
      Extend(commitSize);
    }

    /** Moves the write position past the next `n` free cells. */
    method Extend(n: SizeT)
      requires Valid() && |Contents()| + n as int < mBuffer.Length
      modifies `mWritePos, `written
      ensures Valid()
      ensures Contents() == old(Contents()) + old(Ahead(n as nat))
      ensures written == old(written) + old(Ahead(n as nat))
      ensures mWritePos as nat == Circle.Advance(mBuffer.Length, old(mWritePos) as nat, n as nat)
    {
      SegmentExtend(mBuffer[..], mReadPos as nat, mWritePos as nat, n as nat);
      written := written + Ahead(n as nat);
      mWritePos := (mWritePos + n) % mCapacity;
    }

    /** Drops what the caller has read in place. */
    method CommitRead(size: SizeT)
      requires Valid()
      modifies `mReadPos, `consumed
      ensures Valid()
      ensures var n := Min(size as int, old(|Contents()|));
              && Contents() == old(Contents())[n..]
              && consumed == old(consumed) + old(Contents())[..n]
              && mReadPos as nat == Circle.Advance(mBuffer.Length, old(mReadPos) as nat, n)
    {
      var availableRead := GetAvailableRead();
      var commitSize := if size <= availableRead then size else availableRead;
      Advance(commitSize);
    }
  }
}

/** The zero-copy interface (GetWritePtr, GetContiguousWriteSize, CommitWrite and their read
    counterparts), used as a caller would, agrees with Write and Read. */
module ZeroCopy {
  import opened Types
  import opened Circle
  import opened RingBuffers

  /** Fill `s` in at the write pointer, then commit it. */
  method FillAndCommit(ring: RingBuffer, s: seq<byte>)
    requires ring.Valid() && |s| <= ring.GetContiguousWriteSize() as int
    modifies ring, ring.mBuffer
    ensures ring.Valid()
    ensures ring.Contents() == old(ring.Contents()) + s
    ensures ring.mReadPos == old(ring.mReadPos)
    ensures ring.mWritePos as int
         == Circle.Advance(ring.mBuffer.Length, old(ring.mWritePos) as int, |s|)
    ensures ring.written == old(ring.written) + s && ring.consumed == old(ring.consumed)
  {
    ghost var cells, r, w := ring.mBuffer[..], ring.mReadPos as nat, ring.mWritePos as nat;
    CopyInto(ring.mBuffer, ring.mWritePos as int, s);
    assert ring.mBuffer[..] == Overlay(cells, w, s);
    OverlayKeepsSegment(cells, r, w, s);
    ring.CommitWrite(|s| as SizeT);
  }

  /** Two rounds put in exactly what one Write would have put in. */
  method WriteInPlace(ring: RingBuffer, data: seq<byte>) returns (n: SizeT)
    requires ring.Valid() && |data| <= MAX_VECTOR_SIZE
    modifies ring, ring.mBuffer
    ensures ring.Valid()
    ensures n as int == Min(|data|, ring.Capacity() - old(|ring.Contents()|))
    ensures ring.Contents() == old(ring.Contents()) + data[..n]
  {
    n := Min(|data|, ring.GetAvailableWrite() as int) as SizeT;
    var first := Min(n as int, ring.GetContiguousWriteSize() as int) as SizeT;
    TwoWriteRounds(ring.mBuffer.Length, ring.mReadPos as nat, ring.mWritePos as nat);
    FillAndCommit(ring, data[..first]);
    if first < n {
      FillAndCommit(ring, data[first..n]);
    }
    assert data[..first] + data[first..n] == data[..n];
  }

  /** Two rounds of reading in place and committing hand over everything readable. */
  method DrainInPlace(ring: RingBuffer) returns (data: seq<byte>)
    requires ring.Valid()
    modifies ring
    ensures ring.Valid()
    ensures data == old(ring.Contents()) && ring.Contents() == []
    ensures ring.consumed == old(ring.consumed) + data
  {
    TwoReadRounds(ring.mBuffer.Length, ring.mReadPos as nat, ring.mWritePos as nat);
    ghost var all := ring.Contents();
    var first := ring.GetContiguousReadSize();
    data := ring.mBuffer[ring.mReadPos..ring.mReadPos + first];
    ring.CommitRead(first);
    assert data == all[..first] && ring.Contents() == all[first..];
    var second := ring.GetContiguousReadSize();
    data := data + ring.mBuffer[ring.mReadPos..ring.mReadPos + second];
    assert all[..first] + all[first..] == all;
    ring.CommitRead(second);
  }
}
