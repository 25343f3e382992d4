// The shared half of one ring as an object: the byte area, the two cursors and
// the two notify words, with the wrap-splitting copies done in place.
module RingBuffers {
  import opened Words
  import opened Frames

  type u32 = x: int | 0 <= x < 0x1_0000_0000

  /** Two in-place chunk copies, the second from slot 0, are one wrapped write. */
  function Splice(m: seq<byte>, at: nat, d: seq<byte>): (r: seq<byte>)
    requires at + |d| <= |m|
    ensures |r| == |m|
  {
    m[..at] + d + m[at + |d|..]
  }

  lemma {:induction false} SpliceNothing(m: seq<byte>, d: seq<byte>)
    requires d == []
    ensures Splice(m, 0, d) == m
  {
  }

  lemma {:induction false} ChunksAreCopyIn(m: seq<byte>, c: nat, d: seq<byte>)
    requires 0 < |m| && |d| <= |m|
    ensures var start := Slot(c, |m|);
            var first := if |d| <= |m| - start then |d| else |m| - start;
            Splice(Splice(m, start, d[..first]), 0, d[first..]) == CopyIn(m, c, d)
  {
    var n, start := |m|, Slot(c, |m|);
    var first := if |d| <= n - start then |d| else n - start;
    var w, z := Splice(Splice(m, start, d[..first]), 0, d[first..]), CopyIn(m, c, d);
    CopyInEffect(m, c, d);
    forall x | 0 <= x < n ensures w[x] == z[x] {
      var i := if x >= start then x - start else x + n - start;
      SlotOffset(c, i, n);
      assert Slot(c + i, n) == x;
      if i < |d| { assert z[Slot(c + i, n)] == d[c + i - c]; }
    }
  }

  lemma {:induction false} ChunksAreCopyOut(m: seq<byte>, c: nat, len: nat)
    requires 0 < |m| && len <= |m|
    ensures var start := Slot(c, |m|);
            var first := if len <= |m| - start then len else |m| - start;
            m[start..start + first] + m[..len - first] == CopyOut(m, c, len)
  {
    var n, start := |m|, Slot(c, |m|);
    var first := if len <= n - start then len else n - start;
    var w, z := m[start..start + first] + m[..len - first], CopyOut(m, c, len);
    forall i | 0 <= i < len ensures w[i] == z[i] {
      SlotOffset(c, i, n);
    }
  }

  /** One non-overlapping chunk copy into `a`. */
  method CopyChunk(a: array<byte>, at: nat, src: seq<byte>)
    requires at + |src| <= a.Length
    modifies a
    ensures a[..] == Splice(old(a[..]), at, src)
  {
    for i := 0 to |src|
      invariant a[..] == Splice(old(a[..]), at, src[..i])
    {
      a[at + i] := src[i];
      assert src[..i + 1] == src[..i] + [src[i]];
    }
    assert src[..|src|] == src;
  }

  class RingBuffer {
    const size: nat
    const data: array<byte>
    var writeCursor: nat
    var readCursor: nat
    var writerNotify: u32
    var writerParked: bool
    var readerNotify: u32
    var readerParked: bool

    // History: every payload published on this ring, and how many have been committed.
    var published: seq<Payload>
    var consumed: nat

    constructor (n: nat)
      requires 64 <= n <= 0x8000_0000 && IsPow2(n)
      ensures Valid() && fresh(this) && fresh(data) && size == n
      ensures published == [] && consumed == 0 && writeCursor == 0 && readCursor == 0
      ensures !writerParked && !readerParked
    {
      size := n;
      data := new byte[n](i => 0);
      writeCursor, readCursor := 0, 0;
      writerNotify, readerNotify := 0, 0;
      writerParked, readerParked := false, false;
      published, consumed := [], 0;
    }

    ghost predicate Shape()
      reads this
    {
      64 <= size <= 0x8000_0000 && IsPow2(size) && data.Length == size
    }

    /** The cursors delimit exactly the frames published and not yet committed. */
    ghost predicate Valid()
      reads this, data
    {
      && Shape()
      && consumed <= |published|
      && writeCursor == Offset(published, |published|)
      && readCursor == Offset(published, consumed)
      && readCursor <= writeCursor <= readCursor + size
      && Window(data[..], readCursor, writeCursor, published)
      && (forall i | 0 <= i < |published| :: HEADER + |published[i]| <= size)
    }

    /** The abstract value: the queue of payloads in flight. */
    function Queue(): seq<Payload>
      reads this
      requires consumed <= |published|
    {
      published[consumed..]
    }

    /** `write_ring`: mask the cursor, copy up to the end, then the rest from slot 0. */
    method WriteRing(cursor: nat, bytes: seq<byte>)
      requires Shape() && |bytes| <= size
      modifies data
      ensures data[..] == CopyIn(old(data[..]), cursor, bytes)
    {
      ghost var before := data[..];
      MaskIsSlot(cursor, size);
      var start := And(cursor, size - 1);
      var firstLen := if |bytes| <= size - start then |bytes| else size - start;
      CopyChunk(data, start, bytes[..firstLen]);
      ghost var mid := data[..];
      if firstLen < |bytes| {
        CopyChunk(data, 0, bytes[firstLen..]);
      } else {
        SpliceNothing(mid, bytes[firstLen..]);
      }
      assert data[..] == Splice(mid, 0, bytes[firstLen..]);
      ChunksAreCopyIn(before, cursor, bytes);
    }

    /** `read_ring`: the mirror image, into the first `len` bytes of `buf`. */
    method ReadRing(cursor: nat, buf: array<byte>, len: nat)
      requires Shape() && len <= size && len <= buf.Length && buf != data
      modifies buf
      ensures buf[..len] == CopyOut(data[..], cursor, len)
      ensures buf[len..] == old(buf[len..])
    {
      ghost var before := buf[..];
      MaskIsSlot(cursor, size);
      var start := And(cursor, size - 1);
      var firstLen := if len <= size - start then len else size - start;
      CopyChunk(buf, 0, data[start..start + firstLen]);
      if firstLen < len {
        CopyChunk(buf, firstLen, data[..len - firstLen]);
      } else {
        assert data[..len - firstLen] == [];
      }
      ChunksAreCopyOut(data[..], cursor, len);
      assert buf[..len] == data[start..start + firstLen] + data[..len - firstLen];
    }

    /** The three writes of `publish_message`. */
    method PutFrame(wc: nat, seq32: u32, payload: Payload)
      requires Shape() && HEADER + |payload| <= size
      modifies data
      ensures data[..] == CopyIn(old(data[..]), wc, RawFrame(seq32, payload))
    {
      ghost var m := data[..];
      WriteRing(wc, ToLe(Wrap32(|payload|), 4));
      WriteRing(wc + 4, ToLe(seq32, 4));
      WriteRing(wc + HEADER, payload);
      WriteFrame(m, wc, seq32, payload);
    }

    /** `publish_message`: the frame, the cursor store, then the bump. `woke` says whether
        the parked reader was woken. */
    method Publish(payload: Payload, seq32: u32) returns (woke: bool)
      requires Valid() && HEADER + |payload| <= size - (writeCursor - readCursor)
      requires seq32 == SeqOf(|published|)
      modifies this`writeCursor, this`writerNotify, this`published, data
      ensures Valid()
      ensures published == old(published) + [payload]
      ensures writeCursor == old(writeCursor) + HEADER + |payload|
      ensures writerNotify == Succ32(old(writerNotify)) && woke == writerParked
    {
      var wc := writeCursor;
      WindowPublish(data[..], readCursor, wc, published, payload);
      PutFrame(wc, seq32, payload);
      StreamSnoc(published, payload);
      published := published + [payload];
      writeCursor := wc + (HEADER + |payload|);
      writerNotify := Succ32(writerNotify);
      woke := writerParked;
    }

    /** The cursor store of `commit_current_message`, then the bump. The caller says where the
        next frame starts; the history only says that it is right. */
    method Commit(newRc: nat) returns (woke: bool)
      requires Valid() && consumed < |published| && newRc == Offset(published, consumed + 1)
      modifies this`readCursor, this`readerNotify, this`consumed
      ensures Valid() && consumed == old(consumed) + 1
      ensures readCursor == old(readCursor) + HEADER + |published[old(consumed)]|
      ensures readerNotify == Succ32(old(readerNotify)) && woke == readerParked
    {
      OffsetGap(published, consumed + 1, |published|);
      readCursor := newRc;
      consumed := consumed + 1;
      readerNotify := Succ32(readerNotify);
      woke := readerParked;
    }

    /** What the peer's receiver may do while this side is not looking. */
    method PeerTakes()
      requires Valid()
      modifies this`readCursor, this`readerNotify, this`consumed, this`writerParked
      ensures Valid() && old(consumed) <= consumed && old(readCursor) <= readCursor
    {
      var k: nat :| true;
      for i := 0 to k
        invariant Valid() && old(consumed) <= consumed && old(readCursor) <= readCursor
      {
        if consumed < |published| {
          var _ := Commit(Offset(published, consumed + 1));
        }
      }
      writerParked := *;
    }

    /** What the peer's sender may do while this side is not looking. */
    method PeerSends()
      requires Valid()
      modifies this`writeCursor, this`writerNotify, this`published, this`readerParked, data
      ensures Valid() && old(published) <= published
    {
      var k: nat :| true;
      for i := 0 to k
        invariant Valid() && old(published) <= published
      {
        var room := size - (writeCursor - readCursor);
        if HEADER <= room {
          var none: Payload := [];
          assert HEADER + |none| <= room;
          var p: Payload :| HEADER + |p| <= room;
          var _ := Publish(p, SeqOf(|published|));
        }
      }
      readerParked := *;
    }
  }
}
