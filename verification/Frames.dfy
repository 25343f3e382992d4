// The byte stream carried by one ring: frames `[len:u32][seq:u32][payload]`
// laid end to end, and how a window of that stream sits in a circular buffer.
module Frames {
  import opened Words

  const HEADER: nat := 8

  type Payload = seq<byte>

  /** The number the k-th frame of a channel carries, counting from 0: start at 1, wrap at 2^32. */
  function SeqOf(k: nat): (q: nat)
    ensures q < WORD
  {
    if k == 0 then 1 else Succ32(SeqOf(k - 1))
  }

  /** Past 2^32 frames as before: the k-th frame carries (1 + k) mod 2^32. */
  lemma {:induction false} SeqClosedForm(k: nat)
    ensures SeqOf(k) == (1 + k) % 0x1_0000_0000
  {
    if k > 0 { SeqClosedForm(k - 1); }
  }

  /** A frame as the publisher lays it out; the length field is the truncating cast `len as u32`. */
  function RawFrame(q: nat, p: Payload): (f: seq<byte>)
    ensures |f| == HEADER + |p|
  {
    ToLe(Wrap32(|p|), 4) + ToLe(q, 4) + p
  }

  /** The bytes of the k-th frame of a channel. */
  function Frame(k: nat, p: Payload): (f: seq<byte>)
    ensures |f| == HEADER + |p|
  {
    RawFrame(SeqOf(k), p)
  }

  lemma {:induction false} FrameParts(q: nat, p: Payload)
    ensures RawFrame(q, p)[..8] == ToLe(Wrap32(|p|), 4) + ToLe(q, 4)
    ensures RawFrame(q, p)[8..] == p
  {
  }

  /** Every frame ever published, end to end; stream position = cursor value. */
  function Stream(ps: seq<Payload>): seq<byte> {
    if ps == [] then [] else Stream(ps[..|ps| - 1]) + Frame(|ps| - 1, ps[|ps| - 1])
  }

  /** The cursor at which the c-th frame starts. */
  function Offset(ps: seq<Payload>, c: nat): nat
    requires c <= |ps|
  {
    if c == 0 then 0 else Offset(ps, c - 1) + HEADER + |ps[c - 1]|
  }

  lemma {:induction false} OffsetPrefix(ps: seq<Payload>, qs: seq<Payload>, c: nat)
    requires c <= |ps| <= |qs| && qs[..|ps|] == ps
    ensures Offset(qs, c) == Offset(ps, c)
  {
    if c > 0 {
      assert qs[c - 1] == ps[c - 1];
      OffsetPrefix(ps, qs, c - 1);
    }
  }

  lemma {:induction false} StreamLength(ps: seq<Payload>)
    ensures |Stream(ps)| == Offset(ps, |ps|)
  {
    if ps != [] {
      var init := ps[..|ps| - 1];
      StreamLength(init);
      OffsetPrefix(init, ps, |init|);
    }
  }

  /** Each frame takes at least a header: k frames span at least 8k bytes. */
  lemma {:induction false} OffsetGap(ps: seq<Payload>, c: nat, d: nat)
    requires c <= d <= |ps|
    ensures Offset(ps, c) + 8 * (d - c) <= Offset(ps, d)
  {
    if c < d { OffsetGap(ps, c, d - 1); }
  }

  /** Publishing appends: earlier cursors and bytes keep their meaning. */
  lemma {:induction false} StreamSnoc(ps: seq<Payload>, p: Payload)
    ensures Stream(ps + [p]) == Stream(ps) + Frame(|ps|, p)
    ensures forall c: nat | c <= |ps| :: Offset(ps + [p], c) == Offset(ps, c)
    ensures Offset(ps + [p], |ps| + 1) == Offset(ps, |ps|) + HEADER + |p|
  {
    var qs := ps + [p];
    assert qs[..|qs| - 1] == ps && qs[|qs| - 1] == p;
    forall c: nat | c <= |ps| ensures Offset(qs, c) == Offset(ps, c) { OffsetPrefix(ps, qs, c); }
  }

  /** The c-th frame is found in the stream at its offset. */
  lemma {:induction false} StreamAt(ps: seq<Payload>, c: nat)
    requires c < |ps|
    ensures Offset(ps, c) + HEADER + |ps[c]| == Offset(ps, c + 1) <= |Stream(ps)|
    ensures Stream(ps)[Offset(ps, c)..Offset(ps, c + 1)] == Frame(c, ps[c])
  {
    var init := ps[..|ps| - 1];
    StreamLength(init);
    StreamLength(ps);
    OffsetPrefix(init, ps, |init|);
    OffsetGap(ps, c + 1, |ps|);
    if c < |init| {
      StreamAt(init, c);
      OffsetPrefix(init, ps, c);
      OffsetPrefix(init, ps, c + 1);
      assert Stream(ps)[Offset(ps, c)..Offset(ps, c + 1)]
          == Stream(init)[Offset(ps, c)..Offset(ps, c + 1)];
    } else {
      assert Stream(ps)[|Stream(init)|..] == Frame(c, ps[c]);
    }
  }

  /** Write `d` at cursor `c`, one byte after another, wrapping at the end. */
  function CopyIn(m: seq<byte>, c: nat, d: seq<byte>): (r: seq<byte>)
    requires |m| > 0
    ensures |r| == |m|
  {
    if d == [] then m
    else CopyIn(m, c, d[..|d| - 1])[Slot(c + |d| - 1, |m|) := d[|d| - 1]]
  }

  /** Read `len` bytes at cursor `c`, wrapping at the end. */
  function CopyOut(m: seq<byte>, c: nat, len: nat): (r: seq<byte>)
    requires |m| > 0
    ensures |r| == len
  {
    seq(len, i requires 0 <= i => m[Slot(c + i, |m|)])
  }

  lemma {:induction false} CopyInConcat(m: seq<byte>, c: nat, a: seq<byte>, b: seq<byte>)
    requires |m| > 0
    ensures CopyIn(CopyIn(m, c, a), c + |a|, b) == CopyIn(m, c, a + b)
  {
    if b == [] {
      assert a + b == a;
    } else {
      var b' := b[..|b| - 1];
      assert (a + b)[..|a + b| - 1] == a + b';
      CopyInConcat(m, c, a, b');
    }
  }

  /** What a wrapped write does to each slot, provided it is no longer than the ring. */
  lemma {:induction false} CopyInEffect(m: seq<byte>, c: nat, d: seq<byte>)
    requires 0 < |m| && |d| <= |m|
    ensures forall i | c <= i < c + |d| :: CopyIn(m, c, d)[Slot(i, |m|)] == d[i - c]
    ensures forall i: nat | c + |d| <= i + |m| && i < c :: CopyIn(m, c, d)[Slot(i, |m|)] == m[Slot(i, |m|)]
    ensures forall i: nat | c + |d| <= i < c + |m| :: CopyIn(m, c, d)[Slot(i, |m|)] == m[Slot(i, |m|)]
  {
    if d != [] {
      var last := c + |d| - 1;
      var d' := d[..|d| - 1];
      CopyInEffect(m, c, d');
      forall i: nat | i < last < i + |m| ensures Slot(i, |m|) != Slot(last, |m|) { SlotsDistinct(i, last, |m|); }
      forall i: nat | last < i < last + |m| ensures Slot(i, |m|) != Slot(last, |m|) { SlotsDistinct(last, i, |m|); }
    }
  }

  /** The unread window [rc, wc) of the stream is intact in the buffer. */
  ghost predicate Window(m: seq<byte>, rc: nat, wc: nat, ps: seq<Payload>)
    requires |m| > 0
  {
    wc <= |Stream(ps)| && forall i {:trigger Stream(ps)[i]} | rc <= i < wc :: m[Slot(i, |m|)] == Stream(ps)[i]
  }

  /** Copying out of the window yields the stream bytes. */
  lemma {:induction false} WindowRead(m: seq<byte>, rc: nat, wc: nat, ps: seq<Payload>, c: nat, len: nat)
    requires |m| > 0 && Window(m, rc, wc, ps) && rc <= c && c + len <= wc
    ensures CopyOut(m, c, len) == Stream(ps)[c..c + len]
  {
  }

  /** A copied header decodes to the frame's length and sequence number. */
  lemma {:induction false} HeaderDecode(h: seq<byte>, k: nat, p: Payload)
    requires h == Frame(k, p)[..8] && |p| < WORD
    ensures |h| == 8 && FromLe(h[..4]) == |p| && FromLe(h[4..]) == SeqOf(k)
  {
    FrameParts(SeqOf(k), p);
    var a, b := ToLe(|p|, 4), ToLe(SeqOf(k), 4);
    assert h == a + b && h[..4] == a && h[4..] == b;
    WordRange();
    LeRoundTrip(|p|, 4);
    LeRoundTrip(SeqOf(k), 4);
  }

  lemma {:induction false} CopyOutSplit(m: seq<byte>, c: nat, a: nat, b: nat)
    requires |m| > 0
    ensures CopyOut(m, c, a + b)[..a] == CopyOut(m, c, a)
    ensures CopyOut(m, c, a + b)[a..] == CopyOut(m, c + a, b)
  {
    var tail := CopyOut(m, c, a + b)[a..];
    forall i | 0 <= i < b ensures tail[i] == CopyOut(m, c + a, b)[i] {
      assert c + (a + i) == c + a + i;
    }
  }

  /** The bytes at the read cursor are those of the next unread frame. */
  lemma {:induction false} HeadBytes(m: seq<byte>, rc: nat, wc: nat, ps: seq<Payload>, c: nat)
    requires |m| > 0 && c < |ps| && rc == Offset(ps, c) && wc == Offset(ps, |ps|)
    requires Window(m, rc, wc, ps)
    ensures rc + HEADER + |ps[c]| <= wc
    ensures CopyOut(m, rc, HEADER + |ps[c]|) == Frame(c, ps[c])
  {
    StreamAt(ps, c);
    OffsetGap(ps, c + 1, |ps|);
    WindowRead(m, rc, wc, ps, rc, HEADER + |ps[c]|);
  }

  /** Decoding at the read cursor gives back exactly the next payload and its number. */
  lemma {:induction false} HeadFrame(m: seq<byte>, rc: nat, wc: nat, ps: seq<Payload>, c: nat)
    requires |m| > 0 && c < |ps| && rc == Offset(ps, c) && wc == Offset(ps, |ps|)
    requires Window(m, rc, wc, ps) && |ps[c]| < WORD
    ensures rc + HEADER + |ps[c]| <= wc
    ensures FromLe(CopyOut(m, rc, 8)[..4]) == |ps[c]|
    ensures FromLe(CopyOut(m, rc, 8)[4..]) == SeqOf(c)
    ensures CopyOut(m, rc + 8, |ps[c]|) == ps[c]
  {
    HeadBytes(m, rc, wc, ps, c);
    CopyOutSplit(m, rc, 8, |ps[c]|);
    FrameParts(SeqOf(c), ps[c]);
    HeaderDecode(CopyOut(m, rc, 8), c, ps[c]);
  }

  /**
   * Frame round trip at any cursor: three wrap-splitting writes followed by two
   * wrap-splitting reads return the length, the sequence number and the payload.
   */
  lemma {:induction false} FrameRoundTrip(m: seq<byte>, c: nat, k: nat, p: Payload)
    requires HEADER + |p| <= |m| <= 0x8000_0000
    ensures var w := CopyIn(CopyIn(CopyIn(m, c, ToLe(Wrap32(|p|), 4)), c + 4, ToLe(SeqOf(k), 4)), c + 8, p);
            && FromLe(CopyOut(w, c, 8)[..4]) == |p|
            && FromLe(CopyOut(w, c, 8)[4..]) == SeqOf(k)
            && CopyOut(w, c + 8, |p|) == p
  {
    var f := Frame(k, p);
    WriteFrame(m, c, SeqOf(k), p);
    var w := CopyIn(m, c, f);
    CopyInEffect(m, c, f);
    FrameParts(SeqOf(k), p);
    assert CopyOut(w, c, 8) == f[..8];
    assert CopyOut(w, c + 8, |p|) == f[8..];
    HeaderDecode(CopyOut(w, c, 8), k, p);
  }

  /** The publisher's three writes lay down exactly one frame. */
  lemma {:induction false} WriteFrame(m: seq<byte>, c: nat, q: nat, p: Payload)
    requires |m| > 0
    ensures CopyIn(CopyIn(CopyIn(m, c, ToLe(Wrap32(|p|), 4)), c + 4, ToLe(q, 4)), c + 8, p)
         == CopyIn(m, c, RawFrame(q, p))
  {
    var a, b := ToLe(Wrap32(|p|), 4), ToLe(q, 4);
    CopyInConcat(m, c, a, b);
    CopyInConcat(m, c, a + b, p);
    assert RawFrame(q, p) == a + b + p;
  }

  /** The first `k` bytes of `f` are in place from cursor `wc` on. */
  ghost predicate Placed(m: seq<byte>, wc: nat, f: seq<byte>, k: nat)
    requires |m| > 0 && k <= |f|
  {
    forall j {:trigger f[j]} | 0 <= j < k :: m[Slot(wc + j, |m|)] == f[j]
  }

  /** Writing the next byte of a frame after the window disturbs neither the window nor
      the bytes of the frame already in place. */
  lemma {:induction false} StageByte(m: seq<byte>, rc: nat, wc: nat, ps: seq<Payload>, f: seq<byte>, i: nat)
    requires |m| > 0 && Window(m, rc, wc, ps) && rc <= wc && i < |f| && wc + i < rc + |m|
    requires Placed(m, wc, f, i)
    ensures var m' := m[Slot(wc + i, |m|) := f[i]];
            Window(m', rc, wc, ps) && Placed(m', wc, f, i + 1)
  {
    forall j | rc <= j < wc + i ensures Slot(j, |m|) != Slot(wc + i, |m|) { SlotsDistinct(j, wc + i, |m|); }
  }

  /** A frame staged right after the window extends it. */
  lemma {:induction false} WindowExtend(m: seq<byte>, rc: nat, wc: nat, ps: seq<Payload>, p: Payload)
    requires |m| > 0 && Window(m, rc, wc, ps) && wc == Offset(ps, |ps|)
    requires Placed(m, wc, Frame(|ps|, p), HEADER + |p|)
    ensures Window(m, rc, wc + HEADER + |p|, ps + [p])
  {
    StreamLength(ps);
    StreamSnoc(ps, p);
    forall j | rc <= j < wc + HEADER + |p| ensures m[Slot(j, |m|)] == Stream(ps + [p])[j] {
      if j >= wc { assert m[Slot(wc + (j - wc), |m|)] == Frame(|ps|, p)[j - wc]; }
    }
  }

  /** Publishing a frame that fits extends the window and disturbs no unread byte. */
  lemma {:induction false} WindowPublish(m: seq<byte>, rc: nat, wc: nat, ps: seq<Payload>, p: Payload)
    requires |m| > 0 && Window(m, rc, wc, ps) && rc <= wc == Offset(ps, |ps|)
    requires wc + HEADER + |p| <= rc + |m|
    ensures Window(CopyIn(m, wc, Frame(|ps|, p)), rc, wc + HEADER + |p|, ps + [p])
  {
    var f := Frame(|ps|, p);
    var m' := CopyIn(m, wc, f);
    CopyInEffect(m, wc, f);
    assert Window(m', rc, wc, ps);
    forall j | 0 <= j < |f| ensures m'[Slot(wc + j, |m|)] == f[j] { assert f[wc + j - wc] == f[j]; }
    WindowExtend(m', rc, wc, ps, p);
  }
}
