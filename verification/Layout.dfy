// Where things live in the mapping: the size check, the offsets, which ring each
// role sends on, and why writing one ring's bytes leaves everything else alone.
module Layout {
  import opened Words
  import opened Frames

  const GLOBAL_HEADER_SIZE: nat := 256
  const RING_HEADER_SIZE: nat := 128

  /** `validate_config`: a power of two between 64 and u32::MAX. */
  predicate ValidRingSize(n: nat) { 64 <= n && IsPow2(n) && n <= 0xFFFF_FFFF }

  lemma {:induction false} Pow2Multiple(n: nat, k: nat)
    requires IsPow2(n) && n >= Pow2(k)
    ensures exists q: nat :: n == q * Pow2(k)
  {
    if k == 0 {
      assert n == n * Pow2(0);
    } else {
      Pow2Multiple(n / 2, k - 1);
      var q: nat :| n / 2 == q * Pow2(k - 1);
      assert n == 2 * (n / 2) == q * (2 * Pow2(k - 1));
    }
  }

  lemma {:induction false} Pow2Sum(a: nat, b: nat)
    ensures Pow2(a + b) == Pow2(a) * Pow2(b)
  {
    if a > 0 { Pow2Sum(a - 1, b); }
  }

  lemma {:induction false} Powers()
    ensures Pow2(6) == 64 && Pow2(31) == 0x8000_0000
  {
    assert Pow2(1) == 2 && Pow2(2) == 4 && Pow2(3) == 8;
    Pow2Sum(3, 3);
    Pow2Sum(6, 6);
    Pow2Sum(12, 12);
    Pow2Sum(24, 6);
    Pow2Sum(30, 1);
  }

  /** Every accepted size is a multiple of a cache line and at most 2^31, so no length or
      bump count in the protocol can reach 2^32. */
  lemma {:induction false} LegalSizeRange(n: nat)
    requires ValidRingSize(n)
    ensures 64 <= n <= 0x8000_0000 && n % 64 == 0
  {
    Powers();
    Pow2Multiple(n, 6);
    var q: nat :| n == q * Pow2(6);
    DivModUnique(n, 64, q, 0);
    if n > Pow2(31) { Pow2Gap(n, 31); }
  }

  lemma {:induction false} Pow2Monotone(a: nat, b: nat)
    requires a < b
    ensures 2 * Pow2(a) <= Pow2(b)
  {
    if a + 1 < b { Pow2Monotone(a, b - 1); }
  }

  lemma {:induction false} PowersArePow2(k: nat)
    ensures IsPow2(Pow2(k))
  {
    if k > 0 { PowersArePow2(k - 1); }
  }

  lemma {:induction false} Exponent(n: nat) returns (k: nat)
    requires IsPow2(n)
    ensures n == Pow2(k)
  {
    if n == 1 {
      k := 0;
    } else {
      var j := Exponent(n / 2);
      k := j + 1;
    }
  }

  /** The accepted sizes are exactly the 26 powers of two from 2^6 to 2^31. */
  lemma {:induction false} LegalSizes(n: nat)
    ensures ValidRingSize(n) <==> exists k :: 6 <= k <= 31 && n == Pow2(k)
  {
    Powers();
    if ValidRingSize(n) {
      LegalSizeRange(n);
      var k := Exponent(n);
      if k < 6 { Pow2Monotone(k, 6); }
      if k > 31 { Pow2Monotone(31, k); }
    }
    if k :| 6 <= k <= 31 && n == Pow2(k) {
      PowersArePow2(k);
      if k > 6 { Pow2Monotone(6, k); }
      if k < 31 { Pow2Monotone(k, 31); }
    }
  }

  datatype Offsets = Offsets(aHeader: nat, aData: nat, bHeader: nat, bData: nat, total: nat)

  /** `RingOffsets::new`. */
  function RingOffsets(n: nat): Offsets {
    var ringTotal := RING_HEADER_SIZE + n;
    Offsets(GLOBAL_HEADER_SIZE,
            GLOBAL_HEADER_SIZE + RING_HEADER_SIZE,
            GLOBAL_HEADER_SIZE + ringTotal,
            GLOBAL_HEADER_SIZE + ringTotal + RING_HEADER_SIZE,
            GLOBAL_HEADER_SIZE + ringTotal * 2)
  }

  datatype Region = Region(start: nat, len: nat) {
    predicate Has(x: nat) { start <= x < start + len }
  }

  function Regions(n: nat): seq<Region> {
    var o := RingOffsets(n);
    [Region(0, GLOBAL_HEADER_SIZE), Region(o.aHeader, RING_HEADER_SIZE), Region(o.aData, n),
     Region(o.bHeader, RING_HEADER_SIZE), Region(o.bData, n)]
  }

  /** Which region a byte of the file lies in. */
  function RegionOf(n: nat, x: nat): (i: nat)
    ensures i < 5
  {
    var o := RingOffsets(n);
    if x < o.aHeader then 0 else if x < o.aData then 1 else if x < o.bHeader then 2 else if x < o.bData then 3 else 4
  }

  lemma {:induction false} OneRegion(n: nat, x: nat, j: nat)
    requires j < 5
    ensures Regions(n)[j].Has(x) <==> x < RingOffsets(n).total && j == RegionOf(n, x)
  {
  }

  lemma {:induction false} Aligned(n: nat, i: nat)
    requires n % 64 == 0 && i < 5
    ensures Regions(n)[i].start % 64 == 0 && Regions(n)[i].len % 64 == 0
  {
  }

  /** The five regions are 64-byte aligned, inside the file, and tile it: every byte of the
      file is in exactly one of them. Each header directly precedes its data, ring A comes
      first, and the data areas are as long as the ring. */
  lemma {:induction false} LayoutSound(n: nat, x: nat)
    requires ValidRingSize(n)
    ensures forall i | 0 <= i < 5 :: Regions(n)[i].start % 64 == 0 && Regions(n)[i].len % 64 == 0
    ensures var o := RingOffsets(n);
            && o.aHeader == GLOBAL_HEADER_SIZE && o.aData == o.aHeader + RING_HEADER_SIZE
            && o.bHeader == o.aData + n && o.bData == o.bHeader + RING_HEADER_SIZE && o.total == o.bData + n
    ensures x < RingOffsets(n).total <==> exists i :: 0 <= i < 5 && Regions(n)[i].Has(x)
    ensures forall i, j | 0 <= i < 5 && 0 <= j < 5 && Regions(n)[i].Has(x) && Regions(n)[j].Has(x) :: i == j
  {
    LegalSizeRange(n);
    forall i | 0 <= i < 5 ensures Regions(n)[i].start % 64 == 0 && Regions(n)[i].len % 64 == 0 { Aligned(n, i); }
    forall j: nat | j < 5 ensures Regions(n)[j].Has(x) <==> x < RingOffsets(n).total && j == RegionOf(n, x) {
      OneRegion(n, x, j);
    }
    assert x < RingOffsets(n).total ==> Regions(n)[RegionOf(n, x)].Has(x);
  }

  datatype Role = Server | Client

  datatype Ends = Ends(sendHeader: nat, sendData: nat, recvHeader: nat, recvData: nat)

  /** `from_shared`: which ring a role sends on and which it receives on. */
  function EndsOf(role: Role, n: nat): Ends {
    var o := RingOffsets(n);
    match role
    case Server => Ends(o.aHeader, o.aData, o.bHeader, o.bData)
    case Client => Ends(o.bHeader, o.bData, o.aHeader, o.aData)
  }

  /** The server sends on ring A. Each side's send ring is the other's receive ring, header and
      data, and the two rings share no byte. */
  lemma {:induction false} RolesCross(n: nat, x: nat)
    requires ValidRingSize(n)
    ensures var s, c := EndsOf(Server, n), EndsOf(Client, n);
            && s.sendHeader == RingOffsets(n).aHeader && s.sendData == RingOffsets(n).aData
            && s.sendHeader == c.recvHeader && s.sendData == c.recvData
            && c.sendHeader == s.recvHeader && c.sendData == s.recvData
            && !(Region(s.sendData, n).Has(x) && Region(s.recvData, n).Has(x))
            && !(Region(s.sendHeader, RING_HEADER_SIZE).Has(x) && Region(s.recvHeader, RING_HEADER_SIZE).Has(x))
  {
  }

  /** `write_ring` against the whole mapping: the data area at `at` takes the wrapped write. */
  function WriteAt(file: seq<byte>, at: nat, n: nat, cursor: nat, d: seq<byte>): (r: seq<byte>)
    requires 0 < n && at + n <= |file| && |d| <= n
    ensures |r| == |file|
  {
    file[..at] + CopyIn(file[at..at + n], cursor, d) + file[at + n..]
  }

  /** Writing a single byte is storing it at its slot. */
  lemma {:induction false} WriteByteAt(file: seq<byte>, at: nat, n: nat, cursor: nat, b: byte)
    requires 0 < n && at + n <= |file|
    ensures WriteAt(file, at, n, cursor, [b]) == file[at + Slot(cursor, n) := b]
    ensures CopyIn(file[at..at + n], cursor, [b]) == file[at..at + n][Slot(cursor, n) := b]
  {
    var area := file[at..at + n];
    assert [b][..0] == [] && CopyIn(area, cursor, []) == area;
    assert CopyIn(area, cursor, [b]) == area[Slot(cursor, n) := b];
  }

  /** A write by one role, at any cursor and of any length up to the ring, changes no byte
      of the headers or of the other direction's data area. */
  lemma {:induction false} WriteStaysInside(file: seq<byte>, role: Role, n: nat, cursor: nat, d: seq<byte>)
    requires ValidRingSize(n) && |file| == RingOffsets(n).total && |d| <= n
    ensures var e := EndsOf(role, n);
            var after := WriteAt(file, e.sendData, n, cursor, d);
            && (forall x | 0 <= x < |file| && !Region(e.sendData, n).Has(x) :: after[x] == file[x])
            && after[e.recvData..e.recvData + n] == file[e.recvData..e.recvData + n]
            && after[e.sendData..e.sendData + n] == CopyIn(file[e.sendData..e.sendData + n], cursor, d)
  {
  }
}
