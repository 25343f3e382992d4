// Machine words: bytes, 32-bit wrap-around, little-endian encoding, and the
// power-of-two mask that the ring uses in place of a modulus.
module Words {

  type byte = x: int | 0 <= x < 256

  const WORD: nat := 0x1_0000_0000

  /** The value of `x` in a 32-bit word. */
  function Wrap32(x: nat): (w: nat)
    ensures w < WORD
  {
    x % 0x1_0000_0000
  }

  /** Counters less than 2^32 apart are equal as words only if they are equal. */
  lemma {:induction false} WordsDistinct(a: nat, b: nat)
    requires a <= b < a + WORD
    ensures Wrap32(a) == Wrap32(b) <==> a == b
  {
  }

  /** `u32::wrapping_add(x, 1)`. */
  function Succ32(x: nat): (y: nat)
    requires x < WORD
    ensures y < WORD
  {
    if x + 1 == WORD then 0 else x + 1
  }

  /** The low `k` bytes of `x`, least significant first: `x.to_le_bytes()` for k = 4. */
  function ToLe(x: nat, k: nat): (b: seq<byte>)
    ensures |b| == k
  {
    if k == 0 then [] else [x % 256] + ToLe(x / 256, k - 1)
  }

  /** `u32::from_le_bytes(b)` for |b| = 4. */
  function FromLe(b: seq<byte>): nat {
    if b == [] then 0 else b[0] as int + 256 * FromLe(b[1..])
  }

  /** Which byte is which: byte j of the encoding is the j-th least significant. */
  lemma {:induction false} ToLeDigit(x: nat, k: nat, j: nat)
    requires j < k
    ensures ToLe(x, k)[j] == Shift(x, j) % 256
  {
    if j > 0 { ToLeDigit(x / 256, k - 1, j - 1); }
  }

  /** `x >> 8 * j`. */
  function Shift(x: nat, j: nat): nat { if j == 0 then x else Shift(x / 256, j - 1) }

  /** How many values `k` bytes can hold. */
  function Range(k: nat): nat {
    if k == 0 then 1 else 256 * Range(k - 1)
  }

  lemma {:induction false} LeRoundTrip(x: nat, k: nat)
    requires x < Range(k)
    ensures FromLe(ToLe(x, k)) == x
  {
    if k > 0 {
      LeRoundTrip(x / 256, k - 1);
      assert ToLe(x, k)[1..] == ToLe(x / 256, k - 1);
    }
  }

  lemma {:induction false} WordRange()
    ensures Range(4) == WORD
  {
    assert Range(1) == 256 && Range(2) == 65536 && Range(3) == 16777216;
  }

  function Pow2(k: nat): (p: nat)
    ensures p > 0
  {
    if k == 0 then 1 else 2 * Pow2(k - 1)
  }

  /** `usize::is_power_of_two`. */
  predicate IsPow2(n: nat) {
    n == 1 || (n > 1 && n % 2 == 0 && IsPow2(n / 2))
  }

  /** Bitwise `a & b`, one binary digit at a time. */
  function And(a: nat, b: nat): nat {
    if a == 0 || b == 0 then 0 else 2 * And(a / 2, b / 2) + (a % 2) * (b % 2)
  }

  /** Masking with `n - 1` is reduction modulo `n` exactly because `n` is a power of two. */
  lemma {:induction false} MaskIsMod(c: nat, n: nat)
    requires IsPow2(n)
    ensures And(c, n - 1) == c % n
    decreases c
  {
    if n == 1 {
    } else if c == 0 {
    } else {
      MaskIsMod(c / 2, n / 2);
      var h := n / 2;
      assert n == 2 * h && (n - 1) / 2 == h - 1 && (n - 1) % 2 == 1;
      HalfMod(c, h);
    }
  }

  lemma {:induction false} HalfMod(c: nat, h: nat)
    requires h > 0
    ensures c % (2 * h) == 2 * (c / 2 % h) + c % 2
  {
    var q, r := c / 2 / h, c / 2 % h;
    assert c == 2 * (q * h + r) + c % 2;
    assert c == q * (2 * h) + (2 * r + c % 2) by {
      assert 2 * (q * h) == q * (2 * h);
    }
    DivModUnique(c, 2 * h, q, 2 * r + c % 2);
  }

  lemma {:induction false} MulMono(a: nat, b: nat, d: nat)
    requires a < b
    ensures a * d + d <= b * d
  {
    assert b * d == a * d + d + (b - a - 1) * d;
  }

  /** Quotient and remainder are determined by their defining equation. */
  lemma {:induction false} DivModUnique(x: nat, d: nat, q: nat, r: nat)
    requires d > 0 && r < d && x == q * d + r
    ensures x % d == r && x / d == q
  {
    var q', r' := x / d, x % d;
    assert x == q' * d + r';
    if q < q' {
      MulMono(q, q', d);
    } else if q' < q {
      MulMono(q', q, d);
    }
  }

  /** A power of two above `2^k` is at least `2^(k+1)`. */
  lemma {:induction false} Pow2Gap(n: nat, k: nat)
    requires IsPow2(n) && n > Pow2(k)
    ensures n >= 2 * Pow2(k)
  {
    if k > 0 { Pow2Gap(n / 2, k - 1); }
  }

  /** The buffer slot of a cursor: the cursor wrapped into a ring of `n` bytes. */
  function Slot(i: nat, n: nat): (r: nat)
    requires n > 0
    ensures r < n
    decreases i
  {
    if i < n then i else Slot(i - n, n)
  }

  lemma {:induction false} SlotIsMod(i: nat, n: nat)
    requires n > 0
    ensures Slot(i, n) == i % n
    decreases i
  {
    if i < n {
      DivModUnique(i, n, 0, i);
    } else {
      SlotIsMod(i - n, n);
      var q := (i - n) / n;
      assert i - n == q * n + Slot(i - n, n);
      assert (q + 1) * n == q * n + n;
      DivModUnique(i, n, q + 1, Slot(i - n, n));
    }
  }

  /** The source's `cursor & (n - 1)` is the slot of the cursor, because n is a power of two. */
  lemma {:induction false} MaskIsSlot(c: nat, n: nat)
    requires IsPow2(n)
    ensures And(c, n - 1) == Slot(c, n)
  {
    MaskIsMod(c, n);
    SlotIsMod(c, n);
  }

  /** Distinct cursors less than one ring apart never share a slot. */
  lemma {:induction false} SlotsDistinct(a: nat, b: nat, n: nat)
    requires n > 0 && a < b < a + n
    ensures Slot(a, n) != Slot(b, n)
  {
    if a >= n {
      SlotsDistinct(a - n, b - n, n);
    } else if b >= n {
      assert Slot(b, n) == b - n;
    }
  }

  /** Where the slot of `c + k` falls relative to the wrap point. */
  lemma {:induction false} SlotOffset(c: nat, k: nat, n: nat)
    requires n > 0 && k < n
    ensures Slot(c + k, n) == if Slot(c, n) + k < n then Slot(c, n) + k else Slot(c, n) + k - n
    decreases c
  {
    if c >= n { SlotOffset(c - n, k, n); }
  }
}
