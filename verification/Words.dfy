/**
 * 32-bit words by value. The C operators |, & and & ~ are defined bit by bit, and
 * the bit laws the kernel relies on are proved for every word.
 */
module Words {
  import opened Types

  /** Bit i of w, the truth value of w & (1 << i). */
  predicate Bit(w: nat, i: nat) {
    if i == 0 then w % 2 == 1 else Bit(w / 2, i - 1)
  }

  function Low(b: bool): nat {
    if b then 1 else 0
  }

  function Or(a: nat, b: nat): nat {
    if a == 0 && b == 0 then 0 else Low(a % 2 == 1 || b % 2 == 1) + 2 * Or(a / 2, b / 2)
  }

  function And(a: nat, b: nat): nat {
    if a == 0 || b == 0 then 0 else Low(a % 2 == 1 && b % 2 == 1) + 2 * And(a / 2, b / 2)
  }

  /** a & ~b */
  function AndNot(a: nat, b: nat): nat {
    if a == 0 then 0 else Low(a % 2 == 1 && b % 2 == 0) + 2 * AndNot(a / 2, b / 2)
  }

  /** 1 << i */
  function Mask(i: nat): (m: nat)
    ensures m > 0
  {
    if i == 0 then 1 else 2 * Mask(i - 1)
  }

  lemma {:induction false} ZeroBit(i: nat)
    ensures !Bit(0, i)
  {
    if i > 0 {
      ZeroBit(i - 1);
    }
  }

  lemma {:induction false} OrBit(a: nat, b: nat, i: nat)
    ensures Bit(Or(a, b), i) <==> Bit(a, i) || Bit(b, i)
  {
    if a == 0 && b == 0 {
      ZeroBit(i);
    } else if i > 0 {
      OrBit(a / 2, b / 2, i - 1);
    }
  }

  lemma {:induction false} AndBit(a: nat, b: nat, i: nat)
    ensures Bit(And(a, b), i) <==> Bit(a, i) && Bit(b, i)
  {
    if a == 0 || b == 0 {
      ZeroBit(i);
    } else if i > 0 {
      AndBit(a / 2, b / 2, i - 1);
    }
  }

  lemma {:induction false} AndNotBit(a: nat, b: nat, i: nat)
    ensures Bit(AndNot(a, b), i) <==> Bit(a, i) && !Bit(b, i)
  {
    if a == 0 {
      ZeroBit(i);
    } else if i > 0 {
      AndNotBit(a / 2, b / 2, i - 1);
    }
  }

  lemma {:induction false} MaskBit(i: nat, j: nat)
    ensures Bit(Mask(i), j) <==> i == j
    decreases i
  {
    if i == 0 {
      if j > 0 {
        ZeroBit(j - 1);
      }
    } else if j > 0 {
      MaskBit(i - 1, j - 1);
    }
  }

  /** The operators stay inside any width that holds their operands. */
  lemma {:induction false} Fits(a: nat, b: nat, n: nat)
    requires a < Mask(n) && b < Mask(n)
    ensures Or(a, b) < Mask(n) && And(a, b) < Mask(n) && AndNot(a, b) < Mask(n)
    decreases n
  {
    if n > 0 && (a > 0 || b > 0) {
      Fits(a / 2, b / 2, n - 1);
    }
  }

  lemma {:induction false} MaskFits(i: nat, n: nat)
    requires i < n
    ensures Mask(i) < Mask(n)
  {
    if i > 0 {
      MaskFits(i - 1, n - 1);
    }
  }

  lemma Width()
    ensures Mask(MAX_PRIORITY) == TWO32
  {
    assert Mask(8) == 0x100;
    assert Mask(16) == 0x1_0000;
    assert Mask(24) == 0x100_0000;
  }

  /** Two words with the same bits are the same word. */
  lemma {:induction false} SameBits(a: nat, b: nat)
    requires forall i: nat :: Bit(a, i) <==> Bit(b, i)
    ensures a == b
    decreases a + b
  {
    if a > 0 || b > 0 {
      assert Bit(a, 0) <==> Bit(b, 0);
      forall i: nat
        ensures Bit(a / 2, i) <==> Bit(b / 2, i)
      {
        assert Bit(a, i + 1) <==> Bit(b, i + 1);
      }
      SameBits(a / 2, b / 2);
    }
  }

  // ---- The priority bitmap ----

  function OrWord(a: U32, b: U32): U32 {
    Width(); Fits(a, b, MAX_PRIORITY);
    Or(a, b)
  }

  function AndWord(a: U32, b: U32): U32 {
    Width(); Fits(a, b, MAX_PRIORITY);
    And(a, b)
  }

  function AndNotWord(a: U32, b: U32): U32 {
    Width(); Fits(a, b, MAX_PRIORITY);
    AndNot(a, b)
  }

  function PrioMask(p: Prio): U32 {
    Width(); MaskFits(p, MAX_PRIORITY);
    Mask(p)
  }

  /** The priorities a bitmap marks. */
  ghost function BitSet(w: U32): set<nat> {
    set p: nat | p < MAX_PRIORITY && Bit(w, p)
  }

  /** bitmap_set and bitmap_clear touch one bit and leave the other 31. */
  function BitmapSet(w: U32, p: Prio): (r: U32)
    ensures BitSet(r) == BitSet(w) + {p}
  {
    MaskedBits(w, p);
    OrWord(w, PrioMask(p))
  }

  function BitmapClear(w: U32, p: Prio): (r: U32)
    ensures BitSet(r) == BitSet(w) - {p}
  {
    MaskedBits(w, p);
    AndNotWord(w, PrioMask(p))
  }

  lemma MaskedBits(w: nat, p: nat)
    ensures forall q: nat :: Bit(Or(w, Mask(p)), q) <==> q == p || Bit(w, q)
    ensures forall q: nat :: Bit(AndNot(w, Mask(p)), q) <==> q != p && Bit(w, q)
  {
    forall q: nat
      ensures Bit(Or(w, Mask(p)), q) <==> q == p || Bit(w, q)
      ensures Bit(AndNot(w, Mask(p)), q) <==> q != p && Bit(w, q)
    {
      OrBit(w, Mask(p), q);
      AndNotBit(w, Mask(p), q);
      MaskBit(p, q);
    }
  }

  /** __builtin_ctz on a non-zero word. */
  function TrailingZeros(w: nat): nat
    requires w > 0
  {
    if w % 2 == 1 then 0 else 1 + TrailingZeros(w / 2)
  }

  lemma {:induction false} TrailingZerosLowest(w: nat, n: nat)
    requires 0 < w < Mask(n)
    ensures TrailingZeros(w) < n && Bit(w, TrailingZeros(w))
    ensures forall i: nat :: i < TrailingZeros(w) ==> !Bit(w, i)
    decreases w
  {
    if w % 2 == 0 {
      TrailingZerosLowest(w / 2, n - 1);
    }
  }

  /** bitmap_find_highest: the least marked priority, or MAX_PRIORITY when none is marked. */
  function FindHighest(w: U32): (p: nat)
    ensures p <= MAX_PRIORITY
    ensures p < MAX_PRIORITY ==> p in BitSet(w)
    ensures forall i: nat :: i < p ==> i !in BitSet(w)
  {
    if w == 0 then
      NoBits();
      MAX_PRIORITY
    else
      Width(); TrailingZerosLowest(w, MAX_PRIORITY);
      TrailingZeros(w)
  }

  lemma NoBits()
    ensures BitSet(0) == {}
  {
    forall i: nat
      ensures !Bit(0, i)
    {
      ZeroBit(i);
    }
  }

  // ---- The operators on the sets of marked bits ----

  lemma OrSet(a: U32, b: U32)
    ensures BitSet(OrWord(a, b)) == BitSet(a) + BitSet(b)
  {
    forall p: nat
      ensures Bit(OrWord(a, b), p) <==> Bit(a, p) || Bit(b, p)
    {
      OrBit(a, b, p);
    }
  }

  lemma AndSet(a: U32, b: U32)
    ensures BitSet(AndWord(a, b)) == BitSet(a) * BitSet(b)
  {
    forall p: nat
      ensures Bit(AndWord(a, b), p) <==> Bit(a, p) && Bit(b, p)
    {
      AndBit(a, b, p);
    }
  }

  lemma AndNotSet(a: U32, b: U32)
    ensures BitSet(AndNotWord(a, b)) == BitSet(a) - BitSet(b)
  {
    forall p: nat
      ensures Bit(AndNotWord(a, b), p) <==> Bit(a, p) && !Bit(b, p)
    {
      AndNotBit(a, b, p);
    }
  }

  /** A number below 2^n has no bit at n or above. */
  lemma {:induction false} HighBit(w: nat, n: nat, i: nat)
    requires w < Mask(n) && i >= n
    ensures !Bit(w, i)
    decreases n
  {
    if n == 0 {
      ZeroBit(i);
    } else {
      HighBit(w / 2, n - 1, i - 1);
    }
  }

  /** A word is determined by its 32 bits. */
  lemma SameSet(a: U32, b: U32)
    requires BitSet(a) == BitSet(b)
    ensures a == b
  {
    Width();
    forall i: nat
      ensures Bit(a, i) <==> Bit(b, i)
    {
      if i < MAX_PRIORITY {
        assert i in BitSet(a) <==> i in BitSet(b);
      } else {
        HighBit(a, MAX_PRIORITY, i);
        HighBit(b, MAX_PRIORITY, i);
      }
    }
    SameBits(a, b);
  }

  lemma ZeroSet(w: U32)
    ensures w == 0 <==> BitSet(w) == {}
  {
    NoBits();
    if BitSet(w) == {} {
      SameSet(w, 0);
    }
  }
}
