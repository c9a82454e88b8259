/** Bit lists and the arbitrary-precision integers that carry scan data.
    A bit list is index 0 first; a Python integer is a Dafny int whose bit k is BitOf(v, k),
    two's complement for negative values, so the shift right is division by two rounding down. */
module Bits {

  type Bits = seq<bool>

  function BitOf(v: int, k: nat): bool
    decreases k
  {
    if k == 0 then v % 2 == 1 else BitOf(v / 2, k - 1)
  }

  /** tap_ir.bits_to_int: index 0 is the least significant bit. */
  function ToInt(b: Bits): (v: nat) {
    if b == [] then 0 else (if b[0] then 1 else 0) + 2 * ToInt(b[1..])
  }

  /** tap_ir.bits_from_int: the low `width` bits of a value. */
  function FromInt(v: int, width: nat): (b: Bits)
    ensures |b| == width
    decreases width
  {
    if width == 0 then [] else [v % 2 == 1] + FromInt(v / 2, width - 1)
  }

  lemma {:induction false} FromIntBit(v: int, width: nat, k: nat)
    requires k < width
    ensures FromInt(v, width)[k] == BitOf(v, k)
    decreases k
  {
    if k > 0 {
      FromIntBit(v / 2, width - 1, k - 1);
    }
  }

  lemma {:induction false} FromIntToInt(b: Bits)
    ensures FromInt(ToInt(b), |b|) == b
  {
    if b != [] {
      FromIntToInt(b[1..]);
      var v := ToInt(b);
      assert v / 2 == ToInt(b[1..]) && (v % 2 == 1) == b[0];
    }
  }

  lemma {:induction false} ToIntBit(b: Bits, k: nat)
    ensures BitOf(ToInt(b), k) == (k < |b| && b[k])
  {
    if b == [] {
      ZeroBit(k);
    } else {
      var v := ToInt(b);
      assert v / 2 == ToInt(b[1..]) && (v % 2 == 1) == b[0];
      if k > 0 {
        ToIntBit(b[1..], k - 1);
      }
    }
  }

  lemma {:induction false} ZeroBit(k: nat)
    ensures !BitOf(0, k)
  {
    if k > 0 {
      ZeroBit(k - 1);
    }
  }

  /** A packed list is zero exactly when every bit is clear. */
  lemma {:induction false} ToIntZero(b: Bits)
    ensures ToInt(b) == 0 <==> forall k :: 0 <= k < |b| ==> !b[k]
  {
    if b != [] {
      ToIntZero(b[1..]);
      assert forall k :: 0 < k < |b| ==> b[k] == b[1..][k - 1];
    }
  }

  lemma {:induction false} ToIntInjective(a: Bits, b: Bits)
    requires |a| == |b| && ToInt(a) == ToInt(b)
    ensures a == b
  {
    FromIntToInt(a);
    FromIntToInt(b);
  }

  // ---------------------------------------------------------------- integer operators

  function Not(v: int): int { -1 - v }

  function Abs(v: int): nat { if v < 0 then -v else v }

  /** Two's complement `&` on unbounded integers. */
  function And(a: int, b: int): int
    decreases Abs(a)
  {
    if a == 0 || b == 0 then 0
    else if a == -1 then b
    else if b == -1 then a
    else (if a % 2 == 1 && b % 2 == 1 then 1 else 0) + 2 * And(a / 2, b / 2)
  }

  function Or(a: int, b: int): int { Not(And(Not(a), Not(b))) }

  function Shl(v: int, k: nat): int
    decreases k
  {
    if k == 0 then v else 2 * Shl(v, k - 1)
  }

  lemma {:induction false} NotBit(v: int, k: nat)
    ensures BitOf(Not(v), k) == !BitOf(v, k)
    decreases k
  {
    if k > 0 {
      NotBit(v / 2, k - 1);
      assert Not(v) / 2 == Not(v / 2);
    }
  }

  lemma {:induction false} AndBit(a: int, b: int, k: nat)
    ensures BitOf(And(a, b), k) == (BitOf(a, k) && BitOf(b, k))
    decreases k
  {
    ZeroBit(k);
    NotBit(0, k);
    assert Not(0) == -1;
    if a == 0 || b == 0 || a == -1 || b == -1 {
    } else {
      AndHalves(a, b);
      if k > 0 {
        AndBit(a / 2, b / 2, k - 1);
      }
    }
  }

  lemma AndHalves(a: int, b: int)
    requires a != 0 && b != 0 && a != -1 && b != -1
    ensures And(a, b) / 2 == And(a / 2, b / 2)
    ensures And(a, b) % 2 == 1 <==> a % 2 == 1 && b % 2 == 1
  {
    var low := if a % 2 == 1 && b % 2 == 1 then 1 else 0;
    assert And(a, b) == low + 2 * And(a / 2, b / 2);
  }

  lemma OrBit(a: int, b: int, k: nat)
    ensures BitOf(Or(a, b), k) == (BitOf(a, k) || BitOf(b, k))
  {
    NotBit(a, k);
    NotBit(b, k);
    AndBit(Not(a), Not(b), k);
    NotBit(And(Not(a), Not(b)), k);
  }

  /** Two's complement `^`. */
  function XorInt(a: int, b: int): int { Or(And(a, Not(b)), And(Not(a), b)) }

  lemma XorIntBit(a: int, b: int, k: nat)
    ensures BitOf(XorInt(a, b), k) == (BitOf(a, k) != BitOf(b, k))
  {
    NotBit(a, k);
    NotBit(b, k);
    AndBit(a, Not(b), k);
    AndBit(Not(a), b, k);
    OrBit(And(a, Not(b)), And(Not(a), b), k);
  }

  lemma {:induction false} ShlBit(v: int, s: nat, k: nat)
    ensures BitOf(Shl(v, s), k) == (k >= s && BitOf(v, k - s))
  {
    if s > 0 {
      if k > 0 {
        ShlBit(v, s - 1, k - 1);
        assert Shl(v, s) / 2 == Shl(v, s - 1);
      }
    }
  }

  lemma ShlOneBit(j: nat, k: nat)
    ensures BitOf(Shl(1, j), k) <==> k == j
  {
    ShlBit(1, j, k);
    if k > j {
      ZeroBit(k - j - 1);
    }
  }

  lemma MinusOneBit(k: nat)
    ensures BitOf(-1, k)
  {
    NotBit(0, k);
    ZeroBit(k);
    assert Not(0) == -1;
  }

  /** Integers with the same bits are the same integer. */
  lemma {:induction false} SameBits(a: int, b: int)
    requires forall k: nat :: BitOf(a, k) == BitOf(b, k)
    ensures a == b
    decreases Abs(a) + Abs(b)
  {
    assert BitOf(a, 0) == BitOf(b, 0);
    if (a == 0 || a == -1) && (b == 0 || b == -1) {
    } else {
      forall k: nat ensures BitOf(a / 2, k) == BitOf(b / 2, k) {
        assert BitOf(a, k + 1) == BitOf(b, k + 1);
      }
      SameBits(a / 2, b / 2);
    }
  }

  ghost predicate AgreeUnder(a: int, b: int, mask: int) {
    forall k: nat :: BitOf(mask, k) ==> BitOf(a, k) == BitOf(b, k)
  }

  /** A masked comparison looks at exactly the bits the mask selects. */
  lemma MaskedEqual(a: int, b: int, mask: int)
    ensures And(a, mask) == And(b, mask) <==> AgreeUnder(a, b, mask)
  {
    forall k: nat
      ensures BitOf(And(a, mask), k) == (BitOf(a, k) && BitOf(mask, k))
      ensures BitOf(And(b, mask), k) == (BitOf(b, k) && BitOf(mask, k))
    {
      AndBit(a, mask, k);
      AndBit(b, mask, k);
    }
    if And(a, mask) == And(b, mask) {
      assert forall k: nat :: BitOf(And(a, mask), k) == BitOf(And(b, mask), k);
    } else if AgreeUnder(a, b, mask) {
      SameBits(And(a, mask), And(b, mask));
    }
  }

  // ---------------------------------------------------------------- lists

  function Reverse(b: Bits): (r: Bits)
    ensures |r| == |b|
    ensures forall k :: 0 <= k < |b| ==> r[k] == b[|b| - 1 - k]
  {
    if b == [] then [] else Reverse(b[1..]) + [b[0]]
  }

  function Zeros(n: nat): (b: Bits)
    ensures |b| == n && forall k :: 0 <= k < n ==> !b[k]
  {
    seq(n, _ => false)
  }

  lemma ReverseTwice(b: Bits)
    ensures Reverse(Reverse(b)) == b
  {
  }

  lemma {:induction false} FromZero(n: nat)
    ensures FromInt(0, n) == Zeros(n)
  {
    forall k | 0 <= k < n ensures FromInt(0, n)[k] == Zeros(n)[k] {
      FromIntBit(0, n, k);
      ZeroBit(k);
    }
  }

  lemma Rejoin(b: Bits, n: nat, m: nat)
    requires n <= m <= |b|
    ensures b[..n] + b[n..m] + b[m..] == b
  {
  }

  lemma Parts(a: Bits, b: Bits, c: Bits)
    ensures var s := a + b + c;
            s[..|a|] == a && s[|a|..|a| + |b|] == b && s[|a| + |b|..] == c
  {
  }

  function Pow2(n: nat): (p: nat)
    ensures p >= 1
  {
    if n == 0 then 1 else 2 * Pow2(n - 1)
  }

  lemma {:induction false} AllOnesBit(width: nat, k: nat)
    requires k < width
    ensures BitOf(Pow2(width) - 1, k)
    decreases k
  {
    if k > 0 {
      AllOnesBit(width - 1, k - 1);
      assert (Pow2(width) - 1) / 2 == Pow2(width - 1) - 1;
    }
  }

  lemma {:induction false} ToIntFromInt(v: int, width: nat)
    requires 0 <= v < Pow2(width)
    ensures ToInt(FromInt(v, width)) == v
    decreases width
  {
    if width > 0 {
      ToIntFromInt(v / 2, width - 1);
      assert FromInt(v, width)[1..] == FromInt(v / 2, width - 1);
    }
  }
}
