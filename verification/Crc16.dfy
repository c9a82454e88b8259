/** The checksum of STAPL files (stapl_crc16.py): CRC-16/X-25, Annex B of JESD71. The 16-bit
    register is a bit list, so a shift right drops the first bit; bytes enter least significant
    bit first. */
module Crc16 {
  import opened Bits
  import opened Gf2

  type Word = w: Bits | |w| == 16 witness Zeros(16)

  type Byte = b: int | 0 <= b < 256

  /** 0x8408: bits 3, 10 and 15. */
  const POLY_MASK: Word := [
    false, false, false, true, false, false, false, false, false, false, true, false, false, false, false, true]

  function Ones(): Word { seq(16, _ => true) }

  function Shifted(w: Word): Word { w[1..] + [false] }

  function Step(crc: Word): Word {
    if crc[0] then Xor(Shifted(crc), POLY_MASK) else Shifted(crc)
  }

  function Steps(crc: Word, n: nat): Word
    decreases n
  {
    if n == 0 then crc else Steps(Step(crc), n - 1)
  }

  /** The register after `data`, from `crc`. */
  function Register(crc: Word, data: seq<Byte>): Word
    decreases |data|
  {
    if data == [] then crc else Register(Steps(Xor(crc, FromInt(data[0], 16)), 8), data[1..])
  }

  function Crc(data: seq<Byte>): Word { Xor(Register(Ones(), data), Ones()) }

  /** No bytes sum to 0: the register starts at all ones and is inverted at the end. */
  lemma NothingSums()
    ensures Crc([]) == Zeros(16)
  {
    assert Register(Ones(), []) == Ones();
  }

  lemma {:induction false} RegisterJoin(crc: Word, a: seq<Byte>, b: seq<Byte>)
    ensures Register(crc, a + b) == Register(Register(crc, a), b)
    decreases |a|
  {
    hide Steps, Xor;
    if a == [] {
      assert a + b == b;
    } else {
      assert (a + b)[1..] == a[1..] + b;
      RegisterJoin(Steps(Xor(crc, FromInt(a[0], 16)), 8), a[1..], b);
    }
  }

  lemma {:induction false} StepsLast(crc: Word, n: nat)
    ensures Steps(crc, n + 1) == Step(Steps(crc, n))
    decreases n
  {
    hide Step;
    if n > 0 {
      StepsLast(Step(crc), n - 1);
    }
  }

  // ---------------------------------------------------------------- the loop on integers

  /** `v` packs the register `w`. */
  ghost predicate Packs(v: int, w: Word) { 0 <= v < 0x10000 && FromInt(v, 16) == w }

  lemma MaskPacks()
    ensures Packs(0x8408, POLY_MASK)
  {
    hide FromInt;
    AroundBits(0, true, 0, true, 0, true);
    FromZero(3);
    FromZero(6);
    FromZero(4);
  }

  lemma PacksXor(v: int, w: Word, v': int, w': Word)
    requires Packs(v, w) && Packs(v', w')
    ensures Packs(XorInt(v, v'), Xor(w, w'))
  {
    hide FromInt, XorInt, BitOf;
    FromIntXor(v, v', 16);
    var x, y := XorInt(v, v'), ToInt(Xor(w, w'));
    ToIntBelow(Xor(w, w'));
    PowersOfTwo();
    forall k: nat ensures BitOf(x, k) == BitOf(y, k) {
      ToIntBit(Xor(w, w'), k);
      if k < 16 {
        FromIntBit(x, 16, k);
      } else {
        XorIntBit(v, v', k);
        HighBitClear(v, k);
        HighBitClear(v', k);
      }
    }
    SameBits(x, y);
  }

  lemma HighBitClear(v: int, k: nat)
    requires 0 <= v < 0x10000 && k >= 16
    ensures !BitOf(v, k)
  {
    hide FromInt, BitOf;
    PowersOfTwo();
    ToIntFromInt(v, 16);
    ToIntBit(FromInt(v, 16), k);
  }

  lemma PacksStep(v: int, w: Word)
    requires Packs(v, w)
    ensures Packs(if v % 2 == 1 then XorInt(v / 2, 0x8408) else v / 2, Step(w))
  {
    hide FromInt, XorInt;
    ShiftHalves(v % 2 == 1, v / 2);
    MaskPacks();
    if v % 2 == 1 {
      PacksXor(v / 2, Shifted(w), 0x8408, POLY_MASK);
    }
  }

  lemma PacksByte(b: Byte)
    ensures Packs(b, FromInt(b, 16))
  {
  }

  method ByteIn(crc: int, byte: Byte, ghost w: Word) returns (r: int)
    requires Packs(crc, w)
    ensures Packs(r, Steps(Xor(w, FromInt(byte, 16)), 8))
  {
    hide Steps, Xor, XorInt, FromInt, Step, Packs;
    ghost var start := Xor(w, FromInt(byte, 16));
    r := XorInt(crc, byte);
    PacksByte(byte);
    PacksXor(crc, w, byte, FromInt(byte, 16));
    NoSteps(start);
    for k := 0 to 8
      invariant Packs(r, Steps(start, k))
    {
      StepsLast(start, k);
      PacksStep(r, Steps(start, k));
      if r % 2 == 1 {
        r := XorInt(r / 2, 0x8408);
      } else {
        r := r / 2;
      }
    }
  }

  lemma NoSteps(crc: Word)
    ensures Steps(crc, 0) == crc
  {
  }

  method Crc16X25(data: seq<Byte>) returns (crc: int)
    ensures Packs(crc, Crc(data))
  {
    hide Packs, Xor, XorInt, Steps, FromInt;
    crc := 0xFFFF;
    AllOnesPacks();
    for i := 0 to |data|
      invariant Packs(crc, Register(Ones(), data[..i]))
    {
      assert data[..i + 1] == data[..i] + [data[i]];
      RegisterJoin(Ones(), data[..i], [data[i]]);
      crc := ByteIn(crc, data[i], Register(Ones(), data[..i]));
    }
    assert data[..|data|] == data;
    PacksXor(crc, Register(Ones(), data), 0xFFFF, Ones());
    crc := XorInt(crc, 0xFFFF);
  }

  lemma AllOnesPacks()
    ensures Packs(0xFFFF, Ones())
  {
    AllOnes();
  }

  // ---------------------------------------------------------------- the step is linear and invertible

  lemma StepLinear(a: Word, b: Word)
    ensures Step(Xor(a, b)) == Xor(Step(a), Step(b))
  {
    assert Shifted(Xor(a, b)) == Xor(Shifted(a), Shifted(b));
    var p := POLY_MASK;
    var c, d := Shifted(a), Shifted(b);
    assert Xor(Xor(c, d), p) == Xor(Xor(c, p), d) == Xor(c, Xor(d, p));
    assert Xor(Xor(c, p), Xor(d, p)) == Xor(c, d);
  }

  lemma MaskTop()
    ensures POLY_MASK[15]
  {
  }

  lemma StepInjective(a: Word, b: Word)
    requires Step(a) == Step(b)
    ensures a == b
  {
    MaskTop();
    assert Step(a)[15] == a[0] && Step(b)[15] == b[0];
    assert Shifted(a) == Shifted(b) by {
      assert forall k :: 0 <= k < 16 ==> Step(a)[k] == Step(b)[k];
    }
    assert forall k :: 1 <= k < 16 ==> a[k] == Shifted(a)[k - 1];
  }

  // ---------------------------------------------------------------- the register, bit by bit

  function Unit(b: bool): Word { [b] + Zeros(15) }

  /** The reference form: one message bit enters per step. */
  function Serial(crc: Word, bits: Bits): Word
    decreases |bits|
  {
    if bits == [] then crc else Serial(Step(Xor(crc, Unit(bits[0]))), bits[1..])
  }

  /** A message as the bits it is sent in. */
  function MessageBits(data: seq<Byte>): (r: Bits)
    ensures |r| == 8 * |data|
  {
    if data == [] then [] else FromInt(data[0], 8) + MessageBits(data[1..])
  }

  /** Entering a word at once and stepping enters its bits one by one. */
  lemma {:induction false} StepsAreSerial(crc: Word, bits: Bits, rest: Bits)
    requires |bits| + |rest| == 16
    ensures Steps(Xor(crc, bits + rest), |bits|) == Xor(Serial(crc, bits), rest + Zeros(|bits|))
    decreases |bits|
  {
    hide Steps, Serial, Step;
    if bits == [] {
      assert bits + rest == rest == rest + Zeros(0);
      NoneEntered(Xor(crc, rest), crc, rest);
    } else {
      var w := bits + rest;
      assert w[1..] + [false] == bits[1..] + (rest + [false]);
      EnterOne(crc, w);
      var next := Step(Xor(crc, Unit(bits[0])));
      StepsAreSerial(next, bits[1..], rest + [false]);
      assert (rest + [false]) + Zeros(|bits| - 1) == rest + Zeros(|bits|);
      StepsUnfold(Xor(crc, w), |bits|);
      SerialUnfold(crc, bits);
    }
  }

  lemma NoneEntered(start: Word, crc: Word, rest: Word)
    requires start == Xor(crc, rest)
    ensures Steps(start, 0) == Xor(Serial(crc, []), rest)
  {
  }

  lemma StepsUnfold(crc: Word, n: nat)
    requires n > 0
    ensures Steps(crc, n) == Steps(Step(crc), n - 1)
  {
  }

  lemma SerialUnfold(crc: Word, bits: Bits)
    requires bits != []
    ensures Serial(crc, bits) == Serial(Step(Xor(crc, Unit(bits[0]))), bits[1..])
  {
  }

  lemma EnterOne(crc: Word, w: Word)
    ensures Step(Xor(crc, w)) == Xor(Step(Xor(crc, Unit(w[0]))), Shifted(w))
  {
    var tail: Word := [false] + w[1..];
    assert Xor(crc, w) == Xor(Xor(crc, Unit(w[0])), tail);
    StepLinear(Xor(crc, Unit(w[0])), tail);
    assert Step(tail) == Shifted(w);
  }

  lemma {:induction false} SerialJoin(crc: Word, a: Bits, b: Bits)
    ensures Serial(crc, a + b) == Serial(Serial(crc, a), b)
    decreases |a|
  {
    hide Step, Xor;
    if a == [] {
      assert a + b == b;
    } else {
      assert (a + b)[1..] == a[1..] + b;
      SerialJoin(Step(Xor(crc, Unit(a[0]))), a[1..], b);
    }
  }

  lemma ByteEnters(crc: Word, b: Byte)
    ensures Steps(Xor(crc, FromInt(b, 16)), 8) == Serial(crc, FromInt(b, 8))
  {
    var bits := FromInt(b, 8);
    ByteAsWord(b);
    StepsAreSerial(crc, bits, Zeros(8));
    assert Xor(Serial(crc, bits), Zeros(8) + Zeros(8)) == Serial(crc, bits);
  }

  lemma ByteAsWord(b: Byte)
    ensures FromInt(b, 16) == FromInt(b, 8) + Zeros(8)
  {
    hide FromInt;
    assert Pow2(8) == 256;
    FromIntSplit(b, 0, 8, 8);
    FromZero(8);
  }

  /** The byte-wise register is the bit-serial one. */
  lemma {:induction false} RegisterIsSerial(crc: Word, data: seq<Byte>)
    ensures Register(crc, data) == Serial(crc, MessageBits(data))
    decreases |data|
  {
    hide Steps, Xor;
    if data != [] {
      ByteEnters(crc, data[0]);
      RegisterIsSerial(Steps(Xor(crc, FromInt(data[0], 16)), 8), data[1..]);
      SerialJoin(crc, FromInt(data[0], 8), MessageBits(data[1..]));
    }
  }

  // ---------------------------------------------------------------- bursts

  lemma {:induction false} SerialInjective(a: Word, b: Word, bits: Bits)
    requires Serial(a, bits) == Serial(b, bits)
    ensures a == b
    decreases |bits|
  {
    hide Step;
    if bits != [] {
      var u := Unit(bits[0]);
      SerialInjective(Step(Xor(a, u)), Step(Xor(b, u)), bits[1..]);
      StepInjective(Xor(a, u), Xor(b, u));
      XorCancels(a, b, u);
    }
  }

  lemma XorCancels(a: Bits, b: Bits, u: Bits)
    requires |a| == |b| == |u| && Xor(a, u) == Xor(b, u)
    ensures a == b
  {
    forall k | 0 <= k < |a| ensures a[k] == b[k] {
      assert Xor(a, u)[k] == Xor(b, u)[k];
    }
  }

  lemma XorSelf(a: Word)
    ensures Xor(a, a) == Zeros(16)
  {
  }

  /** The difference of two registers evolves by itself. */
  lemma {:induction false} SerialDifference(a: Word, b: Word, x: Bits, y: Bits)
    requires |x| == |y|
    ensures Xor(Serial(a, x), Serial(b, y)) == Serial(Xor(a, b), Xor(x, y))
    decreases |x|
  {
    hide Step, Xor;
    if x != [] {
      var u, v := Unit(x[0]), Unit(y[0]);
      StepLinear(Xor(a, u), Xor(b, v));
      XorCross(a, b, x[0], y[0]);
      SerialDifference(Step(Xor(a, u)), Step(Xor(b, v)), x[1..], y[1..]);
      XorTail(x, y);
    }
  }

  lemma XorTail(x: Bits, y: Bits)
    requires |x| == |y| && x != []
    ensures Xor(x, y)[0] == (x[0] != y[0]) && Xor(x, y)[1..] == Xor(x[1..], y[1..])
  {
  }

  lemma XorCross(a: Word, b: Word, x: bool, y: bool)
    ensures Xor(Xor(a, Unit(x)), Xor(b, Unit(y))) == Xor(Xor(a, b), Unit(x != y))
  {
  }

  /** A difference that `k` more bits can cancel lies in the low `k` bits. */
  lemma {:induction false} CancelledIsShort(d: Word, bits: Bits)
    requires |bits| <= 15 && Serial(d, bits) == Zeros(16)
    ensures forall j :: |bits| <= j < 16 ==> !d[j]
    decreases |bits|
  {
    if bits != [] {
      var x := Xor(d, Unit(bits[0]));
      CancelledIsShort(Step(x), bits[1..]);
      MaskTop();
      assert Step(x)[15] == x[0];
      forall j | |bits| <= j < 16 ensures !d[j] {
        assert Step(x)[j - 1] == x[j];
      }
    }
  }

  /** A difference of at most 16 consecutive bits, the first of them real, never cancels. */
  lemma ShortBurst(bits: Bits)
    requires 1 <= |bits| <= 16 && bits[0]
    ensures Serial(Zeros(16), bits) != Zeros(16)
  {
    var first := Xor(Zeros(16), Unit(true));
    MaskTop();
    assert Step(first)[15];
    if Serial(Zeros(16), bits) == Zeros(16) {
      CancelledIsShort(Step(first), bits[1..]);
    }
  }

  lemma {:induction false} NothingEntered(bits: Bits)
    requires forall k :: 0 <= k < |bits| ==> !bits[k]
    ensures Serial(Zeros(16), bits) == Zeros(16)
    decreases |bits|
  {
    if bits != [] {
      assert Xor(Zeros(16), Unit(false)) == Zeros(16);
      assert Step(Zeros(16)) == Zeros(16);
      NothingEntered(bits[1..]);
    }
  }

  lemma FirstOne(bits: Bits) returns (p: nat)
    requires exists k :: 0 <= k < |bits| && bits[k]
    ensures p < |bits| && bits[p] && forall k :: 0 <= k < p ==> !bits[k]
  {
    p := 0;
    while !bits[p]
      invariant p < |bits| && forall k :: 0 <= k < p ==> !bits[k]
      decreases |bits| - p
    {
      p := p + 1;
    }
  }

  /** A nonzero difference confined to 16 consecutive bits leaves a nonzero register difference. */
  lemma BurstRemains(d: Bits, start: nat)
    requires exists k :: 0 <= k < |d| && d[k]
    requires forall k :: 0 <= k < |d| && d[k] ==> start <= k < start + 16
    ensures Serial(Zeros(16), d) != Zeros(16)
  {
    hide Serial;
    var p := FirstOne(d);
    var q := if p + 16 <= |d| then p + 16 else |d|;
    var x, y, z := d[..p], d[p..q], d[q..];
    Rejoin(d, p, q);
    SerialJoin(Zeros(16), x + y, z);
    SerialJoin(Zeros(16), x, y);
    NothingEntered(x);
    ShortBurst(y);
    NothingEntered(z);
    if Serial(Zeros(16), d) == Zeros(16) {
      SerialInjective(Serial(Zeros(16), y), Zeros(16), z);
    }
  }

  /** Two messages of the same length that differ, all their differences inside 16 consecutive
      bits, have different checksums. */
  lemma BurstIsDetected(a: seq<Byte>, b: seq<Byte>, start: nat)
    requires |a| == |b| && MessageBits(a) != MessageBits(b)
    requires forall k :: 0 <= k < 8 * |a| && MessageBits(a)[k] != MessageBits(b)[k] ==> start <= k < start + 16
    ensures Crc(a) != Crc(b)
  {
    hide Serial, Register;
    var x, y := MessageBits(a), MessageBits(b);
    var d := Xor(x, y);
    var p := TopmostDifference(x, y);
    assert d[p];
    BurstRemains(d, start);
    SerialDifference(Ones(), Ones(), x, y);
    assert Xor(Ones(), Ones()) == Zeros(16);
    RegisterIsSerial(Ones(), a);
    RegisterIsSerial(Ones(), b);
    if Crc(a) == Crc(b) {
      XorCancels(Register(Ones(), a), Register(Ones(), b), Ones());
      XorSelf(Register(Ones(), a));
    }
  }

  // ---------------------------------------------------------------- appending the checksum

  /** Appending the checksum, low byte first, always leaves the same register. */
  lemma ResidueIsConstant(data: seq<Byte>)
    ensures var crc := Crc(data);
            0 <= ToInt(crc[..8]) < 256 && 0 <= ToInt(crc[8..]) < 256
            && Register(Ones(), data + [ToInt(crc[..8]), ToInt(crc[8..])]) == FromInt(0xF0B8, 16)
  {
    hide Serial, Register, Steps;
    var s, crc := Register(Ones(), data), Crc(data);
    ByteRange(crc[..8]);
    ByteRange(crc[8..]);
    var lo, hi := ToInt(crc[..8]), ToInt(crc[8..]);
    RegisterJoin(Ones(), data, [lo, hi]);
    RegisterIsSerial(s, [lo, hi]);
    FromIntToInt(crc[..8]);
    FromIntToInt(crc[8..]);
    TwoBytes(lo, hi);
    assert crc[..8] + crc[8..] == crc;
    StepsAreSerial(s, crc, []);
    assert crc + [] == crc && Xor(s, crc) == Ones();
    assert Xor(Serial(s, crc), [] + Zeros(16)) == Serial(s, crc);
    OnesLeave();
    AllOnes();
  }

  lemma {:induction false} ToIntBelow(b: Bits)
    ensures ToInt(b) < Pow2(|b|)
  {
    if b != [] {
      ToIntBelow(b[1..]);
    }
  }

  lemma ByteRange(b: Bits)
    requires |b| == 8
    ensures 0 <= ToInt(b) < 256
  {
    ToIntBelow(b);
    assert Pow2(8) == 256;
  }

  lemma TwoBytes(lo: Byte, hi: Byte)
    ensures MessageBits([lo, hi]) == FromInt(lo, 8) + FromInt(hi, 8)
  {
    assert [lo, hi][1..] == [hi];
    assert MessageBits([hi]) == FromInt(hi, 8) + [];
  }

  lemma {:induction false} FromIntSplit(low: nat, high: nat, n: nat, m: nat)
    requires low < Pow2(n)
    ensures FromInt(low + Pow2(n) * high, n + m) == FromInt(low, n) + FromInt(high, m)
    decreases n
  {
    hide FromInt;
    NoBits(low);
    if n > 0 {
      var rest := Pow2(n - 1) * high;
      DoubledProduct(high, n);
      HalveSum(low, rest);
      FromIntSplit(low / 2, high, n - 1, m);
      FromIntUnfold(low + 2 * rest, n + m);
      FromIntUnfold(low, n);
    } else {
      assert low == 0;
    }
  }

  lemma DoubledProduct(high: nat, n: nat)
    requires n > 0
    ensures Pow2(n) * high == 2 * (Pow2(n - 1) * high)
  {
  }

  lemma HalveSum(low: nat, rest: nat)
    ensures (low + 2 * rest) % 2 == low % 2 && (low + 2 * rest) / 2 == low / 2 + rest
  {
  }

  lemma FromIntUnfold(v: int, n: nat)
    requires n > 0
    ensures FromInt(v, n) == [v % 2 == 1] + FromInt(v / 2, n - 1)
  {
  }

  /** A 16-bit integer split around bits 3, 10 and 15. */
  function Around(p: nat, x: bool, q: nat, y: bool, r: nat, z: bool): nat {
    p + 8 * ((if x then 1 else 0) + 2 * (q + 64 * ((if y then 1 else 0) + 2 * (r + 16 * if z then 1 else 0))))
  }

  lemma Front(x: bool, h: nat, n: nat)
    requires n > 0
    ensures FromInt((if x then 1 else 0) + 2 * h, n) == [x] + FromInt(h, n - 1)
  {
  }

  lemma PowersOfTwo()
    ensures Pow2(3) == 8 && Pow2(4) == 16 && Pow2(6) == 64 && Pow2(15) == 0x8000 && Pow2(16) == 0x10000
  {
    assert Pow2(9) == 512 && Pow2(12) == 4096;
  }

  lemma AroundBits(p: nat, x: bool, q: nat, y: bool, r: nat, z: bool)
    requires p < 8 && q < 64 && r < 16
    ensures FromInt(Around(p, x, q, y, r, z), 16)
            == FromInt(p, 3) + ([x] + (FromInt(q, 6) + ([y] + (FromInt(r, 4) + [z]))))
  {
    hide FromInt, Pow2;
    var b := (if y then 1 else 0) + 2 * (r + 16 * if z then 1 else 0);
    PowersOfTwo();
    LastBits(y, r, z);
    MiddleBits(x, q, b);
    FromIntSplit(p, (if x then 1 else 0) + 2 * (q + 64 * b), 3, 13);
  }

  lemma LastBits(y: bool, r: nat, z: bool)
    requires r < 16
    ensures FromInt((if y then 1 else 0) + 2 * (r + 16 * if z then 1 else 0), 6) == [y] + (FromInt(r, 4) + [z])
  {
    hide FromInt, Pow2;
    var c := if z then 1 else 0;
    PowersOfTwo();
    Front(y, r + 16 * c, 6);
    FromIntSplit(r, c, 4, 1);
    Front(z, 0, 1);
    NoBits(0);
    assert [z] + [] == [z];
  }

  lemma MiddleBits(x: bool, q: nat, b: nat)
    requires q < 64
    ensures FromInt((if x then 1 else 0) + 2 * (q + 64 * b), 13) == [x] + (FromInt(q, 6) + FromInt(b, 6))
  {
    hide FromInt, Pow2;
    PowersOfTwo();
    Front(x, q + 64 * b, 13);
    FromIntSplit(q, b, 6, 6);
  }

  lemma NoBits(v: int)
    ensures FromInt(v, 0) == []
  {
  }

  /** Shifting a register right halves the integer it packs. */
  lemma ShiftHalves(odd: bool, h: nat)
    requires h < 0x8000
    ensures var w := FromInt((if odd then 1 else 0) + 2 * h, 16); w[0] == odd && Shifted(w) == FromInt(h, 16)
  {
    hide FromInt, Pow2;
    PowersOfTwo();
    Front(odd, h, 16);
    FromIntSplit(h, 0, 15, 1);
    Front(false, 0, 1);
    NoBits(0);
  }

  /** A step of an odd register: halve it, then flip bits 3, 10 and 15. */
  lemma OddStep(p: nat, x: bool, q: nat, y: bool, r: nat, n: nat)
    requires p < 8 && q < 64 && r < 16 && n > 0
    ensures Steps(FromInt(2 * Around(p, x, q, y, r, false) + 1, 16), n)
            == Steps(FromInt(Around(p, !x, q, !y, r, true), 16), n - 1)
  {
    hide Steps, FromInt;
    var h := Around(p, x, q, y, r, false);
    ShiftHalves(true, h);
    AroundBits(p, x, q, y, r, false);
    AroundBits(p, !x, q, !y, r, true);
    Flipped(FromInt(p, 3), x, FromInt(q, 6), y, FromInt(r, 4));
    StepsUnfold(FromInt(2 * h + 1, 16), n);
  }

  lemma Flipped(p: Bits, x: bool, q: Bits, y: bool, r: Bits)
    requires |p| == 3 && |q| == 6 && |r| == 4
    ensures Xor(p + ([x] + (q + ([y] + (r + [false])))), POLY_MASK) == p + ([!x] + (q + ([!y] + (r + [true]))))
  {
  }

  lemma EvenStep(h: nat, n: nat)
    requires h < 0x8000 && n > 0
    ensures Steps(FromInt(2 * h, 16), n) == Steps(FromInt(h, 16), n - 1)
  {
    hide Steps, FromInt;
    ShiftHalves(false, h);
    StepsUnfold(FromInt(2 * h, 16), n);
  }

  /** Sixteen steps from all ones. */
  lemma OnesLeave()
    ensures Steps(FromInt(0xFFFF, 16), 16) == FromInt(0xF0B8, 16)
  {
    hide Steps, FromInt;
    OddStep(7, true, 63, true, 15, 16);
    OddStep(3, true, 31, true, 15, 15);
    OddStep(1, true, 15, true, 15, 14);
    OddStep(0, true, 7, true, 15, 13);
    EvenStep(31800, 12);
    EvenStep(15900, 11);
    EvenStep(7950, 10);
    EvenStep(3975, 9);
    OddStep(3, false, 60, true, 0, 8);
    OddStep(5, false, 30, false, 8, 7);
    OddStep(6, false, 47, false, 12, 6);
    EvenStep(29567, 5);
    OddStep(7, true, 27, false, 7, 4);
    OddStep(3, true, 45, true, 11, 3);
    OddStep(1, true, 22, true, 13, 2);
    OddStep(0, false, 11, true, 14, 1);
    NoSteps(FromInt(0xF0B8, 16));
  }

  lemma AllOnes()
    ensures FromInt(0xFFFF, 16) == Ones()
  {
    hide FromInt, Pow2;
    PowersOfTwo();
    forall k | 0 <= k < 16 ensures FromInt(0xFFFF, 16)[k] {
      FromIntBit(0xFFFF, 16, k);
      AllOnesBit(16, k);
    }
  }
}
