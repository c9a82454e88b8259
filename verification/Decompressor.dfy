/** The decompressor of faultflow_compression.py: an LFSR whose stages, mixed by a phase shifter,
    feed every scan chain. The same step runs on single bits and on coefficient masks over the
    seed; a pattern's seed comes from one joint system of equations over those masks. */
module Decompressor {
  import opened Wrappers
  import opened Bits
  import opened Gf2

  datatype Polynomial = Polynomial(width: nat, taps: set<nat>)

  /** One shift cycle, on bits or on masks: a Galois LFSR with feedback from its last stage. */
  function Step(rows: seq<int>, poly: Polynomial): (r: seq<int>)
    requires |rows| == poly.width >= 1
    ensures |r| == |rows|
  {
    var fb := rows[poly.width - 1];
    seq(poly.width, i requires 0 <= i < poly.width =>
      if i == 0 then fb else XorInt(rows[i - 1], if i in poly.taps then fb else 0))
  }

  method StepRows(rows: seq<int>, poly: Polynomial) returns (r: seq<int>)
    requires |rows| == poly.width >= 1
    ensures r == Step(rows, poly)
  {
    var fb := rows[poly.width - 1];
    r := [fb];
    for i := 1 to poly.width
      invariant r == Step(rows, poly)[..i]
    {
      r := r + [XorInt(rows[i - 1], if i in poly.taps then fb else 0)];
    }
  }

  function Stepped(rows: seq<int>, poly: Polynomial, t: nat): (r: seq<int>)
    requires |rows| == poly.width >= 1
    ensures |r| == |rows|
  {
    if t == 0 then rows else Step(Stepped(rows, poly, t - 1), poly)
  }

  /** The stages named by `taps`, xored together. */
  function Mixed(rows: seq<int>, taps: seq<nat>): int
    requires forall k :: 0 <= k < |taps| ==> taps[k] < |rows|
  {
    if taps == [] then 0 else XorInt(Mixed(rows, taps[..|taps| - 1]), rows[taps[|taps| - 1]])
  }

  method XorReduce(rows: seq<int>, taps: seq<nat>) returns (acc: int)
    requires forall k :: 0 <= k < |taps| ==> taps[k] < |rows|
    ensures acc == Mixed(rows, taps)
  {
    acc := 0;
    for k := 0 to |taps|
      invariant acc == Mixed(rows, taps[..k])
    {
      assert taps[..k + 1][..k] == taps[..k];
      acc := XorInt(acc, rows[taps[k]]);
    }
    assert taps[..|taps|] == taps;
  }

  ghost predicate PhaseShifter(taps: seq<seq<nat>>, width: nat) {
    forall c, k :: 0 <= c < |taps| && 0 <= k < |taps[c]| ==> taps[c][k] < width
  }

  function MixAll(rows: seq<int>, taps: seq<seq<nat>>): seq<int>
    requires PhaseShifter(taps, |rows|)
  {
    seq(|taps|, c requires 0 <= c < |taps| => Mixed(rows, taps[c]))
  }

  /** Mask `i` stands for seed bit `i`. */
  function Units(width: nat): (r: seq<int>)
    ensures |r| == width
  {
    seq(width, i requires 0 <= i < width => Shl(1, i))
  }

  method MixRow(rows: seq<int>, taps: seq<seq<nat>>) returns (row: seq<int>)
    requires PhaseShifter(taps, |rows|)
    ensures row == MixAll(rows, taps)
  {
    hide Mixed;
    row := [];
    for c := 0 to |taps|
      invariant row == MixAll(rows, taps)[..c]
    {
      var bit := XorReduce(rows, taps[c]);
      row := row + [bit];
    }
  }

  /** Mask of chain `c` at shift cycle `t`, for every chain and cycle. */
  function CareRow(poly: Polynomial, taps: seq<seq<nat>>, t: nat): seq<int>
    requires poly.width >= 1 && PhaseShifter(taps, poly.width)
  {
    MixAll(Stepped(Units(poly.width), poly, t), taps)
  }

  method CareBitRows(poly: Polynomial, taps: seq<seq<nat>>, length: nat) returns (out: seq<seq<int>>)
    requires poly.width >= 1 && PhaseShifter(taps, poly.width)
    ensures out == seq(length, t requires 0 <= t < length => CareRow(poly, taps, t))
  {
    hide MixAll, Step;
    var rows := Units(poly.width);
    out := [];
    for t := 0 to length
      invariant rows == Stepped(Units(poly.width), poly, t) && |out| == t
      invariant forall u :: 0 <= u < t ==> out[u] == CareRow(poly, taps, u)
    {
      var row := MixRow(rows, taps);
      out := out + [row];
      rows := StepRows(rows, poly);
    }
  }

  // ---------------------------------------------------------------- masks stand for bits

  /** The parity of `mask & seed`. */
  function Parity(mask: int, seed: Bits): bool { Dot(FromInt(mask, |seed|), seed) }

  function AsInt(b: bool): int { if b then 1 else 0 }

  function Loaded(seed: Bits): (r: seq<int>)
    ensures |r| == |seed|
  {
    seq(|seed|, i requires 0 <= i < |seed| => AsInt(seed[i]))
  }

  /** Every mask of `masks` has the parity the bit beside it shows. */
  ghost predicate StandFor(masks: seq<int>, bits: seq<int>, seed: Bits) {
    |masks| == |bits| && forall k :: 0 <= k < |masks| ==> bits[k] == AsInt(Parity(masks[k], seed))
  }

  lemma ParityXor(a: int, b: int, seed: Bits)
    ensures Parity(XorInt(a, b), seed) == (Parity(a, seed) != Parity(b, seed))
  {
    var w := |seed|;
    FromIntXor(a, b, w);
    DotXor(FromInt(a, w), FromInt(b, w), seed);
  }

  lemma ParityZero(seed: Bits)
    ensures !Parity(0, seed)
  {
    FromZero(|seed|);
    DotNone(Zeros(|seed|), seed);
  }

  lemma ParityUnit(i: nat, seed: Bits)
    requires i < |seed|
    ensures Parity(Shl(1, i), seed) == seed[i]
  {
    var unit := FromInt(Shl(1, i), |seed|);
    UnitBits(i, |seed|);
    DotOne(unit, seed, i);
  }

  lemma UnitBits(i: nat, width: nat)
    ensures forall k :: 0 <= k < width ==> FromInt(Shl(1, i), width)[k] == (k == i)
  {
    hide Shl;
    forall k | 0 <= k < width ensures FromInt(Shl(1, i), width)[k] == (k == i) {
      FromIntBit(Shl(1, i), width, k);
      ShlOneBit(i, k);
    }
  }

  lemma BitXor(a: bool, b: bool)
    ensures XorInt(AsInt(a), AsInt(b)) == AsInt(a != b)
  {
    assert And(0, -1) == 0 && And(1, -1) == 1 && And(-2, 1) == 0 && And(1, -2) == 0;
  }

  lemma UnitsStandFor(seed: Bits)
    ensures StandFor(Units(|seed|), Loaded(seed), seed)
  {
    forall k | 0 <= k < |seed| ensures Loaded(seed)[k] == AsInt(Parity(Units(|seed|)[k], seed)) {
      ParityUnit(k, seed);
    }
  }

  lemma StepStandsFor(masks: seq<int>, bits: seq<int>, poly: Polynomial, seed: Bits)
    requires |masks| == poly.width >= 1 && StandFor(masks, bits, seed)
    ensures StandFor(Step(masks, poly), Step(bits, poly), seed)
  {
    hide Parity, XorInt;
    var last := poly.width - 1;
    forall k | 0 <= k < poly.width ensures Step(bits, poly)[k] == AsInt(Parity(Step(masks, poly)[k], seed)) {
      if k > 0 {
        var fed := if k in poly.taps then masks[last] else 0;
        ParityZero(seed);
        ParityXor(masks[k - 1], fed, seed);
        BitXor(Parity(masks[k - 1], seed), Parity(fed, seed));
      }
    }
  }

  lemma {:induction false} SteppedStandsFor(poly: Polynomial, seed: Bits, t: nat)
    requires |seed| == poly.width >= 1
    ensures StandFor(Stepped(Units(poly.width), poly, t), Stepped(Loaded(seed), poly, t), seed)
  {
    if t == 0 {
      UnitsStandFor(seed);
    } else {
      SteppedStandsFor(poly, seed, t - 1);
      StepStandsFor(Stepped(Units(poly.width), poly, t - 1), Stepped(Loaded(seed), poly, t - 1), poly, seed);
    }
  }

  lemma {:induction false} MixedStandsFor(masks: seq<int>, bits: seq<int>, taps: seq<nat>, seed: Bits)
    requires StandFor(masks, bits, seed) && forall k :: 0 <= k < |taps| ==> taps[k] < |masks|
    ensures Mixed(bits, taps) == AsInt(Parity(Mixed(masks, taps), seed))
    decreases |taps|
  {
    if taps == [] {
      ParityZero(seed);
    } else {
      var front, k := taps[..|taps| - 1], taps[|taps| - 1];
      MixedStandsFor(masks, bits, front, seed);
      ParityXor(Mixed(masks, front), masks[k], seed);
      BitXor(Parity(Mixed(masks, front), seed), Parity(masks[k], seed));
    }
  }

  /** What chain `c` gets `t` shift cycles after the LFSR was loaded with `seed`. */
  function Delivered(poly: Polynomial, taps: seq<seq<nat>>, seed: Bits, c: nat, t: nat): int
    requires |seed| == poly.width >= 1 && PhaseShifter(taps, poly.width) && c < |taps|
  {
    Mixed(Stepped(Loaded(seed), poly, t), taps[c])
  }

  // ---------------------------------------------------------------- the recurrence

  ghost predicate Odd(s: set<nat>) { |s| % 2 == 1 }

  /** The bit the last stage shows at cycle `t`, by the recurrence of the polynomial: the xor of the bit shown
      `width` cycles earlier, or of the seed's in the first `width` cycles, with one earlier bit per tap. */
  ghost predicate Stream(poly: Polynomial, seed: Bits, t: nat)
    requires |seed| == poly.width >= 1
    decreases t, 1
  {
    (if t < poly.width then seed[poly.width - 1 - t] else Stream(poly, seed, t - poly.width))
    != Odd(TapsShown(poly, seed, t))
  }

  /** The taps that count in it: tap `i` looks `width - i` cycles back. */
  ghost function TapsShown(poly: Polynomial, seed: Bits, t: nat): (s: set<nat>)
    requires |seed| == poly.width >= 1
    decreases t, 0
  {
    set i: nat | i in poly.taps && 1 <= i < poly.width && poly.width <= t + i && Stream(poly, seed, t + i - poly.width)
  }

  /** The taps whose feedback is in stage `j` at cycle `t`. */
  ghost function Fed(poly: Polynomial, seed: Bits, t: nat, j: nat): (s: set<nat>)
    requires |seed| == poly.width >= 1
  {
    set i: nat | i in poly.taps && 1 <= i <= j < t + i && Stream(poly, seed, t + i - (j + 1))
  }

  /** What stage `j` holds at cycle `t`: what came in at stage 0, or the seed's bit, and the taps passed since. */
  ghost predicate StageBit(poly: Polynomial, seed: Bits, t: nat, j: nat)
    requires |seed| == poly.width >= 1 && j < poly.width
  {
    (if t <= j then seed[j - t] else Stream(poly, seed, t - 1 - j)) != Odd(Fed(poly, seed, t, j))
  }

  /** The taps whose stage shows a 1 within the `width` cycles from `t`. */
  ghost function TapsAhead(poly: Polynomial, seed: Bits, t: nat): (s: set<nat>)
    requires |seed| == poly.width >= 1
  {
    set i: nat | i in poly.taps && 1 <= i < poly.width && Stream(poly, seed, t + i)
  }

  /** The feedback polynomial's own equation, at every cycle. */
  lemma StreamRecurs(poly: Polynomial, seed: Bits, t: nat)
    requires |seed| == poly.width >= 1
    ensures Stream(poly, seed, t + poly.width) == (Stream(poly, seed, t) != Odd(TapsAhead(poly, seed, t)))
  {
    assert TapsShown(poly, seed, t + poly.width) == TapsAhead(poly, seed, t) by {
      hide Stream;
      forall i: nat ensures i in TapsShown(poly, seed, t + poly.width) <==> i in TapsAhead(poly, seed, t) {
        assert t + poly.width + i - poly.width == t + i;
      }
    }
    assert t + poly.width - poly.width == t;
  }

  lemma LastStageIsStream(poly: Polynomial, seed: Bits, t: nat)
    requires |seed| == poly.width >= 1
    ensures StageBit(poly, seed, t, poly.width - 1) == Stream(poly, seed, t)
  {
    hide Odd;
    assert Fed(poly, seed, t, poly.width - 1) == TapsShown(poly, seed, t) by {
      hide Stream;
    }
  }

  /** A tap passed adds its feedback. */
  lemma FedGrows(poly: Polynomial, seed: Bits, t: nat, j: nat)
    requires |seed| == poly.width >= 1 && t >= 1 && 1 <= j < poly.width
    ensures Odd(Fed(poly, seed, t, j))
            == (Odd(Fed(poly, seed, t - 1, j - 1)) != (j in poly.taps && Stream(poly, seed, t - 1)))
  {
    hide Stream;
    var before, now := Fed(poly, seed, t - 1, j - 1), Fed(poly, seed, t, j);
    if j in poly.taps && Stream(poly, seed, t - 1) {
      assert now == before + {j};
    } else {
      assert now == before;
    }
  }

  /** How the stages move on by one cycle. */
  lemma StageMoves(poly: Polynomial, seed: Bits, t: nat, j: nat)
    requires |seed| == poly.width >= 1 && j < poly.width
    ensures StageBit(poly, seed, 0, j) == seed[j]
    ensures t >= 1 ==> StageBit(poly, seed, t, 0) == Stream(poly, seed, t - 1)
    ensures t >= 1 && j >= 1 ==>
      StageBit(poly, seed, t, j) == (StageBit(poly, seed, t - 1, j - 1) != (j in poly.taps && Stream(poly, seed, t - 1)))
  {
    hide Stream, Odd;
    NothingFed(poly, seed, 0, j);
    NothingFed(poly, seed, t, 0);
    if t >= 1 && j >= 1 {
      FedGrows(poly, seed, t, j);
    }
  }

  lemma NothingFed(poly: Polynomial, seed: Bits, t: nat, j: nat)
    requires |seed| == poly.width >= 1 && (t == 0 || j == 0)
    ensures !Odd(Fed(poly, seed, t, j))
  {
    assert Fed(poly, seed, t, j) == {};
  }

  lemma StepMoves(poly: Polynomial, seed: Bits, t: nat, rows: seq<int>, j: nat)
    requires |seed| == |rows| == poly.width >= 1 && t >= 1 && j < poly.width
    requires forall k :: 0 <= k < poly.width ==> rows[k] == AsInt(StageBit(poly, seed, t - 1, k))
    ensures Step(rows, poly)[j] == AsInt(StageBit(poly, seed, t, j))
  {
    hide Stream, StageBit, XorInt;
    StageMoves(poly, seed, t, j);
    LastStageIsStream(poly, seed, t - 1);
    if j > 0 {
      BitXor(StageBit(poly, seed, t - 1, j - 1), j in poly.taps && Stream(poly, seed, t - 1));
    }
  }

  /** The shift register is the recurrence: every stage at every cycle, from any seed. */
  lemma {:induction false} StagesAre(poly: Polynomial, seed: Bits, t: nat)
    requires |seed| == poly.width >= 1
    ensures forall j :: 0 <= j < poly.width ==>
              Stepped(Loaded(seed), poly, t)[j] == AsInt(StageBit(poly, seed, t, j))
  {
    hide StageBit, Step;
    if t > 0 {
      StagesAre(poly, seed, t - 1);
    }
    forall j | 0 <= j < poly.width
      ensures Stepped(Loaded(seed), poly, t)[j] == AsInt(StageBit(poly, seed, t, j))
    {
      if t == 0 {
        StageMoves(poly, seed, 0, j);
      } else {
        StepMoves(poly, seed, t, Stepped(Loaded(seed), poly, t - 1), j);
      }
    }
  }

  /** The places in a chain's tap list whose stage holds a 1. */
  ghost function Ones(poly: Polynomial, stages: seq<nat>, seed: Bits, t: nat): set<nat>
    requires |seed| == poly.width >= 1 && forall k :: 0 <= k < |stages| ==> stages[k] < poly.width
  {
    set k: nat | k < |stages| && StageBit(poly, seed, t, stages[k])
  }

  lemma {:induction false} MixedIsParity(poly: Polynomial, stages: seq<nat>, seed: Bits, t: nat)
    requires |seed| == poly.width >= 1 && forall k :: 0 <= k < |stages| ==> stages[k] < poly.width
    ensures Mixed(Stepped(Loaded(seed), poly, t), stages) == AsInt(Odd(Ones(poly, stages, seed, t)))
    decreases |stages|
  {
    hide StageBit, Stepped, XorInt;
    var all := Ones(poly, stages, seed, t);
    if stages == [] {
      assert all == {};
    } else {
      var n := |stages| - 1;
      var front := stages[..n];
      MixedIsParity(poly, front, seed, t);
      StagesAre(poly, seed, t);
      var before := Ones(poly, front, seed, t);
      BitXor(Odd(before), StageBit(poly, seed, t, stages[n]));
      if StageBit(poly, seed, t, stages[n]) {
        assert all == before + {n};
      } else {
        assert all == before;
      }
    }
  }

  /** The masks predict the hardware, for every polynomial, phase shifter and seed: the parity of a mask under the
      seed is that of the stages the chain's taps name, each as the recurrence gives it. */
  lemma DecompressionIsExact(poly: Polynomial, taps: seq<seq<nat>>, seed: Bits, c: nat, t: nat)
    requires |seed| == poly.width >= 1 && PhaseShifter(taps, poly.width) && c < |taps|
    ensures Parity(CareRow(poly, taps, t)[c], seed) == Odd(Ones(poly, taps[c], seed, t))
    ensures Delivered(poly, taps, seed, c, t) == AsInt(Parity(CareRow(poly, taps, t)[c], seed))
  {
    hide Odd, Ones;
    SteppedStandsFor(poly, seed, t);
    MixedStandsFor(Stepped(Units(poly.width), poly, t), Stepped(Loaded(seed), poly, t), taps[c], seed);
    MixedIsParity(poly, taps[c], seed, t);
  }

  // ---------------------------------------------------------------- a pattern's seed

  /** One chain's load of a pattern, by cycle. */
  datatype Load = Load(chain: nat, bits: seq<bool>)

  ghost predicate Fits(loads: seq<Load>, rows: seq<seq<int>>) {
    forall e, t :: 0 <= e < |loads| && 0 <= t < |rows| ==> loads[e].chain < |rows[t]|
  }

  /** Position `t` of load `e` is a care position. */
  predicate Wanted(loads: seq<Load>, care: Option<set<(nat, nat)>>, e: nat, t: nat)
    requires e < |loads|
  {
    t < |loads[e].bits| && (care.None? || (loads[e].chain, t) in care.value)
  }

  /** `seed` gives every care position before position `t` of load `e` its wanted bit. */
  ghost predicate ReproducesUpTo(
    loads: seq<Load>, rows: seq<seq<int>>, care: Option<set<(nat, nat)>>, e: nat, t: nat, seed: Bits)
    requires Fits(loads, rows)
  {
    forall i, k :: 0 <= i < |loads| && 0 <= k < |rows| && (i < e || (i == e && k < t)) && Wanted(loads, care, i, k) ==>
      Parity(rows[k][loads[i].chain], seed) == loads[i].bits[k]
  }

  /** `seed` gives every care position its wanted bit. */
  ghost predicate Reproduces(loads: seq<Load>, rows: seq<seq<int>>, care: Option<set<(nat, nat)>>, seed: Bits)
    requires Fits(loads, rows)
  {
    ReproducesUpTo(loads, rows, care, |loads|, 0, seed)
  }

  ghost predicate SameLengths(loads: seq<Load>, rows: seq<seq<int>>) {
    forall i :: 0 <= i < |loads| ==> |loads[i].bits| == |rows|
  }

  lemma Appended(rows: seq<int>, rhs: seq<bool>, row: int, bit: bool, x: Bits)
    requires |rows| == |rhs|
    ensures Satisfies(rows + [row], rhs + [bit], x) <==> Satisfies(rows, rhs, x) && Parity(row, x) == bit
  {
    var rs, bs := rows + [row], rhs + [bit];
    if Satisfies(rs, bs, x) {
      assert rs[|rows|] == row && bs[|rows|] == bit;
      forall i | 0 <= i < |rows| ensures Dot(FromInt(rows[i], |x|), x) == rhs[i] {
        assert rs[i] == rows[i] && bs[i] == rhs[i];
      }
    }
  }

  /** The equations collected so far say exactly that the positions visited so far come out right. */
  ghost predicate Collected(
    loads: seq<Load>, rows: seq<seq<int>>, care: Option<set<(nat, nat)>>, e: nat, t: nat,
    lhs: seq<int>, rhs: seq<bool>, width: nat)
    requires Fits(loads, rows)
  {
    |lhs| == |rhs| && forall x: Bits :: |x| == width ==>
      (Satisfies(lhs, rhs, x) <==> ReproducesUpTo(loads, rows, care, e, t, x))
  }

  lemma CollectPosition(
    loads: seq<Load>, rows: seq<seq<int>>, care: Option<set<(nat, nat)>>, e: nat, t: nat,
    lhs: seq<int>, rhs: seq<bool>, width: nat)
    requires Fits(loads, rows) && e < |loads| && t < |rows| && Collected(loads, rows, care, e, t, lhs, rhs, width)
    ensures !Wanted(loads, care, e, t) ==> Collected(loads, rows, care, e, t + 1, lhs, rhs, width)
    ensures Wanted(loads, care, e, t) ==>
      Collected(loads, rows, care, e, t + 1, lhs + [rows[t][loads[e].chain]], rhs + [loads[e].bits[t]], width)
  {
    forall x: Bits | |x| == width
      ensures ReproducesUpTo(loads, rows, care, e, t + 1, x)
              <==> ReproducesUpTo(loads, rows, care, e, t, x)
                   && (Wanted(loads, care, e, t) ==> Parity(rows[t][loads[e].chain], x) == loads[e].bits[t])
    {
      hide Parity;
    }
    if Wanted(loads, care, e, t) {
      forall x: Bits | |x| == width {
        Appended(lhs, rhs, rows[t][loads[e].chain], loads[e].bits[t], x);
      }
    }
  }

  lemma NextLoad(
    loads: seq<Load>, rows: seq<seq<int>>, care: Option<set<(nat, nat)>>, e: nat,
    lhs: seq<int>, rhs: seq<bool>, width: nat)
    requires Fits(loads, rows) && e < |loads| && Collected(loads, rows, care, e, |rows|, lhs, rhs, width)
    ensures Collected(loads, rows, care, e + 1, 0, lhs, rhs, width)
  {
    forall x: Bits | |x| == width
      ensures ReproducesUpTo(loads, rows, care, e, |rows|, x) <==> ReproducesUpTo(loads, rows, care, e + 1, 0, x)
    {
      hide Parity;
    }
  }

  /** Add the equations of one chain's load. */
  method CollectLoad(
    loads: seq<Load>, rows: seq<seq<int>>, care: Option<set<(nat, nat)>>, e: nat,
    lhs: seq<int>, rhs: seq<bool>, ghost width: nat) returns (lhs': seq<int>, rhs': seq<bool>)
    requires Fits(loads, rows) && e < |loads| && |loads[e].bits| == |rows|
    requires Collected(loads, rows, care, e, 0, lhs, rhs, width)
    ensures Collected(loads, rows, care, e + 1, 0, lhs', rhs', width)
  {
    hide Collected;
    lhs', rhs' := lhs, rhs;
    for t := 0 to |rows|
      invariant Collected(loads, rows, care, e, t, lhs', rhs', width)
    {
      CollectPosition(loads, rows, care, e, t, lhs', rhs', width);
      if Wanted(loads, care, e, t) {
        lhs', rhs' := lhs' + [rows[t][loads[e].chain]], rhs' + [loads[e].bits[t]];
      }
    }
    NextLoad(loads, rows, care, e, lhs', rhs', width);
  }

  /** A seed is the least one that reproduces every care position; a refusal means a load of the
      wrong length or that no seed can. */
  method SolvePatternSeed(
    loads: seq<Load>, rows: seq<seq<int>>, width: nat, care: Option<set<(nat, nat)>>) returns (r: Result<Bits>)
    requires Fits(loads, rows)
    ensures r.Success? ==>
      && SameLengths(loads, rows) && |r.value| == width && Reproduces(loads, rows, care, r.value)
      && forall x: Bits :: |x| == width && Reproduces(loads, rows, care, x) ==> ToInt(r.value) <= ToInt(x)
    ensures r.Failure? ==>
      !SameLengths(loads, rows) || forall x: Bits :: |x| == width ==> !Reproduces(loads, rows, care, x)
  {
    hide ReproducesUpTo, Reproduces, Collected, Answers, ToInt, Satisfies, Fits;
    var lhs: seq<int>, rhs: seq<bool> := [], [];
    assert Collected(loads, rows, care, 0, 0, lhs, rhs, width) by {
      NothingCollected(loads, rows, care, width);
    }
    for e := 0 to |loads|
      invariant Collected(loads, rows, care, e, 0, lhs, rhs, width)
      invariant forall i :: 0 <= i < e ==> |loads[i].bits| == |rows|
    {
      if |loads[e].bits| != |rows| {
        return Failure;
      }
      lhs, rhs := CollectLoad(loads, rows, care, e, lhs, rhs, width);
    }
    var seed := SolveXorBroadcast(lhs, rhs, width);
    AnswersReproduce(loads, rows, care, lhs, rhs, width, seed);
    r := if seed.Some? then Success(seed.value) else Failure;
  }

  lemma AnswersReproduce(
    loads: seq<Load>, rows: seq<seq<int>>, care: Option<set<(nat, nat)>>,
    lhs: seq<int>, rhs: seq<bool>, width: nat, seed: Option<Bits>)
    requires Fits(loads, rows) && Collected(loads, rows, care, |loads|, 0, lhs, rhs, width)
    requires Answers(lhs, rhs, width, seed)
    ensures seed.Some? ==>
      && |seed.value| == width && Reproduces(loads, rows, care, seed.value)
      && forall x: Bits :: |x| == width && Reproduces(loads, rows, care, x) ==> ToInt(seed.value) <= ToInt(x)
    ensures seed.None? ==> forall x: Bits :: |x| == width ==> !Reproduces(loads, rows, care, x)
  {
    hide ReproducesUpTo, Satisfies, ToInt;
    forall x: Bits | |x| == width ensures Satisfies(lhs, rhs, x) <==> Reproduces(loads, rows, care, x) {
    }
  }

  lemma NothingCollected(loads: seq<Load>, rows: seq<seq<int>>, care: Option<set<(nat, nat)>>, width: nat)
    requires Fits(loads, rows)
    ensures Collected(loads, rows, care, 0, 0, [], [], width)
  {
  }

  /** A seed satisfies the equations exactly when, by the recurrence, it gives every chain every care bit: every bit of
      its load, or the listed ones where care bits are listed. */
  lemma ReproducesIsDelivery(
    poly: Polynomial, taps: seq<seq<nat>>, loads: seq<Load>, rows: seq<seq<int>>, care: Option<set<(nat, nat)>>,
    seed: Bits)
    requires |seed| == poly.width >= 1 && PhaseShifter(taps, poly.width)
    requires rows == seq(|rows|, t requires 0 <= t < |rows| => CareRow(poly, taps, t))
    requires forall e :: 0 <= e < |loads| ==> loads[e].chain < |taps|
    ensures Fits(loads, rows)
    ensures Reproduces(loads, rows, care, seed) <==>
      forall e, t :: 0 <= e < |loads| && 0 <= t < |rows| && t < |loads[e].bits|
                     && (care.None? || (loads[e].chain, t) in care.value) ==>
        Odd(Ones(poly, taps[loads[e].chain], seed, t)) == loads[e].bits[t]
  {
    hide Stepped, Mixed, Parity, Odd, Ones;
    forall e, t | 0 <= e < |loads| && 0 <= t < |rows|
      ensures loads[e].chain < |rows[t]|
      ensures Parity(rows[t][loads[e].chain], seed) == Odd(Ones(poly, taps[loads[e].chain], seed, t))
    {
      DecompressionIsExact(poly, taps, seed, loads[e].chain, t);
    }
    if Reproduces(loads, rows, care, seed) {
      forall e, t | 0 <= e < |loads| && 0 <= t < |rows| && t < |loads[e].bits|
                    && (care.None? || (loads[e].chain, t) in care.value)
        ensures Odd(Ones(poly, taps[loads[e].chain], seed, t)) == loads[e].bits[t]
      {
        assert Wanted(loads, care, e, t);
      }
    }
    if forall e, t :: 0 <= e < |loads| && 0 <= t < |rows| && t < |loads[e].bits|
                      && (care.None? || (loads[e].chain, t) in care.value) ==>
         Odd(Ones(poly, taps[loads[e].chain], seed, t)) == loads[e].bits[t] {
      forall i, k | 0 <= i < |loads| && 0 <= k < |rows| && Wanted(loads, care, i, k)
        ensures Parity(rows[k][loads[i].chain], seed) == loads[i].bits[k]
      {
        assert loads[i].chain < |rows[k]|;
      }
    }
  }
}
