/** Linear systems over GF(2): the in-place Gauss-Jordan elimination of faultflow_compression.py.
    A packed row is a bit list; an augmented row carries its right-hand side as its last bit. */
module Gf2 {
  import opened Wrappers
  import opened Bits

  function Xor(a: Bits, b: Bits): (r: Bits)
    requires |a| == |b|
    ensures |r| == |a| && forall k :: 0 <= k < |a| ==> r[k] == (a[k] != b[k])
  {
    seq(|a|, k requires 0 <= k < |a| => a[k] != b[k])
  }

  lemma FromIntXor(a: int, b: int, width: nat)
    ensures FromInt(XorInt(a, b), width) == Xor(FromInt(a, width), FromInt(b, width))
  {
    forall k | 0 <= k < width ensures FromInt(XorInt(a, b), width)[k] == Xor(FromInt(a, width), FromInt(b, width))[k] {
      XorIntBit(a, b, k);
      FromIntBit(XorInt(a, b), width, k);
      FromIntBit(a, width, k);
      FromIntBit(b, width, k);
    }
  }

  /** The parity of `a & b`. */
  function Dot(a: Bits, b: Bits): bool
    requires |a| == |b|
  {
    if a == [] then false else (a[0] && b[0]) != Dot(a[1..], b[1..])
  }

  lemma {:induction false} DotXor(a: Bits, b: Bits, x: Bits)
    requires |a| == |b| == |x|
    ensures Dot(Xor(a, b), x) == (Dot(a, x) != Dot(b, x))
  {
    if a != [] {
      DotXor(a[1..], b[1..], x[1..]);
      assert Xor(a, b)[1..] == Xor(a[1..], b[1..]);
    }
  }

  lemma {:induction false} DotSwap(a: Bits, b: Bits)
    requires |a| == |b|
    ensures Dot(a, b) == Dot(b, a)
  {
    if a != [] {
      DotSwap(a[1..], b[1..]);
    }
  }

  lemma {:induction false} DotNone(a: Bits, b: Bits)
    requires |a| == |b| && forall k :: 0 <= k < |a| ==> !(a[k] && b[k])
    ensures !Dot(a, b)
  {
    if a != [] {
      DotNone(a[1..], b[1..]);
    }
  }

  /** Only position `p` contributes. */
  lemma {:induction false} DotOne(a: Bits, b: Bits, p: nat)
    requires |a| == |b| && p < |a| && forall k :: 0 <= k < |a| && k != p ==> !(a[k] && b[k])
    ensures Dot(a, b) == (a[p] && b[p])
  {
    if p == 0 {
      DotNone(a[1..], b[1..]);
    } else {
      DotOne(a[1..], b[1..], p - 1);
    }
  }

  lemma {:induction false} DotLast(a: Bits, b: Bits, last: bool)
    requires |a| == |b|
    ensures Dot(a + [last], b + [true]) == (Dot(a, b) != last)
  {
    if a == [] {
      assert a + [last] == [last] && b + [true] == [true];
    } else {
      DotLast(a[1..], b[1..], last);
      assert (a + [last])[1..] == a[1..] + [last] && (b + [true])[1..] == b[1..] + [true];
    }
  }

  // ---------------------------------------------------------------- systems

  /** parity(row & seed) is the right-hand side, for every equation of the system. */
  ghost predicate Satisfies(rows: seq<int>, rhs: seq<bool>, x: Bits) {
    forall i :: 0 <= i < |rows| && i < |rhs| ==> Dot(FromInt(rows[i], |x|), x) == rhs[i]
  }

  /** An augmented matrix: every row has `width` coefficients and its right-hand side. */
  ghost predicate Matrix(m: seq<Bits>, width: nat) {
    forall r :: 0 <= r < |m| ==> |m[r]| == width + 1
  }

  /** One augmented row holds of `x`. */
  ghost predicate Meets(row: Bits, x: Bits)
    requires |row| == |x| + 1
  {
    !Dot(row, x + [true])
  }

  ghost predicate Solution(m: seq<Bits>, x: Bits)
    requires Matrix(m, |x|)
  {
    forall r :: 0 <= r < |m| ==> Meets(m[r], x)
  }

  ghost predicate SameSolutions(m: seq<Bits>, m': seq<Bits>, width: nat)
    requires Matrix(m, width) && Matrix(m', width)
  {
    forall x: Bits :: |x| == width ==> (Solution(m, x) <==> Solution(m', x))
  }

  function Augmented(rows: seq<int>, rhs: seq<bool>, width: nat): seq<Bits> {
    var n := if |rows| <= |rhs| then |rows| else |rhs|;
    seq(n, i requires 0 <= i < n => FromInt(rows[i], width) + [rhs[i]])
  }

  lemma AugmentedSame(rows: seq<int>, rhs: seq<bool>, x: Bits)
    ensures var m := Augmented(rows, rhs, |x|);
            Matrix(m, |x|) && (Solution(m, x) <==> Satisfies(rows, rhs, x))
  {
    var m := Augmented(rows, rhs, |x|);
    forall i | 0 <= i < |m| ensures Meets(m[i], x) <==> Dot(FromInt(rows[i], |x|), x) == rhs[i] {
      DotLast(FromInt(rows[i], |x|), x, rhs[i]);
    }
    if Solution(m, x) {
      forall i | 0 <= i < |rows| && i < |rhs| ensures Dot(FromInt(rows[i], |x|), x) == rhs[i] {
        assert Meets(m[i], x);
      }
    }
  }

  // ---------------------------------------------------------------- one column

  function Swapped(m: seq<Bits>, p: nat, q: nat): seq<Bits>
    requires p < |m| && q < |m|
  {
    m[p := m[q]][q := m[p]]
  }

  lemma SwapKeeps(m: seq<Bits>, p: nat, q: nat, width: nat)
    requires p < |m| && q < |m| && Matrix(m, width)
    ensures Matrix(Swapped(m, p, q), width) && SameSolutions(m, Swapped(m, p, q), width)
  {
    var m' := Swapped(m, p, q);
    assert m'[p] == m[q] && m'[q] == m[p];
    forall x: Bits | |x| == width ensures Solution(m, x) <==> Solution(m', x) {
      if Solution(m', x) {
        forall r | 0 <= r < |m| ensures Meets(m[r], x) {
          assert Meets(m'[if r == p then q else if r == q then p else r], x);
        }
      }
    }
  }

  /** Row `p` added to every other row with a 1 in column `col`. */
  function Eliminated(m: seq<Bits>, p: nat, col: nat, width: nat): (r: seq<Bits>)
    requires p < |m| && col < width && forall r :: 0 <= r < |m| ==> |m[r]| == width + 1
    ensures |r| == |m|
  {
    seq(|m|, r requires 0 <= r < |m| => if r != p && m[r][col] then Xor(m[r], m[p]) else m[r])
  }

  lemma EliminateKeeps(m: seq<Bits>, p: nat, col: nat, width: nat)
    requires p < |m| && col < width && Matrix(m, width)
    ensures Matrix(Eliminated(m, p, col, width), width)
    ensures SameSolutions(m, Eliminated(m, p, col, width), width)
  {
    var m' := Eliminated(m, p, col, width);
    assert m'[p] == m[p];
    forall x: Bits | |x| == width ensures Solution(m, x) <==> Solution(m', x) {
      forall r | 0 <= r < |m| && r != p && m[r][col]
        ensures Meets(m'[r], x) == (Meets(m[r], x) == Meets(m[p], x))
      {
        DotXor(m[r], m[p], x + [true]);
      }
      if Solution(m', x) {
        assert Meets(m'[p], x);
        forall r | 0 <= r < |m| ensures Meets(m[r], x) {
          assert Meets(m'[r], x);
        }
      }
    }
  }

  /** Columns before `col` are done: row `r`'s pivot is in column `pivots[r]`, every row's pivot
      is its first 1 and the only 1 of its column, and the rows below have only zeros. */
  ghost predicate Reduced(m: seq<Bits>, pivots: seq<nat>, col: nat, width: nat) {
    && Matrix(m, width) && col <= width && |pivots| <= |m|
    && (forall r :: 0 <= r < |pivots| ==> pivots[r] < col)
    && (forall r, s :: 0 <= r < |pivots| && 0 <= s < |m| ==> m[s][pivots[r]] == (s == r))
    && (forall r, k :: 0 <= r < |pivots| && 0 <= k < pivots[r] ==> !m[r][k])
    && (forall s, k :: |pivots| <= s < |m| && 0 <= k < col ==> !m[s][k])
  }

  lemma SkipColumn(m: seq<Bits>, pivots: seq<nat>, col: nat, width: nat)
    requires Reduced(m, pivots, col, width) && col < width
    requires forall s :: |pivots| <= s < |m| ==> !m[s][col]
    ensures Reduced(m, pivots, col + 1, width)
  {
  }

  lemma ReduceColumn(m: seq<Bits>, pivots: seq<nat>, col: nat, sel: nat, width: nat)
    requires Reduced(m, pivots, col, width) && col < width && |pivots| <= sel < |m| && m[sel][col]
    ensures Matrix(Swapped(m, |pivots|, sel), width)
    ensures Reduced(Eliminated(Swapped(m, |pivots|, sel), |pivots|, col, width), pivots + [col], col + 1, width)
  {
    var p := |pivots|;
    var a := Swapped(m, p, sel);
    var b := Eliminated(a, p, col, width);
    assert Reduced(a, pivots, col, width) && a[p][col];
    assert Matrix(b, width);
    forall r, s | 0 <= r < p + 1 && 0 <= s < |b| ensures b[s][(pivots + [col])[r]] == (s == r) {
      if r < p {
        assert !a[p][pivots[r]];
      }
    }
    forall r, k | 0 <= r < p + 1 && 0 <= k < (pivots + [col])[r] ensures !b[r][k] {
      assert !a[p][k];
    }
    forall s, k | p + 1 <= s < |b| && 0 <= k < col + 1 ensures !b[s][k] {
      if k < col {
        assert !a[p][k] && !a[s][k];
      }
    }
  }

  // ---------------------------------------------------------------- back to a seed

  /** Free columns are 0; a pivot column takes its row's right-hand side. */
  ghost predicate Seeded(m: seq<Bits>, pivots: seq<nat>, count: nat, seed: Bits)
    requires count <= |pivots| <= |m| && Matrix(m, |seed|)
  {
    && (forall r :: 0 <= r < count ==> pivots[r] < |seed| && seed[pivots[r]] == m[r][|seed|])
    && (forall k :: 0 <= k < |seed| && seed[k] ==> exists r :: 0 <= r < count && pivots[r] == k)
  }

  lemma PivotRowMet(m: seq<Bits>, pivots: seq<nat>, col: nat, seed: Bits, r: nat)
    requires Reduced(m, pivots, col, |seed|) && Seeded(m, pivots, |pivots|, seed) && r < |pivots|
    ensures Meets(m[r], seed)
  {
    var w := |seed|;
    var row, c := m[r], pivots[r];
    assert row == row[..w] + [row[w]];
    DotLast(row[..w], seed, row[w]);
    forall k | 0 <= k < w && k != c ensures !(row[..w][k] && seed[k]) {
      if seed[k] {
        var q :| 0 <= q < |pivots| && pivots[q] == k;
        assert m[r][pivots[q]] == (r == q);
      }
    }
    DotOne(row[..w], seed, c);
    assert m[r][pivots[r]];
  }

  /** A row below the pivots that has only zeros holds of every seed or of none. */
  lemma ZeroRow(row: Bits, x: Bits)
    requires |row| == |x| + 1 && forall k :: 0 <= k < |x| ==> !row[k]
    ensures Meets(row, x) <==> !row[|x|]
  {
    assert row == row[..|x|] + [row[|x|]];
    DotLast(row[..|x|], x, row[|x|]);
    DotNone(row[..|x|], x);
  }

  lemma SeedSolves(m: seq<Bits>, pivots: seq<nat>, col: nat, seed: Bits)
    requires Reduced(m, pivots, col, |seed|) && Seeded(m, pivots, |pivots|, seed)
    requires col == |seed| || |pivots| == |m|
    requires forall s :: |pivots| <= s < |m| ==> !m[s][|seed|]
    ensures Solution(m, seed)
  {
    forall r | 0 <= r < |m| ensures Meets(m[r], seed) {
      if r < |pivots| {
        PivotRowMet(m, pivots, col, seed, r);
      } else {
        ZeroRow(m[r], seed);
      }
    }
  }

  /** The topmost position where two solutions differ is no pivot: its row has no 1 below its
      pivot, so agreement above the pivot forces agreement at it. */
  lemma PivotForced(m: seq<Bits>, pivots: seq<nat>, col: nat, x: Bits, y: Bits, r: nat)
    requires |x| == |y| && Reduced(m, pivots, col, |x|) && Solution(m, x) && Solution(m, y) && r < |pivots|
    requires forall k :: pivots[r] < k < |x| ==> x[k] == y[k]
    ensures x[pivots[r]] == y[pivots[r]]
  {
    var c, x', y' := pivots[r], x + [true], y + [true];
    var d := Xor(x', y');
    assert Meets(m[r], x) && Meets(m[r], y);
    DotSwap(m[r], x');
    DotSwap(m[r], y');
    DotXor(x', y', m[r]);
    DotOne(d, m[r], c);
    assert m[r][pivots[r]];
  }

  lemma {:induction false} TopmostDifference(x: Bits, y: Bits) returns (p: nat)
    requires |x| == |y| && x != y
    ensures p < |x| && x[p] != y[p] && forall k :: p < k < |x| ==> x[k] == y[k]
  {
    p := |x| - 1;
    while x[p] == y[p]
      invariant p < |x| && forall k :: p < k < |x| ==> x[k] == y[k]
      decreases p
    {
      assert p == 0 ==> x == y;
      p := p - 1;
    }
  }

  lemma {:induction false} SmallerAtTop(x: Bits, y: Bits, p: nat)
    requires |x| == |y| && p < |x| && !x[p] && y[p] && forall k :: p < k < |x| ==> x[k] == y[k]
    ensures ToInt(x) < ToInt(y)
  {
    if p == 0 {
      assert x[1..] == y[1..];
    } else {
      SmallerAtTop(x[1..], y[1..], p - 1);
    }
  }

  /** The seed read off is the numerically smallest solution. */
  lemma SeedIsLeast(m: seq<Bits>, pivots: seq<nat>, col: nat, seed: Bits, x: Bits)
    requires |x| == |seed| && Reduced(m, pivots, col, |seed|) && Seeded(m, pivots, |pivots|, seed)
    requires Solution(m, seed) && Solution(m, x)
    ensures ToInt(seed) <= ToInt(x)
  {
    if x != seed {
      var p := TopmostDifference(seed, x);
      if seed[p] {
        var r :| 0 <= r < |pivots| && pivots[r] == p;
        PivotForced(m, pivots, col, seed, x, r);
      }
      SmallerAtTop(seed, x, p);
    }
  }

  // ---------------------------------------------------------------- the solver

  /** `seed` answers the system: the least satisfying seed of `width` bits, or the report that
      there is none. */
  ghost predicate Answers(rows: seq<int>, rhs: seq<bool>, width: nat, seed: Option<Bits>) {
    match seed
    case None => forall x: Bits :: |x| == width ==> !Satisfies(rows, rhs, x)
    case Some(s) =>
      && |s| == width && Satisfies(rows, rhs, s)
      && forall x: Bits :: |x| == width && Satisfies(rows, rhs, x) ==> ToInt(s) <= ToInt(x)
  }

  /** Systems with the same solutions have the same answer. */
  lemma AnswerIsCanonical(
    rows: seq<int>, rhs: seq<bool>, rows': seq<int>, rhs': seq<bool>, width: nat,
    seed: Option<Bits>, seed': Option<Bits>)
    requires Answers(rows, rhs, width, seed) && Answers(rows', rhs', width, seed')
    requires forall x: Bits :: |x| == width ==> (Satisfies(rows, rhs, x) <==> Satisfies(rows', rhs', x))
    ensures seed == seed'
  {
    if seed.Some? && seed'.Some? {
      ToIntInjective(seed.value, seed'.value);
    }
  }

  method EliminateColumn(a: array<Bits>, p: nat, col: nat, width: nat)
    requires p < a.Length && col < width && Matrix(a[..], width)
    modifies a
    ensures a[..] == Eliminated(old(a[..]), p, col, width)
  {
    ghost var m := a[..];
    ghost var e := Eliminated(m, p, col, width);
    for r := 0 to a.Length
      invariant forall k :: 0 <= k < r ==> a[k] == e[k]
      invariant forall k :: r <= k < a.Length ==> a[k] == m[k]
      invariant a[p] == m[p]
    {
      if r != p && a[r][col] {
        a[r] := Xor(a[r], a[p]);
      }
    }
  }

  lemma SameSelf(m: seq<Bits>, width: nat)
    requires Matrix(m, width)
    ensures SameSolutions(m, m, width) && Reduced(m, [], 0, width)
  {
  }

  lemma SwapAsSequence(m: seq<Bits>, p: nat, q: nat, m': seq<Bits>)
    requires p < |m| && q < |m| && |m'| == |m| && m'[p] == m[q] && m'[q] == m[p]
    requires forall r :: 0 <= r < |m| && r != p && r != q ==> m'[r] == m[r]
    ensures m' == Swapped(m, p, q)
  {
  }

  /** Choosing a pivot, swapping it up and clearing its column. */
  lemma PivotStep(start: seq<Bits>, m: seq<Bits>, pivots: seq<nat>, col: nat, sel: nat, width: nat)
    requires Matrix(start, width) && Reduced(m, pivots, col, width) && SameSolutions(start, m, width)
    requires col < width && |pivots| <= sel < |m| && m[sel][col]
    ensures var a := Swapped(m, |pivots|, sel);
            && Matrix(a, width)
            && Reduced(Eliminated(a, |pivots|, col, width), pivots + [col], col + 1, width)
            && SameSolutions(start, Eliminated(a, |pivots|, col, width), width)
  {
    var p := |pivots|;
    var a := Swapped(m, p, sel);
    ReduceColumn(m, pivots, col, sel, width);
    SwapKeeps(m, p, sel, width);
    EliminateKeeps(a, p, col, width);
    SameJoin(start, m, a, width);
    SameJoin(start, a, Eliminated(a, p, col, width), width);
  }

  lemma SameJoin(a: seq<Bits>, b: seq<Bits>, c: seq<Bits>, width: nat)
    requires Matrix(a, width) && Matrix(b, width) && Matrix(c, width)
    requires SameSolutions(a, b, width) && SameSolutions(b, c, width)
    ensures SameSolutions(a, c, width)
  {
    hide Meets, Solution;
  }

  method FirstWithOne(a: array<Bits>, from: nat, col: nat, width: nat) returns (sel: nat)
    requires from <= a.Length && col < width && Matrix(a[..], width)
    ensures from <= sel <= a.Length && (sel < a.Length ==> a[sel][col])
    ensures forall s :: from <= s < sel ==> !a[s][col]
  {
    sel := from;
    while sel < a.Length && !a[sel][col]
      invariant from <= sel <= a.Length
      invariant forall s :: from <= s < sel ==> !a[s][col]
    {
      sel := sel + 1;
    }
  }

  /** One column: swap the first row with a 1 up to the next pivot row and clear the column. */
  method ReduceOne(a: array<Bits>, ghost start: seq<Bits>, pivots: seq<nat>, col: nat, width: nat)
    returns (next: seq<nat>)
    requires Matrix(start, width) && Reduced(a[..], pivots, col, width) && SameSolutions(start, a[..], width)
    requires col < width && |pivots| < a.Length
    modifies a
    ensures |next| <= a.Length && Matrix(a[..], width)
    ensures Reduced(a[..], next, col + 1, width) && SameSolutions(start, a[..], width)
  {
    hide SameSolutions, Eliminated, Swapped;
    assert Matrix(a[..], width);
    hide Reduced;
    ghost var m := a[..];
    var p := |pivots|;
    var sel := FirstWithOne(a, p, col, width);
    if sel == a.Length {
      forall s | p <= s < |m| ensures !m[s][col] {
        assert m[s] == a[s];
      }
      SkipColumn(m, pivots, col, width);
      return pivots;
    }
    a[p], a[sel] := a[sel], a[p];
    SwapAsSequence(m, p, sel, a[..]);
    PivotStep(start, m, pivots, col, sel, width);
    EliminateColumn(a, p, col, width);
    next := pivots + [col];
  }

  method SolveXorBroadcast(rows: seq<int>, rhs: seq<bool>, width: nat) returns (seed: Option<Bits>)
    ensures Answers(rows, rhs, width, seed)
  {
    hide Reduced, SameSolutions, Answers;
    var start := Augmented(rows, rhs, width);
    var augmented := new Bits[|start|](i requires 0 <= i < |start| => start[i]);
    assert augmented[..] == start;
    var pivots: seq<nat> := [];
    var col := 0;
    SameSelf(start, width);
    while col < width && |pivots| < augmented.Length
      invariant col <= width && |pivots| <= augmented.Length
      invariant Matrix(augmented[..], width)
      invariant Reduced(augmented[..], pivots, col, width)
      invariant SameSolutions(start, augmented[..], width)
    {
      pivots := ReduceOne(augmented, start, pivots, col, width);
      col := col + 1;
    }
    seed := ReadSeed(augmented, pivots, col, width);
    AnswersFromReduced(rows, rhs, augmented[..], pivots, col, width, seed);
  }

  /** A seed read off a reduced system. */
  ghost predicate ReadOff(m: seq<Bits>, pivots: seq<nat>, width: nat, seed: Option<Bits>)
    requires Matrix(m, width) && |pivots| <= |m|
  {
    match seed
    case None => exists s :: |pivots| <= s < |m| && m[s][width] && forall k :: 0 <= k < width ==> !m[s][k]
    case Some(x) =>
      && |x| == width && Seeded(m, pivots, |pivots|, x)
      && forall s :: |pivots| <= s < |m| ==> !m[s][width]
  }

  method ReadSeed(a: array<Bits>, pivots: seq<nat>, ghost col: nat, width: nat) returns (seed: Option<Bits>)
    requires Reduced(a[..], pivots, col, width) && (col == width || |pivots| == a.Length)
    ensures ReadOff(a[..], pivots, width, seed)
  {
    for r := |pivots| to a.Length
      invariant forall s :: |pivots| <= s < r ==> !a[s][width]
    {
      var coeffs := a[r][..width];
      if coeffs == Zeros(width) && a[r][width] {
        assert forall k :: 0 <= k < width ==> !coeffs[k];
        return None;
      }
      assert coeffs == Zeros(width);
    }
    var x := Zeros(width);
    for r := 0 to |pivots|
      invariant |x| == width && Seeded(a[..], pivots, r, x)
      invariant forall k :: r <= k < |pivots| ==> !x[pivots[k]]
    {
      ghost var before := x;
      if a[r][width] {
        x := x[pivots[r] := true];
      }
      SeedNext(a[..], pivots, col, r, before, x);
    }
    return Some(x);
  }

  lemma SeedNext(m: seq<Bits>, pivots: seq<nat>, col: nat, r: nat, x: Bits, x': Bits)
    requires Reduced(m, pivots, col, |x|) && r < |pivots| && Seeded(m, pivots, r, x)
    requires forall k :: r <= k < |pivots| ==> !x[pivots[k]]
    requires x' == if m[r][|x|] then x[pivots[r] := true] else x
    ensures Seeded(m, pivots, r + 1, x') && forall k :: r < k < |pivots| ==> !x'[pivots[k]]
  {
    forall k | 0 <= k < |pivots| && k != r ensures pivots[k] != pivots[r] {
      assert m[k][pivots[r]] == (k == r) && m[k][pivots[k]];
    }
    forall k | 0 <= k < |x'| && x'[k] ensures exists q :: 0 <= q < r + 1 && pivots[q] == k {
      if k == pivots[r] {
        assert pivots[r] == k;
      } else {
        assert x[k];
        var q :| 0 <= q < r && pivots[q] == k;
      }
    }
  }

  lemma AnswersFromReduced(
    rows: seq<int>, rhs: seq<bool>, m: seq<Bits>, pivots: seq<nat>, col: nat, width: nat, seed: Option<Bits>)
    requires Reduced(m, pivots, col, width) && (col == width || |pivots| == |m|)
    requires Matrix(Augmented(rows, rhs, width), width) && SameSolutions(Augmented(rows, rhs, width), m, width)
    requires ReadOff(m, pivots, width, seed)
    ensures Answers(rows, rhs, width, seed)
  {
    forall x: Bits | |x| == width ensures Satisfies(rows, rhs, x) <==> Solution(m, x) {
      AugmentedSame(rows, rhs, x);
      assert Solution(Augmented(rows, rhs, width), x) <==> Solution(m, x);
    }
    match seed
    case None =>
      var s :| |pivots| <= s < |m| && m[s][width] && forall k :: 0 <= k < width ==> !m[s][k];
      forall x: Bits | |x| == width ensures !Satisfies(rows, rhs, x) {
        ZeroRow(m[s], x);
      }
    case Some(y) =>
      SeedSolves(m, pivots, col, y);
      forall x: Bits | |x| == width && Satisfies(rows, rhs, x) ensures ToInt(y) <= ToInt(x) {
        SeedIsLeast(m, pivots, col, y, x);
      }
  }
}
