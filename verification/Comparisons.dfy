/** What a comparison of TDO means: in check_reads (pdl_verify.py), where an absent mask compares every bit, and in
    a STIL pattern (tap_ir_stil.py), where it compares none. */
module Comparisons {
  import opened Wrappers
  import opened Bits
  import opened TapFsm
  import opened TapIr
  import opened TapPlay
  import opened ReadBack
  import opened ReadChecks
  import opened StilWalk

  /** The two values have the same bits, where a mask selects them and otherwise everywhere. */
  ghost predicate Agree(a: int, b: int, mask: Option<int>) {
    forall k: nat :: (mask.Some? ==> BitOf(mask.value, k)) ==> BitOf(a, k) == BitOf(b, k)
  }

  lemma MatchesAgree(a: int, b: int, mask: Option<int>)
    ensures Matches(a, b, if mask.Some? then mask.value else -1) <==> Agree(a, b, mask)
  {
    hide BitOf, And;
    var m := if mask.Some? then mask.value else -1;
    MaskedEqual(a, b, m);
    forall k: nat ensures BitOf(-1, k) {
      MinusOneBit(k);
    }
    if AgreeUnder(a, b, m) {
      forall k: nat | mask.Some? ==> BitOf(mask.value, k) ensures BitOf(a, k) == BitOf(b, k) {
        assert BitOf(m, k);
      }
    }
    if Agree(a, b, mask) {
      forall k: nat | BitOf(m, k) ensures BitOf(a, k) == BitOf(b, k) {
      }
    }
  }

  /** check_reads on one shift that expects a value: one check, of the value expected against the value observed, which
      passes exactly when they agree on the masked bits, and without a mask exactly when they are equal. */
  lemma CheckMeans(op: Op, observed: int) returns (check: ReadCheck)
    requires IsShift(op) && op.tdo.Some?
    ensures CheckReads([op], [observed], 0) == Some([check]) && CheckReads([op], [], 0) == None
    ensures check.index == 0 && check.expected == op.tdo.value && check.observed == observed
    ensures check.passed <==> Agree(observed, op.tdo.value, op.mask)
    ensures op.mask.None? ==> (check.passed <==> observed == op.tdo.value)
  {
    hide Matches, Agree;
    var mask := if op.mask.Some? then op.mask.value else -1;
    check := ReadCheck(0, op.tdo.value, observed, mask, Matches(observed, op.tdo.value, mask));
    assert [op][1..] == [] && [check] + [] == [check];
    assert CheckReads([], [observed], 1) == Some([]);
    MatchesAgree(observed, op.tdo.value, op.mask);
    if op.mask.None? {
      AgreeEverywhere(observed, op.tdo.value);
    }
  }

  lemma AgreeEverywhere(a: int, b: int)
    ensures Agree(a, b, None) <==> a == b
  {
    hide BitOf;
    if Agree(a, b, None) {
      forall k: nat ensures BitOf(a, k) == BitOf(b, k) {
      }
      SameBits(a, b);
    }
  }

  /** A tester that applies the compares of a shift's vectors sees what check_reads sees, when there is a mask and
      neither it nor the value reaches past the shift; without a mask the vectors compare nothing. */
  lemma StilComparesAsChecked(op: Op, out: Bits)
    requires IsShift(op) && op.tdo.Some? && |out| == op.bits
    ensures op.mask.None? ==> forall i :: 0 <= i < op.bits ==> Compares(op)[i].None?
    ensures op.mask.Some? && (forall k: nat :: k >= op.bits ==> !BitOf(op.mask.value, k)) ==>
      ((forall i :: 0 <= i < op.bits && Compares(op)[i].Some? ==> Compares(op)[i].value == out[i])
       <==> Agree(ToInt(out), op.tdo.value, op.mask))
  {
    hide BitOf, ToInt;
    if op.mask.Some? && forall k: nat :: k >= op.bits ==> !BitOf(op.mask.value, k) {
      forall k: nat ensures k < op.bits ==> BitOf(ToInt(out), k) == out[k] {
        ToIntBit(out, k);
      }
      if forall i :: 0 <= i < op.bits && Compares(op)[i].Some? ==> Compares(op)[i].value == out[i] {
        forall k: nat | BitOf(op.mask.value, k) ensures BitOf(ToInt(out), k) == BitOf(op.tdo.value, k) {
          assert k < op.bits;
          assert Compares(op)[k] == Some(BitOf(op.tdo.value, k));
        }
      }
      if Agree(ToInt(out), op.tdo.value, op.mask) {
        forall i | 0 <= i < op.bits && Compares(op)[i].Some? ensures Compares(op)[i].value == out[i] {
          assert BitOf(op.mask.value, i);
        }
      }
    }
  }
}
