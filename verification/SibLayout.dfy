/** Static layout arithmetic (sib_layout.py): how long the scan chain is for a hypothetical set
    of open slots, and which bits to load into it. An open map sends a SIB's name to 1 and a
    ScanMux's name to the value its select field holds; an absent name is closed or bypassed. */
module SibLayout {
  import opened Bits
  import opened IclModel
  import opened Wrappers

  type OpenMap = map<string, int>

  /** The value the select field of `name` reads as: 0 when nothing is recorded for it. */
  function FieldOf(open: OpenMap, name: string): int {
    if name in open then open[name] else 0
  }

  /** layout_bit_length. */
  function Length(c: Chain, open: OpenMap): nat {
    match c
    case End => 0
    case Sib(name, gate, rest) =>
      (if name in open then GateLength(gate, open) else 0) + 1 + Length(rest, open)
    case Mux(name, selectWidth, arms, rest) =>
      (if name in open then ArmLength(arms, open[name], open) else 0) + selectWidth + Length(rest, open)
  }

  function GateLength(g: Gate, open: OpenMap): nat {
    match g
    case Leaf(inst) => inst.width
    case Net(chain) => Length(chain, open)
  }

  /** Content length of the first arm claiming `value`; an unclaimed value is bypass. */
  function ArmLength(a: Arms, value: int, open: OpenMap): nat {
    match a
    case NoArms => 0
    case Arm(v, gate, others) =>
      if v == value then GateLength(gate, open) else ArmLength(others, value, open)
  }

  /** compose_bits, nearest TDI first: the chain that is live when `now` is open, every select
      bit set for `after`, and `payload` in the content that `target` gates. */
  function Compose(c: Chain, now: OpenMap, after: OpenMap, target: Option<string>, payload: int): Bits {
    match c
    case End => []
    case Sib(name, gate, rest) =>
      (if name in now
       then GateBits(gate, now, after, target, payload, target == Some(name))
       else [])
      + [name in after] + Compose(rest, now, after, target, payload)
    case Mux(name, selectWidth, arms, rest) =>
      (if name in now
       then ArmBits(arms, now[name], now, after, target, payload, target == Some(name))
       else [])
      + Reverse(FromInt(FieldOf(after, name), selectWidth))
      + Compose(rest, now, after, target, payload)
  }

  function GateBits(
    g: Gate, now: OpenMap, after: OpenMap, target: Option<string>, payload: int, isTarget: bool): Bits
  {
    match g
    case Leaf(inst) => if isTarget then FromInt(payload, inst.width) else Zeros(inst.width)
    case Net(chain) => Compose(chain, now, after, target, payload)
  }

  function ArmBits(
    a: Arms, value: int, now: OpenMap, after: OpenMap, target: Option<string>, payload: int, isTarget: bool): Bits
  {
    match a
    case NoArms => []
    case Arm(v, gate, others) =>
      if v == value then GateBits(gate, now, after, target, payload, isTarget)
      else ArmBits(others, value, now, after, target, payload, isTarget)
  }

  /** The two static functions agree on every topology and every pair of open maps: what is
      composed always fills exactly the chain that is measured. */
  lemma {:induction false} ComposeLength(
    c: Chain, now: OpenMap, after: OpenMap, target: Option<string>, payload: int)
    ensures |Compose(c, now, after, target, payload)| == Length(c, now)
  {
    match c
    case End =>
    case Sib(name, gate, rest) =>
      GateBitsLength(gate, now, after, target, payload, target == Some(name));
      ComposeLength(rest, now, after, target, payload);
    case Mux(name, _, arms, rest) =>
      if name in now {
        ArmBitsLength(arms, now[name], now, after, target, payload, target == Some(name));
      }
      ComposeLength(rest, now, after, target, payload);
  }

  lemma {:induction false} GateBitsLength(
    g: Gate, now: OpenMap, after: OpenMap, target: Option<string>, payload: int, isTarget: bool)
    ensures |GateBits(g, now, after, target, payload, isTarget)| == GateLength(g, now)
  {
    if g.Net? {
      ComposeLength(g.chain, now, after, target, payload);
    }
  }

  lemma {:induction false} ArmBitsLength(
    a: Arms, value: int, now: OpenMap, after: OpenMap, target: Option<string>, payload: int, isTarget: bool)
    ensures |ArmBits(a, value, now, after, target, payload, isTarget)| == ArmLength(a, value, now)
  {
    if a.Arm? {
      GateBitsLength(a.gate, now, after, target, payload, isTarget);
      ArmBitsLength(a.others, value, now, after, target, payload, isTarget);
    }
  }

  // ---------------------------------------------------------------- the source's loops

  /** layout_bit_length: one running total along a chain, a recursive call per nested chain. */
  method LayoutBitLength(c: Chain, open: OpenMap) returns (total: nat)
    ensures total == Length(c, open)
    decreases c, 1
  {
    total := 0;
    var at := c;
    while !at.End?
      invariant at == c || at < c
      invariant total + Length(at, open) == Length(c, open)
      decreases at
    {
      match at {
        case Sib(name, gate, rest) =>
          if name in open {
            var content := GateBitLength(gate, open);
            total := total + content;
          }
          total := total + 1;
        case Mux(name, selectWidth, arms, rest) =>
          total := total + selectWidth;
          if name in open {
            var arm := MatchingArm(arms, open[name]);
            MatchingArmIs(arms, open[name], open, open, None, 0, false);
            if arm.Some? {
              var content := GateBitLength(arm.value, open);
              total := total + content;
            }
          }
      }
      at := at.rest;
    }
  }

  method GateBitLength(g: Gate, open: OpenMap) returns (total: nat)
    ensures total == GateLength(g, open)
    decreases g, 0
  {
    match g {
      case Leaf(inst) => total := inst.width;
      case Net(chain) => total := LayoutBitLength(chain, open);
    }
  }

  /** _matching_arm: what the first arm claiming `value` holds. */
  function MatchingArm(a: Arms, value: int): (arm: Option<Gate>)
    ensures arm.Some? ==> arm.value < a
  {
    match a
    case NoArms => None
    case Arm(v, gate, others) => if v == value then Some(gate) else MatchingArm(others, value)
  }

  lemma {:induction false} MatchingArmIs(
    a: Arms, value: int, now: OpenMap, after: OpenMap, target: Option<string>, payload: int, isTarget: bool)
    ensures match MatchingArm(a, value)
            case None =>
              ArmLength(a, value, now) == 0 && ArmBits(a, value, now, after, target, payload, isTarget) == []
            case Some(g) =>
              && ArmLength(a, value, now) == GateLength(g, now)
              && ArmBits(a, value, now, after, target, payload, isTarget)
                 == GateBits(g, now, after, target, payload, isTarget)
  {
    if a.Arm? {
      MatchingArmIs(a.others, value, now, after, target, payload, isTarget);
    }
  }

  /** compose_bits: one growing list along a chain, a recursive call per nested chain. */
  method ComposeBits(c: Chain, now: OpenMap, after: OpenMap, target: Option<string>, payload: int)
    returns (bits: Bits)
    ensures bits == Compose(c, now, after, target, payload)
    decreases c, 1
  {
    hide Compose;
    bits := [];
    var at := c;
    assert [] + Compose(c, now, after, target, payload) == Compose(c, now, after, target, payload);
    while !at.End?
      invariant at == c || at < c
      invariant bits + Compose(at, now, after, target, payload) == Compose(c, now, after, target, payload)
      decreases at
    {
      var own := SlotBits(at, now, after, target, payload);
      JoinAgain(bits, own, Compose(at.rest, now, after, target, payload));
      bits := bits + own;
      at := at.rest;
    }
    ComposeEnd(now, after, target, payload);
    assert bits + [] == bits;
  }

  lemma JoinAgain(a: Bits, b: Bits, c: Bits)
    ensures a + (b + c) == a + b + c
  {
  }

  lemma ComposeEnd(now: OpenMap, after: OpenMap, target: Option<string>, payload: int)
    ensures Compose(End, now, after, target, payload) == []
  {
  }

  /** The bits one slot appends: its live content, then its select bits. */
  method SlotBits(c: Chain, now: OpenMap, after: OpenMap, target: Option<string>, payload: int)
    returns (own: Bits)
    requires !c.End?
    ensures Compose(c, now, after, target, payload) == own + Compose(c.rest, now, after, target, payload)
    decreases c, 0
  {
    own := [];
    match c {
      case Sib(name, gate, _) =>
        if name in now {
          own := GateContentBits(gate, now, after, target, payload, target == Some(name));
        }
        own := own + [name in after];
      case Mux(name, selectWidth, arms, _) =>
        if name in now {
          var arm := MatchingArm(arms, now[name]);
          MatchingArmIs(arms, now[name], now, after, target, payload, target == Some(name));
          if arm.Some? {
            own := GateContentBits(arm.value, now, after, target, payload, target == Some(name));
          }
        }
        own := own + Reverse(FromInt(FieldOf(after, name), selectWidth));
    }
  }

  method GateContentBits(
    g: Gate, now: OpenMap, after: OpenMap, target: Option<string>, payload: int, isTarget: bool)
    returns (bits: Bits)
    ensures bits == GateBits(g, now, after, target, payload, isTarget)
    decreases g, 0
  {
    match g {
      case Leaf(inst) => bits := if isTarget then FromInt(payload, inst.width) else Zeros(inst.width);
      case Net(chain) => bits := ComposeBits(chain, now, after, target, payload);
    }
  }
}
