/** The importer as it runs (icl_import.py): one pool of unclaimed slot instances, shared by every
    level of the walk and shrunk in place. Proved to do what IclRecords says. */
module IclImport {
  import opened Wrappers
  import opened IclModel
  import opened IclRecords

  /** Slots found so far, ahead of the rest of their chain. */
  function ChainOf(slots: seq<Slot>, rest: Chain): Chain {
    if slots == [] then rest else Attach(slots[0], ChainOf(slots[1..], rest))
  }

  lemma {:induction false} ChainAppend(slots: seq<Slot>, s: Slot, rest: Chain)
    ensures ChainOf(slots + [s], rest) == ChainOf(slots, Attach(s, rest))
  {
    if slots == [] {
      assert [] + [s] == [s];
    } else {
      assert (slots + [s])[1..] == slots[1..] + [s];
      ChainAppend(slots[1..], s, rest);
    }
  }

  function ArmsOf(built: seq<(nat, Gate)>, rest: Arms): Arms {
    if built == [] then rest else Arm(built[0].0, built[0].1, ArmsOf(built[1..], rest))
  }

  lemma {:induction false} ArmsAppend(built: seq<(nat, Gate)>, value: nat, gate: Gate, rest: Arms)
    ensures ArmsOf(built + [(value, gate)], rest) == ArmsOf(built, Arm(value, gate, rest))
  {
    if built == [] {
      assert [] + [(value, gate)] == [(value, gate)];
    } else {
      assert (built + [(value, gate)])[1..] == built[1..] + [(value, gate)];
      ArmsAppend(built[1..], value, gate, rest);
    }
  }

  class Importer {
    const all: seq<Record>
    var remaining: seq<Record>

    constructor (all: seq<Record>)
      ensures this.all == all && remaining == Slots(all)
    {
      this.all := all;
      remaining := Slots(all);
    }

    /** The first unclaimed instance fed by `current`, claimed. */
    method ClaimSlot(current: Port) returns (r: Option<Record>)
      modifies this
      ensures match Claim(old(remaining), current)
              case None => r.None? && remaining == old(remaining)
              case Some(k) => r == Some(old(remaining)[k]) && remaining == Without(old(remaining), k)
    {
      var found := Claim(remaining, current);
      if found.None? {
        return None;
      }
      r := Some(remaining[found.value]);
      remaining := Without(remaining, found.value);
    }

    /** _walk_chain. */
    method WalkChain(start: Port, terminal: Port) returns (r: Option<Chain>)
      modifies this
      ensures match Walk(old(remaining), all, start, terminal)
              case None => r.None?
              case Some((chain, left)) => r == Some(chain) && remaining == left
      decreases |remaining|, 0
    {
      hide Build, Claim, Attach;
      var ordered: seq<Slot>, current := [], start;
      while current != terminal
        invariant |remaining| <= old(|remaining|)
        invariant match Walk(remaining, all, current, terminal)
                  case None => Walk(old(remaining), all, start, terminal).None?
                  case Some((chain, left)) =>
                    Walk(old(remaining), all, start, terminal) == Some((ChainOf(ordered, chain), left))
        decreases |remaining|
      {
        ghost var pool := remaining;
        var next := ClaimSlot(current);
        if next.None? {
          return None;
        }
        var slot := BuildSlot(next.value);
        if slot.None? {
          return None;
        }
        ghost var rest := Walk(remaining, all, SO(next.value.inst), terminal);
        if rest.Some? {
          ChainAppend(ordered, slot.value, rest.value.0);
        }
        ordered := ordered + [slot.value];
        current := SO(next.value.inst);
      }
      return Some(ChainOf(ordered, End));
    }

    /** _build_node and _build_scan_mux_node. */
    method BuildSlot(r: Record) returns (b: Option<Slot>)
      modifies this
      ensures match Build(old(remaining), all, r)
              case None => b.None?
              case Some((slot, left)) => b == Some(slot) && remaining == left
      decreases |remaining|, 3
    {
      match r
      case SibRecord(inst, _, from) =>
        var gate := BuildContent(ToSI(inst), from);
        if gate.None? {
          return None;
        }
        return Some(SibSlot(Strip(inst, SIB_INSTANCE_PREFIX), gate.value));
      case MuxRecord(inst, _, width, arms) =>
        var built := BuildArmList(ToSI(inst), arms);
        if built.None? || ArmCount(built.value) < 2 {
          return None;
        }
        return Some(MuxSlot(Strip(inst, SCAN_MUX_MODULE_PREFIX), width, built.value));
      case InstrRecord(_, _, _, _) =>
        return None;
    }

    /** What is bound to a SIB's fromSO or to one arm. */
    method BuildContent(entry: Port, from: Port) returns (b: Option<Gate>)
      modifies this
      ensures match BuildGate(old(remaining), all, entry, from)
              case None => b.None?
              case Some((gate, left)) => b == Some(gate) && remaining == left
      decreases |remaining|, 1
    {
      var target := Lookup(all, from);
      if target.None? {
        return None;
      }
      if IsSlot(target.value) {
        var chain := WalkChain(entry, from);
        return if chain.None? then None else Some(Net(chain.value));
      }
      var inst := InstrumentOf(target.value);
      return if inst.None? then None else Some(Leaf(inst.value));
    }

    /** fromArm0, fromArm1, ... in order. */
    method BuildArmList(entry: Port, arms: seq<ArmRecord>) returns (b: Option<Arms>)
      modifies this
      ensures match BuildArms(old(remaining), all, entry, arms)
              case None => b.None?
              case Some((built, left)) => b == Some(built) && remaining == left
      decreases |remaining|, 2
    {
      hide BuildGate;
      var done: seq<(nat, Gate)> := [];
      assert arms[0..] == arms;
      for k := 0 to |arms|
        invariant |remaining| <= old(|remaining|)
        invariant match BuildArms(remaining, all, entry, arms[k..])
                  case None => BuildArms(old(remaining), all, entry, arms).None?
                  case Some((built, left)) =>
                    BuildArms(old(remaining), all, entry, arms) == Some((ArmsOf(done, built), left))
      {
        assert arms[k..][0] == arms[k] && arms[k..][1..] == arms[k + 1..];
        var gate := BuildContent(entry, arms[k].from);
        if gate.None? {
          return None;
        }
        ghost var rest := BuildArms(remaining, all, entry, arms[k + 1..]);
        if rest.Some? {
          ArmsAppend(done, arms[k].value, gate.value, rest.value.0);
        }
        done := done + [(arms[k].value, gate.value)];
      }
      return Some(ArmsOf(done, NoArms));
    }
  }

  /** import_icl on the instance records. */
  method ImportIcl(all: seq<Record>, tdoSource: Port) returns (r: Option<Chain>)
    ensures r == Import(all, tdoSource)
  {
    var importer := new Importer(all);
    if importer.remaining == [] {
      return None;
    }
    var chain := importer.WalkChain(Tdi, tdoSource);
    if chain.None? || importer.remaining != [] {
      return None;
    }
    return chain;
  }
}
