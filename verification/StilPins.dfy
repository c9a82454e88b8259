/** The pins a STIL pattern drives beside TCK, TMS and TDI (tap_ir_stil.py): every vector holds the declared
    inputs as the SetPins operations before it left them, and a PulsePin gives its pulses and nothing else. */
module StilPins {
  import opened Wrappers
  import opened Bits
  import opened TapFsm
  import opened TapIr
  import opened TapModel
  import opened TapPlay
  import opened StilWalk

  /** Every pin and level the SetPins operations name, in order. */
  function PinsSet(ops: seq<Op>): seq<(string, bool)> {
    if ops == [] then [] else (if ops[0].SetPins? then ops[0].pins else []) + PinsSet(ops[1..])
  }

  /** Position `k` is the last that names `name`. */
  ghost predicate LastNamed(pins: seq<(string, bool)>, name: string, k: nat) {
    k < |pins| && pins[k].0 == name && forall j :: k < j < |pins| ==> pins[j].0 != name
  }

  ghost predicate Unnamed(pins: seq<(string, bool)>, name: string) {
    forall j :: 0 <= j < |pins| ==> pins[j].0 != name
  }

  /** The declared inputs, each at the level last set for it, or where it started. */
  ghost predicate HeldBy(start: Levels, pins: seq<(string, bool)>, levels: Levels) {
    && levels.Keys == start.Keys
    && forall name :: name in start ==>
         && (Unnamed(pins, name) ==> levels[name] == start[name])
         && forall k: nat :: LastNamed(pins, name, k) ==> levels[name] == pins[k].1
  }

  lemma HeldJoin(start: Levels, a: seq<(string, bool)>, mid: Levels, b: seq<(string, bool)>, end: Levels)
    requires HeldBy(start, a, mid) && HeldBy(mid, b, end)
    ensures HeldBy(start, a + b, end)
  {
    var all := a + b;
    forall name | name in start
      ensures Unnamed(all, name) ==> end[name] == start[name]
      ensures forall k: nat :: LastNamed(all, name, k) ==> end[name] == all[k].1
    {
      if Unnamed(all, name) {
        forall j | 0 <= j < |a| ensures a[j].0 != name { assert all[j] == a[j]; }
        forall j | 0 <= j < |b| ensures b[j].0 != name { assert all[|a| + j] == b[j]; }
        assert Unnamed(a, name) && Unnamed(b, name);
      }
      forall k: nat | LastNamed(all, name, k) ensures end[name] == all[k].1 {
        LastOfJoin(a, b, name, k);
      }
    }
  }

  lemma LastOfJoin(a: seq<(string, bool)>, b: seq<(string, bool)>, name: string, k: nat)
    requires LastNamed(a + b, name, k)
    ensures k < |a| ==> LastNamed(a, name, k) && Unnamed(b, name)
    ensures k >= |a| ==> LastNamed(b, name, k - |a|)
  {
    var all := a + b;
    forall j | 0 <= j < |b| && |a| + j > k ensures b[j].0 != name {
      assert all[|a| + j] == b[j];
    }
    forall j | k < j < |a| ensures a[j].0 != name {
      assert all[j] == a[j];
    }
  }

  /** SetPins is refused exactly for a pin that is not declared, and otherwise the last level named stays. */
  lemma {:induction false} DrivenHolds(inputs: Levels, pins: seq<(string, bool)>)
    ensures Driven(inputs, pins).Some? <==> forall k :: 0 <= k < |pins| ==> pins[k].0 in inputs
    ensures Driven(inputs, pins).Some? ==> HeldBy(inputs, pins, Driven(inputs, pins).value)
    decreases |pins|
  {
    if pins != [] && pins[0].0 in inputs {
      var next := inputs[pins[0].0 := pins[0].1];
      DrivenHolds(next, pins[1..]);
      assert pins == [pins[0]] + pins[1..];
      if Driven(inputs, pins).Some? {
        assert HeldBy(inputs, [pins[0]], next) by {
          assert LastNamed([pins[0]], pins[0].0, 0);
        }
        HeldJoin(inputs, [pins[0]], next, pins[1..], Driven(inputs, pins).value);
      }
    }
  }

  // ---------------------------------------------------------------- operation by operation

  /** Where the walker is when a list of operations is done. */
  function PlaceAfter(p: Place, ops: seq<Op>): Option<Place>
    decreases |ops|
  {
    if ops == [] then Some(p)
    else match OpEntries(p, ops[0])
      case None => None
      case Some((q, _)) => PlaceAfter(q, ops[1..])
  }

  lemma {:induction false} EntriesJoin(p: Place, a: seq<Op>, b: seq<Op>)
    ensures Entries(p, a).Some? == PlaceAfter(p, a).Some?
    ensures Entries(p, a + b)
            == match Entries(p, a)
               case None => None
               case Some(x) =>
                 match Entries(PlaceAfter(p, a).value, b)
                 case None => None
                 case Some(y) => Some(x + y)
    decreases |a|
  {
    hide OpEntries;
    if a == [] {
      assert a + b == b;
      if Entries(p, b).Some? {
        assert [] + Entries(p, b).value == Entries(p, b).value;
      }
    } else {
      assert (a + b)[0] == a[0] && (a + b)[1..] == a[1..] + b;
      if OpEntries(p, a[0]).Some? {
        var (q, here) := OpEntries(p, a[0]).value;
        EntriesJoin(q, a[1..], b);
        if Entries(q, a[1..]).Some? && Entries(PlaceAfter(q, a[1..]).value, b).Some? {
          var x, y := Entries(q, a[1..]).value, Entries(PlaceAfter(q, a[1..]).value, b).value;
          assert here + (x + y) == here + x + y;
        }
      }
    }
  }

  lemma {:induction false} PlaceHolds(p: Place, ops: seq<Op>)
    requires PlaceAfter(p, ops).Some?
    ensures HeldBy(p.inputs, PinsSet(ops), PlaceAfter(p, ops).value.inputs)
    decreases |ops|
  {
    hide HeldBy;
    if ops == [] {
      HeldNothing(p.inputs);
    } else {
      var q := OpEntries(p, ops[0]).value.0;
      PlaceHolds(q, ops[1..]);
      assert HeldBy(p.inputs, if ops[0].SetPins? then ops[0].pins else [], q.inputs) by {
        OpHolds(p, ops[0]);
      }
      HeldJoin(p.inputs, if ops[0].SetPins? then ops[0].pins else [], q.inputs, PinsSet(ops[1..]),
               PlaceAfter(p, ops).value.inputs);
    }
  }

  lemma HeldNothing(inputs: Levels)
    ensures HeldBy(inputs, [], inputs)
  {
  }

  lemma OpHolds(p: Place, op: Op)
    requires OpEntries(p, op).Some?
    ensures HeldBy(p.inputs, if op.SetPins? then op.pins else [], OpEntries(p, op).value.0.inputs)
  {
    hide HeldBy, Walk, TickEntries, Settle, NavigationTms, Driven;
    HeldNothing(p.inputs);
    if op.SetPins? {
      DrivenHolds(p.inputs, op.pins);
    }
  }

  /** What one operation adds to the records. */
  ghost predicate Adds(here: seq<Entry>, op: Op, levels: Levels) {
    && (forall e :: e in here ==> e.vector.inputs == levels)
    && (op.PulsePin? ==>
          Expand(here) == seq(if op.pulses < 0 then 0 else op.pulses, _ => Pulse(op.port, op.hold, levels)))
    && (!op.PulsePin? ==> forall e :: e in here ==> e.vector.Jtag?)
    && (op.SetPins? ==> here == [])
  }

  lemma OpAdds(p: Place, op: Op)
    requires OpEntries(p, op).Some?
    ensures Adds(OpEntries(p, op).value.1, op, p.inputs)
  {
    hide Walk, Settle, NavigationTms, Driven;
    if op.PulsePin? && op.pulses > 0 {
      var v := Pulse(op.port, op.hold, p.inputs);
      var one := [Entry(v, op.pulses)];
      assert one[1..] == [] && Expand(one) == Copies(v, op.pulses) + [];
    }
  }

  /** For every list the walker accepts and every operation in it: the records it adds hold the declared inputs as
      the SetPins before it left them; a PulsePin adds its count of pulses of its own port, with the pins it holds;
      SetPins adds no vector and names declared pins only; the others add cycles of the TAP. */
  lemma PinsFollow(ops: seq<Op>, inputs: Levels, i: nat) returns (levels: Levels)
    requires Entries(Place(RunTestIdle, inputs), ops).Some? && i < |ops|
    ensures var p := Place(RunTestIdle, inputs);
            && Entries(p, ops[..i]).Some? && Entries(p, ops[..i + 1]).Some?
            && Entries(p, ops[..i]).value <= Entries(p, ops[..i + 1]).value <= Entries(p, ops).value
            && HeldBy(inputs, PinsSet(ops[..i]), levels)
            && Adds(Entries(p, ops[..i + 1]).value[|Entries(p, ops[..i]).value|..], ops[i], levels)
            && (ops[i].SetPins? ==> forall k :: 0 <= k < |ops[i].pins| ==> ops[i].pins[k].0 in inputs)
  {
    hide OpEntries, HeldBy, Adds;
    var p := Place(RunTestIdle, inputs);
    EntriesJoin(p, ops[..i], ops[i..]);
    EntriesJoin(p, ops[..i], [ops[i]]);
    EntriesJoin(p, ops[..i + 1], ops[i + 1..]);
    assert ops[..i] + ops[i..] == ops && ops[..i] + [ops[i]] == ops[..i + 1] && ops[..i + 1] + ops[i + 1..] == ops;
    var q := PlaceAfter(p, ops[..i]).value;
    PlaceHolds(p, ops[..i]);
    levels := q.inputs;
    OneEntries(q, ops[i], ops[i + 1..]) by {
      assert ops[i..][0] == ops[i] && ops[i..][1..] == ops[i + 1..];
      assert [ops[i]] + ops[i + 1..] == ops[i..];
    }
    OpAdds(q, ops[i]);
    var before, here := Entries(p, ops[..i]).value, OpEntries(q, ops[i]).value.1;
    assert Entries(p, ops[..i + 1]).value == before + here;
    assert (before + here)[|before|..] == here;
    if ops[i].SetPins? {
      DeclaredOnly(q, ops[i]);
      assert q.inputs.Keys == inputs.Keys by { HeldKeys(inputs, PinsSet(ops[..i]), q.inputs); }
    }
  }

  lemma HeldKeys(start: Levels, pins: seq<(string, bool)>, levels: Levels)
    requires HeldBy(start, pins, levels)
    ensures levels.Keys == start.Keys
  {
  }

  lemma OneEntries(q: Place, op: Op, rest: seq<Op>)
    requires Entries(q, [op] + rest).Some?
    ensures OpEntries(q, op).Some? && Entries(q, [op]) == Some(OpEntries(q, op).value.1)
  {
    hide OpEntries;
    assert ([op] + rest)[0] == op && [op][1..] == [];
    var e := OpEntries(q, op).value.1;
    assert e + [] == e;
  }

  lemma DeclaredOnly(q: Place, op: Op)
    requires op.SetPins? && OpEntries(q, op).Some?
    ensures forall k :: 0 <= k < |op.pins| ==> op.pins[k].0 in q.inputs.Keys
  {
    DrivenHolds(q.inputs, op.pins);
  }

  // ---------------------------------------------------------------- the TAP's part

  /** The operations the TAP pins see. */
  function TapPart(ops: seq<Op>): seq<Op> {
    if ops == [] then [] else (if ops[0].PulsePin? || ops[0].SetPins? then [] else [ops[0]]) + TapPart(ops[1..])
  }

  /** The vectors that are cycles of the TAP. */
  function JtagOnly(v: seq<Vector>): seq<Vector> {
    if v == [] then [] else (if v[0].Jtag? then [v[0]] else []) + JtagOnly(v[1..])
  }

  lemma {:induction false} JtagJoin(a: seq<Vector>, b: seq<Vector>)
    ensures JtagOnly(a + b) == JtagOnly(a) + JtagOnly(b)
  {
    if a == [] {
      assert a + b == b;
    } else {
      assert (a + b)[0] == a[0] && (a + b)[1..] == a[1..] + b;
      JtagJoin(a[1..], b);
    }
  }

  lemma {:induction false} AllJtag(v: seq<Vector>)
    requires forall k :: 0 <= k < |v| ==> v[k].Jtag?
    ensures JtagOnly(v) == v
  {
    if v != [] {
      AllJtag(v[1..]);
    }
  }

  lemma {:induction false} NoneJtag(v: seq<Vector>)
    requires forall k :: 0 <= k < |v| ==> v[k].Pulse?
    ensures JtagOnly(v) == []
  {
    if v != [] {
      NoneJtag(v[1..]);
    }
  }

  lemma {:induction false} ExpandJtag(entries: seq<Entry>)
    requires forall e :: e in entries ==> e.vector.Jtag?
    ensures forall k :: 0 <= k < |Expand(entries)| ==> Expand(entries)[k].Jtag?
  {
    if entries != [] {
      ExpandJtag(entries[1..]);
    }
  }

  /** Every pin a SetPins names is declared. */
  ghost predicate PinsDeclared(inputs: Levels, ops: seq<Op>) {
    forall k :: 0 <= k < |PinsSet(ops)| ==> PinsSet(ops)[k].0 in inputs.Keys
  }

  lemma FirstDeclared(inputs: Levels, ops: seq<Op>)
    requires ops != []
    ensures var here := if ops[0].SetPins? then ops[0].pins else [];
            PinsDeclared(inputs, ops)
            <==> (forall k :: 0 <= k < |here| ==> here[k].0 in inputs.Keys) && PinsDeclared(inputs, ops[1..])
  {
    var here, rest := if ops[0].SetPins? then ops[0].pins else [], PinsSet(ops[1..]);
    var all := PinsSet(ops);
    assert all == here + rest;
    if PinsDeclared(inputs, ops) {
      forall k | 0 <= k < |here| ensures here[k].0 in inputs.Keys {
        assert all[k] == here[k];
      }
      forall k | 0 <= k < |rest| ensures rest[k].0 in inputs.Keys {
        assert all[|here| + k] == rest[k];
      }
    }
    if (forall k :: 0 <= k < |here| ==> here[k].0 in inputs.Keys) && PinsDeclared(inputs, ops[1..]) {
      forall k | 0 <= k < |all| ensures all[k].0 in inputs.Keys {
        assert all[k] == if k < |here| then here[k] else rest[k - |here|];
      }
    }
  }

  lemma SameDeclared(a: Levels, b: Levels, ops: seq<Op>)
    requires a.Keys == b.Keys
    ensures PinsDeclared(a, ops) <==> PinsDeclared(b, ops)
  {
  }

  /** With pin operations, too: the walker refuses a list exactly when to_cycles refuses the rest of it or a SetPins
      names a pin that is not declared, and the TAP's own vectors are to_cycles' list. */
  lemma {:induction false} WalkerWithPins(p: Place, ops: seq<Op>)
    ensures Entries(p, ops).Some? <==> ToCycles(p.state, TapPart(ops)).Some? && PinsDeclared(p.inputs, ops)
    ensures Entries(p, ops).Some? ==>
      Pins(JtagOnly(Expand(Entries(p, ops).value))) == ToCycles(p.state, TapPart(ops)).value
    decreases |ops|
  {
    if ops == [] {
      NothingWalked(p);
    } else {
      hide OpEntries, OpCycles, Walk, Expand, Pins, PinsDeclared, PinsSet;
      var op := ops[0];
      FirstDeclared(p.inputs, ops);
      FirstWalked(p, op);
      if OpEntries(p, op).Some? {
        var (q, here) := OpEntries(p, op).value;
        WalkerWithPins(q, ops[1..]);
        SameDeclared(q.inputs, p.inputs, ops[1..]);
        if Entries(q, ops[1..]).Some? {
          var rest := Entries(q, ops[1..]).value;
          ExpandJoin(here, rest);
          JtagJoin(Expand(here), Expand(rest));
          PinsJoin(JtagOnly(Expand(here)), JtagOnly(Expand(rest)));
        }
      }
      TapPartFirst(p.state, ops);
    }
  }

  lemma NothingWalked(p: Place)
    ensures Entries(p, []) == Some([]) && ToCycles(p.state, TapPart([])) == Some([]) && PinsDeclared(p.inputs, [])
    ensures Pins(JtagOnly(Expand([]))) == []
  {
  }

  /** to_cycles over the part of the list the TAP sees, one operation on. */
  lemma TapPartFirst(state: TapState, ops: seq<Op>)
    requires ops != []
    ensures var aside := ops[0].PulsePin? || ops[0].SetPins?;
            ToCycles(state, TapPart(ops))
            == if aside then ToCycles(state, TapPart(ops[1..]))
               else match OpCycles(state, ops[0])
                 case None => None
                 case Some(a) =>
                   match ToCycles(Walk(state, a), TapPart(ops[1..]))
                   case None => None
                   case Some(b) => Some(a + b)
  {
    hide OpCycles, Walk;
    var rest := TapPart(ops[1..]);
    assert [] + rest == rest;
    assert ([ops[0]] + rest)[0] == ops[0] && ([ops[0]] + rest)[1..] == rest;
  }

  /** One operation, whether it is the TAP's or not. */
  lemma FirstWalked(p: Place, op: Op)
    ensures var aside := op.PulsePin? || op.SetPins?;
            && (op.PulsePin? ==> OpEntries(p, op).Some?)
            && (op.SetPins? ==>
                  (OpEntries(p, op).Some? <==> forall k :: 0 <= k < |op.pins| ==> op.pins[k].0 in p.inputs.Keys))
            && (!aside ==> OpEntries(p, op).Some? == OpCycles(p.state, op).Some?)
            && (OpEntries(p, op).Some? ==>
                  var (q, here) := OpEntries(p, op).value;
                  && q.inputs.Keys == p.inputs.Keys
                  && (aside ==> q.state == p.state && Pins(JtagOnly(Expand(here))) == [])
                  && (!aside ==>
                        var a := OpCycles(p.state, op).value;
                        q.state == Walk(p.state, a) && Pins(JtagOnly(Expand(here))) == a))
  {
    hide Walk, NavigationTms, TickEntries, Settle, Driven, Expand, Copies;
    if op.SetPins? {
      DrivenHolds(p.inputs, op.pins);
      NothingWalked(p);
    } else if op.PulsePin? {
      OpAdds(p, op);
      NoneJtag(Expand(OpEntries(p, op).value.1));
    } else {
      OpAgrees(p, op);
      if OpEntries(p, op).Some? {
        var here := OpEntries(p, op).value.1;
        OpAdds(p, op);
        ExpandJtag(here);
        AllJtag(Expand(here));
      }
    }
  }
}
