/** The live chain as a shift register. A matched final ScanMux shows its arm's output at TDO, so
    what TDO shows is a tap `Downstream` cells before the end; every cell still shifts in order. */
module SibShift {
  import opened Bits
  import opened IclModel
  import opened SibCells

  // ---------------------------------------------------------------- loading

  lemma {:induction false} RawLoad(h: Cells, bits: Bits)
    requires |bits| == |Raw(h)|
    ensures Raw(Load(h, bits)) == bits
  {
    match h
    case CEnd =>
    case CSib(_, _, po, gate, rest) =>
      var n := if po then |RawGate(gate)| else 0;
      var r := Load(h, bits);
      assert po ==> RawGate(r.gate) == bits[..n] by {
        if po {
          RawLoadGate(gate, bits[..n]);
        }
      }
      assert Raw(r.rest) == bits[n + 1..] by {
        RawLoad(rest, bits[n + 1..]);
      }
      assert Raw(r) == bits[..n] + bits[n..n + 1] + bits[n + 1..];
      Rejoin(bits, n, n + 1);
    case CMux(_, _, mff, mpo, arms, rest) =>
      var n := |RawArms(arms, Value(mpo))|;
      var m := n + |mff|;
      var r := Load(h, bits);
      assert RawArms(r.arms, Value(mpo)) == bits[..n] by {
        RawLoadArms(arms, Value(mpo), bits[..n]);
      }
      assert Raw(r.rest) == bits[m..] by {
        RawLoad(rest, bits[m..]);
      }
      assert Raw(r) == bits[..n] + bits[n..m] + bits[m..];
      Rejoin(bits, n, m);
  }

  lemma {:induction false} RawLoadGate(g: GateCells, bits: Bits)
    requires |bits| == |RawGate(g)|
    ensures RawGate(LoadGate(g, bits)) == bits
  {
    if g.CNet? {
      RawLoad(g.chain, bits);
    }
  }

  lemma {:induction false} RawLoadArms(a: ArmCells, value: int, bits: Bits)
    requires |bits| == |RawArms(a, value)|
    ensures RawArms(LoadArms(a, value, bits), value) == bits
  {
    if a.CArm? {
      if a.value == value {
        RawLoadGate(a.gate, bits);
      } else {
        RawLoadArms(a.others, value, bits);
      }
    }
  }

  lemma {:induction false} LoadLoad(h: Cells, b: Bits, c: Bits)
    requires |b| == |c| == |Raw(h)|
    ensures |Raw(Load(h, b))| == |c|
    ensures Load(Load(h, b), c) == Load(h, c)
    decreases h, 1
  {
    RawLoad(h, b);
    match h
    case CEnd =>
    case CSib(_, _, _, _, _) => LoadLoadSib(h, b, c);
    case CMux(_, _, _, _, _, _) => LoadLoadMux(h, b, c);
  }

  lemma {:induction false} LoadLoadSib(h: Cells, b: Bits, c: Bits)
    requires h.CSib? && |b| == |c| == |Raw(h)| == |Raw(Load(h, b))|
    ensures Load(Load(h, b), c) == Load(h, c)
    decreases h, 0
  {
    var n := if h.po then |RawGate(h.gate)| else 0;
    var mid, rest := Load(h, b), Load(h.rest, b[n + 1..]);
    if h.po {
      RawLoadGate(h.gate, b[..n]);
      LoadLoadGate(h.gate, b[..n], c[..n]);
    }
    RawLoad(h.rest, b[n + 1..]);
    LoadLoad(h.rest, b[n + 1..], c[n + 1..]);
    assert mid.rest == rest && mid.po == h.po;
    hide Load, LoadGate, RawGate, Raw;
    LoadedSib(mid, c);
    LoadedSib(h, c);
  }

  lemma LoadedSib(h: Cells, bits: Bits)
    requires h.CSib? && |bits| == |Raw(h)|
    ensures var n := if h.po then |RawGate(h.gate)| else 0;
            && n + 1 <= |bits| && |bits| - n - 1 == |Raw(h.rest)|
            && Load(h, bits) == CSib(h.name, bits[n], h.po, if h.po then LoadGate(h.gate, bits[..n]) else h.gate,
                                     Load(h.rest, bits[n + 1..]))
  {
  }

  lemma LoadedMux(h: Cells, bits: Bits)
    requires h.CMux? && |bits| == |Raw(h)|
    ensures var n := |RawArms(h.arms, Value(h.mpo))|;
            var m := n + |h.mff|;
            && m <= |bits| && |bits| - m == |Raw(h.rest)|
            && Load(h, bits) == CMux(h.name, h.width, bits[n..m], h.mpo, LoadArms(h.arms, Value(h.mpo), bits[..n]),
                                     Load(h.rest, bits[m..]))
  {
  }

  lemma {:induction false} LoadLoadMux(h: Cells, b: Bits, c: Bits)
    requires h.CMux? && |b| == |c| == |Raw(h)| == |Raw(Load(h, b))|
    ensures Load(Load(h, b), c) == Load(h, c)
    decreases h, 0
  {
    var value := Value(h.mpo);
    var n := |RawArms(h.arms, value)|;
    var m := n + |h.mff|;
    LoadedMux(h, b);
    RawLoadArms(h.arms, value, b[..n]);
    LoadLoadArms(h.arms, value, b[..n], c[..n]);
    RawLoad(h.rest, b[m..]);
    LoadLoad(h.rest, b[m..], c[m..]);
    LoadMuxTwice(h, Load(h, b), c, value, n, m);
  }

  lemma LoadMuxTwice(h: Cells, mid: Cells, c: Bits, value: int, n: nat, m: nat)
    requires h.CMux? && mid.CMux? && |c| == |Raw(h)| == |Raw(mid)| && value == Value(h.mpo)
    requires mid.name == h.name && mid.width == h.width && mid.mpo == h.mpo && |mid.mff| == |h.mff|
    requires n == |RawArms(h.arms, value)| == |RawArms(mid.arms, value)| && m == n + |h.mff| <= |c|
    requires |Raw(h.rest)| == |Raw(mid.rest)| == |c| - m
    requires LoadArms(mid.arms, value, c[..n]) == LoadArms(h.arms, value, c[..n])
    requires Load(mid.rest, c[m..]) == Load(h.rest, c[m..])
    ensures Load(mid, c) == Load(h, c)
  {
    hide Load, LoadArms, RawArms, Raw, Value;
    LoadedMux(mid, c);
    LoadedMux(h, c);
  }

  lemma {:induction false} LoadLoadGate(g: GateCells, b: Bits, c: Bits)
    requires |b| == |c| == |RawGate(g)|
    ensures |RawGate(LoadGate(g, b))| == |c|
    ensures LoadGate(LoadGate(g, b), c) == LoadGate(g, c)
  {
    RawLoadGate(g, b);
    if g.CNet? {
      LoadLoad(g.chain, b, c);
    }
  }

  lemma {:induction false} LoadLoadArms(a: ArmCells, value: int, b: Bits, c: Bits)
    requires |b| == |c| == |RawArms(a, value)|
    ensures |RawArms(LoadArms(a, value, b), value)| == |c|
    ensures LoadArms(LoadArms(a, value, b), value, c) == LoadArms(a, value, c)
  {
    RawLoadArms(a, value, b);
    if a.CArm? {
      if a.value == value {
        LoadLoadGate(a.gate, b, c);
      } else {
        LoadLoadArms(a.others, value, b, c);
      }
    }
  }

  lemma {:induction false} LoadRaw(h: Cells)
    requires Sized(h)
    ensures Load(h, Raw(h)) == h
  {
    match h
    case CEnd =>
    case CSib(_, ff, po, gate, rest) =>
      var bits := Raw(h);
      var n := if po then |RawGate(gate)| else 0;
      assert po ==> bits[..n] == RawGate(gate);
      assert bits[n + 1..] == Raw(rest) && bits[n] == ff;
      LoadRawGate(gate);
      LoadRaw(rest);
    case CMux(_, _, mff, mpo, arms, rest) =>
      var bits := Raw(h);
      var n := |RawArms(arms, Value(mpo))|;
      var m := n + |mff|;
      assert bits[..n] == RawArms(arms, Value(mpo));
      assert bits[n..m] == mff && bits[m..] == Raw(rest);
      LoadRawArms(arms, Value(mpo));
      LoadRaw(rest);
  }

  lemma {:induction false} LoadRawGate(g: GateCells)
    requires SizedGate(g)
    ensures LoadGate(g, RawGate(g)) == g
  {
    if g.CNet? {
      LoadRaw(g.chain);
    }
  }

  lemma {:induction false} LoadRawArms(a: ArmCells, value: int)
    requires SizedArms(a)
    ensures LoadArms(a, value, RawArms(a, value)) == a
  {
    if a.CArm? {
      LoadRawGate(a.gate);
      LoadRawArms(a.others, value);
    }
  }

  lemma {:induction false} LoadKeeps(h: Cells, bits: Bits)
    requires |bits| == |Raw(h)|
    ensures Topo(Load(h, bits)) == Topo(h)
    ensures Sized(h) ==> Sized(Load(h, bits))
    ensures Downstream(Load(h, bits)) == Downstream(h)
  {
    match h
    case CEnd =>
    case CSib(_, _, po, gate, rest) =>
      var n := if po then |RawGate(gate)| else 0;
      if po {
        LoadGateKeeps(gate, bits[..n]);
      }
      LoadKeeps(rest, bits[n + 1..]);
    case CMux(_, _, mff, mpo, arms, rest) =>
      var n := |RawArms(arms, Value(mpo))|;
      LoadArmsKeeps(arms, Value(mpo), bits[..n]);
      LoadKeeps(rest, bits[n + |mff|..]);
  }

  lemma {:induction false} LoadGateKeeps(g: GateCells, bits: Bits)
    requires |bits| == |RawGate(g)|
    ensures GateTopo(LoadGate(g, bits)) == GateTopo(g)
    ensures SizedGate(g) ==> SizedGate(LoadGate(g, bits))
  {
    if g.CNet? {
      LoadKeeps(g.chain, bits);
    }
  }

  lemma {:induction false} LoadArmsKeeps(a: ArmCells, value: int, bits: Bits)
    requires |bits| == |RawArms(a, value)|
    ensures ArmTopo(LoadArms(a, value, bits)) == ArmTopo(a)
    ensures SizedArms(a) ==> SizedArms(LoadArms(a, value, bits))
    ensures forall v :: Claims(LoadArms(a, value, bits), v) == Claims(a, v)
  {
    if a.CArm? {
      if a.value == value {
        LoadGateKeeps(a.gate, bits);
      } else {
        LoadArmsKeeps(a.others, value, bits);
      }
    }
  }

  // ---------------------------------------------------------------- the tap position

  predicate Claims(a: ArmCells, value: int) {
    match a
    case CNoArms => false
    case CArm(v, _, others) => v == value || Claims(others, value)
  }

  /** How many live cells sit past the one TDO shows: the select field of a final ScanMux that
      is matched, otherwise none. */
  function Downstream(h: Cells): nat {
    match h
    case CEnd => 0
    case CSib(_, _, _, _, rest) => Downstream(rest)
    case CMux(_, _, mff, mpo, arms, rest) =>
      if rest.CEnd? then (if Claims(arms, Value(mpo)) then |mff| else 0) else Downstream(rest)
  }

  lemma {:induction false} SibOnlySeen(h: Cells)
    requires SibOnly(Topo(h))
    ensures Seen(h) == Raw(h) && Downstream(h) == 0
    ensures forall b :: LiveSo(h, b) == if h.CEnd? then b else Raw(h)[|Raw(h)| - 1]
    ensures !h.CEnd? ==> Raw(h) != []
  {
    if h.CSib? {
      SibOnlySeenGate(h.gate);
      SibOnlySeen(h.rest);
    }
  }

  lemma {:induction false} SibOnlySeenGate(g: GateCells)
    requires SibOnlyGate(GateTopo(g))
    ensures SeenGate(g) == RawGate(g)
  {
    if g.CNet? {
      SibOnlySeen(g.chain);
    }
  }

  lemma GateShowsLast(g: GateCells)
    requires SibOnlyGate(GateTopo(g)) && SizedGate(g) && StructuredGate(GateTopo(g))
    requires g.CLeaf? ==> g.inst.width >= 1
    ensures RawGate(g) != [] && GateSo(g) == RawGate(g)[|RawGate(g)| - 1]
  {
    if g.CNet? {
      SibOnlySeen(g.chain);
      assert !Topo(g.chain).End?;
      assert GateSo(g) == LiveSo(g.chain, false);
    }
  }

  lemma {:induction false} GoodArmSeen(a: ArmCells, value: int, own: bool, limit: nat)
    requires GoodArms(ArmTopo(a)) && SizedArms(a) && StructuredArms(ArmTopo(a), limit)
    ensures SeenArms(a, value) == RawArms(a, value)
    ensures Claims(a, value) ==> RawArms(a, value) != []
                                 && ArmSo(a, value, own) == RawArms(a, value)[|RawArms(a, value)| - 1]
    ensures !Claims(a, value) ==> RawArms(a, value) == [] && ArmSo(a, value, own) == own
  {
    if a.CArm? {
      SibOnlySeenGate(a.gate);
      GateShowsLast(a.gate);
      GoodArmSeen(a.others, value, own, limit);
    }
  }

  /** On a good shape a shift reads every cell as it is, except that the last one reads as the
      tapped cell. */
  lemma {:induction false} GoodSeen(h: Cells)
    requires GoodShape(Topo(h)) && Structured(Topo(h)) && Sized(h) && !h.CEnd?
    ensures Downstream(h) < |Raw(h)| == |Seen(h)|
    ensures Seen(h) == Raw(h)[..|Raw(h)| - 1] + [Raw(h)[|Raw(h)| - 1 - Downstream(h)]]
  {
    if h.CMux? {
      GoodSeenMux(h);
    } else {
      var own := OwnCells(h);
      if h.rest.CEnd? {
        assert Raw(h.rest) == [] && own + [] == own;
      } else {
        GoodSeen(h.rest);
        SeenAfter(own, Raw(h.rest), Seen(h.rest), Downstream(h.rest));
      }
    }
  }

  lemma OwnCells(h: Cells) returns (own: Bits)
    requires GoodShape(Topo(h)) && h.CSib?
    ensures own != [] && own[|own| - 1] == h.ff
    ensures Raw(h) == own + Raw(h.rest) && Seen(h) == own + Seen(h.rest)
  {
    SibOnlySeenGate(h.gate);
    own := (if h.po then RawGate(h.gate) else []) + [h.ff];
  }

  lemma SeenAfter(own: Bits, raw: Bits, seen: Bits, past: nat)
    requires past < |raw| == |seen| && seen == raw[..|raw| - 1] + [raw[|raw| - 1 - past]]
    ensures var whole := own + raw;
            own + seen == whole[..|whole| - 1] + [whole[|whole| - 1 - past]]
  {
  }

  lemma GoodSeenMux(h: Cells)
    requires GoodShape(Topo(h)) && Structured(Topo(h)) && Sized(h) && h.CMux?
    ensures Downstream(h) < |Raw(h)| == |Seen(h)|
    ensures Seen(h) == Raw(h)[..|Raw(h)| - 1] + [Raw(h)[|Raw(h)| - 1 - Downstream(h)]]
  {
    var value, mff := Value(h.mpo), h.mff;
    var arm, m := RawArms(h.arms, value), |mff|;
    var own := mff[m - 1];
    GoodArmSeen(h.arms, value, own, Pow2(m));
    assert Topo(h.rest).End? && h.rest.CEnd?;
    assert Raw(h) == arm + mff;
    assert Seen(h) == arm + (mff[..m - 1] + [ArmSo(h.arms, value, own)]);
    TapShown(arm, mff, ArmSo(h.arms, value, own), if Claims(h.arms, value) then m else 0);
  }

  lemma TapShown(arm: Bits, field: Bits, so: bool, past: nat)
    requires field != []
    requires || (past == 0 && so == field[|field| - 1])
             || (past == |field| && arm != [] && so == arm[|arm| - 1])
    ensures var raw := arm + field;
            arm + (field[..|field| - 1] + [so]) == raw[..|raw| - 1] + [raw[|raw| - 1 - past]]
  {
  }

  // ---------------------------------------------------------------- a run of shifts

  /** The content of an n-cell chain after `fed` has been shifted in: the last fed bit sits
      nearest TDI. */
  function Advanced(content: Bits, fed: Bits): (r: Bits)
    ensures |r| == |content|
  {
    (Reverse(fed) + content)[..|content|]
  }

  /** What a tap on the last of `content` shows while `fed` is shifted in. */
  function Emerged(content: Bits, fed: Bits): (r: Bits)
    ensures |r| == |fed|
  {
    (Reverse(content) + fed)[..|fed|]
  }

  lemma AdvanceOne(content: Bits, fed: Bits)
    requires content != [] && fed != []
    ensures Advanced([fed[0]] + content[..|content| - 1], fed[1..]) == Advanced(content, fed)
  {
    assert Reverse(fed) == Reverse(fed[1..]) + [fed[0]];
  }

  lemma EmergeOne(content: Bits, fed: Bits)
    requires content != [] && fed != []
    ensures [content[|content| - 1]] + Emerged([fed[0]] + content[..|content| - 1], fed[1..])
            == Emerged(content, fed)
  {
    var n := |content|;
    var next := [fed[0]] + content[..n - 1];
    assert Reverse(content) == [content[n - 1]] + Reverse(content[..n - 1]);
    assert Reverse(next) == Reverse(content[..n - 1]) + [fed[0]];
    assert Reverse(content) + fed == [content[n - 1]] + (Reverse(next) + fed[1..]);
  }

  /** The live cells from TDI up to the one TDO shows. */
  function Tapped(h: Cells): Bits
    requires Downstream(h) <= |Raw(h)|
  {
    Raw(h)[..|Raw(h)| - Downstream(h)]
  }

  lemma OneShift(h: Cells, tdi: bool)
    requires GoodShape(Topo(h)) && Structured(Topo(h)) && Sized(h) && !h.CEnd?
    ensures Downstream(h) < |Raw(h)|
    ensures var content := [tdi] + Raw(h)[..|Raw(h)| - 1];
            && Shift(h, tdi) == (Load(h, content), Raw(h)[|Raw(h)| - 1 - Downstream(h)])
            && Raw(Load(h, content)) == content
            && Topo(Load(h, content)) == Topo(h) && Sized(Load(h, content))
            && Downstream(Load(h, content)) == Downstream(h)
  {
    GoodSeen(h);
    var n := |Raw(h)|;
    var content := [tdi] + Raw(h)[..n - 1];
    assert Seen(h)[..n - 1] == Raw(h)[..n - 1];
    RawLoad(h, content);
    LoadKeeps(h, content);
  }

  /** Any run of Shift-DR cycles on a good shape: the cells hold the fed bits behind what is left
      of the old content, and TDO shows the content up to the tap and then the fed bits. */
  lemma {:induction false} ShiftAllEffect(h: Cells, fed: Bits)
    requires GoodShape(Topo(h)) && Structured(Topo(h)) && Sized(h)
    ensures Downstream(h) <= |Raw(h)|
    ensures ShiftAll(h, fed).0 == Load(h, Advanced(Raw(h), fed))
    ensures ShiftAll(h, fed).1 == Emerged(Tapped(h), fed)
    decreases |fed|, 1
  {
    if h.CEnd? {
      EmptyChain(fed);
      assert Tapped(h) == [] && Emerged([], fed) == fed;
    } else if fed == [] {
      NoShift(h);
    } else {
      ShiftMore(h, fed);
    }
  }

  lemma {:induction false} ShiftMore(h: Cells, fed: Bits)
    requires GoodShape(Topo(h)) && Structured(Topo(h)) && Sized(h) && !h.CEnd? && fed != []
    ensures Downstream(h) <= |Raw(h)|
    ensures ShiftAll(h, fed).0 == Load(h, Advanced(Raw(h), fed))
    ensures ShiftAll(h, fed).1 == Emerged(Tapped(h), fed)
    decreases |fed|, 0
  {
    hide *;
    OneShift(h, fed[0]);
    var raw, tap := Raw(h), |Raw(h)| - Downstream(h);
    var content := [fed[0]] + raw[..|raw| - 1];
    var h1 := Load(h, content);
    TappedSame(h1, content, tap);
    TappedSame(h, raw, tap);
    ShiftAllEffect(h1, fed[1..]);
    ShiftedContent(h, fed, content);
    ShiftJoin(h, h1, raw, tap, fed);
  }

  lemma TappedSame(h: Cells, content: Bits, tap: nat)
    requires Raw(h) == content && tap + Downstream(h) == |content|
    ensures Tapped(h) == content[..tap]
  {
  }

  lemma ShiftJoin(h: Cells, h1: Cells, raw: Bits, tap: nat, fed: Bits)
    requires fed != [] && 0 < tap <= |raw| && Shift(h, fed[0]) == (h1, raw[tap - 1])
    requires ShiftAll(h1, fed[1..]).1 == Emerged(([fed[0]] + raw[..|raw| - 1])[..tap], fed[1..])
    ensures ShiftAll(h, fed).0 == ShiftAll(h1, fed[1..]).0
    ensures ShiftAll(h, fed).1 == Emerged(raw[..tap], fed)
  {
    ShiftedTap(raw, tap, fed);
  }

  lemma NoShift(h: Cells)
    requires GoodShape(Topo(h)) && Structured(Topo(h)) && Sized(h) && !h.CEnd?
    ensures Downstream(h) <= |Raw(h)|
    ensures Load(h, Advanced(Raw(h), [])) == h
    ensures Emerged(Tapped(h), []) == []
  {
    hide Load, Raw, GoodShape, Structured, Sized, Topo;
    GoodSeen(h);
    LoadRaw(h);
    assert Advanced(Raw(h), []) == Raw(h);
  }

  lemma ShiftedContent(h: Cells, fed: Bits, content: Bits)
    requires fed != [] && Raw(h) != [] && content == [fed[0]] + Raw(h)[..|Raw(h)| - 1]
    ensures Raw(Load(h, content)) == content
    ensures Load(Load(h, content), Advanced(content, fed[1..])) == Load(h, Advanced(Raw(h), fed))
  {
    RawLoad(h, content);
    AdvanceOne(Raw(h), fed);
    LoadLoad(h, content, Advanced(content, fed[1..]));
  }

  lemma ShiftedTap(content: Bits, tap: nat, fed: Bits)
    requires 0 < tap <= |content| && fed != []
    ensures var next := [fed[0]] + content[..|content| - 1];
            [content[tap - 1]] + Emerged(next[..tap], fed[1..]) == Emerged(content[..tap], fed)
  {
    EmergeOne(content[..tap], fed);
    assert [fed[0]] + content[..tap][..tap - 1] == ([fed[0]] + content[..|content| - 1])[..tap];
  }

  lemma {:induction false} EmptyChain(fed: Bits)
    ensures ShiftAll(CEnd, fed) == (CEnd, fed)
    decreases |fed|
  {
    if fed != [] {
      EmptyChain(fed[1..]);
      assert [fed[0]] + fed[1..] == fed;
    }
  }
}
