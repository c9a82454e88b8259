/** Staging the path to one instrument: what iApply's phase 1 does. */
module PathPlan {
  import opened Wrappers
  import opened Bits
  import opened IclModel
  import opened SibLayout
  import opened SibRound
  import opened SibRetarget
  import opened SibStaging
  import opened SibReach

  /** The whole tree is well formed for retargeting. */
  ghost predicate Network(c: Chain) {
    Valid(c) && UniqueInsts(c) && GoodShape(c) && !c.End?
  }

  /** The open map in which exactly the steps of a path are open. */
  function PathMap(p: Path): OpenMap {
    if p == [] then map[] else PathMap(p[..|p| - 1])[p[|p| - 1].name := p[|p| - 1].value]
  }

  function Way(l: LeafSite): Path { l.above + [l.step] }

  /** The instrument sits below a ScanMux, inside an arm's own chain. */
  ghost predicate InsideArm(c: Chain, l: LeafSite) {
    exists s, i :: s in Sites(c, []) && s.isMux && 0 <= i < |l.above| && l.above[i].name == s.name
  }

  /** No name repeats along the path. */
  ghost predicate Distinct(p: Path) {
    forall i, j :: 0 <= i < j < |p| ==> p[i].name != p[j].name
  }

  lemma {:induction false} PathMapIs(p: Path)
    requires Distinct(p)
    ensures PathMap(p).Keys == Names(p)
    ensures Opened(PathMap(p), p)
  {
    if p != [] {
      var q := p[..|p| - 1];
      PathMapIs(q);
      assert Names(p) == Names(q) + {p[|p| - 1].name} by {
        forall n | n in Names(q) ensures n in Names(p) {
          var i :| 0 <= i < |q| && q[i].name == n;
          assert p[i].name == n;
        }
        forall n | n in Names(p) ensures n in Names(q) + {p[|p| - 1].name} {
          var i :| 0 <= i < |p| && p[i].name == n;
          if i < |q| {
            assert q[i].name == n;
          }
        }
      }
      forall i | 0 <= i < |p| ensures Carries(PathMap(p), p[i].name, p[i].value) {
        if i < |q| {
          assert q[i] == p[i];
          assert Carries(PathMap(q), q[i].name, q[i].value);
        }
      }
    }
  }

  // ---------------------------------------------------------------- the path to an instrument

  /** The slots along the way to an instrument. */
  lemma WaySite(c: Chain, l: LeafSite, i: nat) returns (t: Site)
    requires Valid(c) && l in Leaves(c, []) && i < |Way(l)|
    ensures t in Sites(c, []) && t.name == Way(l)[i].name && t.above == Way(l)[..i]
    ensures if t.isMux then 0 <= Way(l)[i].value < t.limit else Way(l)[i].value == 1
  {
    var s := LeafSlot(c, [], l);
    if i == |l.above| {
      t := s;
      assert Way(l)[..i] == l.above;
    } else {
      t := AncestorSite(c, [], s, i);
      assert Way(l)[..i] == l.above[..i];
    }
  }

  lemma WayDistinct(c: Chain, l: LeafSite)
    requires Valid(c) && l in Leaves(c, [])
    ensures Distinct(Way(l))
    ensures PathMap(Way(l)).Keys == Names(Way(l)) && Opened(PathMap(Way(l)), Way(l))
  {
    var p := Way(l);
    forall i, j | 0 <= i < j < |p| ensures p[i].name != p[j].name {
      var t := WaySite(c, l, i);
      var u := WaySite(c, l, j);
      assert |t.above| == i && |u.above| == j;
      if t.name == u.name {
        SiteUnique(c, t, u);
      }
    }
    PathMapIs(p);
  }

  /** A slot that is open in a path's map is on the path, under the part of it that comes before. */
  lemma OnWay(c: Chain, l: LeafSite, s: Site) returns (i: nat)
    requires Valid(c) && l in Leaves(c, []) && s in Sites(c, []) && s.name in PathMap(Way(l))
    ensures i < |Way(l)| && Way(l)[i].name == s.name && s.above == Way(l)[..i]
    ensures PathMap(Way(l))[s.name] == Way(l)[i].value
  {
    WayDistinct(c, l);
    i :| 0 <= i < |Way(l)| && Way(l)[i].name == s.name;
    var t := WaySite(c, l, i);
    SiteUnique(c, s, t);
    assert Carries(PathMap(Way(l)), Way(l)[i].name, Way(l)[i].value);
  }

  /** The map of a path is rooted and proper: a state the network can be in. */
  lemma WayIsRooted(c: Chain, l: LeafSite)
    requires Valid(c) && l in Leaves(c, [])
    ensures Rooted(c, PathMap(Way(l)), PathMap(Way(l))) && Proper(c, PathMap(Way(l)))
  {
    var m := PathMap(Way(l));
    WayDistinct(c, l);
    forall s | s in Sites(c, []) && s.name in m ensures Opened(m, s.above) {
      var i := OnWay(c, l, s);
      assert forall k :: 0 <= k < i ==> s.above[k] == Way(l)[k];
    }
    forall s | s in Sites(c, []) && s.name in m
      ensures if s.isMux then 0 <= m[s.name] < s.limit else m[s.name] == 1
    {
      var i := OnWay(c, l, s);
      var t := WaySite(c, l, i);
      SiteKind(c, s, t);
    }
  }

  lemma EmptyIsRooted(c: Chain)
    ensures Rooted(c, map[], map[]) && Proper(c, map[])
  {
  }

  /** Slots of the same name are the same slot in every respect. */
  lemma {:induction false} SiteKind(c: Chain, s: Site, t: Site)
    requires UniqueSlots(c) && s in Sites(c, []) && t in Sites(c, []) && s.name == t.name
    ensures s == t
  {
    SameSite(c, [], s, t);
  }

  lemma {:induction false} SameSite(c: Chain, above: Path, s: Site, t: Site)
    requires UniqueSlots(c) && s in Sites(c, above) && t in Sites(c, above) && s.name == t.name
    ensures s == t
  {
    SiteNames(c, above, s);
    SiteNames(c, above, t);
    match c
    case Sib(name, gate, rest) =>
      var here := above + [Step(name, 1)];
      var inS, inT := s in GateSites(gate, here), t in GateSites(gate, here);
      if inS {
        SiteNames(gate.chain, here, s);
      }
      if inT {
        SiteNames(gate.chain, here, t);
      }
      if inS && inT {
        SameSite(gate.chain, here, s, t);
      } else if s in Sites(rest, above) {
        SiteNames(rest, above, s);
        if t in Sites(rest, above) {
          SameSite(rest, above, s, t);
        }
      } else if t in Sites(rest, above) {
        SiteNames(rest, above, t);
      }
    case Mux(name, _, arms, rest) =>
      var inS, inT := s in ArmSites(arms, name, above), t in ArmSites(arms, name, above);
      if inS {
        ArmSiteNames(arms, name, above, s);
      }
      if inT {
        ArmSiteNames(arms, name, above, t);
      }
      if inS && inT {
        SameArmSite(arms, name, above, s, t);
      } else if s in Sites(rest, above) {
        SiteNames(rest, above, s);
        if t in Sites(rest, above) {
          SameSite(rest, above, s, t);
        }
      } else if t in Sites(rest, above) {
        SiteNames(rest, above, t);
      }
  }

  lemma {:induction false} SameArmSite(a: Arms, mux: string, above: Path, s: Site, t: Site)
    requires UniqueArmSlots(a) && s in ArmSites(a, mux, above) && t in ArmSites(a, mux, above)
    requires s.name == t.name
    ensures s == t
  {
    var here := above + [Step(mux, a.value)];
    var inS, inT := s in GateSites(a.gate, here), t in GateSites(a.gate, here);
    if inS {
      SiteNames(a.gate.chain, here, s);
    } else {
      ArmSiteNames(a.others, mux, above, s);
    }
    if inT {
      SiteNames(a.gate.chain, here, t);
    } else {
      ArmSiteNames(a.others, mux, above, t);
    }
    if inS && inT {
      SameSite(a.gate.chain, here, s, t);
    } else if !inS && !inT {
      SameArmSite(a.others, mux, above, s, t);
    }
  }

  /** Two instruments never share a step: a SIB gates one thing, and arms have distinct values. */
  lemma {:induction false} SameLeaf(c: Chain, above: Path, l: LeafSite, k: LeafSite)
    requires UniqueSlots(c) && Structured(c)
    requires l in Leaves(c, above) && k in Leaves(c, above) && l.step == k.step
    ensures l == k
  {
    match c
    case Sib(name, gate, rest) =>
      var inL, inK := l in GateLeaves(gate, Step(name, 1), above, false), k in GateLeaves(gate, Step(name, 1), above, false);
      if gate.Net? {
        if inL {
          LeafNames(gate.chain, above + [Step(name, 1)], l);
        }
        if inK {
          LeafNames(gate.chain, above + [Step(name, 1)], k);
        }
      }
      if inL && inK {
        if gate.Net? {
          SameLeaf(gate.chain, above + [Step(name, 1)], l, k);
        }
      } else if l in Leaves(rest, above) {
        LeafNames(rest, above, l);
        if k in Leaves(rest, above) {
          SameLeaf(rest, above, l, k);
        }
      } else if k in Leaves(rest, above) {
        LeafNames(rest, above, k);
      }
    case Mux(name, selectWidth, arms, rest) =>
      var inL, inK := l in ArmLeaves(arms, name, above), k in ArmLeaves(arms, name, above);
      if inL {
        ArmLeafNames(arms, name, above, l);
      }
      if inK {
        ArmLeafNames(arms, name, above, k);
      }
      if inL && inK {
        SameArmLeaf(arms, name, Pow2(selectWidth), above, l, k);
      } else if l in Leaves(rest, above) {
        LeafNames(rest, above, l);
        if k in Leaves(rest, above) {
          SameLeaf(rest, above, l, k);
        }
      } else if k in Leaves(rest, above) {
        LeafNames(rest, above, k);
      }
  }

  lemma {:induction false} SameArmLeaf(
    a: Arms, mux: string, limit: nat, above: Path, l: LeafSite, k: LeafSite)
    requires UniqueArmSlots(a) && DistinctValues(a) && StructuredArms(a, limit) && mux !in ArmSlots(a)
    requires l in ArmLeaves(a, mux, above) && k in ArmLeaves(a, mux, above) && l.step == k.step
    ensures l == k
  {
    var step := Step(mux, a.value);
    var inL, inK := l in GateLeaves(a.gate, step, above, true), k in GateLeaves(a.gate, step, above, true);
    if a.gate.Net? {
      if inL {
        LeafNames(a.gate.chain, above + [step], l);
      }
      if inK {
        LeafNames(a.gate.chain, above + [step], k);
      }
    }
    if !inL {
      ArmLeafNames(a.others, mux, above, l);
    }
    if !inK {
      ArmLeafNames(a.others, mux, above, k);
    }
    if inL && inK {
      if a.gate.Net? {
        SameLeaf(a.gate.chain, above + [step], l, k);
      }
    } else if !inL && !inK {
      SameArmLeaf(a.others, mux, limit, above, l, k);
    } else if l.step.name == mux {
      if inL {
        ArmLeafValue(a.others, mux, above, k);
      } else {
        ArmLeafValue(a.others, mux, above, l);
      }
    }
  }

  // ---------------------------------------------------------------- phase 1

  /** What an interpreter can have left open: nothing, or the way to one instrument. */
  ghost predicate OpenState(c: Chain, open: OpenMap) {
    open == map[] || exists k :: k in Leaves(c, []) && open == PathMap(Way(k))
  }

  lemma OpenStateIsRooted(c: Chain, open: OpenMap)
    requires Valid(c) && OpenState(c, open)
    ensures Rooted(c, open, open) && Proper(c, open)
  {
    if open == map[] {
      EmptyIsRooted(c);
    } else {
      var k :| k in Leaves(c, []) && open == PathMap(Way(k));
      WayIsRooted(c, k);
    }
  }

  lemma WayFollows(c: Chain, l: LeafSite)
    requires Valid(c) && l in Leaves(c, [])
    ensures Follows(c, Way(l), PathMap(Way(l)))
  {
    var m := PathMap(Way(l));
    WayDistinct(c, l);
    forall k | 0 <= k < |Way(l)| ensures FollowsOne(c, Way(l)[k], m) {
      var t := WaySite(c, l, k);
      var step := Step(t.name, if t.isMux then Way(l)[k].value else 1);
      assert step == Way(l)[k];
      assert t.above + [step] == Way(l)[..k + 1];
      assert forall i :: 0 <= i <= k ==> (t.above + [step])[i] == Way(l)[i];
      assert Opened(m, t.above + [step]);
    }
  }

  /** An instrument's own step is open in a path's map only when it ends that path. */
  lemma LeafEndsWay(c: Chain, l: LeafSite, k: LeafSite)
    requires Valid(c) && l in Leaves(c, []) && k in Leaves(c, [])
    requires Carries(PathMap(Way(l)), k.step.name, k.step.value)
    ensures k == l
  {
    WayDistinct(c, l);
    var t := LeafSlot(c, [], k);
    var i := OnWay(c, l, t);
    assert Way(l)[i] == k.step;
    if i < |l.above| {
      var s := LeafSlot(c, [], l);
      LeafIsNoAncestor(c, [], k, s, i);
    } else {
      SameLeaf(c, [], k, l);
    }
  }

  /** The marks of a path's staging: the path itself, its own slot the deepest. */
  ghost predicate WayMarked(c: Chain, l: LeafSite, m: Marks) {
    && WellMarked(c, m, PathMap(Way(l))) && Whole(m) == PathMap(Way(l))
    && l.step.name in m && m[l.step.name] == Mark(|Way(l)|, l.step.value)
    && forall n :: n in m && n != l.step.name ==> m[n].depth < |Way(l)|
  }

  lemma WayMarks(c: Chain, l: LeafSite)
    requires Valid(c) && l in Leaves(c, [])
    ensures MarkAll(c, Way(l), map[]).Some? && WayMarked(c, l, MarkAll(c, Way(l), map[]).value)
  {
    WayValid(c);
    WayFollows(c, l);
    EmptyWell(c, PathMap(Way(l)));
    WayDistinct(c, l);
    hide *;
    MarkAllWell(c, Way(l), map[], PathMap(Way(l)));
    WayKeys(c, l, MarkAll(c, Way(l), map[]).value);
  }

  /** Well-marked along the way and nothing of it missing: the marks are the way's. */
  lemma WayKeys(c: Chain, l: LeafSite, m: Marks)
    requires Valid(c) && l in Leaves(c, []) && WellMarked(c, m, PathMap(Way(l))) && Names(Way(l)) <= m.Keys
    ensures WayMarked(c, l, m)
  {
    var plan := PathMap(Way(l));
    WayDistinct(c, l);
    LastNamed(l);
    hide Sites, Leaves, Valid, WellMarked, PathMap, Names;
    forall n | n in m ensures Carries(plan, n, m[n].value) && m[n].depth <= |Way(l)|
      ensures if n == l.step.name then m[n] == Mark(|Way(l)|, l.step.value) else m[n].depth < |Way(l)|
    {
      WayMark(c, l, m, n);
    }
    WholeIs(m, plan);
  }

  lemma LastNamed(l: LeafSite)
    ensures l.step.name in Names(Way(l))
  {
    assert Way(l)[|l.above|] == l.step;
  }

  lemma WholeIs(m: Marks, plan: OpenMap)
    requires (forall n :: n in m ==> Carries(plan, n, m[n].value)) && plan.Keys <= m.Keys
    ensures Whole(m) == plan
  {
  }

  lemma WayValid(c: Chain)
    requires Valid(c)
    ensures UniqueSlots(c) && Structured(c)
  {
  }

  lemma WayMark(c: Chain, l: LeafSite, m: Marks, n: string)
    requires Valid(c) && l in Leaves(c, []) && WellMarked(c, m, PathMap(Way(l))) && n in m
    ensures Carries(PathMap(Way(l)), n, m[n].value) && m[n].depth <= |Way(l)|
    ensures if n == l.step.name then m[n] == Mark(|Way(l)|, l.step.value) else m[n].depth < |Way(l)|
  {
    hide Sites, Leaves, UniqueSlots, Structured, Valid;
    var s :| s in Sites(c, []) && s.name == n;
    assert SiteMarked(m, PathMap(Way(l)), s);
    var i := OnWay(c, l, s);
    WayDistinct(c, l);
    assert |s.above| == i;
    assert Way(l)[|l.above|] == l.step;
  }

  /** Phase 1 for one instrument, from any state an interpreter can be in: staging succeeds, ends
      with exactly the way to the instrument open, and no round keeps an instrument's gate open on
      both sides of its edge. */
  lemma StageForWay(c: Chain, l: LeafSite, open: OpenMap)
    requires Valid(c) && l in Leaves(c, []) && OpenState(c, open)
    ensures Stage(c, Way(l), open).Some?
    ensures var rounds := Stage(c, Way(l), open).value;
            && Staged(c, open, rounds)
            && (if rounds == [] then open else rounds[|rounds| - 1]) == PathMap(Way(l))
            && forall i, k :: 0 <= i < |rounds| && k in Leaves(c, []) ==>
                 !(Carries(Before(open, rounds, i), k.step.name, k.step.value)
                   && Carries(rounds[i], k.step.name, k.step.value))
  {
    var plan := PathMap(Way(l));
    WayFollows(c, l);
    WayIsRooted(c, l);
    StagingIsSound(c, Way(l), open, plan, Stage(c, Way(l), open));
    WayMarks(c, l);
    var rounds := Stage(c, Way(l), open).value;
    var m := MarkAll(c, Way(l), map[]).value;
    if rounds == [] {
      AlreadyOpen(c, l, open, m);
    }
    forall i, k | 0 <= i < |rounds| && k in Leaves(c, [])
      ensures !(Carries(Before(open, rounds, i), k.step.name, k.step.value)
                && Carries(rounds[i], k.step.name, k.step.value))
    {
      NoLeafHeld(c, l, k, open, m, i);
    }
  }

  lemma AlreadyOpen(c: Chain, l: LeafSite, open: OpenMap, m: Marks)
    requires Valid(c) && l in Leaves(c, []) && OpenState(c, open) && WayMarked(c, l, m) && Satisfied(m, open)
    ensures open == PathMap(Way(l))
  {
    assert Carries(open, l.step.name, m[l.step.name].value);
    var k :| k in Leaves(c, []) && open == PathMap(Way(k));
    LeafEndsWay(c, k, l);
  }

  lemma NoLeafHeld(c: Chain, l: LeafSite, k: LeafSite, open: OpenMap, m: Marks, i: nat)
    requires Valid(c) && l in Leaves(c, []) && k in Leaves(c, []) && WayMarked(c, l, m)
    requires i < |RoundsOf(m, open)|
    ensures !(Carries(Before(open, RoundsOf(m, open), i), k.step.name, k.step.value)
              && Carries(RoundsOf(m, open)[i], k.step.name, k.step.value))
  {
    hide Sites, Leaves, Valid, WellMarked;
    var rounds := RoundsOf(m, open);
    var first := FirstNewOf(m, open).value;
    if Carries(rounds[i], k.step.name, k.step.value) {
      assert rounds[i] == Upto(m, first + i);
      assert Carries(Whole(m), k.step.name, k.step.value);
      LeafEndsWay(c, l, k);
      assert IsDeepest(m, |Way(l)|);
      assert first + i == |Way(l)|;
      if i > 0 {
        assert rounds[i - 1] == Upto(m, first + i - 1);
      } else {
        OnlyLastIsNew(m, open, l.step.name);
      }
    }
  }

  lemma OnlyLastIsNew(m: Marks, open: OpenMap, name: string)
    requires name in m && IsFirstNew(m, open, m[name].depth)
    requires forall n :: n in m && n != name ==> m[n].depth < m[name].depth
    ensures !Carries(open, name, m[name].value)
  {
  }

  // ---------------------------------------------------------------- rounds of an iApply

  lemma {:induction false} ArmLeafNonZero(a: Arms, mux: string, above: Path, l: LeafSite)
    requires NoZeroArms(a) && l in ArmLeaves(a, mux, above) && l.isMux
    ensures l.step.value != 0
  {
    if l in GateLeaves(a.gate, Step(mux, a.value), above, true) {
      if a.gate.Net? {
        LeafNonZero(a.gate.chain, above + [Step(mux, a.value)], l);
      }
    } else {
      ArmLeafNonZero(a.others, mux, above, l);
    }
  }

  lemma {:induction false} LeafNonZero(c: Chain, above: Path, l: LeafSite)
    requires NoZeroArm(c) && l in Leaves(c, above) && l.isMux
    ensures l.step.value != 0
  {
    match c
    case Sib(name, gate, rest) =>
      if l in GateLeaves(gate, Step(name, 1), above, false) {
        if gate.Net? {
          LeafNonZero(gate.chain, above + [Step(name, 1)], l);
        }
      } else {
        LeafNonZero(rest, above, l);
      }
    case Mux(name, _, arms, rest) =>
      if l in ArmLeaves(arms, name, above) {
        ArmLeafNonZero(arms, name, above, l);
      } else {
        LeafNonZero(rest, above, l);
      }
  }

  /** A gate that stays open carries its own step on both sides. */
  lemma StaysCarries(c: Chain, l: LeafSite, now: OpenMap, after: OpenMap)
    requires Valid(c) && NoZeroArm(c) && l in Leaves(c, []) && Proper(c, now) && Proper(c, after)
    ensures Stays(l, now, after) <==>
              Carries(now, l.step.name, l.step.value) && Carries(after, l.step.name, l.step.value)
  {
    var t := LeafSlot(c, [], l);
    if l.isMux {
      LeafNonZero(c, [], l);
    }
  }

  /** A phase-1 round is one the hardware does, and it commits no instrument. */
  lemma Phase1Round(c: Chain, now: OpenMap, after: OpenMap, com: Committed)
    requires Network(c) && Rooted(c, now, now) && Rooted(c, now, after) && Proper(c, now) && Proper(c, after)
    requires forall k :: k in Leaves(c, []) ==>
               !(Carries(now, k.step.name, k.step.value) && Carries(after, k.step.name, k.step.value))
    ensures Steppable(c, Round(now, after, None, 0, com, com), true)
    ensures Commits(c, Round(now, after, None, 0, com, com))
  {
    var r := Round(now, after, None, 0, com, com);
    GoodHasNoZero(c);
    RoundCanBeDone(c, r);
    forall l | l in Leaves(c, []) ensures LeafOk(r, l) {
      StaysCarries(c, l, now, after);
    }
    CommitsFromLeaves(c, r, []);
  }

  /** An instrument's name belongs to one instrument. */
  lemma SameInstSameLeaf(c: Chain, k: LeafSite, l: LeafSite)
    requires UniqueInsts(c) && Valid(c) && k in Leaves(c, []) && l in Leaves(c, [])
    ensures k.inst.name == l.inst.name ==> k == l
  {
    if k.inst.name == l.inst.name {
      OpenPathFinds(c, [], k);
      OpenPathFinds(c, [], l);
      var p := OpenPath(c, l.inst.name, []).value;
      assert k.step == p[|p| - 1] && l.step == p[|p| - 1];
      SameLeaf(c, [], k, l);
    }
  }

  /** Phase 2 is one too, and it commits the target and nothing else. */
  lemma Phase2Round(c: Chain, l: LeafSite, payload: int, com: Committed)
    requires Network(c) && l in Leaves(c, [])
    ensures var open := PathMap(Way(l));
            var held := if l.inst.direction.WRITE? then com[l.inst.name := payload] else com;
            var r := Round(open, open, Some(l.step.name), payload, com, held);
            Steppable(c, r, true) && Commits(c, r)
  {
    var open := PathMap(Way(l));
    var held := if l.inst.direction.WRITE? then com[l.inst.name := payload] else com;
    var r := Round(open, open, Some(l.step.name), payload, com, held);
    GoodHasNoZero(c);
    WayIsRooted(c, l);
    RoundCanBeDone(c, r);
    WayDistinct(c, l);
    assert Carries(open, Way(l)[|l.above|].name, Way(l)[|l.above|].value);
    forall k | k in Leaves(c, []) ensures LeafOk(r, k) {
      StaysCarries(c, k, open, open);
      if Stays(k, open, open) {
        LeafEndsWay(c, l, k);
      }
      SameInstSameLeaf(c, k, l);
    }
    CommitsFromLeaves(c, r, []);
  }
}
