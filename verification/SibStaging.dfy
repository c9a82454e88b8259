/** stage_open_sequence: the rounds in which a set of slots can be opened, and why each of them is
    something the hardware can do. */
module SibStaging {
  import opened Wrappers
  import opened Bits
  import opened IclModel
  import opened SibLayout
  import opened SibRetarget
  import opened SibRound

  /** depth_and_value_of: a slot's depth in the tree (1 at the top) and the value it is to carry. */
  datatype Mark = Mark(depth: nat, value: int)

  type Marks = map<string, Mark>

  function MarkPath(m: Marks, p: Path, depth: nat): Marks
    decreases |p|
  {
    if p == [] then m else MarkPath(m[p[0].name := Mark(depth, p[0].value)], p[1..], depth + 1)
  }

  /** The marks of every target and of its ancestors, a later target overwriting an earlier one;
      None when the network has no slot of some target's name. */
  function MarkAll(c: Chain, target: Path, m: Marks): Option<Marks>
    decreases |target|
  {
    if target == [] then Some(m)
    else match SlotPath(c, target[0].name, target[0].value, [])
      case None => None
      case Some(p) => MarkAll(c, target[1..], MarkPath(m, p, 1))
  }

  predicate Carries(open: OpenMap, name: string, value: int) {
    name in open && open[name] == value
  }

  /** Every required slot no deeper than `depth`. */
  function Upto(m: Marks, depth: nat): OpenMap {
    map n | n in m && m[n].depth <= depth :: m[n].value
  }

  ghost predicate IsDeepest(m: Marks, depth: nat) {
    (exists n :: n in m && m[n].depth == depth) && forall n :: n in m ==> m[n].depth <= depth
  }

  /** The least depth at which a required slot does not already carry its value. */
  ghost predicate IsFirstNew(m: Marks, current: OpenMap, depth: nat) {
    && (exists n :: n in m && m[n].depth == depth && !Carries(current, n, m[n].value))
    && forall n :: n in m && m[n].depth < depth ==> Carries(current, n, m[n].value)
  }

  ghost predicate Satisfied(m: Marks, current: OpenMap) {
    forall n :: n in m ==> Carries(current, n, m[n].value)
  }

  ghost function DeepestOf(m: Marks): (depth: nat)
    requires m != map[]
    ensures IsDeepest(m, depth)
    decreases |m|
  {
    var n :| n in m;
    var others := m - {n};
    assert m.Keys == others.Keys + {n};
    if others == map[] then m[n].depth
    else
      var d := DeepestOf(others);
      assert exists k :: k in m && m[k].depth == d;
      if m[n].depth > d then m[n].depth else d
  }

  ghost function FirstNewOf(m: Marks, current: OpenMap): (first: Option<nat>)
    ensures if first.Some? then IsFirstNew(m, current, first.value) else Satisfied(m, current)
    decreases |m|
  {
    if m == map[] then None
    else
      var n :| n in m;
      var others := m - {n};
      assert m.Keys == others.Keys + {n};
      var d := FirstNewOf(others, current);
      assert d.Some? ==> exists k :: k in m && m[k].depth == d.value && !Carries(current, k, m[k].value);
      if Carries(current, n, m[n].value) || (d.Some? && d.value <= m[n].depth) then d
      else Some(m[n].depth)
  }

  lemma FirstNewIsOne(m: Marks, current: OpenMap, a: nat, b: nat)
    requires IsFirstNew(m, current, a) && IsFirstNew(m, current, b)
    ensures a == b && !Satisfied(m, current)
  {
  }

  /** What stage_open_sequence returns. The target's entries are in the order of the caller's
      dictionary; a plain set of names means value 1 for each. */
  ghost function Stage(c: Chain, target: Path, current: OpenMap): Option<seq<OpenMap>> {
    if target == [] then Some([map[]])
    else match MarkAll(c, target, map[])
      case None => None
      case Some(m) => Some(RoundsOf(m, current))
  }

  ghost function RoundsOf(m: Marks, current: OpenMap): seq<OpenMap> {
    match FirstNewOf(m, current)
    case None => []
    case Some(first) => seq(DeepestOf(m) - first + 1, i requires 0 <= i => Upto(m, first + i))
  }

  method MarkTargets(c: Chain, target: Path) returns (marks: Option<Marks>)
    ensures marks == MarkAll(c, target, map[])
  {
    var m: Marks := map[];
    for k := 0 to |target|
      invariant MarkAll(c, target[k..], m) == MarkAll(c, target, map[])
    {
      var found := SlotPath(c, target[k].name, target[k].value, []);
      assert target[k..][1..] == target[k + 1..];
      if found.None? {
        return None;
      }
      m := MarkSteps(m, found.value);
    }
    return Some(m);
  }

  method MarkSteps(before: Marks, p: Path) returns (m: Marks)
    ensures m == MarkPath(before, p, 1)
  {
    m := before;
    for d := 0 to |p|
      invariant MarkPath(m, p[d..], d + 1) == MarkPath(before, p, 1)
    {
      assert p[d..][1..] == p[d + 1..];
      m := m[p[d].name := Mark(d + 1, p[d].value)];
    }
  }

  method Deepest(m: Marks) returns (deepest: nat)
    requires m != map[]
    ensures IsDeepest(m, deepest)
  {
    var first :| first in m;
    deepest := m[first].depth;
    var todo := m.Keys - {first};
    while todo != {}
      invariant todo <= m.Keys
      invariant exists n :: n in m && m[n].depth == deepest
      invariant forall n :: n in m.Keys - todo ==> m[n].depth <= deepest
      decreases |todo|
    {
      var n :| n in todo;
      if m[n].depth > deepest {
        deepest := m[n].depth;
      }
      todo := todo - {n};
    }
    assert m.Keys - todo == m.Keys;
  }

  method FirstNew(m: Marks, current: OpenMap) returns (first: Option<nat>)
    ensures if first.Some? then IsFirstNew(m, current, first.value) else Satisfied(m, current)
  {
    first := None;
    var todo := m.Keys;
    while todo != {}
      invariant todo <= m.Keys
      invariant first.Some? ==>
                  exists n :: n in m && m[n].depth == first.value && !Carries(current, n, m[n].value)
      invariant forall n :: n in m.Keys - todo && (first.None? || m[n].depth < first.value)
                            ==> Carries(current, n, m[n].value)
      decreases |todo|
    {
      var n :| n in todo;
      if !Carries(current, n, m[n].value) && (first.None? || m[n].depth < first.value) {
        first := Some(m[n].depth);
      }
      todo := todo - {n};
    }
    assert m.Keys - todo == m.Keys;
  }

  method Rounds(m: Marks, current: OpenMap) returns (out: seq<OpenMap>)
    ensures out == RoundsOf(m, current)
  {
    var first := FirstNew(m, current);
    if first.None? {
      if FirstNewOf(m, current).Some? {
        assert false;
      }
      return [];
    }
    FirstNewIsOne(m, current, first.value, FirstNewOf(m, current).value);
    var deepest := Deepest(m);
    assert deepest == DeepestOf(m);
    out := [];
    for r := first.value to deepest + 1
      invariant |out| == r - first.value
      invariant forall i :: 0 <= i < |out| ==> out[i] == Upto(m, first.value + i)
    {
      out := out + [Upto(m, r)];
    }
    assert out == RoundsOf(m, current);
  }

  /** stage_open_sequence. */
  method StageOpenSequence(c: Chain, target: Path, current: OpenMap)
    returns (rounds: Option<seq<OpenMap>>)
    ensures rounds == Stage(c, target, current)
  {
    if target == [] {
      return Some([map[]]);
    }
    var marks := MarkTargets(c, target);
    if marks.None? {
      return None;
    }
    var out := Rounds(marks.value, current);
    return Some(out);
  }

  // ---------------------------------------------------------------- what the marks say

  /** `open` lets a scan through all of `p`. */
  ghost predicate Opened(open: OpenMap, p: Path) {
    forall i :: 0 <= i < |p| ==> Carries(open, p[i].name, p[i].value)
  }

  /** Every recorded value is one the slot's own select can carry. */
  ghost predicate Proper(c: Chain, open: OpenMap) {
    forall s :: s in Sites(c, []) && s.name in open ==>
      if s.isMux then 0 <= open[s.name] < s.limit else open[s.name] == 1
  }

  /** Everything open in `after` lies below slots that are all open in `now`. */
  ghost predicate Rooted(c: Chain, now: OpenMap, after: OpenMap) {
    forall s :: s in Sites(c, []) && s.name in after ==> Opened(now, s.above)
  }

  /** The target's slots and all their ancestors carry the values `plan` gives them, so no two
      targets ask one ScanMux for different arms. */
  ghost predicate Follows(c: Chain, target: Path, plan: OpenMap) {
    forall k :: 0 <= k < |target| ==> FollowsOne(c, target[k], plan)
  }

  ghost predicate FollowsOne(c: Chain, t: Step, plan: OpenMap) {
    exists s :: s in Sites(c, []) && s.name == t.name
                && Opened(plan, s.above + [Step(s.name, if s.isMux then t.value else 1)])
  }

  /** A marked slot has its own depth and planned value, and all its ancestors are marked too. */
  ghost predicate SiteMarked(m: Marks, plan: OpenMap, s: Site)
    requires s.name in m
  {
    && Carries(plan, s.name, m[s.name].value) && m[s.name].depth == |s.above| + 1
    && Opened(plan, s.above) && forall i :: 0 <= i < |s.above| ==> s.above[i].name in m
  }

  ghost predicate WellMarked(c: Chain, m: Marks, plan: OpenMap) {
    && (forall n :: n in m ==> exists s :: s in Sites(c, []) && s.name == n)
    && forall s :: s in Sites(c, []) && s.name in m ==> SiteMarked(m, plan, s)
  }

  ghost function Names(p: Path): set<string> {
    set i | 0 <= i < |p| :: p[i].name
  }

  lemma NamesSplit(p: Path)
    requires p != []
    ensures Names(p) == {p[0].name} + Names(p[1..])
  {
    var q := p[1..];
    forall n | n in Names(p) ensures n in {p[0].name} + Names(q) {
      var i :| 0 <= i < |p| && p[i].name == n;
      assert i > 0 ==> q[i - 1].name == n;
    }
    forall n | n in Names(q) ensures n in Names(p) {
      var i :| 0 <= i < |q| && q[i].name == n;
      assert p[i + 1].name == n;
    }
  }

  lemma {:induction false} MarkPathIs(m: Marks, p: Path, depth: nat)
    requires forall i, j :: 0 <= i < j < |p| ==> p[i].name != p[j].name
    ensures var r := MarkPath(m, p, depth);
            && r.Keys == m.Keys + Names(p)
            && (forall i :: 0 <= i < |p| ==> r[p[i].name] == Mark(depth + i, p[i].value))
            && (forall n :: n in m && n !in Names(p) ==> r[n] == m[n])
    decreases |p|
  {
    if p != [] {
      var m1 := m[p[0].name := Mark(depth, p[0].value)];
      var q := p[1..];
      assert forall i :: 0 <= i < |q| ==> q[i] == p[i + 1];
      MarkPathIs(m1, q, depth + 1);
      NamesSplit(p);
      forall i | 0 <= i < |p| ensures MarkPath(m, p, depth)[p[i].name] == Mark(depth + i, p[i].value) {
        if i > 0 {
          assert q[i - 1] == p[i];
        }
      }
    }
  }

  /** Each step of the way to a slot is a slot under the steps before it, and no name repeats. */
  lemma PathSites(c: Chain, s: Site, step: Step, i: nat) returns (t: Site)
    requires Structured(c) && s in Sites(c, []) && step.name == s.name && i <= |s.above|
    ensures t in Sites(c, []) && t.name == (s.above + [step])[i].name
    ensures t.above == (s.above + [step])[..i]
    ensures i < |s.above| ==> if t.isMux then 0 <= s.above[i].value < t.limit else s.above[i].value == 1
  {
    if i < |s.above| {
      t := AncestorSite(c, [], s, i);
      assert (s.above + [step])[..i] == s.above[..i];
    } else {
      t := s;
      assert (s.above + [step])[..i] == s.above;
    }
  }

  lemma PathNamesDistinct(c: Chain, s: Site, step: Step, i: nat, j: nat)
    requires Structured(c) && UniqueSlots(c) && s in Sites(c, []) && step.name == s.name
    requires i < j <= |s.above|
    ensures (s.above + [step])[i].name != (s.above + [step])[j].name
  {
    var t := PathSites(c, s, step, i);
    var u := PathSites(c, s, step, j);
    assert |t.above| == i && |u.above| == j;
    if t.name == u.name {
      SiteUnique(c, t, u);
    }
  }

  lemma MarkPathWell(c: Chain, m: Marks, plan: OpenMap, s: Site, step: Step)
    requires UniqueSlots(c) && Structured(c) && WellMarked(c, m, plan)
    requires s in Sites(c, []) && step.name == s.name && Opened(plan, s.above + [step])
    ensures WellMarked(c, MarkPath(m, s.above + [step], 1), plan)
    ensures MarkPath(m, s.above + [step], 1).Keys == m.Keys + Names(s.above + [step])
  {
    var p := s.above + [step];
    var r := MarkPath(m, p, 1);
    forall i, j | 0 <= i < j < |p| ensures p[i].name != p[j].name {
      PathNamesDistinct(c, s, step, i, j);
    }
    MarkPathIs(m, p, 1);
    forall n | n in r ensures exists t :: t in Sites(c, []) && t.name == n {
      if n !in m {
        var i :| 0 <= i < |p| && p[i].name == n;
        var t := PathSites(c, s, step, i);
      }
    }
    forall t | t in Sites(c, []) && t.name in r ensures SiteMarked(r, plan, t) {
      if t.name in Names(p) {
        var i :| 0 <= i < |p| && p[i].name == t.name;
        var u := PathSites(c, s, step, i);
        SiteUnique(c, t, u);
        assert r[t.name] == Mark(1 + i, p[i].value);
        assert t.above == p[..i];
        assert forall k :: 0 <= k < i ==> t.above[k] == p[k];
      } else {
        assert SiteMarked(m, plan, t);
      }
    }
  }

  lemma {:induction false} MarkAllWell(c: Chain, target: Path, m: Marks, plan: OpenMap)
    requires UniqueSlots(c) && Structured(c) && WellMarked(c, m, plan) && Follows(c, target, plan)
    ensures MarkAll(c, target, m).Some?
    ensures WellMarked(c, MarkAll(c, target, m).value, plan)
    ensures m.Keys + Names(target) <= MarkAll(c, target, m).value.Keys
    decreases |target|
  {
    hide Sites, UniqueSlots, Structured, SlotPath, WellMarked;
    if target != [] {
      var m1 := MarkFirst(c, target, m, plan);
      FollowsRest(c, target, plan);
      MarkAllWell(c, target[1..], m1, plan);
      NamesSplit(target);
    }
  }

  lemma FollowsRest(c: Chain, target: Path, plan: OpenMap)
    requires target != [] && Follows(c, target, plan)
    ensures Follows(c, target[1..], plan)
  {
    hide FollowsOne;
    assert forall k :: 0 <= k < |target[1..]| ==> target[1..][k] == target[k + 1];
  }

  lemma MarkFirst(c: Chain, target: Path, m: Marks, plan: OpenMap) returns (m1: Marks)
    requires UniqueSlots(c) && Structured(c) && WellMarked(c, m, plan)
    requires target != [] && Follows(c, target, plan)
    ensures WellMarked(c, m1, plan) && m.Keys + {target[0].name} <= m1.Keys
    ensures MarkAll(c, target, m) == MarkAll(c, target[1..], m1)
  {
    hide Sites, UniqueSlots, Structured, SlotPath, WellMarked;
    var t := target[0];
    assert FollowsOne(c, t, plan);
    var s :| s in Sites(c, []) && s.name == t.name
             && Opened(plan, s.above + [Step(s.name, if s.isMux then t.value else 1)]);
    var step := Step(s.name, if s.isMux then t.value else 1);
    SlotPathFinds(c, [], s, t.value);
    MarkPathWell(c, m, plan, s, step);
    m1 := MarkPath(m, s.above + [step], 1);
    assert (s.above + [step])[|s.above|].name == t.name;
    assert t.name in Names(s.above + [step]);
  }

  // ---------------------------------------------------------------- what the rounds do

  /** What is open just before round `i`. */
  function Before(current: OpenMap, rounds: seq<OpenMap>, i: nat): OpenMap
    requires i <= |rounds|
  {
    if i == 0 then current else rounds[i - 1]
  }

  /** Every round opens only slots whose ancestors are all open before it. */
  ghost predicate Staged(c: Chain, current: OpenMap, rounds: seq<OpenMap>) {
    forall i :: 0 <= i < |rounds| ==> StagedOne(c, Before(current, rounds, i), rounds[i])
  }

  ghost predicate StagedOne(c: Chain, before: OpenMap, after: OpenMap) {
    Rooted(c, before, after) && Rooted(c, after, after) && Proper(c, after)
  }

  /** The targets with all their ancestors, each with its value. */
  function Whole(m: Marks): OpenMap {
    map n | n in m :: m[n].value
  }

  /** Staging always succeeds for targets that follow a plan; each round can be done by the network
      as the rounds before it left it; no round at all is returned exactly when everything required
      is open already, and otherwise the last round is exactly the targets with their ancestors. */
  lemma StagingIsSound(c: Chain, target: Path, current: OpenMap, plan: OpenMap, rounds: Option<seq<OpenMap>>)
    requires UniqueSlots(c) && Structured(c) && target != []
    requires Follows(c, target, plan) && Proper(c, plan)
    requires rounds == Stage(c, target, current)
    ensures rounds.Some? && MarkAll(c, target, map[]).Some?
    ensures var m := MarkAll(c, target, map[]).value;
            && Staged(c, current, rounds.value)
            && WellMarked(c, m, plan) && Names(target) <= m.Keys
            && (rounds.value == [] <==> Satisfied(m, current))
            && (rounds.value != [] ==> rounds.value[|rounds.value| - 1] == Whole(m))
  {
    hide Sites, UniqueSlots, Structured, SlotPath, WellMarked, Upto, StagedOne, Follows, Proper, Whole;
    EmptyWell(c, plan);
    MarkAllWell(c, target, map[], plan);
    var m := MarkAll(c, target, map[]).value;
    if FirstNewOf(m, current).Some? {
      var first, deepest := FirstNewOf(m, current).value, DeepestOf(m);
      FirstNewIsOne(m, current, first, first);
      RoundsAreStaged(c, m, plan, current, first, rounds.value);
      UptoDeepest(m, deepest);
    }
  }

  lemma RoundsAreStaged(
    c: Chain, m: Marks, plan: OpenMap, current: OpenMap, first: nat, rounds: seq<OpenMap>)
    requires UniqueSlots(c) && Structured(c) && WellMarked(c, m, plan) && Proper(c, plan)
    requires IsFirstNew(m, current, first)
    requires forall i :: 0 <= i < |rounds| ==> rounds[i] == Upto(m, first + i)
    ensures Staged(c, current, rounds)
  {
    hide Sites, UniqueSlots, Structured, WellMarked, Upto, StagedOne, Proper, IsFirstNew;
    forall i | 0 <= i < |rounds| ensures StagedOne(c, Before(current, rounds, i), rounds[i]) {
      RoundIsRooted(c, m, plan, current, first, first + i, Before(current, rounds, i));
    }
  }

  lemma EmptyWell(c: Chain, plan: OpenMap)
    ensures WellMarked(c, map[], plan)
  {
  }

  lemma UptoDeepest(m: Marks, deepest: nat)
    requires IsDeepest(m, deepest)
    ensures Upto(m, deepest) == Whole(m)
  {
  }

  lemma RoundIsRooted(
    c: Chain, m: Marks, plan: OpenMap, current: OpenMap, first: nat, depth: nat, before: OpenMap)
    requires UniqueSlots(c) && Structured(c) && WellMarked(c, m, plan) && Proper(c, plan)
    requires IsFirstNew(m, current, first)
    requires if depth == first then before == current else depth > first && before == Upto(m, depth - 1)
    ensures StagedOne(c, before, Upto(m, depth))
  {
    forall s | s in Sites(c, []) && s.name in Upto(m, depth)
      ensures Opened(before, s.above) && Opened(Upto(m, depth), s.above)
    {
      assert SiteMarked(m, plan, s);
      forall i | 0 <= i < |s.above|
        ensures Carries(before, s.above[i].name, s.above[i].value)
        ensures Carries(Upto(m, depth), s.above[i].name, s.above[i].value)
      {
        var t := AncestorSite(c, [], s, i);
        assert SiteMarked(m, plan, t);
        assert m[t.name].depth == i + 1 < m[s.name].depth;
      }
    }
    forall s | s in Sites(c, []) && s.name in Upto(m, depth)
      ensures if s.isMux then 0 <= Upto(m, depth)[s.name] < s.limit else Upto(m, depth)[s.name] == 1
    {
      assert SiteMarked(m, plan, s);
    }
  }
}
