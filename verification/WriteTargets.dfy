/** Which instruments the write and readback tests write, and where they are addressed (tap_integrity.py):
    the WRITE instruments in chain order, each by the one dotted address that ends in its name. */
module WriteTargets {
  import opened Wrappers
  import opened IclModel
  import opened SibRetarget
  import opened SibStaging
  import opened PathPlan
  import opened PdlSpec
  import opened ReadProbes
  import opened WriteReadback

  /** Every instrument with its slot, in chain order. */
  function LeafList(c: Chain, above: Path): seq<LeafSite> {
    match c
    case End => []
    case Sib(name, gate, rest) => GateList(gate, Step(name, 1), above, false) + LeafList(rest, above)
    case Mux(name, _, arms, rest) => ArmList(arms, name, above) + LeafList(rest, above)
  }

  function GateList(g: Gate, step: Step, above: Path, isMux: bool): seq<LeafSite> {
    match g
    case Leaf(inst) => [LeafSite(step, above, isMux, inst)]
    case Net(chain) => LeafList(chain, above + [step])
  }

  function ArmList(a: Arms, mux: string, above: Path): seq<LeafSite> {
    match a
    case NoArms => []
    case Arm(value, gate, others) => GateList(gate, Step(mux, value), above, true) + ArmList(others, mux, above)
  }

  function OnlyWrites(leaves: seq<LeafSite>): seq<LeafSite> {
    if leaves == [] then []
    else (if leaves[0].inst.direction.WRITE? then [leaves[0]] else []) + OnlyWrites(leaves[1..])
  }

  /** Every address below `node` whose last segment is `name`, a module before its children. */
  function Addresses(node: ModuleInstance, name: string): seq<seq<string>>
    decreases node, 1
  {
    AddressesIn(node.children, name)
  }

  function AddressesIn(children: seq<ModuleInstance>, name: string): seq<seq<string>>
    decreases children, 0
  {
    if children == [] then []
    else
      var child := children[0];
      (if child.name == name then [[name]] else []) + Under(child.name, Addresses(child, name))
      + AddressesIn(children[1..], name)
  }

  function Under(name: string, addresses: seq<seq<string>>): seq<seq<string>> {
    seq(|addresses|, i requires 0 <= i < |addresses| => [name] + addresses[i])
  }

  /** _dotted_address: None where the source raises, for no address or for several. */
  function DottedAddress(root: ModuleInstance, name: string): Option<seq<string>> {
    var found := Addresses(root, name);
    if |found| == 1 then Some(found[0]) else None
  }

  function WithAddresses(root: ModuleInstance, leaves: seq<LeafSite>): Option<seq<Writable>> {
    if leaves == [] then Some([])
    else
      var last := leaves[|leaves| - 1];
      match (WithAddresses(root, leaves[..|leaves| - 1]), DottedAddress(root, last.inst.name))
      case (Some(front), Some(address)) => Some(front + [Writable(last, address)])
      case _ => None
  }

  /** The WRITE instruments, each with its one address. */
  function Writes(c: Chain, root: ModuleInstance): Option<seq<Writable>> {
    WithAddresses(root, OnlyWrites(LeafList(c, [])))
  }

  // ---------------------------------------------------------------- the instruments

  lemma {:induction false} LeafListIs(c: Chain, above: Path, l: LeafSite)
    ensures l in LeafList(c, above) <==> l in Leaves(c, above)
    decreases c, 1
  {
    match c
    case End =>
    case Sib(name, gate, rest) =>
      GateListIs(gate, Step(name, 1), above, false, l);
      LeafListIs(rest, above, l);
    case Mux(name, _, arms, rest) =>
      ArmListIs(arms, name, above, l);
      LeafListIs(rest, above, l);
  }

  lemma {:induction false} GateListIs(g: Gate, step: Step, above: Path, isMux: bool, l: LeafSite)
    ensures l in GateList(g, step, above, isMux) <==> l in GateLeaves(g, step, above, isMux)
    decreases g, 0
  {
    if g.Net? {
      LeafListIs(g.chain, above + [step], l);
    }
  }

  lemma {:induction false} ArmListIs(a: Arms, mux: string, above: Path, l: LeafSite)
    ensures l in ArmList(a, mux, above) <==> l in ArmLeaves(a, mux, above)
    decreases a, 1
  {
    if a.Arm? {
      GateListIs(a.gate, Step(mux, a.value), above, true, l);
      ArmListIs(a.others, mux, above, l);
    }
  }

  lemma {:induction false} OnlyWritesIs(leaves: seq<LeafSite>, l: LeafSite)
    ensures l in OnlyWrites(leaves) <==> l in leaves && l.inst.direction.WRITE?
  {
    if leaves != [] {
      OnlyWritesIs(leaves[1..], l);
      assert leaves == [leaves[0]] + leaves[1..];
    }
  }

  // ---------------------------------------------------------------- the addresses

  /** No module has two children of one name, so that a path leads to one module at most. */
  predicate DistinctSiblings(node: ModuleInstance)
    decreases node, 1
  {
    DistinctAmong(node.children)
  }

  predicate DistinctAmong(children: seq<ModuleInstance>)
    decreases children, 0
  {
    children == [] ||
    (&& DistinctSiblings(children[0]) && DistinctAmong(children[1..])
     && forall k :: 1 <= k < |children| ==> children[k].name != children[0].name)
  }

  /** The path, from below `node`, leads to a module called `name`. */
  predicate LeadsTo(node: ModuleInstance, path: seq<string>, name: string) {
    path != [] && path[|path| - 1] == name && Resolve(node, path).Some?
  }

  lemma {:induction false} NotNamed(children: seq<ModuleInstance>, name: string)
    requires forall k :: 0 <= k < |children| ==> children[k].name != name
    ensures ChildNamed(children, name).None?
  {
    if children != [] {
      NotNamed(children[1..], name);
    }
  }

  /** What the search lists, child by child. */
  lemma {:induction false} ListedIn(children: seq<ModuleInstance>, name: string, path: seq<string>)
    requires DistinctAmong(children)
    ensures path in AddressesIn(children, name) <==> LeadsFrom(children, path, name)
    decreases children, 0
  {
    hide LeadsFrom, Resolve, Under;
    if children == [] {
      assert !LeadsFrom(children, path, name) by { NoChildren(path, name); }
    } else {
      var child := children[0];
      ListedIn(children[1..], name, path);
      if path == [] {
        UnderNothing(child.name, Addresses(child, name));
      } else {
        Listed(child, name, path[1..]);
        UnderHas(child.name, Addresses(child, name), path);
        HereOrBelow(child, name, path);
      }
      FirstOrRest(children, name, path);
    }
  }

  predicate LeadsFrom(children: seq<ModuleInstance>, path: seq<string>, name: string) {
    && path != [] && path[|path| - 1] == name && ChildNamed(children, path[0]).Some?
    && Resolve(ChildNamed(children, path[0]).value, path[1..]).Some?
  }

  lemma NoChildren(path: seq<string>, name: string)
    ensures !LeadsFrom([], path, name)
  {
  }

  lemma HereOrBelow(child: ModuleInstance, name: string, path: seq<string>)
    requires path != []
    ensures path[0] == child.name && path[|path| - 1] == name && Resolve(child, path[1..]).Some?
            <==> (child.name == name && path == [name]) || (path[0] == child.name && LeadsTo(child, path[1..], name))
  {
    hide Resolve;
    ResolveNothing(child);
    assert path == [path[0]] + path[1..];
    if |path| > 1 {
      assert path[1..][|path[1..]| - 1] == path[|path| - 1];
    } else {
      assert path[1..] == [] && path == [path[0]];
    }
  }

  lemma FirstOrRest(children: seq<ModuleInstance>, name: string, path: seq<string>)
    requires children != [] && DistinctAmong(children)
    ensures LeadsFrom(children, path, name)
            <==> LeadsFrom(children[1..], path, name)
                 || (path != [] && path[0] == children[0].name && path[|path| - 1] == name
                     && Resolve(children[0], path[1..]).Some?)
  {
    hide Resolve;
    NotNamed(children[1..], children[0].name);
  }

  lemma ResolveNothing(node: ModuleInstance)
    ensures Resolve(node, []) == Some(node)
  {
  }

  lemma UnderHas(name: string, addresses: seq<seq<string>>, path: seq<string>)
    requires path != []
    ensures path in Under(name, addresses) <==> path[0] == name && path[1..] in addresses
  {
    if path[0] == name && path[1..] in addresses {
      var i :| 0 <= i < |addresses| && addresses[i] == path[1..];
      assert Under(name, addresses)[i] == [name] + addresses[i] == path;
    }
  }

  lemma UnderNothing(name: string, addresses: seq<seq<string>>)
    ensures [] !in Under(name, addresses)
  {
  }

  /** The search lists exactly the paths that lead to a module of that name. */
  lemma {:induction false} Listed(node: ModuleInstance, name: string, path: seq<string>)
    requires DistinctSiblings(node)
    ensures path in Addresses(node, name) <==> LeadsTo(node, path, name)
    decreases node, 1
  {
    ListedIn(node.children, name, path);
  }

  ghost predicate NoRepeats<T>(s: seq<T>) {
    forall i, j :: 0 <= i < j < |s| ==> s[i] != s[j]
  }

  lemma {:induction false} ListedOnce(children: seq<ModuleInstance>, name: string)
    requires DistinctAmong(children)
    ensures NoRepeats(AddressesIn(children, name))
    decreases children, 0
  {
    hide DistinctSiblings, ChildNamed, Resolve;
    if children != [] {
      var child, rest := children[0], children[1..];
      var here := if child.name == name then [[name]] else [];
      var below, after := Under(child.name, Addresses(child, name)), AddressesIn(rest, name);
      ListedOnce(child.children, name) by { Within(child); }
      ListedOnce(rest, name);
      forall p: seq<string> | p in after ensures p != [] && p[0] != child.name {
        ListedIn(rest, name, p);
        NotNamed(rest, child.name);
      }
      forall p: seq<string> | p in below ensures |p| >= 2 && p[0] == child.name {
        var i :| 0 <= i < |below| && below[i] == p;
        Within(child);
        ListedIn(child.children, name, below[i][1..]);
        assert below[i] == [child.name] + Addresses(child, name)[i];
      }
      UnderOnce(child.name, Addresses(child, name));
      JoinOnce(here, below);
      JoinOnce(here + below, after);
    }
  }

  lemma Within(node: ModuleInstance)
    requires DistinctSiblings(node)
    ensures DistinctAmong(node.children)
  {
  }

  lemma UnderOnce(name: string, addresses: seq<seq<string>>)
    requires NoRepeats(addresses)
    ensures NoRepeats(Under(name, addresses))
  {
    var u := Under(name, addresses);
    forall i, j | 0 <= i < j < |u| ensures u[i] != u[j] {
      assert u[i][1..] == addresses[i] && u[j][1..] == addresses[j];
    }
  }

  lemma JoinOnce<T>(a: seq<T>, b: seq<T>)
    requires NoRepeats(a) && NoRepeats(b) && forall x :: x in a ==> x !in b
    ensures NoRepeats(a + b)
  {
    forall i, j | 0 <= i < j < |a + b| ensures (a + b)[i] != (a + b)[j] {
      if i < |a| <= j {
        assert a[i] in a && b[j - |a|] in b;
      }
    }
  }

  lemma FirstTwo<T>(s: seq<T>)
    requires NoRepeats(s)
    ensures |s| >= 1 ==> s[0] in s
    ensures |s| >= 2 ==> s[1] in s && s[0] != s[1]
  {
  }

  /** An instrument's address is found exactly when one path leads to a module of its name, and it is that
      path. */
  lemma AddressIsTheOne(root: ModuleInstance, name: string)
    requires DistinctSiblings(root)
    ensures forall a: seq<string> ::
              DottedAddress(root, name) == Some(a) <==> (forall p: seq<string> :: LeadsTo(root, p, name) <==> p == a)
  {
    hide DistinctSiblings, Resolve, AddressesIn;
    var found := Addresses(root, name);
    ListedOnce(root.children, name) by { Within(root); }
    forall p: seq<string> ensures p in found <==> LeadsTo(root, p, name) {
      Listed(root, name, p);
    }
    forall a: seq<string>
      ensures DottedAddress(root, name) == Some(a) <==> (forall p: seq<string> :: LeadsTo(root, p, name) <==> p == a)
    {
      if forall p: seq<string> :: LeadsTo(root, p, name) <==> p == a {
        assert a in found;
        FirstTwo(found);
      }
    }
  }

  // ---------------------------------------------------------------- which can be written

  /** Every WRITE instrument has one address, and it leads to it. */
  ghost predicate Addressable(c: Chain, root: ModuleInstance) {
    forall l :: l in Leaves(c, []) && l.inst.direction.WRITE? ==> Reachable(root, l.inst.name)
  }

  predicate Reachable(root: ModuleInstance, name: string) {
    DottedAddress(root, name).Some? && Resolve(root, DottedAddress(root, name).value).Some?
  }

  lemma {:induction false} AddressEnds(children: seq<ModuleInstance>, name: string, path: seq<string>)
    requires path in AddressesIn(children, name)
    ensures path != [] && path[|path| - 1] == name
    decreases children, 0
  {
    var child := children[0];
    var here, below := if child.name == name then [[name]] else [], Under(child.name, Addresses(child, name));
    if path in below {
      UnderNothing(child.name, Addresses(child, name));
      UnderHas(child.name, Addresses(child, name), path);
      AddressEnds(child.children, name, path[1..]);
    } else if path !in here {
      AddressEnds(children[1..], name, path);
    }
  }

  lemma {:induction false} ResolvedName(node: ModuleInstance, path: seq<string>)
    requires path != [] && Resolve(node, path).Some?
    ensures Resolve(node, path).value.name == path[|path| - 1]
    decreases |path|
  {
    var child := ChildNamed(node.children, path[0]).value;
    NamedSo(node.children, path[0]);
    if |path| == 1 {
      ResolveNothing(child);
    } else {
      ResolvedName(child, path[1..]);
    }
  }

  lemma {:induction false} NamedSo(children: seq<ModuleInstance>, name: string)
    requires ChildNamed(children, name).Some?
    ensures ChildNamed(children, name).value.name == name
  {
    if children[0].name != name {
      NamedSo(children[1..], name);
    }
  }

  /** A reachable instrument's address names it. */
  lemma ReachableNamed(c: Chain, root: ModuleInstance, l: LeafSite)
    requires l in Leaves(c, []) && Reachable(root, l.inst.name)
    ensures Named(c, root, l, DottedAddress(root, l.inst.name).value)
  {
    hide Leaves, Resolve;
    var address := DottedAddress(root, l.inst.name).value;
    assert address in Addresses(root, l.inst.name);
    AddressEnds(root.children, l.inst.name, address);
    ResolvedName(root, address);
  }

  lemma {:induction false} WithAddressesIs(root: ModuleInstance, leaves: seq<LeafSite>)
    ensures WithAddresses(root, leaves).Some?
            <==> forall k :: 0 <= k < |leaves| ==> DottedAddress(root, leaves[k].inst.name).Some?
    ensures var r := WithAddresses(root, leaves);
            r.Some? ==> |r.value| == |leaves|
                        && forall k :: 0 <= k < |leaves| ==>
                             r.value[k].leaf == leaves[k]
                             && DottedAddress(root, leaves[k].inst.name) == Some(r.value[k].address)
    decreases |leaves|
  {
    hide DottedAddress;
    if leaves != [] {
      WithAddressesIs(root, leaves[..|leaves| - 1]);
    }
  }

  /** The instruments written are the network's WRITE instruments. */
  lemma WrittenAre(c: Chain, root: ModuleInstance, l: LeafSite)
    requires Writes(c, root).Some?
    ensures l in Leaves(c, []) && l.inst.direction.WRITE?
            <==> exists j :: 0 <= j < |Writes(c, root).value| && Writes(c, root).value[j].leaf == l
  {
    hide Leaves, LeafList, OnlyWrites, WithAddresses, DottedAddress;
    var leaves, writes := OnlyWrites(LeafList(c, [])), Writes(c, root).value;
    LeafListIs(c, [], l);
    OnlyWritesIs(LeafList(c, []), l);
    WithAddressesIs(root, leaves);
    if l in leaves {
      var j :| 0 <= j < |leaves| && leaves[j] == l;
      assert writes[j].leaf == l;
    }
    if j :| 0 <= j < |writes| && writes[j].leaf == l {
      assert leaves[j] == l;
    }
  }

  ghost predicate AllWritten(c: Chain, root: ModuleInstance, writes: seq<Writable>) {
    forall j :: 0 <= j < |writes| ==> Written(c, root, writes[j].leaf, writes[j].address)
  }

  /** The source finds the addresses, and its interpreter accepts them, exactly when every WRITE instrument has
      one address and it leads to it. */
  lemma WritesAreWritten(c: Chain, root: ModuleInstance)
    ensures Addressable(c, root)
            <==> Writes(c, root).Some?
                 && forall j :: 0 <= j < |Writes(c, root).value| ==> Resolve(root, Writes(c, root).value[j].address).Some?
    ensures Addressable(c, root) ==> AllWritten(c, root, Writes(c, root).value)
  {
    hide Leaves, LeafList, OnlyWrites, WithAddresses, DottedAddress, Resolve, Named;
    var leaves := OnlyWrites(LeafList(c, []));
    WithAddressesIs(root, leaves);
    forall l: LeafSite ensures l in leaves <==> l in Leaves(c, []) && l.inst.direction.WRITE? {
      LeafListIs(c, [], l);
      OnlyWritesIs(LeafList(c, []), l);
    }
    if Addressable(c, root) {
      forall k | 0 <= k < |leaves| ensures DottedAddress(root, leaves[k].inst.name).Some? {
        assert leaves[k] in leaves;
      }
      var writes := Writes(c, root).value;
      forall j | 0 <= j < |writes|
        ensures Written(c, root, writes[j].leaf, writes[j].address) && Resolve(root, writes[j].address).Some?
      {
        assert leaves[j] in leaves;
        assert Reachable(root, leaves[j].inst.name);
        ReachableNamed(c, root, leaves[j]);
      }
    } else {
      var l: LeafSite :| l in Leaves(c, []) && l.inst.direction.WRITE? && !Reachable(root, l.inst.name);
      var k :| 0 <= k < |leaves| && leaves[k] == l;
      if Writes(c, root).Some? {
        assert !Resolve(root, Writes(c, root).value[k].address).Some?;
      }
    }
  }
}
