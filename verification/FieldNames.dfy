/** Which alias a field name stands for, and which child an address segment names: in both the first one of the
    name, said without the searches that find it. */
module FieldNames {
  import opened Wrappers
  import opened IclModel
  import opened SibRetarget
  import opened PathPlan
  import opened TapModel
  import opened PdlSpec
  import opened Retargeting

  /** The alias at `k` has the name asked for and none before it has. */
  ghost predicate FirstAlias(aliases: seq<Alias>, field: string, k: nat) {
    k < |aliases| && aliases[k].name == field && forall j :: 0 <= j < k ==> aliases[j].name != field
  }

  /** The alias a field name stands for: the first declared under it. */
  ghost function Declared(aliases: seq<Alias>, field: string): Option<Alias> {
    if exists k: nat :: FirstAlias(aliases, field, k)
    then var k: nat :| FirstAlias(aliases, field, k); Some(aliases[k])
    else None
  }

  lemma {:induction false} AliasNamedIsFirst(aliases: seq<Alias>, field: string)
    ensures forall k: nat :: FirstAlias(aliases, field, k) ==> AliasNamed(aliases, field) == Some(aliases[k])
    ensures AliasNamed(aliases, field).Some? ==> exists k: nat :: FirstAlias(aliases, field, k)
  {
    if aliases != [] && aliases[0].name != field {
      var rest := aliases[1..];
      AliasNamedIsFirst(rest, field);
      forall k: nat | FirstAlias(aliases, field, k)
        ensures AliasNamed(aliases, field) == Some(aliases[k])
      {
        FirstFromSecond(aliases, field, k);
      }
      if AliasNamed(rest, field).Some? {
        var k: nat :| FirstAlias(rest, field, k);
        FirstFromSecond(aliases, field, k + 1);
      }
    } else if aliases != [] {
      assert FirstAlias(aliases, field, 0);
    }
  }

  lemma FirstFromSecond(aliases: seq<Alias>, field: string, k: nat)
    requires aliases != [] && aliases[0].name != field
    ensures FirstAlias(aliases, field, k) <==> k > 0 && FirstAlias(aliases[1..], field, k - 1)
  {
    if k > 0 && FirstAlias(aliases[1..], field, k - 1) {
      forall j | 0 <= j < k ensures aliases[j].name != field {
        if j > 0 {
          assert aliases[1..][j - 1] == aliases[j];
        }
      }
    }
    if FirstAlias(aliases, field, k) && k > 0 {
      forall j | 0 <= j < k - 1 ensures aliases[1..][j].name != field {
        assert aliases[1..][j] == aliases[j + 1];
      }
    }
  }

  lemma {:induction false} SomeIsFirst(aliases: seq<Alias>, field: string, k: nat) returns (first: nat)
    requires k < |aliases| && aliases[k].name == field
    ensures first <= k && FirstAlias(aliases, field, first)
  {
    if j :| 0 <= j < k && aliases[j].name == field {
      first := SomeIsFirst(aliases, field, j);
    } else {
      first := k;
    }
  }

  /** _resolve_field: on every instrument of a network a field name resolves if and only if an alias of that
      name is declared, and then to the one declared first. */
  lemma ResolveFieldIs(c: Chain, l: LeafSite, field: string)
    requires Network(c) && l in Leaves(c, [])
    ensures ResolveField(c, l.inst.name, field).Some? <==> exists a :: a in l.inst.aliases && a.name == field
    ensures forall k: nat :: FirstAlias(l.inst.aliases, field, k) ==>
              ResolveField(c, l.inst.name, field) == Some(l.inst.aliases[k])
    ensures ResolveField(c, l.inst.name, field) == Declared(l.inst.aliases, field)
  {
    hide Network, Leaves, AliasNamed;
    InstrumentFound(c, [], l) by { NetworkParts(c); }
    var aliases := l.inst.aliases;
    AliasNamedIsFirst(aliases, field);
    if a :| a in aliases && a.name == field {
      var k: nat :| k < |aliases| && aliases[k] == a;
      var first := SomeIsFirst(aliases, field, k);
    }
  }

  // ---------------------------------------------------------------- addresses

  /** The child at `k` has the name asked for and none before it has. */
  ghost predicate FirstChild(children: seq<ModuleInstance>, name: string, k: nat) {
    k < |children| && children[k].name == name && forall j :: 0 <= j < k ==> children[j].name != name
  }

  /** Following `address` from `node`, each segment to the first child of its name, ends at `goal`. */
  ghost predicate Leads(node: ModuleInstance, address: seq<string>, goal: ModuleInstance)
    decreases |address|
  {
    if address == [] then node == goal
    else exists k: nat :: FirstChild(node.children, address[0], k) && Leads(node.children[k], address[1..], goal)
  }

  lemma {:induction false} ChildNamedIsFirst(children: seq<ModuleInstance>, name: string)
    ensures forall k: nat :: FirstChild(children, name, k) ==> ChildNamed(children, name) == Some(children[k])
    ensures ChildNamed(children, name).Some? ==> exists k: nat :: FirstChild(children, name, k)
  {
    if children != [] && children[0].name != name {
      var rest := children[1..];
      ChildNamedIsFirst(rest, name);
      forall k: nat | FirstChild(children, name, k)
        ensures ChildNamed(children, name) == Some(children[k])
      {
        assert FirstChild(rest, name, k - 1);
      }
      if ChildNamed(rest, name).Some? {
        var k: nat :| FirstChild(rest, name, k);
        assert FirstChild(children, name, k + 1);
      }
    } else if children != [] {
      assert FirstChild(children, name, 0);
    }
  }

  /** resolve_dotted_address: an address resolves to a node if and only if it leads there. */
  lemma {:induction false} ResolveLeads(node: ModuleInstance, address: seq<string>, goal: ModuleInstance)
    ensures Resolve(node, address) == Some(goal) <==> Leads(node, address, goal)
    decreases |address|
  {
    if address != [] {
      ChildNamedIsFirst(node.children, address[0]);
      forall k: nat | FirstChild(node.children, address[0], k)
        ensures Resolve(node, address) == Some(goal) <==> Leads(node.children[k], address[1..], goal)
      {
        ResolveLeads(node.children[k], address[1..], goal);
      }
    }
  }
}
