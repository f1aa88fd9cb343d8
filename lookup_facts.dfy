/**
 * What `lookup`, `has_method_rec` and `composition` mean, proved against
 * reference definitions, and how they behave on the trees `+` and `-` build.
 */
module LookupFacts {
  import opened TraitTypes
  import opened Resolution

  /** Only whether the accumulated removed list names the method matters to `lookup`. */
  lemma {:induction false} LookupDependsOnlyOnMembership(
    nodes: seq<Node>, t: Option<NodeId>, name: Name, acc1: seq<Name>, acc2: seq<Name>)
    requires WellFormed(nodes) && Below(t, |nodes|)
    requires (name in acc1) <==> (name in acc2)
    ensures Lookup(nodes, t, name, acc1) == Lookup(nodes, t, name, acc2)
    decreases Rank(t)
  {
    if t.Some? {
      var n := nodes[t.value];
      LookupDependsOnlyOnMembership(nodes, n.trait01, name, acc1 + n.removed, acc2 + n.removed);
      LookupDependsOnlyOnMembership(nodes, n.trait02, name, acc1 + n.removed, acc2 + n.removed);
    }
  }

  lemma SubtreeOfOperands(nodes: seq<Node>, t: NodeId)
    requires WellFormed(nodes) && t < |nodes|
    ensures Subtree(nodes, nodes[t].trait01) <= Subtree(nodes, Some(t))
    ensures Subtree(nodes, nodes[t].trait02) <= Subtree(nodes, Some(t))
    ensures t in Subtree(nodes, Some(t))
  {
  }

  /**
   * Without overrides in the tree, a name that an ancestor removed, or that
   * no holder of the tree defines, has no provider.
   */
  lemma {:induction false} LookupEmpty(nodes: seq<Node>, t: Option<NodeId>, name: Name, acc: seq<Name>)
    requires WellFormed(nodes) && Below(t, |nodes|)
    requires OverrideFree(nodes, t, name)
    requires name in acc || !HasMethodRec(nodes, t, name)
    ensures Lookup(nodes, t, name, acc) == []
    decreases Rank(t)
  {
    if t.Some? {
      var n := nodes[t.value];
      SubtreeOfOperands(nodes, t.value);
      assert !Overrides(nodes, t.value, name);
      if n.redefined.Some? {
        LeafHasMethod(nodes, n.redefined.value, name);
      }
      LookupEmpty(nodes, n.trait01, name, acc + n.removed);
      LookupEmpty(nodes, n.trait02, name, acc + n.removed);
    }
  }

  lemma AppendAssoc<T>(a: seq<T>, b: seq<T>, c: seq<T>)
    ensures a + (b + c) == (a + b) + c
  {
  }

  lemma DefiningCons(nodes: seq<Node>, x: NodeId, s: seq<NodeId>, name: Name)
    ensures Defining(nodes, [x] + s, name) ==
            (if x < |nodes| && name in nodes[x].holder.methods then [x] else []) + Defining(nodes, s, name)
  {
    assert ([x] + s)[0] == x && ([x] + s)[1..] == s;
  }

  lemma {:induction false} DefiningAppend(nodes: seq<Node>, a: seq<NodeId>, b: seq<NodeId>, name: Name)
    ensures Defining(nodes, a + b, name) == Defining(nodes, a, name) + Defining(nodes, b, name)
    decreases |a|
  {
    if a != [] {
      var x, rest := a[0], a[1..];
      assert a == [x] + rest && a + b == [x] + (rest + b);
      DefiningAppend(nodes, rest, b, name);
      DefiningCons(nodes, x, rest + b, name);
      DefiningCons(nodes, x, rest, name);
      var head := if x < |nodes| && name in nodes[x].holder.methods then [x] else [];
      AppendAssoc(head, Defining(nodes, rest, name), Defining(nodes, b, name));
    } else {
      assert a + b == b;
    }
  }

  /** One step of `lookup` at a node whose override does not apply to the name. */
  lemma LookupStep(nodes: seq<Node>, t: NodeId, name: Name, acc: seq<Name>)
    requires WellFormed(nodes) && t < |nodes|
    requires !Overrides(nodes, t, name) || name in nodes[t].removed
    ensures Lookup(nodes, Some(t), name, acc) ==
            (if name in nodes[t].holder.methods && name !in acc + nodes[t].removed then [t] else [])
            + Lookup(nodes, nodes[t].trait01, name, acc + nodes[t].removed)
            + Lookup(nodes, nodes[t].trait02, name, acc + nodes[t].removed)
  {
    if nodes[t].redefined.Some? {
      LeafHasMethod(nodes, nodes[t].redefined.value, name);
    }
  }

  /** Passing a node its own removed list again changes nothing: the `t.removed_methods` argument is redundant. */
  lemma OwnRemovedIsRedundant(nodes: seq<Node>, t: Option<NodeId>, name: Name, acc: seq<Name>)
    requires WellFormed(nodes) && Below(t, |nodes|)
    ensures Lookup(nodes, t, name, acc + RemovedOf(nodes, t)) == Lookup(nodes, t, name, acc)
  {
    if t.Some? {
      var n := nodes[t.value];
      LookupDependsOnlyOnMembership(nodes, n.trait01, name, acc + n.removed + n.removed, acc + n.removed);
      LookupDependsOnlyOnMembership(nodes, n.trait02, name, acc + n.removed + n.removed, acc + n.removed);
    }
  }

  /**
   * Lookup order: with no removal and no override of the name in the tree,
   * the providers are exactly the nodes whose holder defines the name, in
   * pre-order (a node before its left operand's nodes, those before its
   * right operand's).
   */
  lemma {:induction false} LookupIsPreOrder(nodes: seq<Node>, t: Option<NodeId>, name: Name, acc: seq<Name>)
    requires WellFormed(nodes) && Below(t, |nodes|)
    requires OverrideFree(nodes, t, name) && RemovalFree(nodes, t, name) && name !in acc
    ensures Lookup(nodes, t, name, acc) == Defining(nodes, PreOrder(nodes, t), name)
    decreases Rank(t)
  {
    if t.Some? {
      var n := nodes[t.value];
      SubtreeOfOperands(nodes, t.value);
      assert !Overrides(nodes, t.value, name);
      assert name !in acc + n.removed;
      LookupStep(nodes, t.value, name, acc);
      var p1, p2 := PreOrder(nodes, n.trait01), PreOrder(nodes, n.trait02);
      LookupIsPreOrder(nodes, n.trait01, name, acc + n.removed);
      LookupIsPreOrder(nodes, n.trait02, name, acc + n.removed);
      DefiningAppend(nodes, [t.value], p1, name);
      DefiningAppend(nodes, [t.value] + p1, p2, name);
      assert PreOrder(nodes, t) == [t.value] + p1 + p2;
      assert Defining(nodes, [t.value], name) == if name in n.holder.methods then [t.value] else [];
    }
  }

  /** `has_method_rec` holds exactly when some node of the tree defines the name. */
  lemma {:induction false} HasMethodRecMeansSomeHolder(nodes: seq<Node>, t: Option<NodeId>, name: Name)
    requires WellFormed(nodes) && Below(t, |nodes|)
    ensures HasMethodRec(nodes, t, name) <==>
            exists x :: x in Subtree(nodes, t) && name in nodes[x].holder.methods
    ensures HasMethodRec(nodes, t, name) <==> name in DefinedIn(nodes, t)
    decreases Rank(t)
  {
    if t.Some? {
      var n := nodes[t.value];
      HasMethodRecMeansSomeHolder(nodes, n.trait01, name);
      HasMethodRecMeansSomeHolder(nodes, n.trait02, name);
      if HasMethodRec(nodes, t, name) {
        if name in n.holder.methods {
          assert t.value in Subtree(nodes, t);
        }
      } else {
        forall x | x in Subtree(nodes, t) ensures name !in nodes[x].holder.methods {
        }
      }
    }
  }

  /** `composition` lists exactly the childless nodes of the tree. */
  lemma {:induction false} CompositionIsLeaves(nodes: seq<Node>, t: Option<NodeId>, x: NodeId)
    requires WellFormed(nodes) && Below(t, |nodes|)
    ensures x in Composition(nodes, t) <==> x in Subtree(nodes, t) && IsLeaf(nodes[x])
    decreases Rank(t)
  {
    if t.Some? {
      var n := nodes[t.value];
      CompositionIsLeaves(nodes, n.trait01, x);
      CompositionIsLeaves(nodes, n.trait02, x);
      if x in Composition(nodes, t) {
        var k :| 0 <= k < |Composition(nodes, t)| && Composition(nodes, t)[k] == x;
      }
    }
  }

  // ---------------------------------------------------------------------
  // Frames: what a walk over a tree depends on.
  // ---------------------------------------------------------------------

  /** A node with its attachment bookkeeping dropped: all that the walks read of it. */
  function Strip(n: Node): Node {
    n.(classesApplied := [])
  }

  ghost predicate SameOverrideHolder(nodes: seq<Node>, nodes': seq<Node>, r: Option<NodeId>) {
    r.Some? ==> r.value < |nodes| && r.value < |nodes'| && nodes'[r.value].holder == nodes[r.value].holder
  }

  /**
   * The first `bound` nodes of the two arenas agree on everything `lookup`
   * reads: operands, removed lists, holders, override nodes and their holders.
   */
  ghost predicate AgreeBelow(nodes: seq<Node>, nodes': seq<Node>, bound: nat) {
    bound <= |nodes| && bound <= |nodes'| &&
    forall i :: 0 <= i < bound ==>
      Strip(nodes'[i]) == Strip(nodes[i]) && SameOverrideHolder(nodes, nodes', nodes[i].redefined)
  }

  /** The first `bound` nodes of the two arenas have the same operands. */
  ghost predicate ShapeAgree(nodes: seq<Node>, nodes': seq<Node>, bound: nat) {
    bound <= |nodes| && bound <= |nodes'| &&
    forall i :: 0 <= i < bound ==>
      nodes'[i].trait01 == nodes[i].trait01 && nodes'[i].trait02 == nodes[i].trait02
  }

  lemma AgreeBelowShape(nodes: seq<Node>, nodes': seq<Node>, bound: nat)
    requires AgreeBelow(nodes, nodes', bound)
    ensures ShapeAgree(nodes, nodes', bound)
  {
    forall i | 0 <= i < bound
      ensures nodes'[i].trait01 == nodes[i].trait01 && nodes'[i].trait02 == nodes[i].trait02
    {
      assert Strip(nodes'[i]).trait01 == Strip(nodes[i]).trait01;
      assert Strip(nodes'[i]).trait02 == Strip(nodes[i]).trait02;
    }
  }

  lemma {:induction false} SubtreeFrame(nodes: seq<Node>, nodes': seq<Node>, bound: nat, t: Option<NodeId>)
    requires WellFormed(nodes) && WellFormed(nodes') && ShapeAgree(nodes, nodes', bound) && Below(t, bound)
    ensures Subtree(nodes', t) == Subtree(nodes, t)
    ensures forall x :: x in Subtree(nodes, t) ==> x < bound
    decreases Rank(t)
  {
    if t.Some? {
      SubtreeFrame(nodes, nodes', bound, nodes[t.value].trait01);
      SubtreeFrame(nodes, nodes', bound, nodes[t.value].trait02);
    }
  }

  lemma {:induction false} CompositionFrame(nodes: seq<Node>, nodes': seq<Node>, bound: nat, t: Option<NodeId>)
    requires WellFormed(nodes) && WellFormed(nodes') && ShapeAgree(nodes, nodes', bound) && Below(t, bound)
    ensures Composition(nodes', t) == Composition(nodes, t)
    decreases Rank(t)
  {
    if t.Some? {
      CompositionFrame(nodes, nodes', bound, nodes[t.value].trait01);
      CompositionFrame(nodes, nodes', bound, nodes[t.value].trait02);
    }
  }

  lemma {:induction false} NamesFrame(nodes: seq<Node>, nodes': seq<Node>, bound: nat, t: Option<NodeId>)
    requires WellFormed(nodes) && WellFormed(nodes') && AgreeBelow(nodes, nodes', bound) && Below(t, bound)
    ensures DefinedIn(nodes', t) == DefinedIn(nodes, t)
    ensures RequiredIn(nodes', t) == RequiredIn(nodes, t)
    decreases Rank(t)
  {
    if t.Some? {
      assert Strip(nodes'[t.value]) == Strip(nodes[t.value]);
      NamesFrame(nodes, nodes', bound, nodes[t.value].trait01);
      NamesFrame(nodes, nodes', bound, nodes[t.value].trait02);
    }
  }

  lemma {:induction false} LookupFrame(
    nodes: seq<Node>, nodes': seq<Node>, bound: nat, t: Option<NodeId>, name: Name, acc: seq<Name>)
    requires WellFormed(nodes) && WellFormed(nodes') && AgreeBelow(nodes, nodes', bound) && Below(t, bound)
    ensures Lookup(nodes', t, name, acc) == Lookup(nodes, t, name, acc)
    decreases Rank(t)
  {
    if t.Some? {
      var n := nodes[t.value];
      assert Strip(nodes'[t.value]) == Strip(n);
      assert SameOverrideHolder(nodes, nodes', n.redefined);
      if n.redefined.Some? {
        LeafHasMethod(nodes, n.redefined.value, name);
        LeafHasMethod(nodes', n.redefined.value, name);
      }
      LookupFrame(nodes, nodes', bound, n.trait01, name, acc + n.removed);
      LookupFrame(nodes, nodes', bound, n.trait02, name, acc + n.removed);
    }
  }

  // ---------------------------------------------------------------------
  // The trees `+` and `-` build.
  // ---------------------------------------------------------------------

  /** The node `a + b` creates: both operands, nothing removed, an empty holder, no override. */
  ghost predicate IsSumNode(nodes: seq<Node>, s: NodeId, a: NodeId, b: Option<NodeId>)
    requires s < |nodes|
  {
    nodes[s].trait01 == Some(a) && nodes[s].trait02 == b && nodes[s].removed == []
    && nodes[s].holder.methods == map[] && nodes[s].redefined.None?
  }

  /** The node `a - m` creates: only the left operand, `a`'s removed list plus `m`, an empty holder. */
  ghost predicate IsRemoveNode(nodes: seq<Node>, s: NodeId, a: NodeId, m: Name)
    requires s < |nodes| && a < |nodes|
  {
    nodes[s].trait01 == Some(a) && nodes[s].trait02.None? && nodes[s].removed == nodes[a].removed + [m]
    && nodes[s].holder.methods == map[] && nodes[s].redefined.None?
  }

  /** The providers of `a + b` are those of `a` followed by those of `b`. */
  lemma SumProviders(nodes: seq<Node>, s: NodeId, a: NodeId, b: Option<NodeId>, name: Name)
    requires WellFormed(nodes) && s < |nodes| && IsSumNode(nodes, s, a, b)
    ensures Providers(nodes, Some(s), name) == Providers(nodes, Some(a), name) + Providers(nodes, b, name)
  {
    assert a < s && Below(b, s);
    LookupStep(nodes, s, name, []);
    assert [] + nodes[s].removed == [];
    OwnRemovedIsRedundant(nodes, Some(a), name, []);
    OwnRemovedIsRedundant(nodes, b, name, []);
    assert [] + RemovedOf(nodes, Some(a)) == RemovedOf(nodes, Some(a));
    assert [] + RemovedOf(nodes, b) == RemovedOf(nodes, b);
  }

  /** `a - m` leaves every other name of `a` exactly as it was. */
  lemma RemoveKeepsOtherNames(nodes: seq<Node>, s: NodeId, a: NodeId, m: Name, name: Name)
    requires WellFormed(nodes) && s < |nodes| && a < |nodes| && IsRemoveNode(nodes, s, a, m)
    requires name != m
    ensures Providers(nodes, Some(s), name) == Providers(nodes, Some(a), name)
  {
    assert a < s;
    var acc := nodes[s].removed + nodes[s].removed;
    LookupStep(nodes, s, name, nodes[s].removed);
    assert Lookup(nodes, None, name, acc) == [];
    LookupDependsOnlyOnMembership(nodes, Some(a), name, acc, nodes[a].removed);
  }

  /** `a - m` hides every holder of `a` that defines `m`: without overrides, `m` has no provider left. */
  lemma RemoveHidesName(nodes: seq<Node>, s: NodeId, a: NodeId, m: Name)
    requires WellFormed(nodes) && s < |nodes| && a < |nodes| && IsRemoveNode(nodes, s, a, m)
    requires OverrideFree(nodes, Some(a), m)
    ensures Providers(nodes, Some(s), m) == []
  {
    assert a < s;
    var acc := nodes[s].removed + nodes[s].removed;
    LookupStep(nodes, s, m, nodes[s].removed);
    assert Lookup(nodes, None, m, acc) == [];
    assert m in acc;
    LookupEmpty(nodes, Some(a), m, acc);
  }

  /**
   * The override test reads only the node's own removed list, so removing a
   * name ABOVE a node whose override defines it does not hide the override.
   */
  lemma RemoveKeepsOverride(nodes: seq<Node>, s: NodeId, a: NodeId, m: Name)
    requires WellFormed(nodes) && s < |nodes| && a < |nodes| && IsRemoveNode(nodes, s, a, m)
    requires Overrides(nodes, a, m) && m !in nodes[a].removed
    ensures Providers(nodes, Some(s), m) == [nodes[a].redefined.value]
  {
    assert a < s;
    LookupStep(nodes, s, m, nodes[s].removed);
    assert Lookup(nodes, None, m, nodes[s].removed + nodes[s].removed) == [];
    LeafHasMethod(nodes, nodes[a].redefined.value, m);
  }

  /**
   * An override of the name at a node that does not itself remove the name is
   * the node's only provider, whatever its operands define and whatever the
   * ancestors removed.
   */
  lemma OverrideShortCircuits(nodes: seq<Node>, t: NodeId, name: Name, acc: seq<Name>)
    requires WellFormed(nodes) && t < |nodes|
    requires Overrides(nodes, t, name) && name !in nodes[t].removed
    ensures Lookup(nodes, Some(t), name, acc) == [nodes[t].redefined.value]
    ensures Dispatch(nodes, t, name) == Ok(nodes[nodes[t].redefined.value].holder.methods[name])
  {
    LeafHasMethod(nodes, nodes[t].redefined.value, name);
  }

  // ---------------------------------------------------------------------
  // The 1/0/many rule.
  // ---------------------------------------------------------------------

  /**
   * The dispatcher and `get_implementation` apply the same rule: they succeed
   * on the same trees with the same body, and differ only in the message
   * for a name without provider.
   */
  lemma DispatchAgreesWithGetImplementation(nodes: seq<Node>, t: NodeId, name: Name)
    requires WellFormed(nodes) && t < |nodes|
    ensures Dispatch(nodes, t, name).Ok? <==> GetImplementation(nodes, t, name).Ok?
    ensures Dispatch(nodes, t, name).Ok? ==> Dispatch(nodes, t, name) == GetImplementation(nodes, t, name)
    ensures Dispatch(nodes, t, name) == Err(NoImplementation) <==> GetImplementation(nodes, t, name) == Err(MethodNotFound)
    ensures Dispatch(nodes, t, name) == Err(UnresolvedConflict) <==> GetImplementation(nodes, t, name) == Err(UnresolvedConflict)
  {
  }

  /** Two operands that both provide the name conflict in their sum. */
  lemma SumConflicts(nodes: seq<Node>, s: NodeId, a: NodeId, b: NodeId, name: Name)
    requires WellFormed(nodes) && s < |nodes| && IsSumNode(nodes, s, a, Some(b))
    requires Providers(nodes, Some(a), name) != [] && Providers(nodes, Some(b), name) != []
    ensures Dispatch(nodes, s, name) == Err(UnresolvedConflict)
  {
    SumProviders(nodes, s, a, Some(b), name);
  }

  /** If exactly one operand provides the name, once, the sum dispatches to that provider. */
  lemma SumResolvesSingleProvider(nodes: seq<Node>, s: NodeId, a: NodeId, b: NodeId, name: Name)
    requires WellFormed(nodes) && s < |nodes| && IsSumNode(nodes, s, a, Some(b))
    requires |Providers(nodes, Some(a), name)| + |Providers(nodes, Some(b), name)| == 1
    ensures Dispatch(nodes, s, name) == Dispatch(nodes, a, name) || Dispatch(nodes, s, name) == Dispatch(nodes, b, name)
    ensures Dispatch(nodes, s, name).Ok?
  {
    SumProviders(nodes, s, a, Some(b), name);
  }

  /** A trait summed with itself conflicts with itself on every name it provides. */
  lemma SelfSumConflicts(nodes: seq<Node>, s: NodeId, a: NodeId, name: Name)
    requires WellFormed(nodes) && s < |nodes| && IsSumNode(nodes, s, a, Some(a))
    requires Dispatch(nodes, a, name).Ok?
    ensures Dispatch(nodes, s, name) == Err(UnresolvedConflict)
  {
    SumProviders(nodes, s, a, Some(a), name);
  }

  /**
   * `has_requirement_rec` consults the `requires` list of the root only:
   * below the root it asks only which names the operands' trees define.
   */
  lemma RequirementCheckSeesOnlyRoot(nodes: seq<Node>, t: NodeId, name: Name)
    requires WellFormed(nodes) && t < |nodes|
    ensures HasRequirementRec(nodes, Some(t), name) <==>
            name in nodes[t].holder.required
            || name in DefinedIn(nodes, nodes[t].trait01) || name in DefinedIn(nodes, nodes[t].trait02)
  {
    HasMethodRecMeansSomeHolder(nodes, nodes[t].trait01, name);
    HasMethodRecMeansSomeHolder(nodes, nodes[t].trait02, name);
  }

  /**
   * A name required only below the root does not pass the requirement test:
   * in `leaf - :x`, where the leaf requires `m`, the tree requires `m` but
   * `has_requirement_rec` says no.
   */
  lemma RequirementBelowRootMissed(nodes: seq<Node>)
    requires nodes == [Node(None, None, [], Holder(map[], ["m"]), None, []),
                       Node(Some(0), None, ["x"], EmptyHolder, None, [])]
    ensures WellFormed(nodes)
    ensures "m" in RequiredIn(nodes, Some(1)) && !HasRequirementRec(nodes, Some(1), "m")
  {
    assert "m" in RequiredIn(nodes, Some(0));
    assert !HasMethodRec(nodes, Some(0), "m");
  }

  /**
   * `has_trait` on a class with a tree: the node is a childless node of the
   * class's tree. On a class without one Ruby calls `composition` on nil.
   */
  lemma HasTraitIsLeafOfTree(nodes: seq<Node>, cls: ClassState, x: NodeId)
    requires WellFormed(nodes) && Below(cls.traits, |nodes|)
    ensures cls.traits.None? ==> HasTrait(nodes, cls, x) == Err(NoTraitsApplied)
    ensures cls.traits.Some? ==>
            HasTrait(nodes, cls, x) == Ok(x in Subtree(nodes, cls.traits) && IsLeaf(nodes[x]))
  {
    if cls.traits.Some? {
      CompositionIsLeaves(nodes, cls.traits, x);
    }
  }

  /**
   * `get_implementation` is the only element of `get_implementations` when
   * there is exactly one, and otherwise fails: with none as "method not
   * found", with several as an unresolved conflict.
   */
  lemma GetImplementationIsTheOnlyImplementation(nodes: seq<Node>, t: NodeId, name: Name)
    requires WellFormed(nodes) && t < |nodes|
    ensures var all := GetImplementations(nodes, t, name);
      && (|all| == 1 <==> GetImplementation(nodes, t, name).Ok?)
      && (|all| == 1 ==> GetImplementation(nodes, t, name) == Ok(all[0]))
      && (|all| == 0 <==> GetImplementation(nodes, t, name) == Err(MethodNotFound))
      && (|all| > 1 <==> GetImplementation(nodes, t, name) == Err(UnresolvedConflict))
  {
  }
}
