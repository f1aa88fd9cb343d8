/**
 * The mutating half of `Trait` and the `Class` extension: an arena of
 * shared trait nodes and of the classes that use them. `+`, `-` and `<<`
 * allocate nodes; `define_method`, `redefine_method` and `apply_to` update
 * nodes and classes in place, so every tree holding a node sees the change.
 */
module Engine {
  import opened TraitTypes
  import opened Resolution
  import opened LookupFacts
  import opened MethodTable

  /** Every class a node records in `@classes_applied` exists. */
  predicate AppliedKnown(n: Node, count: nat) {
    forall k :: 0 <= k < |n.classesApplied| ==> n.classesApplied[k] < count
  }

  /** Replacing nodes by nodes of the same shape keeps the arena well formed. */
  lemma SameShapeWellFormed(nodes: seq<Node>, nodes': seq<Node>)
    requires WellFormed(nodes) && |nodes'| == |nodes|
    requires forall i :: 0 <= i < |nodes| ==>
      nodes'[i].trait01 == nodes[i].trait01 && nodes'[i].trait02 == nodes[i].trait02
      && nodes'[i].redefined == nodes[i].redefined && nodes'[i].holder.required == nodes[i].holder.required
    ensures WellFormed(nodes')
  {
    forall i | 0 <= i < |nodes'|
      ensures Below(nodes'[i].trait01, i) && Below(nodes'[i].trait02, i) && OverrideOk(nodes', nodes'[i].redefined)
    {
      assert OverrideOk(nodes, nodes[i].redefined);
    }
  }

  /** Appending a node whose operands exist keeps the arena well formed. */
  lemma AppendWellFormed(nodes: seq<Node>, n: Node)
    requires WellFormed(nodes)
    requires Below(n.trait01, |nodes|) && Below(n.trait02, |nodes|) && n.redefined.None?
    ensures WellFormed(nodes + [n])
  {
    var nodes' := nodes + [n];
    forall i | 0 <= i < |nodes'|
      ensures Below(nodes'[i].trait01, i) && Below(nodes'[i].trait02, i) && OverrideOk(nodes', nodes'[i].redefined)
      ensures nodes'[i].redefined.Some? ==> i < nodes'[i].redefined.value
    {
      if i < |nodes| {
        assert nodes'[i] == nodes[i];
        assert OverrideOk(nodes, nodes[i].redefined);
      }
    }
  }

  /** The new name of the k-th alias pair is not rebound by a later pair. */
  predicate LastBinding(pairs: seq<(Name, Name)>, k: nat)
    requires k < |pairs|
  {
    forall j :: k < j < |pairs| ==> pairs[j].1 != pairs[k].1
  }

  /** Some new name of an alias is already defined somewhere in the tree. */
  ghost predicate NewNameDefined(nodes: seq<Node>, t: NodeId, pairs: seq<(Name, Name)>)
    requires WellFormed(nodes) && t < |nodes|
  {
    exists k :: 0 <= k < |pairs| && HasMethodRec(nodes, Some(t), pairs[k].1)
  }

  /** Some new name of an alias passes the tree's requirement test. */
  ghost predicate NewNameRequired(nodes: seq<Node>, t: NodeId, pairs: seq<(Name, Name)>)
    requires WellFormed(nodes) && t < |nodes|
  {
    exists k :: 0 <= k < |pairs| && HasRequirementRec(nodes, Some(t), pairs[k].1)
  }

  /**
   * The holder `<<` fills: each new name bound to what `get_implementation`
   * resolves its original name to, in the order of the pairs, so that a later
   * pair overrides an earlier one with the same new name; the first original
   * name that does not resolve decides the error.
   */
  function AliasBindings(nodes: seq<Node>, t: NodeId, pairs: seq<(Name, Name)>): (r: Result<map<Name, Impl>>)
    requires WellFormed(nodes) && t < |nodes|
    decreases |pairs|
  {
    if pairs == [] then Ok(map[])
    else
      var prefix := AliasBindings(nodes, t, pairs[..|pairs| - 1]);
      var last := pairs[|pairs| - 1];
      if prefix.Err? then prefix
      else match GetImplementation(nodes, t, last.0)
        case Err(e) => Err(e)
        case Ok(impl) => Ok(prefix.value[last.1 := impl])
  }

  /** Every original name of the pairs resolves in the tree. */
  predicate AllResolve(nodes: seq<Node>, t: NodeId, pairs: seq<(Name, Name)>)
    requires WellFormed(nodes) && t < |nodes|
  {
    forall k :: 0 <= k < |pairs| ==> GetImplementation(nodes, t, pairs[k].0).Ok?
  }

  lemma AllResolveSnoc(nodes: seq<Node>, t: NodeId, pairs: seq<(Name, Name)>)
    requires WellFormed(nodes) && t < |nodes| && pairs != []
    ensures AllResolve(nodes, t, pairs) <==>
            AllResolve(nodes, t, pairs[..|pairs| - 1]) && GetImplementation(nodes, t, pairs[|pairs| - 1].0).Ok?
  {
    var init := pairs[..|pairs| - 1];
    assert forall k :: 0 <= k < |init| ==> init[k] == pairs[k];
  }

  lemma AliasBindingsSnoc(nodes: seq<Node>, t: NodeId, pairs: seq<(Name, Name)>)
    requires WellFormed(nodes) && t < |nodes| && pairs != []
    ensures AliasBindings(nodes, t, pairs).Ok? <==>
            AliasBindings(nodes, t, pairs[..|pairs| - 1]).Ok? && GetImplementation(nodes, t, pairs[|pairs| - 1].0).Ok?
  {
  }

  /** The alias succeeds exactly when every original name resolves. */
  lemma {:induction false} AliasBindingsSucceed(nodes: seq<Node>, t: NodeId, pairs: seq<(Name, Name)>)
    requires WellFormed(nodes) && t < |nodes|
    ensures AliasBindings(nodes, t, pairs).Ok? <==> AllResolve(nodes, t, pairs)
    decreases |pairs|
  {
    if pairs != [] {
      AliasBindingsSucceed(nodes, t, pairs[..|pairs| - 1]);
      AliasBindingsSnoc(nodes, t, pairs);
      AllResolveSnoc(nodes, t, pairs);
    }
  }

  /** The new names of the pairs, as a set. */
  function NewNames(pairs: seq<(Name, Name)>): set<Name> {
    set k | 0 <= k < |pairs| :: pairs[k].1
  }

  lemma NewNamesSnoc(pairs: seq<(Name, Name)>)
    requires pairs != []
    ensures NewNames(pairs) == NewNames(pairs[..|pairs| - 1]) + {pairs[|pairs| - 1].1}
  {
    var init := pairs[..|pairs| - 1];
    assert forall k :: 0 <= k < |init| ==> init[k] == pairs[k];
  }

  /** A successful alias binds exactly the new names. */
  lemma {:induction false} AliasBindingsKeys(nodes: seq<Node>, t: NodeId, pairs: seq<(Name, Name)>)
    requires WellFormed(nodes) && t < |nodes|
    requires AliasBindings(nodes, t, pairs).Ok?
    ensures AliasBindings(nodes, t, pairs).value.Keys == NewNames(pairs)
    decreases |pairs|
  {
    if pairs != [] {
      AliasBindingsKeys(nodes, t, pairs[..|pairs| - 1]);
      NewNamesSnoc(pairs);
    }
  }

  /** Each new name is bound to the implementation its last pair's original name resolves to. */
  lemma {:induction false} AliasBindingsValue(nodes: seq<Node>, t: NodeId, pairs: seq<(Name, Name)>, k: nat)
    requires WellFormed(nodes) && t < |nodes| && k < |pairs| && LastBinding(pairs, k)
    requires AliasBindings(nodes, t, pairs).Ok?
    ensures GetImplementation(nodes, t, pairs[k].0).Ok?
    ensures pairs[k].1 in AliasBindings(nodes, t, pairs).value
    ensures AliasBindings(nodes, t, pairs).value[pairs[k].1] == GetImplementation(nodes, t, pairs[k].0).value
    decreases |pairs|
  {
    var init := pairs[..|pairs| - 1];
    if k < |pairs| - 1 {
      assert init[k] == pairs[k];
      assert LastBinding(init, k);
      AliasBindingsValue(nodes, t, init, k);
    }
  }

  /**
   * Calling a new name on the node `<<` appended runs the body bound to it:
   * the node itself is the first provider, and nothing below provides the
   * name. The name test of `<<` asks only whether a holder of the tree
   * defines the name; it does not look at override nodes, so an override of
   * the new name below `t` would make the call a conflict instead (see
   * AliasOverOverrideConflicts), hence the override-free requirement.
   */
  lemma AliasCallRunsBinding(before: seq<Node>, nodes: seq<Node>, t: NodeId, b: map<Name, Impl>, name: Name)
    requires WellFormed(before) && t < |before|
    requires nodes == before + [Node(Some(t), None, [], Holder(b, []), None, [])]
    requires name in b && !HasMethodRec(before, Some(t), name) && OverrideFree(before, Some(t), name)
    ensures WellFormed(nodes)
    ensures Dispatch(nodes, |before|, name) == Ok(b[name])
  {
    AppendWellFormed(before, nodes[|before|]);
    var none: seq<Name> := [];
    assert AgreeBelow(before, nodes, |before|) by {
      forall i | 0 <= i < |before|
        ensures Strip(nodes[i]) == Strip(before[i]) && SameOverrideHolder(before, nodes, before[i].redefined)
      {
        assert nodes[i] == before[i];
        if before[i].redefined.Some? {
          assert nodes[before[i].redefined.value] == before[before[i].redefined.value];
        }
      }
    }
    LookupFrame(before, nodes, |before|, Some(t), name, none);
    LookupEmpty(before, Some(t), name, none);
    LookupStep(nodes, |before|, name, none);
    assert Providers(nodes, Some(|before|), name) == [|before|] + [] + [];
  }

  /**
   * After a successful `<<`, calling a new name on the new node runs what
   * its (last) original name resolved to on `t` when the alias was made.
   */
  lemma AliasCallRunsOriginal(before: seq<Node>, t: NodeId, pairs: seq<(Name, Name)>, k: nat)
    requires WellFormed(before) && t < |before| && k < |pairs| && LastBinding(pairs, k)
    requires !NewNameDefined(before, t, pairs) && AliasBindings(before, t, pairs).Ok?
    requires OverrideFree(before, Some(t), pairs[k].1)
    ensures var nodes := before + [Node(Some(t), None, [], Holder(AliasBindings(before, t, pairs).value, []), None, [])];
            && WellFormed(nodes)
            && Dispatch(nodes, |before|, pairs[k].1) == GetImplementation(before, t, pairs[k].0)
  {
    AliasBindingsValue(before, t, pairs, k);
    var b := AliasBindings(before, t, pairs).value;
    assert !HasMethodRec(before, Some(t), pairs[k].1);
    AliasCallRunsBinding(before, before + [Node(Some(t), None, [], Holder(b, []), None, [])], t, b, pairs[k].1);
  }

  /** AliasCallRunsOriginal for every new name at once. */
  lemma AliasCallsRunOriginals(before: seq<Node>, t: NodeId, pairs: seq<(Name, Name)>)
    requires WellFormed(before) && t < |before|
    requires !NewNameDefined(before, t, pairs) && AliasBindings(before, t, pairs).Ok?
    ensures var nodes := before + [Node(Some(t), None, [], Holder(AliasBindings(before, t, pairs).value, []), None, [])];
            && WellFormed(nodes)
            && forall k :: 0 <= k < |pairs| && LastBinding(pairs, k) && OverrideFree(before, Some(t), pairs[k].1) ==>
                 Dispatch(nodes, |before|, pairs[k].1) == GetImplementation(before, t, pairs[k].0)
  {
    var nodes := before + [Node(Some(t), None, [], Holder(AliasBindings(before, t, pairs).value, []), None, [])];
    AppendWellFormed(before, nodes[|before|]);
    forall k | 0 <= k < |pairs| && LastBinding(pairs, k) && OverrideFree(before, Some(t), pairs[k].1)
      ensures Dispatch(nodes, |before|, pairs[k].1) == GetImplementation(before, t, pairs[k].0)
    {
      AliasCallRunsOriginal(before, t, pairs, k);
    }
  }

  /**
   * The name test of `<<` does not see override nodes: aliasing `m` to `a`
   * on a trait whose override defines `a` succeeds, and calling `a` is then
   * an unresolved conflict between the alias and the override.
   */
  lemma AliasOverOverrideConflicts(before: seq<Node>, nodes: seq<Node>)
    requires before == [Node(None, None, [], Holder(map["m" := Body(1)], []), Some(1), []),
                        Node(None, None, [], Holder(map["a" := Body(2)], []), None, [])]
    requires nodes == before + [Node(Some(0), None, [], Holder(map["a" := Body(1)], []), None, [])]
    ensures WellFormed(before) && WellFormed(nodes)
    ensures !NewNameDefined(before, 0, [("m", "a")]) && !NewNameRequired(before, 0, [("m", "a")])
    ensures AliasBindings(before, 0, [("m", "a")]) == Ok(map["a" := Body(1)])
    ensures Dispatch(nodes, 2, "a") == Err(UnresolvedConflict)
  {
    assert WellFormed(before);
    assert !HasMethodRec(before, Some(0), "a");
    assert Providers(before, Some(0), "m") == [0];
    assert [("m", "a")][..0] == [];
    assert Providers(nodes, Some(2), "a") == [2, 1];
  }

  /** A failed alias reports the error of the first original name that does not resolve. */
  lemma {:induction false} AliasBindingsError(nodes: seq<Node>, t: NodeId, pairs: seq<(Name, Name)>)
    requires WellFormed(nodes) && t < |nodes|
    requires AliasBindings(nodes, t, pairs).Err?
    ensures exists k :: 0 <= k < |pairs| && GetImplementation(nodes, t, pairs[k].0) == Err(AliasBindings(nodes, t, pairs).error)
                        && forall j :: 0 <= j < k ==> GetImplementation(nodes, t, pairs[j].0).Ok?
    decreases |pairs|
  {
    var init := pairs[..|pairs| - 1];
    assert forall k :: 0 <= k < |init| ==> init[k] == pairs[k];
    if AliasBindings(nodes, t, init).Err? {
      AliasBindingsError(nodes, t, init);
      var k :| 0 <= k < |init| && GetImplementation(nodes, t, init[k].0) == Err(AliasBindings(nodes, t, init).error)
               && forall j :: 0 <= j < k ==> GetImplementation(nodes, t, init[j].0).Ok?;
      assert pairs[k] == init[k];
    } else {
      AliasBindingsSucceed(nodes, t, init);
      var k := |pairs| - 1;
      assert GetImplementation(nodes, t, pairs[k].0) == Err(AliasBindings(nodes, t, pairs).error);
    }
  }

  /** Once a prefix of the pairs fails to resolve, the whole alias fails the same way. */
  lemma {:induction false} AliasBindingsPrefixFails(nodes: seq<Node>, t: NodeId, pairs: seq<(Name, Name)>, i: nat)
    requires WellFormed(nodes) && t < |nodes| && i <= |pairs|
    requires AliasBindings(nodes, t, pairs[..i]).Err?
    ensures AliasBindings(nodes, t, pairs) == AliasBindings(nodes, t, pairs[..i])
    decreases |pairs| - i
  {
    if i < |pairs| {
      assert pairs[..i + 1][..i] == pairs[..i];
      AliasBindingsPrefixFails(nodes, t, pairs, i + 1);
    } else {
      assert pairs[..i] == pairs;
    }
  }

  class Runtime {
    /** Every `Trait` object ever created; a node's id is its index. */
    var nodes: seq<Node>
    /** Every class that may use traits; a class's id is its index. */
    var classes: seq<ClassState>

    ghost predicate Valid()
      reads this
    {
      WellFormed(nodes)
      && (forall c :: 0 <= c < |classes| ==> Below(classes[c].traits, |nodes|))
      && (forall i :: 0 <= i < |nodes| ==> AppliedKnown(nodes[i], |classes|))
    }

    constructor ()
      ensures Valid() && nodes == [] && classes == []
    {
      nodes := [];
      classes := [];
    }

    /** `Trait.new`: a node with the given operands, a fresh module unless one is given, no override, no classes. */
    method NewTrait(trait01: Option<NodeId>, trait02: Option<NodeId>, holder: Option<Holder>, removed: seq<Name>)
      returns (t: NodeId)
      requires Valid() && Below(trait01, |nodes|) && Below(trait02, |nodes|)
      modifies this
      ensures Valid() && classes == old(classes)
      ensures t == old(|nodes|)
      ensures nodes == old(nodes) + [Node(trait01, trait02, removed,
                                          if holder.Some? then holder.value else EmptyHolder, None, [])]
      ensures AgreeBelow(old(nodes), nodes, old(|nodes|))
    {
      var n := Node(trait01, trait02, removed, if holder.Some? then holder.value else EmptyHolder, None, []);
      AppendWellFormed(nodes, n);
      t := |nodes|;
      nodes := nodes + [n];
      forall i | 0 <= i < |nodes| ensures AppliedKnown(nodes[i], |classes|) {
        if i < t { assert nodes[i] == old(nodes)[i]; }
      }
      forall i | 0 <= i < t
        ensures Strip(nodes[i]) == Strip(old(nodes)[i]) && SameOverrideHolder(old(nodes), nodes, old(nodes)[i].redefined)
      {
        assert nodes[i] == old(nodes)[i];
        assert OverrideOk(old(nodes), old(nodes)[i].redefined);
      }
    }

    /** `Trait.from_block`: a leaf around the module the block built. */
    method FromBlock(holder: Holder) returns (t: NodeId)
      requires Valid()
      modifies this
      ensures Valid() && classes == old(classes) && t == old(|nodes|)
      ensures nodes == old(nodes) + [Node(None, None, [], holder, None, [])]
      ensures Composition(nodes, Some(t)) == [t]
      ensures forall name :: Providers(nodes, Some(t), name) == if name in holder.methods then [t] else []
      ensures DefinedIn(nodes, Some(t)) == holder.methods.Keys
      ensures RequiredIn(nodes, Some(t)) == set n | n in holder.required
    {
      t := NewTrait(None, None, Some(holder), []);
      forall name ensures Providers(nodes, Some(t), name) == if name in holder.methods then [t] else [] {
        LookupStep(nodes, t, name, []);
      }
    }

    /**
     * `a + b`: a fresh node over both operands. The operands are untouched,
     * the providers of every name are those of `a` followed by those of `b`,
     * and so are the leaves.
     */
    method Sum(a: NodeId, b: Option<NodeId>) returns (s: NodeId)
      requires Valid() && a < |nodes| && Below(b, |nodes|)
      modifies this
      ensures Valid() && classes == old(classes) && s == old(|nodes|)
      ensures nodes == old(nodes) + [Node(Some(a), b, [], EmptyHolder, None, [])]
      ensures forall name :: Providers(nodes, Some(s), name) ==
                old(Providers(nodes, Some(a), name)) + old(Providers(nodes, b, name))
      ensures Composition(nodes, Some(s)) == old(Composition(nodes, Some(a))) + old(Composition(nodes, b))
      ensures DefinedIn(nodes, Some(s)) == old(DefinedIn(nodes, Some(a))) + old(DefinedIn(nodes, b))
      ensures RequiredIn(nodes, Some(s)) == old(RequiredIn(nodes, Some(a))) + old(RequiredIn(nodes, b))
    {
      s := NewTrait(Some(a), b, None, []);
      NamesFrame(old(nodes), nodes, s, Some(a));
      NamesFrame(old(nodes), nodes, s, b);
      AgreeBelowShape(old(nodes), nodes, s);
      CompositionFrame(old(nodes), nodes, s, Some(a));
      CompositionFrame(old(nodes), nodes, s, b);
      forall name ensures Providers(nodes, Some(s), name) ==
                old(Providers(nodes, Some(a), name)) + old(Providers(nodes, b, name))
      {
        SumProviders(nodes, s, a, b, name);
        LookupFrame(old(nodes), nodes, s, Some(a), name, old(nodes)[a].removed);
        LookupFrame(old(nodes), nodes, s, b, name, RemovedOf(old(nodes), b));
      }
    }

    /**
     * `a - m`: a fresh node over `a` alone whose removed list is a copy of
     * `a`'s plus `m`. `a` is untouched; every other name keeps its providers;
     * the leaves are those of `a`.
     */
    method Remove(a: NodeId, m: Name) returns (s: NodeId)
      requires Valid() && a < |nodes|
      modifies this
      ensures Valid() && classes == old(classes) && s == old(|nodes|)
      ensures nodes == old(nodes) + [Node(Some(a), None, old(nodes[a].removed) + [m], EmptyHolder, None, [])]
      ensures forall name :: name != m ==> Providers(nodes, Some(s), name) == old(Providers(nodes, Some(a), name))
      ensures old(OverrideFree(nodes, Some(a), m)) ==> Providers(nodes, Some(s), m) == []
      ensures Composition(nodes, Some(s)) == old(Composition(nodes, Some(a)))
      ensures DefinedIn(nodes, Some(s)) == old(DefinedIn(nodes, Some(a)))
      ensures RequiredIn(nodes, Some(s)) == old(RequiredIn(nodes, Some(a)))
    {
      s := NewTrait(Some(a), None, None, nodes[a].removed + [m]);
      NamesFrame(old(nodes), nodes, s, Some(a));
      AgreeBelowShape(old(nodes), nodes, s);
      CompositionFrame(old(nodes), nodes, s, Some(a));
      forall name | name != m ensures Providers(nodes, Some(s), name) == old(Providers(nodes, Some(a), name)) {
        RemoveKeepsOtherNames(nodes, s, a, m, name);
        LookupFrame(old(nodes), nodes, s, Some(a), name, old(nodes)[a].removed);
      }
      if old(OverrideFree(nodes, Some(a), m)) {
        SubtreeFrame(old(nodes), nodes, s, Some(a));
        forall x | x in Subtree(nodes, Some(a)) ensures !Overrides(nodes, x, m) {
          assert !Overrides(old(nodes), x, m);
          assert Strip(nodes[x]) == Strip(old(nodes)[x]);
          assert SameOverrideHolder(old(nodes), nodes, old(nodes)[x].redefined);
        }
        RemoveHidesName(nodes, s, a, m);
      }
    }

    /**
     * `<<`: fails if a new name is defined anywhere in the tree, else if it
     * passes the requirement test, else if an original name does not resolve
     * to exactly one provider; otherwise a fresh node over `t` whose own
     * holder binds each new name to the implementation resolved now.
     */
    method Alias(t: NodeId, pairs: seq<(Name, Name)>) returns (r: Result<NodeId>)
      requires Valid() && t < |nodes|
      modifies this
      ensures Valid() && classes == old(classes)
      ensures NewNameDefined(old(nodes), t, pairs) ==> r == Err(NameAlreadyUsed) && nodes == old(nodes)
      ensures !NewNameDefined(old(nodes), t, pairs) && NewNameRequired(old(nodes), t, pairs) ==>
                r == Err(MatchesRequirement) && nodes == old(nodes)
      ensures !NewNameDefined(old(nodes), t, pairs) && !NewNameRequired(old(nodes), t, pairs) ==>
                var b := AliasBindings(old(nodes), t, pairs);
                if b.Err? then r == Err(b.error) && nodes == old(nodes)
                else r == Ok(old(|nodes|)) && nodes == old(nodes) + [Node(Some(t), None, [], Holder(b.value, []), None, [])]
      ensures r.Ok? ==> forall k :: 0 <= k < |pairs| && LastBinding(pairs, k) && OverrideFree(old(nodes), Some(t), pairs[k].1) ==>
                Dispatch(nodes, r.value, pairs[k].1) == GetImplementation(old(nodes), t, pairs[k].0)
    {
      var usedName, usedRequirement := false, false;
      var i := 0;
      while i < |pairs|
        invariant 0 <= i <= |pairs|
        invariant usedName <==> exists k :: 0 <= k < i && HasMethodRec(nodes, Some(t), pairs[k].1)
        invariant usedRequirement <==> exists k :: 0 <= k < i && HasRequirementRec(nodes, Some(t), pairs[k].1)
      {
        usedName := usedName || HasMethodRec(nodes, Some(t), pairs[i].1);
        usedRequirement := usedRequirement || HasRequirementRec(nodes, Some(t), pairs[i].1);
        i := i + 1;
      }
      if usedName {
        return Err(NameAlreadyUsed);
      }
      if usedRequirement {
        return Err(MatchesRequirement);
      }
      var bindings: map<Name, Impl> := map[];
      i := 0;
      while i < |pairs|
        invariant 0 <= i <= |pairs|
        invariant AliasBindings(nodes, t, pairs[..i]) == Ok(bindings)
      {
        var impl := GetImplementation(nodes, t, pairs[i].0);
        assert pairs[..i + 1][..i] == pairs[..i];
        if impl.Err? {
          AliasBindingsPrefixFails(nodes, t, pairs, i + 1);
          return Err(impl.error);
        }
        bindings := bindings[pairs[i].1 := impl.value];
        i := i + 1;
      }
      assert pairs[..i] == pairs;
      AliasCallsRunOriginals(nodes, t, pairs);
      var a := NewTrait(Some(t), None, Some(Holder(bindings, [])), []);
      r := Ok(a);
    }

    /**
     * `define_method` on a trait: fails, changing nothing, if the name is
     * defined anywhere in the tree or passes the requirement test; otherwise
     * adds it to this node's holder only and refreshes the classes this very
     * node was applied to, which gain a dispatcher for each of the node's
     * names they do not define themselves.
     */
    method DefineMethod(t: NodeId, name: Name, impl: Impl) returns (r: Outcome)
      requires Valid() && t < |nodes|
      modifies this
      ensures Valid()
      ensures HasMethodRec(old(nodes), Some(t), name) ==>
                r == Fail(NameAlreadyUsed) && nodes == old(nodes) && classes == old(classes)
      ensures !HasMethodRec(old(nodes), Some(t), name) && HasRequirementRec(old(nodes), Some(t), name) ==>
                r == Fail(MatchesRequirement) && nodes == old(nodes) && classes == old(classes)
      ensures !HasMethodRec(old(nodes), Some(t), name) && !HasRequirementRec(old(nodes), Some(t), name) ==>
                && r == Pass
                && nodes == old(nodes)[t := old(nodes[t]).(holder := old(nodes[t].holder).(
                                             methods := old(nodes[t].holder.methods)[name := impl]))]
                && |classes| == old(|classes|)
                && forall c :: 0 <= c < |classes| ==>
                     classes[c] == if c in nodes[t].classesApplied
                                   then Refreshed(old(classes[c]), nodes[t].holder.methods.Keys)
                                   else old(classes[c])
    {
      if HasMethodRec(nodes, Some(t), name) {
        return Fail(NameAlreadyUsed);
      }
      if HasRequirementRec(nodes, Some(t), name) {
        return Fail(MatchesRequirement);
      }
      var n := nodes[t];
      AddToHolder(t, name, impl);
      ghost var updated := nodes;
      r := Pass;
      var applied, names := n.classesApplied, nodes[t].holder.methods.Keys;
      var i := 0;
      while i < |applied|
        invariant 0 <= i <= |applied|
        invariant Valid() && nodes == updated && |classes| == old(|classes|)
        invariant forall c :: 0 <= c < |classes| ==>
                    classes[c] == if c in applied[..i] then Refreshed(old(classes[c]), names) else old(classes[c])
      {
        assert AppliedKnown(nodes[t], |classes|);
        var c := applied[i];
        if c in applied[..i] {
          RefreshedIdempotent(old(classes[c]), names);
        }
        ApplyMethodsTo(t, c);
        assert applied[..i + 1] == applied[..i] + [c];
        i := i + 1;
      }
      assert applied[..i] == applied;
    }

    /** `@holder_module.define_method`: the node's holder gains the name; nothing else changes. */
    method AddToHolder(t: NodeId, name: Name, impl: Impl)
      requires Valid() && t < |nodes|
      modifies this
      ensures Valid() && classes == old(classes)
      ensures nodes == old(nodes)[t := old(nodes[t]).(holder := old(nodes[t].holder).(
                                          methods := old(nodes[t].holder.methods)[name := impl]))]
    {
      var n := nodes[t];
      var updated := nodes[t := n.(holder := n.holder.(methods := n.holder.methods[name := impl]))];
      SameShapeWellFormed(nodes, updated);
      nodes := updated;
      assert forall i :: 0 <= i < |nodes| ==> nodes[i].classesApplied == old(nodes)[i].classesApplied;
    }

    /**
     * `redefine_method`: creates the override node on first use, captures the
     * bodies of the providers `lookup` finds now, and defines the name on the
     * override node as a body that calls the block once per captured
     * provider, in lookup order. Defining fails if the override node already
     * has the name; zero providers is not an error.
     */
    method RedefineMethod(t: NodeId, name: Name, block: nat) returns (r: Outcome)
      requires Valid() && t < |nodes|
      modifies this
      ensures Valid() && |nodes| >= old(|nodes|)
      ensures old(nodes[t].redefined).Some? ==> nodes[t].redefined == old(nodes[t].redefined) && |nodes| == old(|nodes|)
      ensures old(nodes[t].redefined).None? ==> nodes[t].redefined == Some(old(|nodes|)) && |nodes| == old(|nodes|) + 1
      ensures nodes[t].redefined.Some?
      ensures var o := nodes[t].redefined.value;
              var before := if o < old(|nodes|) then old(nodes[o].holder.methods) else map[];
              && (name in before ==> r == Fail(NameAlreadyUsed) && nodes[o].holder.methods == before)
              && (name !in before ==>
                    r == Pass && nodes[o].holder.methods ==
                    before[name := Resolver(block, GetImplementations(old(nodes), t, name))])
              && (forall i :: 0 <= i < old(|nodes|) && i != t && i != o ==> nodes[i] == old(nodes[i]))
              && Strip(nodes[t]).(redefined := None) == Strip(old(nodes[t])).(redefined := None)
              && nodes[t].classesApplied == old(nodes[t].classesApplied)
              && |classes| == old(|classes|)
              && (forall c :: 0 <= c < |classes| ==>
                    classes[c] == if r == Pass && c in nodes[o].classesApplied
                                  then Refreshed(old(classes[c]), nodes[o].holder.methods.Keys)
                                  else old(classes[c]))
      ensures var o := nodes[t].redefined.value;
              var base := if o < old(|nodes|) then old(nodes[o]) else Node(None, None, [], EmptyHolder, None, []);
              nodes[o] == base.(holder := base.holder.(methods := nodes[o].holder.methods))
      ensures old(nodes[t].redefined).None? ==> classes == old(classes)
      ensures r == Pass && name !in nodes[t].removed ==>
                Dispatch(nodes, t, name) == Ok(Resolver(block, GetImplementations(old(nodes), t, name)))
    {
      var o := OverrideNode(t);
      var conflicts := GetImplementations(nodes, t, name);
      LeafHasMethod(nodes, o, name);
      r := DefineMethod(o, name, Resolver(block, conflicts));
      if r == Pass && name !in nodes[t].removed {
        OverrideShortCircuits(nodes, t, name, nodes[t].removed);
      }
    }

    /**
     * The first half of `redefine_method`: the node's override node, created
     * empty on first use. What `get_implementations` finds at the node is
     * unchanged, since an empty override node provides nothing.
     */
    method OverrideNode(t: NodeId) returns (o: NodeId)
      requires Valid() && t < |nodes|
      modifies this
      ensures Valid() && classes == old(classes) && |nodes| >= old(|nodes|)
      ensures old(nodes[t].redefined).Some? ==> o == old(nodes[t].redefined.value) && nodes == old(nodes)
      ensures old(nodes[t].redefined).None? ==>
                && o == old(|nodes|)
                && nodes == (old(nodes) + [Node(None, None, [], EmptyHolder, None, [])])[t := old(nodes[t]).(redefined := Some(o))]
      ensures nodes[t].redefined == Some(o) && t < o < |nodes| && IsLeaf(nodes[o]) && nodes[o].holder.required == []
      ensures forall name :: GetImplementations(nodes, t, name) == GetImplementations(old(nodes), t, name)
    {
      if nodes[t].redefined.Some? {
        o := nodes[t].redefined.value;
        assert OverrideOk(nodes, nodes[t].redefined);
        return;
      }
      o := NewTrait(None, None, None, []);
      nodes := nodes[t := nodes[t].(redefined := Some(o))];
      SameShapeWellFormedExceptOverride(old(nodes), nodes, t, o);
      assert forall i :: 0 <= i < |nodes| ==>
        nodes[i].classesApplied == (old(nodes) + [Node(None, None, [], EmptyHolder, None, [])])[i].classesApplied;
      assert forall i :: 0 <= i < old(|nodes|) ==> nodes[i].holder == old(nodes[i]).holder;
      forall name ensures GetImplementations(nodes, t, name) == GetImplementations(old(nodes), t, name) {
        CapturedProvidersUnchanged(old(nodes), nodes, t, name);
      }
    }

    /**
     * `apply_methods_to`: a dispatcher for every name of this node's holder
     * that the class does not define itself.
     */
    method ApplyMethodsTo(t: NodeId, c: ClassId)
      requires Valid() && t < |nodes| && c < |classes|
      modifies this
      ensures Valid() && nodes == old(nodes)
      ensures classes == old(classes)[c := Refreshed(old(classes[c]), nodes[t].holder.methods.Keys)]
    {
      var names := nodes[t].holder.methods.Keys;
      var todo := names;
      assert WithDispatchers(classes[c].own, names - todo) == classes[c].own;
      while todo != {}
        invariant todo <= names
        invariant Valid() && nodes == old(nodes)
        invariant classes == old(classes)[c := Refreshed(old(classes[c]), names - todo)]
        decreases todo
      {
        var n :| n in todo;
        var cls := classes[c];
        if n !in cls.own {
          classes := classes[c := cls.(own := cls.own[n := Dispatcher])];
        }
        todo := todo - {n};
        assert classes[c].own == WithDispatchers(old(classes[c]).own, names - todo);
      }
      assert names - todo == names;
    }

    /**
     * `add_required_methods`: a stub raising the requirement error for every
     * name this node requires that the class neither defines nor inherits.
     */
    method AddRequiredMethods(t: NodeId, c: ClassId)
      requires Valid() && t < |nodes| && c < |classes|
      modifies this
      ensures Valid() && nodes == old(nodes)
      ensures classes == old(classes)[c := old(classes[c]).(own := WithStubs(old(classes[c].own),
                           old(classes[c].inherited), set n | n in nodes[t].holder.required))]
    {
      var required := nodes[t].holder.required;
      ghost var start := classes[c];
      var i := 0;
      assert WithStubs(start.own, start.inherited, set n | n in required[..0]) == start.own;
      while i < |required|
        invariant 0 <= i <= |required|
        invariant nodes == old(nodes) && |classes| == old(|classes|) && classes == old(classes)[c := classes[c]]
        invariant classes[c] == start.(own := WithStubs(start.own, start.inherited, set n | n in required[..i]))
      {
        var n := required[i];
        var cls := classes[c];
        if n !in cls.own && n !in cls.inherited {
          classes := classes[c := cls.(own := cls.own[n := RequirementStub])];
        }
        assert required[..i + 1] == required[..i] + [n];
        WithStubsStep(start.own, start.inherited, required[..i], n);
        i := i + 1;
      }
      assert required[..i] == required;
    }

    /** `apply_methods`: `apply_methods_to` on every node of the tree, node before operands. */
    method ApplyMethods(t: Option<NodeId>, c: ClassId)
      requires Valid() && Below(t, |nodes|) && c < |classes|
      modifies this
      ensures Valid() && nodes == old(nodes)
      ensures classes == old(classes)[c := Refreshed(old(classes[c]), DefinedIn(nodes, t))]
      decreases Rank(t)
    {
      if t.Some? {
        var n := nodes[t.value];
        ApplyMethodsTo(t.value, c);
        ApplyMethods(n.trait01, c);
        ApplyMethods(n.trait02, c);
        WithDispatchersUnion(old(classes[c]).own, n.holder.methods.Keys, DefinedIn(nodes, n.trait01));
        WithDispatchersUnion(old(classes[c]).own, n.holder.methods.Keys + DefinedIn(nodes, n.trait01),
                             DefinedIn(nodes, n.trait02));
      } else {
        assert WithDispatchers(old(classes[c]).own, {}) == old(classes[c]).own;
        assert Refreshed(old(classes[c]), {}) == old(classes[c]);
      }
    }

    /** `apply_requirements`: `add_required_methods` on every node of the tree, node before operands. */
    method ApplyRequirements(t: Option<NodeId>, c: ClassId)
      requires Valid() && Below(t, |nodes|) && c < |classes|
      modifies this
      ensures Valid() && nodes == old(nodes)
      ensures classes == old(classes)[c := old(classes[c]).(own := WithStubs(old(classes[c].own),
                           old(classes[c].inherited), RequiredIn(nodes, t)))]
      decreases Rank(t)
    {
      if t.Some? {
        var n := nodes[t.value];
        var own, inherited := classes[c].own, classes[c].inherited;
        var mine := set m | m in n.holder.required;
        AddRequiredMethods(t.value, c);
        ApplyRequirements(n.trait01, c);
        ApplyRequirements(n.trait02, c);
        WithStubsUnion(own, inherited, mine, RequiredIn(nodes, n.trait01));
        WithStubsUnion(own, inherited, mine + RequiredIn(nodes, n.trait01), RequiredIn(nodes, n.trait02));
      } else {
        var cls := classes[c];
        assert WithStubs(cls.own, cls.inherited, {}) == cls.own;
        assert cls.(own := cls.own) == cls;
      }
    }

    /**
     * `apply_to` (and `Class#uses`): the class's tree becomes `t + old tree`,
     * the class is recorded on `t` alone, stubs are installed for the names
     * the tree of `t` requires and the class lacks, then dispatchers for the
     * names the tree defines and the class does not define itself.
     */
    method ApplyTo(t: NodeId, c: ClassId)
      requires Valid() && t < |nodes| && c < |classes|
      modifies this
      ensures Valid()
      ensures |nodes| == old(|nodes|) + 1
      ensures nodes[old(|nodes|)] == Node(Some(t), old(classes[c].traits), [], EmptyHolder, None, [])
      ensures nodes[t] == old(nodes[t]).(classesApplied := old(nodes[t].classesApplied) + [c])
      ensures forall i :: 0 <= i < old(|nodes|) && i != t ==> nodes[i] == old(nodes[i])
      ensures classes == old(classes)[c := ClassState(Some(old(|nodes|)),
                Attached(old(classes[c]), old(RequiredIn(nodes, Some(t))), old(DefinedIn(nodes, Some(t)))),
                old(classes[c].inherited))]
      ensures Composition(nodes, classes[c].traits) ==
                old(Composition(nodes, Some(t))) + old(Composition(nodes, classes[c].traits))
      ensures forall name :: Providers(nodes, classes[c].traits, name) ==
                old(Providers(nodes, Some(t), name)) + old(Providers(nodes, classes[c].traits, name))
    {
      var root := AttachTree(t, c);
      ApplyRequirements(Some(t), c);
      ApplyMethods(Some(t), c);
    }

    /**
     * The first half of `apply_to`: the class's tree becomes `t + old tree`
     * and the class is recorded on `t`. What the walks see of `t` and of the
     * new root is as before.
     */
    method AttachTree(t: NodeId, c: ClassId) returns (root: NodeId)
      requires Valid() && t < |nodes| && c < |classes|
      modifies this
      ensures Valid() && root == old(|nodes|) && |nodes| == root + 1
      ensures nodes[root] == Node(Some(t), old(classes[c].traits), [], EmptyHolder, None, [])
      ensures nodes[t] == old(nodes[t]).(classesApplied := old(nodes[t].classesApplied) + [c])
      ensures forall i :: 0 <= i < old(|nodes|) && i != t ==> nodes[i] == old(nodes[i])
      ensures classes == old(classes)[c := old(classes[c]).(traits := Some(root))]
      ensures DefinedIn(nodes, Some(t)) == old(DefinedIn(nodes, Some(t)))
      ensures RequiredIn(nodes, Some(t)) == old(RequiredIn(nodes, Some(t)))
      ensures Composition(nodes, Some(root)) == old(Composition(nodes, Some(t))) + old(Composition(nodes, classes[c].traits))
      ensures forall name :: Providers(nodes, Some(root), name) ==
                old(Providers(nodes, Some(t), name)) + old(Providers(nodes, classes[c].traits, name))
    {
      root := Sum(t, classes[c].traits);
      ghost var summed := nodes;
      classes := classes[c := classes[c].(traits := Some(root))];
      RecordApplied(t, c);
      AttachFrames(old(nodes), summed, nodes, t, root);
    }

    /** `@classes_applied.push(a_class)`: the class is recorded on this node, which is otherwise unchanged. */
    method RecordApplied(t: NodeId, c: ClassId)
      requires Valid() && t < |nodes| && c < |classes|
      modifies this
      ensures Valid() && classes == old(classes)
      ensures nodes == old(nodes)[t := old(nodes[t]).(classesApplied := old(nodes[t].classesApplied) + [c])]
      ensures AgreeBelow(old(nodes), nodes, |nodes|)
    {
      var n := nodes[t];
      var recorded := nodes[t := n.(classesApplied := n.classesApplied + [c])];
      SameShapeWellFormed(nodes, recorded);
      nodes := recorded;
      forall i | 0 <= i < |nodes|
        ensures Strip(nodes[i]) == Strip(old(nodes)[i]) && SameOverrideHolder(old(nodes), nodes, old(nodes)[i].redefined)
      {
        assert OverrideOk(old(nodes), old(nodes)[i].redefined);
      }
    }

    /** `Class.new`: a class with no trait tree, no methods of its own, and what it inherits. */
    method NewClass(inherited: map<Name, Impl>) returns (c: ClassId)
      requires Valid()
      modifies this
      ensures Valid() && nodes == old(nodes) && c == old(|classes|)
      ensures classes == old(classes) + [ClassState(None, map[], inherited)]
    {
      c := |classes|;
      classes := classes + [ClassState(None, map[], inherited)];
      forall i | 0 <= i < |nodes| ensures AppliedKnown(nodes[i], |classes|) {
        assert AppliedKnown(nodes[i], |classes| - 1);
      }
    }

    /** `def name ... end` in the class body: the class now defines the name itself. */
    method DefineOnClass(c: ClassId, name: Name, impl: Impl)
      requires Valid() && c < |classes|
      modifies this
      ensures Valid() && nodes == old(nodes)
      ensures classes == old(classes)[c := old(classes[c]).(own := old(classes[c].own)[name := UserDefined(impl)])]
      ensures Send(nodes, classes[c], name) == Ok(impl)
    {
      classes := classes[c := classes[c].(own := classes[c].own[name := UserDefined(impl)])];
    }
  }

  /** Agreement below a bound is transitive. */
  lemma AgreeBelowTrans(a: seq<Node>, b: seq<Node>, c: seq<Node>, bound: nat)
    requires WellFormed(a) && WellFormed(b) && AgreeBelow(a, b, bound) && AgreeBelow(b, c, bound)
    ensures AgreeBelow(a, c, bound)
  {
    forall i | 0 <= i < bound
      ensures Strip(c[i]) == Strip(a[i]) && SameOverrideHolder(a, c, a[i].redefined)
    {
      assert Strip(b[i]) == Strip(a[i]);
      assert b[i].redefined == a[i].redefined;
    }
  }

  /** Arenas that agree below a bound walk every tree below it the same way. */
  lemma SameWalks(nodes: seq<Node>, nodes': seq<Node>, bound: nat, t: Option<NodeId>)
    requires WellFormed(nodes) && WellFormed(nodes') && AgreeBelow(nodes, nodes', bound) && Below(t, bound)
    ensures Composition(nodes', t) == Composition(nodes, t)
    ensures DefinedIn(nodes', t) == DefinedIn(nodes, t) && RequiredIn(nodes', t) == RequiredIn(nodes, t)
    ensures forall name :: Providers(nodes', t, name) == Providers(nodes, t, name)
  {
    AgreeBelowShape(nodes, nodes', bound);
    CompositionFrame(nodes, nodes', bound, t);
    NamesFrame(nodes, nodes', bound, t);
    forall name ensures Providers(nodes', t, name) == Providers(nodes, t, name) {
      if t.Some? {
        assert Strip(nodes'[t.value]) == Strip(nodes[t.value]);
      }
      LookupFrame(nodes, nodes', bound, t, name, RemovedOf(nodes, t));
    }
  }

  /** What `apply_to` reads of `t` and of the new root survives recording the class on `t`. */
  lemma AttachFrames(pre: seq<Node>, summed: seq<Node>, post: seq<Node>, t: NodeId, root: NodeId)
    requires WellFormed(pre) && WellFormed(summed) && WellFormed(post) && t < |pre| <= |post| && root < |post|
    requires AgreeBelow(pre, summed, |pre|) && AgreeBelow(summed, post, |post|)
    ensures DefinedIn(post, Some(t)) == DefinedIn(pre, Some(t)) && RequiredIn(post, Some(t)) == RequiredIn(pre, Some(t))
    ensures Composition(post, Some(root)) == Composition(summed, Some(root))
    ensures forall name :: Providers(post, Some(root), name) == Providers(summed, Some(root), name)
  {
    assert AgreeBelow(summed, post, |pre|);
    AgreeBelowTrans(pre, summed, post, |pre|);
    SameWalks(pre, post, |pre|, Some(t));
    SameWalks(summed, post, |post|, Some(root));
  }

  /** Giving node `t` a fresh, childless, empty override node keeps the arena well formed. */
  lemma SameShapeWellFormedExceptOverride(old_nodes: seq<Node>, nodes: seq<Node>, t: NodeId, o: NodeId)
    requires WellFormed(old_nodes) && t < |old_nodes| && o == |old_nodes|
    requires nodes == (old_nodes + [Node(None, None, [], EmptyHolder, None, [])])[t := old_nodes[t].(redefined := Some(o))]
    ensures WellFormed(nodes)
  {
    var appended := old_nodes + [Node(None, None, [], EmptyHolder, None, [])];
    AppendWellFormed(old_nodes, Node(None, None, [], EmptyHolder, None, []));
    forall i | 0 <= i < |nodes|
      ensures Below(nodes[i].trait01, i) && Below(nodes[i].trait02, i) && OverrideOk(nodes, nodes[i].redefined)
      ensures nodes[i].redefined.Some? ==> i < nodes[i].redefined.value
    {
      assert Below(appended[i].trait01, i) && Below(appended[i].trait02, i);
      if i != t {
        assert OverrideOk(appended, appended[i].redefined);
      }
    }
  }

  /**
   * Creating the empty override node does not change what `lookup` finds at
   * `t`: the empty node defines nothing, so the search falls through as it
   * did without it.
   */
  lemma CapturedProvidersUnchanged(nodes: seq<Node>, mid: seq<Node>, t: NodeId, name: Name)
    requires WellFormed(nodes) && WellFormed(mid) && t < |nodes| && |nodes| <= |mid|
    requires forall i :: 0 <= i < |nodes| && i != t ==> mid[i] == nodes[i]
    requires nodes[t].redefined.None? && mid[t] == nodes[t].(redefined := mid[t].redefined)
    requires mid[t].redefined.Some? && mid[mid[t].redefined.value].holder.methods == map[]
    ensures Providers(mid, Some(t), name) == Providers(nodes, Some(t), name)
  {
    assert AgreeBelow(nodes, mid, t) by {
      forall i | 0 <= i < t
        ensures Strip(mid[i]) == Strip(nodes[i]) && SameOverrideHolder(nodes, mid, nodes[i].redefined)
      {
        assert OverrideOk(nodes, nodes[i].redefined);
      }
    }
    var n := nodes[t];
    LookupStep(nodes, t, name, n.removed);
    LeafHasMethod(mid, mid[t].redefined.value, name);
    LookupStep(mid, t, name, n.removed);
    LookupFrame(nodes, mid, t, n.trait01, name, n.removed + n.removed);
    LookupFrame(nodes, mid, t, n.trait02, name, n.removed + n.removed);
  }
}
