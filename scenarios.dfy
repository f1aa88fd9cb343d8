/**
 * The behaviours the repository's examples exercise, replayed on the model:
 * each method builds traits and classes through the runtime's operations
 * and states what the calls then run.
 */
module Scenarios {
  import opened TraitTypes
  import opened Resolution
  import opened LookupFacts
  import opened MethodTable
  import opened Engine

  /**
   * A trait requiring `m01` and `m02` and defining `message_01` and
   * `message_02` is used by a class that then defines `m01` itself: the
   * trait's methods resolve to the trait's bodies, `m01` to the class's own,
   * and `m02` raises the requirement error.
   */
  method RequirementExample() returns (rt: Runtime, c: ClassId)
    ensures rt.Valid() && c < |rt.classes| && Below(rt.classes[c].traits, |rt.nodes|)
    ensures Send(rt.nodes, rt.classes[c], "message_01") == Ok(Body(1))
    ensures Send(rt.nodes, rt.classes[c], "message_02") == Ok(Body(2))
    ensures Send(rt.nodes, rt.classes[c], "m01") == Ok(Body(3))
    ensures Send(rt.nodes, rt.classes[c], "m02") == Err(RequiredMethodMissing)
  {
    rt := new Runtime();
    var t := rt.FromBlock(Holder(map["message_01" := Body(1), "message_02" := Body(2)], ["m01", "m02"]));
    c := rt.NewClass(map[]);
    assert forall n :: n in ["m01", "m02"] <==> n == "m01" || n == "m02";
    assert RequiredIn(rt.nodes, Some(t)) == {"m01", "m02"};
    assert DefinedIn(rt.nodes, Some(t)) == {"message_01", "message_02"};
    assert Providers(rt.nodes, Some(t), "message_01") == [t];
    assert Providers(rt.nodes, Some(t), "message_02") == [t];
    assert Providers(rt.nodes, None, "message_01") == [];
    rt.ApplyTo(t, c);
    ghost var root := rt.classes[c].traits.value;
    rt.DefineOnClass(c, "m01", Body(3));
    CallsAfterUse(rt.nodes, rt.classes[c], t, root);
  }

  /** The class of the requirement example, once it has defined `m01`. */
  lemma CallsAfterUse(nodes: seq<Node>, cls: ClassState, t: NodeId, root: NodeId)
    requires WellFormed(nodes) && t < |nodes| && root < |nodes|
    requires nodes[t].holder.methods == map["message_01" := Body(1), "message_02" := Body(2)]
    requires cls == ClassState(Some(root),
      Attached(ClassState(None, map[], map[]), {"m01", "m02"}, {"message_01", "message_02"})["m01" := UserDefined(Body(3))],
      map[])
    requires Providers(nodes, Some(root), "message_01") == [t] && Providers(nodes, Some(root), "message_02") == [t]
    ensures Send(nodes, cls, "message_01") == Ok(Body(1)) && Send(nodes, cls, "message_02") == Ok(Body(2))
    ensures Send(nodes, cls, "m01") == Ok(Body(3)) && Send(nodes, cls, "m02") == Err(RequiredMethodMissing)
  {
  }

  /** Two `from_block` traits that both define `message`, and their sum. */
  method ConflictingTraits(rt: Runtime) returns (t1: NodeId, t2: NodeId, s: NodeId)
    requires rt.Valid()
    modifies rt
    ensures rt.Valid() && t1 < t2 < s < |rt.nodes| && rt.classes == old(rt.classes)
    ensures rt.nodes[t1].holder.methods == map["message" := Body(1)]
    ensures rt.nodes[t2].holder.methods == map["message" := Body(2)]
    ensures DefinedIn(rt.nodes, Some(s)) == {"message"} && RequiredIn(rt.nodes, Some(s)) == {}
    ensures Providers(rt.nodes, Some(s), "message") == [t1, t2]
  {
    t1 := rt.FromBlock(Holder(map["message" := Body(1)], []));
    t2 := rt.FromBlock(Holder(map["message" := Body(2)], []));
    s := rt.Sum(t1, Some(t2));
    assert IsConflictArena(rt.nodes, t1);
    ConflictingNames(rt.nodes, t1);
    ConflictingProviders(rt.nodes, t1);
  }

  /** The three nodes `ConflictingTraits` appends: two leaves defining `message` and their sum. */
  predicate IsConflictArena(nodes: seq<Node>, t1: NodeId) {
    && t1 + 2 < |nodes|
    && nodes[t1] == Leaf(map["message" := Body(1)]) && nodes[t1 + 1] == Leaf(map["message" := Body(2)])
    && nodes[t1 + 2] == Inner(t1, Some(t1 + 1), [])
  }

  /** The sum of the conflict example defines `message` only and requires nothing. */
  lemma ConflictingNames(nodes: seq<Node>, t1: NodeId)
    requires WellFormed(nodes) && IsConflictArena(nodes, t1)
    ensures DefinedIn(nodes, Some(t1 + 2)) == {"message"} && RequiredIn(nodes, Some(t1 + 2)) == {}
  {
    LeafNames(nodes, t1);
    LeafNames(nodes, t1 + 1);
  }

  /** Both leaves of the conflict example provide `message`, left operand first. */
  lemma ConflictingProviders(nodes: seq<Node>, t1: NodeId)
    requires WellFormed(nodes) && IsConflictArena(nodes, t1)
    ensures Providers(nodes, Some(t1 + 2), "message") == [t1, t1 + 1]
  {
    LeafLookup(nodes, t1, "message", []);
    LeafLookup(nodes, t1 + 1, "message", []);
    InnerLookup(nodes, t1 + 2, "message", [], []);
  }

  /** Two traits defining the same name, summed and used: calling the name is an unresolved conflict. */
  method ConflictExample() returns (rt: Runtime, c: ClassId)
    ensures rt.Valid() && c < |rt.classes| && Below(rt.classes[c].traits, |rt.nodes|)
    ensures Send(rt.nodes, rt.classes[c], "message") == Err(UnresolvedConflict)
  {
    rt := new Runtime();
    var t1, t2, s := ConflictingTraits(rt);
    c := rt.NewClass(map[]);
    rt.ApplyTo(s, c);
    ConflictingCall(rt.nodes, rt.classes[c], rt.classes[c].traits.value);
  }

  /**
   * The conflict of `message` resolved on the class's tree by
   * `redefine_method` with a block: afterwards a call runs the block over
   * both bodies, `trait_01`'s first.
   */
  method RedefineExample() returns (rt: Runtime, c: ClassId, r: Outcome)
    ensures rt.Valid() && c < |rt.classes| && Below(rt.classes[c].traits, |rt.nodes|)
    ensures r == Pass
    ensures Send(rt.nodes, rt.classes[c], "message") == Ok(Resolver(1, [Body(1), Body(2)]))
  {
    rt := new Runtime();
    var t1, t2, s := ConflictingTraits(rt);
    c := rt.NewClass(map[]);
    rt.ApplyTo(s, c);
    var root := rt.classes[c].traits.value;
    ConflictingCall(rt.nodes, rt.classes[c], root);
    var captured := GetImplementations(rt.nodes, root, "message");
    assert captured == [Body(1), Body(2)] by {
      assert Providers(rt.nodes, Some(root), "message") == [t1, t2];
    }
    ghost var cls := rt.classes[c];
    r := rt.RedefineMethod(root, "message", 1);
    assert rt.classes[c] == cls;
  }

  /** A class using one trait knows it. */
  method OneTraitExample() returns (rt: Runtime, c: ClassId, t: NodeId)
    ensures rt.Valid() && c < |rt.classes| && Below(rt.classes[c].traits, |rt.nodes|)
    ensures HasTrait(rt.nodes, rt.classes[c], t) == Ok(true)
  {
    rt := new Runtime();
    t := rt.FromBlock(EmptyHolder);
    c := rt.NewClass(map[]);
    rt.ApplyTo(t, c);
    UsesLeaf(rt.nodes, rt.classes[c], t);
  }

  /** The tree `root -> t` of a class that used a single leaf. */
  lemma UsesLeaf(nodes: seq<Node>, cls: ClassState, t: NodeId)
    requires WellFormed(nodes) && cls.traits.Some? && Below(cls.traits, |nodes|)
    requires t < |nodes| && IsLeaf(nodes[t])
    requires nodes[cls.traits.value].trait01 == Some(t) && nodes[cls.traits.value].trait02.None?
    ensures HasTrait(nodes, cls, t) == Ok(true)
  {
    assert Composition(nodes, cls.traits) == [t] + [];
  }

  /** A class using `trait01 + trait02` knows both traits. */
  method SummedTraitsExample() returns (rt: Runtime, c: ClassId, t1: NodeId, t2: NodeId)
    ensures rt.Valid() && c < |rt.classes| && Below(rt.classes[c].traits, |rt.nodes|)
    ensures HasTrait(rt.nodes, rt.classes[c], t1) == Ok(true)
    ensures HasTrait(rt.nodes, rt.classes[c], t2) == Ok(true)
  {
    rt := new Runtime();
    var s;
    t1, t2, s := BlankSum(rt);
    c := rt.NewClass(map[]);
    rt.ApplyTo(s, c);
    UsesSumOfTwo(rt.nodes, rt.classes[c], s, t1, t2);
  }

  /** A class using `trait01 + trait02 + trait03` knows all three. */
  method ThreeTraitsExample() returns (rt: Runtime, c: ClassId, t1: NodeId, t2: NodeId, t3: NodeId)
    ensures rt.Valid() && c < |rt.classes| && Below(rt.classes[c].traits, |rt.nodes|)
    ensures HasTrait(rt.nodes, rt.classes[c], t1) == Ok(true)
    ensures HasTrait(rt.nodes, rt.classes[c], t2) == Ok(true)
    ensures HasTrait(rt.nodes, rt.classes[c], t3) == Ok(true)
  {
    rt := new Runtime();
    var s12;
    t1, t2, s12 := BlankSum(rt);
    t3 := rt.FromBlock(EmptyHolder);
    var s := rt.Sum(s12, Some(t3));
    c := rt.NewClass(map[]);
    rt.ApplyTo(s, c);
    UsesSumOfThree(rt.nodes, rt.classes[c], s12, s, t1, t2, t3);
  }

  /** Two empty traits and their sum. */
  method BlankSum(rt: Runtime) returns (t1: NodeId, t2: NodeId, s: NodeId)
    requires rt.Valid()
    modifies rt
    ensures rt.Valid() && rt.classes == old(rt.classes) && t1 < t2 < s < |rt.nodes|
    ensures IsLeaf(rt.nodes[t1]) && IsLeaf(rt.nodes[t2])
    ensures rt.nodes[s].trait01 == Some(t1) && rt.nodes[s].trait02 == Some(t2)
  {
    t1 := rt.FromBlock(EmptyHolder);
    t2 := rt.FromBlock(EmptyHolder);
    s := rt.Sum(t1, Some(t2));
  }

  /** The tree `root -> s -> (t1, t2)` of a class that used the sum of two leaves. */
  predicate SumOfTwoShape(nodes: seq<Node>, root: NodeId, s: NodeId, t1: NodeId, t2: NodeId) {
    && root < |nodes| && s < |nodes| && t1 < |nodes| && t2 < |nodes|
    && IsLeaf(nodes[t1]) && IsLeaf(nodes[t2])
    && nodes[s].trait01 == Some(t1) && nodes[s].trait02 == Some(t2)
    && nodes[root].trait01 == Some(s) && nodes[root].trait02.None?
  }

  lemma UsesSumOfTwo(nodes: seq<Node>, cls: ClassState, s: NodeId, t1: NodeId, t2: NodeId)
    requires WellFormed(nodes) && cls.traits.Some? && Below(cls.traits, |nodes|)
    requires SumOfTwoShape(nodes, cls.traits.value, s, t1, t2)
    ensures Composition(nodes, Some(s)) == [t1, t2]
    ensures HasTrait(nodes, cls, t1) == Ok(true) && HasTrait(nodes, cls, t2) == Ok(true)
  {
    assert Composition(nodes, Some(s)) == [t1] + [t2];
    assert Composition(nodes, cls.traits) == [t1, t2] + [];
  }

  /** The tree `root -> s -> (s12 -> (t1, t2), t3)` of a class that used the sum of three leaves. */
  lemma UsesSumOfThree(nodes: seq<Node>, cls: ClassState, s12: NodeId, s: NodeId, t1: NodeId, t2: NodeId, t3: NodeId)
    requires WellFormed(nodes) && cls.traits.Some? && Below(cls.traits, |nodes|)
    requires s12 < |nodes| && s < |nodes| && t1 < |nodes| && t2 < |nodes| && t3 < |nodes|
    requires IsLeaf(nodes[t1]) && IsLeaf(nodes[t2]) && IsLeaf(nodes[t3])
    requires nodes[s12].trait01 == Some(t1) && nodes[s12].trait02 == Some(t2)
    requires nodes[s].trait01 == Some(s12) && nodes[s].trait02 == Some(t3)
    requires nodes[cls.traits.value].trait01 == Some(s) && nodes[cls.traits.value].trait02.None?
    ensures HasTrait(nodes, cls, t1) == Ok(true) && HasTrait(nodes, cls, t2) == Ok(true)
    ensures HasTrait(nodes, cls, t3) == Ok(true)
  {
    assert Composition(nodes, Some(s12)) == [t1] + [t2];
    assert Composition(nodes, Some(s)) == [t1, t2] + [t3];
    assert Composition(nodes, cls.traits) == [t1, t2, t3] + [];
  }

  /** A class whose only dispatcher is `message`, over a tree where two nodes provide it. */
  lemma ConflictingCall(nodes: seq<Node>, cls: ClassState, root: NodeId)
    requires WellFormed(nodes) && root < |nodes| && cls.traits == Some(root)
    requires "message" in cls.own && cls.own["message"] == Dispatcher
    requires |Providers(nodes, Some(root), "message")| == 2
    ensures Send(nodes, cls, "message") == Err(UnresolvedConflict)
  {
  }

  /** `a_trait` of the alias example: requires `m01`, defines `message_01`. */
  function AliasSource(): Node {
    Node(None, None, [], Holder(map["message_01" := Body(1)], ["m01"]), None, [])
  }

  /** `a_trait << {message_01: :a_new_name}`: a node over `a_trait` binding the new name to `message_01`'s body. */
  function AliasNode(): Node {
    Node(Some(0), None, [], Holder(map["a_new_name" := Body(1)], []), None, [])
  }

  /** `a_trait << {message_01: :a_new_name}` passes both name tests and binds `message_01`'s body. */
  method AliasedTrait() returns (rt: Runtime, r: Result<NodeId>)
    ensures fresh(rt) && rt.Valid() && rt.classes == []
    ensures r == Ok(1) && rt.nodes == [AliasSource(), AliasNode()]
  {
    rt := new Runtime();
    var t := rt.FromBlock(Holder(map["message_01" := Body(1)], ["m01"]));
    AliasSourceChecks(rt.nodes);
    r := rt.Alias(t, [("message_01", "a_new_name")]);
  }

  /** What `<<` checks and resolves on `a_trait`. */
  lemma AliasSourceChecks(nodes: seq<Node>)
    requires nodes == [AliasSource()]
    ensures WellFormed(nodes)
    ensures !NewNameDefined(nodes, 0, [("message_01", "a_new_name")])
    ensures !NewNameRequired(nodes, 0, [("message_01", "a_new_name")])
    ensures AliasBindings(nodes, 0, [("message_01", "a_new_name")]) == Ok(map["a_new_name" := Body(1)])
  {
    assert WellFormed(nodes);
    var none: seq<Name> := [];
    LeafLookup(nodes, 0, "message_01", none);
    assert [("message_01", "a_new_name")][..0] == [];
  }

  /**
   * A class that uses `a_trait << {message_01: :a_new_name}` and defines
   * `m01`: the new name runs `message_01`'s body, as does `message_01`
   * itself, and `m01` runs the class's own.
   */
  method AliasExample() returns (rt: Runtime, c: ClassId)
    ensures rt.Valid() && c < |rt.classes| && Below(rt.classes[c].traits, |rt.nodes|)
    ensures Send(rt.nodes, rt.classes[c], "a_new_name") == Ok(Body(1))
    ensures Send(rt.nodes, rt.classes[c], "message_01") == Ok(Body(1))
    ensures Send(rt.nodes, rt.classes[c], "m01") == Ok(Body(2))
  {
    var r;
    rt, r := AliasedTrait();
    c := rt.NewClass(map[]);
    ghost var before := rt.nodes;
    AliasUserTable(before, Attached(ClassState(None, map[], map[]), RequiredIn(before, Some(1)), DefinedIn(before, Some(1)))
                             ["m01" := UserDefined(Body(2))]);
    rt.ApplyTo(1, c);
    rt.DefineOnClass(c, "m01", Body(2));
    AliasUserCalls(rt.nodes, rt.classes[c]);
  }

  /** The method table of the class in the alias example. */
  lemma AliasUserTable(nodes: seq<Node>, own: map<Name, Entry>)
    requires nodes == [AliasSource(), AliasNode()] && WellFormed(nodes)
    requires own == Attached(ClassState(None, map[], map[]), RequiredIn(nodes, Some(1)), DefinedIn(nodes, Some(1)))
                      ["m01" := UserDefined(Body(2))]
    ensures "a_new_name" in own && own["a_new_name"] == Dispatcher
    ensures "message_01" in own && own["message_01"] == Dispatcher
  {
    LeafNames(nodes, 0);
    assert "m01" !in DefinedIn(nodes, Some(1)) && "a_new_name" in DefinedIn(nodes, Some(1));
    assert "a_new_name" !in RequiredIn(nodes, Some(1)) && "message_01" !in RequiredIn(nodes, Some(1));
  }

  /** The calls of the class in the alias example, over its tree `(a_trait << ...) + nil`. */
  lemma AliasUserCalls(nodes: seq<Node>, cls: ClassState)
    requires WellFormed(nodes) && |nodes| == 3
    requires nodes[0] == AliasSource() && Strip(nodes[1]) == AliasNode() && nodes[2] == Inner(1, None, [])
    requires cls.traits == Some(2)
    requires "a_new_name" in cls.own && cls.own["a_new_name"] == Dispatcher
    requires "message_01" in cls.own && cls.own["message_01"] == Dispatcher
    requires "m01" in cls.own && cls.own["m01"] == UserDefined(Body(2))
    ensures Send(nodes, cls, "a_new_name") == Ok(Body(1))
    ensures Send(nodes, cls, "message_01") == Ok(Body(1))
    ensures Send(nodes, cls, "m01") == Ok(Body(2))
  {
    var none: seq<Name> := [];
    LeafLookup(nodes, 0, "a_new_name", none);
    LookupStep(nodes, 1, "a_new_name", none);
    InnerLookup(nodes, 2, "a_new_name", none, none);
    assert Providers(nodes, Some(2), "a_new_name") == [1];
    LeafLookup(nodes, 0, "message_01", none);
    LookupStep(nodes, 1, "message_01", none);
    InnerLookup(nodes, 2, "message_01", none, none);
    assert Providers(nodes, Some(2), "message_01") == [0];
  }

  /** An alias whose new name the trait already defines is refused. */
  method AliasNameUsedExample() returns (r: Result<NodeId>)
    ensures r == Err(NameAlreadyUsed)
  {
    var rt := new Runtime();
    var t := rt.FromBlock(Holder(map["message_01" := Body(1), "message_02" := Body(2)], []));
    assert HasMethodRec(rt.nodes, Some(t), [("message_01", "message_02")][0].1);
    r := rt.Alias(t, [("message_01", "message_02")]);
  }

  /** An alias whose new name the trait requires is refused. */
  method AliasRequirementExample() returns (r: Result<NodeId>)
    ensures r == Err(MatchesRequirement)
  {
    var rt := new Runtime();
    var t := rt.FromBlock(Holder(map["message" := Body(1)], ["message01"]));
    var pairs := [("message", "message01")];
    assert !HasMethodRec(rt.nodes, Some(t), pairs[0].1);
    assert HasRequirementRec(rt.nodes, Some(t), pairs[0].1);
    r := rt.Alias(t, pairs);
  }

  /** A leaf built by `from_block` with the given bodies. */
  function Leaf(methods: map<Name, Impl>): Node {
    Node(None, None, [], Holder(methods, []), None, [])
  }

  /** A node built by `+`, or by `-` when `removed` is not empty, with an empty holder. */
  function Inner(left: NodeId, right: Option<NodeId>, removed: seq<Name>): Node {
    Node(Some(left), right, removed, EmptyHolder, None, [])
  }

  /**
   * The trees of the removal example: five leaves, then
   * `trait01 + (trait02 - :message_02) + ((trait03 + trait04) - :message_03) + trait05`
   * built left to right (node 10). Which classes a node was applied to is not compared.
   */
  predicate IsRemovalTree(nodes: seq<Node>) {
    && |nodes| >= 11
    && Strip(nodes[0]) == Leaf(map["message_01" := Body(1)])
    && Strip(nodes[1]) == Leaf(map["message_02" := Body(2)])
    && Strip(nodes[2]) == Leaf(map["message_02" := Body(3), "message_03" := Body(4)])
    && Strip(nodes[3]) == Leaf(map["message_03" := Body(5), "message_04" := Body(6)])
    && Strip(nodes[4]) == Leaf(map["message_03" := Body(7), "message_05" := Body(8)])
    && Strip(nodes[5]) == Inner(1, None, ["message_02"])
    && Strip(nodes[6]) == Inner(0, Some(5), [])
    && Strip(nodes[7]) == Inner(2, Some(3), [])
    && Strip(nodes[8]) == Inner(7, None, ["message_03"])
    && Strip(nodes[9]) == Inner(6, Some(8), [])
    && Strip(nodes[10]) == Inner(9, Some(4), [])
  }

  /** The arena once a class without traits used node 10: its tree is `node 10 + nil` (node 11). */
  predicate IsRemovalArena(nodes: seq<Node>) {
    IsRemovalTree(nodes) && |nodes| == 12 && Strip(nodes[11]) == Inner(10, None, [])
  }

  /** `lookup` at a childless node with no override: the node itself, unless the name is missing or removed. */
  lemma LeafLookup(nodes: seq<Node>, x: NodeId, name: Name, acc: seq<Name>)
    requires WellFormed(nodes) && x < |nodes| && IsLeaf(nodes[x]) && nodes[x].redefined.None?
    ensures Lookup(nodes, Some(x), name, acc) ==
            if name in nodes[x].holder.methods && name !in acc + nodes[x].removed then [x] else []
  {
    LookupStep(nodes, x, name, acc);
  }

  /** The names a childless node defines and requires are its holder's. */
  lemma LeafNames(nodes: seq<Node>, x: NodeId)
    requires WellFormed(nodes) && x < |nodes| && IsLeaf(nodes[x])
    ensures DefinedIn(nodes, Some(x)) == nodes[x].holder.methods.Keys
    ensures RequiredIn(nodes, Some(x)) == set n | n in nodes[x].holder.required
  {
    assert DefinedIn(nodes, None) == {} && RequiredIn(nodes, None) == {};
  }

  /** `lookup` at a node with an empty holder and no override: the walk of its operands. */
  lemma InnerLookup(nodes: seq<Node>, x: NodeId, name: Name, acc: seq<Name>, acc': seq<Name>)
    requires WellFormed(nodes) && x < |nodes| && nodes[x].holder == EmptyHolder && nodes[x].redefined.None?
    requires acc' == acc + nodes[x].removed
    ensures Lookup(nodes, Some(x), name, acc) ==
            Lookup(nodes, nodes[x].trait01, name, acc') + Lookup(nodes, nodes[x].trait02, name, acc')
  {
    LookupStep(nodes, x, name, acc);
  }

  /** The left part of the removal example, `trait01 + (trait02 - :message_02)`. */
  lemma RemovalWalkLeft(nodes: seq<Node>, name: Name)
    requires WellFormed(nodes) && IsRemovalArena(nodes)
    ensures Lookup(nodes, Some(6), name, []) ==
            Lookup(nodes, Some(0), name, []) + Lookup(nodes, Some(1), name, ["message_02"])
  {
    var none, m02 := [], ["message_02"];
    InnerLookup(nodes, 6, name, none, none);
    InnerLookup(nodes, 5, name, none, m02);
    assert Lookup(nodes, None, name, m02) == [];
  }

  /** The middle part of the removal example, `(trait03 + trait04) - :message_03`. */
  lemma RemovalWalkMiddle(nodes: seq<Node>, name: Name)
    requires WellFormed(nodes) && IsRemovalArena(nodes)
    ensures Lookup(nodes, Some(8), name, []) ==
            Lookup(nodes, Some(2), name, ["message_03"]) + Lookup(nodes, Some(3), name, ["message_03"])
  {
    var none, m03 := [], ["message_03"];
    InnerLookup(nodes, 8, name, none, m03);
    InnerLookup(nodes, 7, name, m03, m03);
    assert Lookup(nodes, None, name, m03) == [];
  }

  /** The walk of the removal example's tree, flattened to its leaves and the names removed above each. */
  lemma RemovalWalk(nodes: seq<Node>, name: Name)
    requires WellFormed(nodes) && IsRemovalArena(nodes)
    ensures Providers(nodes, Some(11), name) ==
        Lookup(nodes, Some(0), name, []) + Lookup(nodes, Some(1), name, ["message_02"])
        + Lookup(nodes, Some(2), name, ["message_03"]) + Lookup(nodes, Some(3), name, ["message_03"])
        + Lookup(nodes, Some(4), name, [])
  {
    var none := [];
    InnerLookup(nodes, 11, name, none, none);
    InnerLookup(nodes, 10, name, none, none);
    InnerLookup(nodes, 9, name, none, none);
    RemovalWalkLeft(nodes, name);
    RemovalWalkMiddle(nodes, name);
    var l0, l1 := Lookup(nodes, Some(0), name, []), Lookup(nodes, Some(1), name, ["message_02"]);
    var l2, l3 := Lookup(nodes, Some(2), name, ["message_03"]), Lookup(nodes, Some(3), name, ["message_03"]);
    var l4 := Lookup(nodes, Some(4), name, []);
    assert Lookup(nodes, Some(9), name, none) == (l0 + l1) + (l2 + l3);
    assert (l0 + l1) + (l2 + l3) == l0 + l1 + l2 + l3;
    assert Lookup(nodes, None, name, none) == [];
  }

  /** The providers in the removal example: each leaf defining the name, unless a `-` above it removed the name. */
  lemma RemovalLeaves(nodes: seq<Node>, name: Name)
    requires WellFormed(nodes) && IsRemovalArena(nodes)
    ensures Providers(nodes, Some(11), name) ==
      (if name in nodes[0].holder.methods then [0] else [])
      + (if name in nodes[1].holder.methods && name != "message_02" then [1] else [])
      + (if name in nodes[2].holder.methods && name != "message_03" then [2] else [])
      + (if name in nodes[3].holder.methods && name != "message_03" then [3] else [])
      + (if name in nodes[4].holder.methods then [4] else [])
  {
    RemovalWalk(nodes, name);
    LeafLookup(nodes, 0, name, []);
    LeafLookup(nodes, 1, name, ["message_02"]);
    LeafLookup(nodes, 2, name, ["message_03"]);
    LeafLookup(nodes, 3, name, ["message_03"]);
    LeafLookup(nodes, 4, name, []);
  }

  /** The holders of the removal example's leaves, read through the stripped nodes. */
  lemma RemovalHolders(nodes: seq<Node>)
    requires IsRemovalTree(nodes)
    ensures nodes[0].holder.methods == map["message_01" := Body(1)]
    ensures nodes[1].holder.methods == map["message_02" := Body(2)]
    ensures nodes[2].holder.methods == map["message_02" := Body(3), "message_03" := Body(4)]
    ensures nodes[3].holder.methods == map["message_03" := Body(5), "message_04" := Body(6)]
    ensures nodes[4].holder.methods == map["message_03" := Body(7), "message_05" := Body(8)]
  {
    assert nodes[0].holder == Strip(nodes[0]).holder && nodes[1].holder == Strip(nodes[1]).holder;
    assert nodes[2].holder == Strip(nodes[2]).holder && nodes[3].holder == Strip(nodes[3]).holder;
    assert nodes[4].holder == Strip(nodes[4]).holder;
  }

  /**
   * In the removal example, `- :message_02` hides `trait02`'s `message_02`,
   * so the call reaches `trait03`'s.
   */
  lemma RemovalExampleMessage02(nodes: seq<Node>)
    requires WellFormed(nodes) && IsRemovalArena(nodes)
    ensures Providers(nodes, Some(11), "message_02") == [2]
    ensures Dispatch(nodes, 11, "message_02") == Ok(Body(3))
  {
    RemovalHolders(nodes);
    RemovalLeaves(nodes, "message_02");
  }

  /**
   * In the removal example, `- :message_03` hides the `message_03` of both
   * `trait03` and `trait04`, so the call reaches `trait05`'s.
   */
  lemma RemovalExampleMessage03(nodes: seq<Node>)
    requires WellFormed(nodes) && IsRemovalArena(nodes)
    ensures Providers(nodes, Some(11), "message_03") == [4]
    ensures Dispatch(nodes, 11, "message_03") == Ok(Body(7))
  {
    RemovalHolders(nodes);
    RemovalLeaves(nodes, "message_03");
  }

  /** In the removal example, the names nothing removes reach their only definition. */
  lemma RemovalExampleOthers(nodes: seq<Node>)
    requires WellFormed(nodes) && IsRemovalArena(nodes)
    ensures Dispatch(nodes, 11, "message_01") == Ok(Body(1))
    ensures Dispatch(nodes, 11, "message_04") == Ok(Body(6))
    ensures Dispatch(nodes, 11, "message_05") == Ok(Body(8))
  {
    RemovalHolders(nodes);
    RemovalLeaves(nodes, "message_01");
    RemovalLeaves(nodes, "message_04");
    RemovalLeaves(nodes, "message_05");
  }

  /**
   * `Class.new do uses t; def required_method ... end end`: a fresh class
   * uses `t` and then defines `required_method` itself.
   */
  method UseWithRequired(rt: Runtime, t: NodeId) returns (c: ClassId)
    requires rt.Valid() && t < |rt.nodes|
    modifies rt
    ensures rt.Valid() && c == old(|rt.classes|)
    ensures rt.classes == old(rt.classes) + [ClassState(Some(old(|rt.nodes|)),
              Attached(ClassState(None, map[], map[]), old(RequiredIn(rt.nodes, Some(t))), old(DefinedIn(rt.nodes, Some(t))))
                ["required_method" := UserDefined(Body(3))], map[])]
    ensures |rt.nodes| == old(|rt.nodes|) + 1 && rt.nodes[old(|rt.nodes|)] == Inner(t, None, [])
    ensures rt.nodes[t] == old(rt.nodes[t]).(classesApplied := old(rt.nodes[t].classesApplied) + [c])
    ensures forall i :: 0 <= i < old(|rt.nodes|) && i != t ==> rt.nodes[i] == old(rt.nodes[i])
  {
    c := rt.NewClass(map[]);
    rt.ApplyTo(t, c);
    rt.DefineOnClass(c, "required_method", Body(3));
  }

  /** `a_trait`: requires `required_method` and defines `trait_method`, plus whatever was defined on it later. */
  function ATraitNode(methods: map<Name, Impl>): Node {
    Node(None, None, [], Holder(methods, ["required_method"]), None, [])
  }

  /**
   * The arena of the retroactive-definition example: `a_trait` (0), used
   * by classes 0 and 1, `another_trait` defining `new_method` (1), the roots
   * of the two classes that used `a_trait` (2, 3), `a_trait + another_trait`
   * (4), used by class 2, and that class's root (5).
   */
  predicate IsRetroArena(nodes: seq<Node>, methods: map<Name, Impl>) {
    && |nodes| == 6
    && nodes[0] == ATraitNode(methods).(classesApplied := [0, 1])
    && nodes[1] == Leaf(map["new_method" := Body(2)])
    && nodes[2] == Inner(0, None, []) && nodes[3] == Inner(0, None, [])
    && nodes[4] == Inner(0, Some(1), []).(classesApplied := [2])
    && nodes[5] == Inner(4, None, [])
  }

  /** `a_trait` with the classes in `applied` recorded on it. */
  function ATraitUsed(applied: seq<ClassId>): Node {
    ATraitNode(map["trait_method" := Body(1)]).(classesApplied := applied)
  }

  /** A class that used `a_trait` alone: `new_method` is not among its methods. */
  lemma UsedATraitAlone(nodes: seq<Node>, own: map<Name, Entry>)
    requires WellFormed(nodes) && |nodes| > 0 && Strip(nodes[0]) == ATraitNode(map["trait_method" := Body(1)])
    requires own == Attached(ClassState(None, map[], map[]), RequiredIn(nodes, Some(0)), DefinedIn(nodes, Some(0)))
                      ["required_method" := UserDefined(Body(3))]
    ensures "new_method" !in own
  {
    LeafNames(nodes, 0);
  }

  /** `class_01` uses `a_trait`. */
  method RetroactiveFirstClass() returns (rt: Runtime)
    ensures fresh(rt) && rt.Valid() && |rt.classes| == 1 && |rt.nodes| == 3
    ensures rt.nodes[0] == ATraitUsed([0]) && rt.nodes[1] == Leaf(map["new_method" := Body(2)])
    ensures rt.nodes[2] == Inner(0, None, [])
    ensures rt.classes[0].traits == Some(2) && "new_method" !in rt.classes[0].own
  {
    rt := RetroactiveTraits();
    ghost var before := rt.nodes;
    UsedATraitAlone(before, Attached(ClassState(None, map[], map[]), RequiredIn(before, Some(0)), DefinedIn(before, Some(0)))
                              ["required_method" := UserDefined(Body(3))]);
    var c1 := UseWithRequired(rt, 0);
  }

  /** `a_trait` and `another_trait`, before any class uses them. */
  method RetroactiveTraits() returns (rt: Runtime)
    ensures fresh(rt) && rt.Valid() && rt.classes == []
    ensures rt.nodes == [ATraitNode(map["trait_method" := Body(1)]), Leaf(map["new_method" := Body(2)])]
  {
    rt := new Runtime();
    var a := rt.FromBlock(Holder(map["trait_method" := Body(1)], ["required_method"]));
    var another := rt.FromBlock(Holder(map["new_method" := Body(2)], []));
  }

  /** `class_02` uses `a_trait` too, and defines `class_method`. */
  method RetroactiveSecondClass() returns (rt: Runtime)
    ensures fresh(rt) && rt.Valid() && |rt.classes| == 2 && |rt.nodes| == 4
    ensures rt.nodes[0] == ATraitUsed([0, 1]) && rt.nodes[1] == Leaf(map["new_method" := Body(2)])
    ensures rt.nodes[2] == Inner(0, None, []) && rt.nodes[3] == Inner(0, None, [])
    ensures rt.classes[0].traits == Some(2) && "new_method" !in rt.classes[0].own
    ensures rt.classes[1].traits == Some(3) && "new_method" !in rt.classes[1].own
  {
    rt := RetroactiveFirstClass();
    ghost var before := rt.nodes;
    UsedATraitAlone(before, Attached(ClassState(None, map[], map[]), RequiredIn(before, Some(0)), DefinedIn(before, Some(0)))
                              ["required_method" := UserDefined(Body(3))]);
    var c2 := UseWithRequired(rt, 0);
    rt.DefineOnClass(c2, "class_method", Body(4));
  }

  /** The three classes, before `new_method` is defined on `a_trait`. */
  method RetroactiveSetup() returns (rt: Runtime)
    ensures fresh(rt) && rt.Valid() && |rt.classes| == 3
    ensures IsRetroArena(rt.nodes, map["trait_method" := Body(1)])
    ensures rt.classes[0].traits == Some(2) && "new_method" !in rt.classes[0].own
    ensures rt.classes[1].traits == Some(3) && "new_method" !in rt.classes[1].own
    ensures rt.classes[2].traits == Some(5) && "new_method" in rt.classes[2].own
    ensures rt.classes[2].own["new_method"] == Dispatcher
  {
    rt := RetroactiveSum();
    var s := 4;
    ghost var before := rt.nodes;
    UsedSum(before, Attached(ClassState(None, map[], map[]), RequiredIn(before, Some(4)), DefinedIn(before, Some(4)))
                      ["required_method" := UserDefined(Body(3))]);
    var c3 := UseWithRequired(rt, s);
  }

  /** `a_trait + another_trait`, before `class_03` uses it. */
  method RetroactiveSum() returns (rt: Runtime)
    ensures fresh(rt) && rt.Valid() && |rt.classes| == 2 && |rt.nodes| == 5
    ensures rt.nodes[0] == ATraitUsed([0, 1]) && rt.nodes[1] == Leaf(map["new_method" := Body(2)])
    ensures rt.nodes[2] == Inner(0, None, []) && rt.nodes[3] == Inner(0, None, [])
    ensures rt.nodes[4] == Inner(0, Some(1), [])
    ensures rt.classes[0].traits == Some(2) && "new_method" !in rt.classes[0].own
    ensures rt.classes[1].traits == Some(3) && "new_method" !in rt.classes[1].own
  {
    rt := RetroactiveSecondClass();
    var s := rt.Sum(0, Some(1));
  }

  /** A class that used `a_trait + another_trait` calls `new_method` through a dispatcher. */
  lemma UsedSum(nodes: seq<Node>, own: map<Name, Entry>)
    requires WellFormed(nodes) && |nodes| == 5 && Strip(nodes[0]) == ATraitNode(map["trait_method" := Body(1)])
    requires nodes[1] == Leaf(map["new_method" := Body(2)]) && nodes[4] == Inner(0, Some(1), [])
    requires own == Attached(ClassState(None, map[], map[]), RequiredIn(nodes, Some(4)), DefinedIn(nodes, Some(4)))
                      ["required_method" := UserDefined(Body(3))]
    ensures "new_method" in own && own["new_method"] == Dispatcher
  {
    LeafNames(nodes, 0);
    LeafNames(nodes, 1);
    assert "new_method" in DefinedIn(nodes, Some(4));
  }

  /**
   * Defining methods on the traits after the classes used them: a name
   * `another_trait` already defines and a name `a_trait` requires are
   * refused; `new_method` on `a_trait` reaches the two classes that used
   * `a_trait` alone, while in the class that used the sum it now conflicts
   * with `another_trait`'s.
   */
  method RetroactiveDefineExample() returns (rt: Runtime, r1: Outcome, r2: Outcome, r3: Outcome)
    ensures r1 == Fail(NameAlreadyUsed) && r2 == Fail(MatchesRequirement) && r3 == Pass
    ensures rt.Valid() && |rt.classes| == 3
    ensures Send(rt.nodes, rt.classes[0], "new_method") == Ok(Body(5))
    ensures Send(rt.nodes, rt.classes[1], "new_method") == Ok(Body(5))
    ensures Send(rt.nodes, rt.classes[2], "new_method") == Err(UnresolvedConflict)
  {
    rt := RetroactiveSetup();
    RetroactiveNames(rt.nodes);
    r1 := rt.DefineMethod(1, "new_method", Body(6));
    r2 := rt.DefineMethod(0, "required_method", Body(7));
    r3 := rt.DefineMethod(0, "new_method", Body(5));
    RetroactiveCallAlone(rt.nodes, rt.classes[0], 2);
    RetroactiveCallAlone(rt.nodes, rt.classes[1], 3);
    RetroactiveCallSum(rt.nodes, rt.classes[2]);
  }

  /** What `define_method` checks on the two traits of the example. */
  lemma RetroactiveNames(nodes: seq<Node>)
    requires WellFormed(nodes) && IsRetroArena(nodes, map["trait_method" := Body(1)])
    ensures HasMethodRec(nodes, Some(1), "new_method")
    ensures !HasMethodRec(nodes, Some(0), "required_method") && HasRequirementRec(nodes, Some(0), "required_method")
    ensures !HasMethodRec(nodes, Some(0), "new_method") && !HasRequirementRec(nodes, Some(0), "new_method")
  {
  }

  /** A class whose tree is `a_trait + nil` runs `a_trait`'s `new_method`. */
  lemma RetroactiveCallAlone(nodes: seq<Node>, cls: ClassState, root: NodeId)
    requires WellFormed(nodes) && IsRetroArena(nodes, map["trait_method" := Body(1), "new_method" := Body(5)])
    requires root == 2 || root == 3
    requires cls.traits == Some(root) && "new_method" in cls.own && cls.own["new_method"] == Dispatcher
    ensures Send(nodes, cls, "new_method") == Ok(Body(5))
  {
    var none := [];
    LeafLookup(nodes, 0, "new_method", none);
    InnerLookup(nodes, root, "new_method", none, none);
  }

  /** The class whose tree is `(a_trait + another_trait) + nil` finds `new_method` twice. */
  lemma RetroactiveCallSum(nodes: seq<Node>, cls: ClassState)
    requires WellFormed(nodes) && IsRetroArena(nodes, map["trait_method" := Body(1), "new_method" := Body(5)])
    requires cls.traits == Some(5) && "new_method" in cls.own && cls.own["new_method"] == Dispatcher
    ensures Send(nodes, cls, "new_method") == Err(UnresolvedConflict)
  {
    var none := [];
    LeafLookup(nodes, 0, "new_method", none);
    LeafLookup(nodes, 1, "new_method", none);
    InnerLookup(nodes, 4, "new_method", none, none);
    InnerLookup(nodes, 5, "new_method", none, none);
    assert Providers(nodes, Some(5), "new_method") == [0, 1];
  }
}
