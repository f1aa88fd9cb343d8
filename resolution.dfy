/**
 * The read-only half of `Trait`: the tree walks over the arena of trait
 * nodes (`lookup`, `has_method_rec`, `has_requirement_rec`, `composition`),
 * the 1/0/many rule of `get_implementation` and of the dispatcher a class
 * receives, and what a call on an instance of a class runs.
 */
module Resolution {
  import opened TraitTypes

  /** Termination measure: every child was built before its parent. */
  function Rank(t: Option<NodeId>): nat {
    if t.None? then 0 else t.value + 1
  }

  predicate Below(t: Option<NodeId>, bound: nat) {
    t.None? || t.value < bound
  }

  predicate IsLeaf(n: Node) {
    n.trait01.None? && n.trait02.None?
  }

  /**
   * An override node exists, is childless and requires nothing: it is always
   * a bare `Trait.new` with a fresh auxiliary module.
   */
  predicate OverrideOk(nodes: seq<Node>, r: Option<NodeId>) {
    r.Some? ==> r.value < |nodes| && IsLeaf(nodes[r.value]) && nodes[r.value].holder.required == []
  }

  /**
   * The shape every reachable arena has: the operands of a node were
   * created before it, and its override node is a childless node created
   * after it.
   */
  predicate WellFormed(nodes: seq<Node>) {
    forall i :: 0 <= i < |nodes| ==>
      && Below(nodes[i].trait01, i) && Below(nodes[i].trait02, i) && OverrideOk(nodes, nodes[i].redefined)
      && (nodes[i].redefined.Some? ==> i < nodes[i].redefined.value)
  }

  /** `has_method_rec`: some holder in the tree defines the name (removals and overrides are not consulted). */
  function HasMethodRec(nodes: seq<Node>, t: Option<NodeId>, name: Name): bool
    requires WellFormed(nodes) && Below(t, |nodes|)
    decreases Rank(t)
  {
    t.Some? &&
    (name in nodes[t.value].holder.methods
     || HasMethodRec(nodes, nodes[t.value].trait01, name)
     || HasMethodRec(nodes, nodes[t.value].trait02, name))
  }

  /** On a childless node `has_method_rec` asks only its own holder. */
  lemma LeafHasMethod(nodes: seq<Node>, x: NodeId, name: Name)
    requires WellFormed(nodes) && x < |nodes| && IsLeaf(nodes[x])
    ensures HasMethodRec(nodes, Some(x), name) <==> name in nodes[x].holder.methods
  {
    assert !HasMethodRec(nodes, None, name);
  }

  /**
   * `has_requirement_rec`: the root's own `requires` list holds the name, or a
   * child tree DEFINES it (the children are asked `has_method_rec`).
   */
  function HasRequirementRec(nodes: seq<Node>, t: Option<NodeId>, name: Name): bool
    requires WellFormed(nodes) && Below(t, |nodes|)
  {
    t.Some? &&
    (name in nodes[t.value].holder.required
     || HasMethodRec(nodes, nodes[t.value].trait01, name)
     || HasMethodRec(nodes, nodes[t.value].trait02, name))
  }

  /**
   * `lookup`: the nodes that provide `name` in the tree `t`, given the names
   * removed by the ancestors. An override of the node short-circuits the
   * search unless the node's OWN removed list names it; the node's holder
   * counts unless the ACCUMULATED list names it; then both operands follow.
   */
  function Lookup(nodes: seq<Node>, t: Option<NodeId>, name: Name, removedAcc: seq<Name>): (r: seq<NodeId>)
    requires WellFormed(nodes) && Below(t, |nodes|)
    ensures forall k :: 0 <= k < |r| ==> r[k] < |nodes| && name in nodes[r[k]].holder.methods
    decreases Rank(t)
  {
    if t.None? then []
    else
      var n := nodes[t.value];
      var acc := removedAcc + n.removed;
      if n.redefined.Some? && HasMethodRec(nodes, n.redefined, name) && name !in n.removed then
        LeafHasMethod(nodes, n.redefined.value, name);
        [n.redefined.value]
      else if name in n.holder.methods && name !in acc then
        [t.value] + Lookup(nodes, n.trait01, name, acc) + Lookup(nodes, n.trait02, name, acc)
      else
        Lookup(nodes, n.trait01, name, acc) + Lookup(nodes, n.trait02, name, acc)
  }

  function RemovedOf(nodes: seq<Node>, t: Option<NodeId>): seq<Name>
    requires Below(t, |nodes|)
  {
    if t.None? then [] else nodes[t.value].removed
  }

  /** `lookup(t, name, t.removed_methods)`, the form every caller uses. */
  function Providers(nodes: seq<Node>, t: Option<NodeId>, name: Name): seq<NodeId>
    requires WellFormed(nodes) && Below(t, |nodes|)
  {
    Lookup(nodes, t, name, RemovedOf(nodes, t))
  }

  /** `get_implementation`: the single provider's body, or why there is none. */
  function GetImplementation(nodes: seq<Node>, t: NodeId, name: Name): Result<Impl>
    requires WellFormed(nodes) && t < |nodes|
  {
    var ps := Providers(nodes, Some(t), name);
    if |ps| > 1 then Err(UnresolvedConflict)
    else if |ps| == 0 then Err(MethodNotFound)
    else Ok(nodes[ps[0]].holder.methods[name])
  }

  /** `get_implementations`: the bodies of all providers, in lookup order. */
  function GetImplementations(nodes: seq<Node>, t: NodeId, name: Name): seq<Impl>
    requires WellFormed(nodes) && t < |nodes|
  {
    var ps := Providers(nodes, Some(t), name);
    seq(|ps|, k requires 0 <= k < |ps| => nodes[ps[k]].holder.methods[name])
  }

  /** The dispatcher installed on a class: it re-runs the lookup on every call. */
  function Dispatch(nodes: seq<Node>, root: NodeId, name: Name): Result<Impl>
    requires WellFormed(nodes) && root < |nodes|
  {
    var ps := Providers(nodes, Some(root), name);
    if |ps| == 1 then Ok(nodes[ps[0]].holder.methods[name])
    else if |ps| == 0 then Err(NoImplementation)
    else Err(UnresolvedConflict)
  }

  /** What calling `name` on an instance of the class runs. */
  function Send(nodes: seq<Node>, cls: ClassState, name: Name): Result<Impl>
    requires WellFormed(nodes) && Below(cls.traits, |nodes|)
  {
    if name in cls.own then
      match cls.own[name]
      case UserDefined(impl) => Ok(impl)
      case RequirementStub => Err(RequiredMethodMissing)
      case Dispatcher => if cls.traits.Some? then Dispatch(nodes, cls.traits.value, name) else Err(NoTraitsApplied)
    else if name in cls.inherited then Ok(cls.inherited[name])
    else Err(UndefinedMethod)
  }

  /** The ids of the nodes of a tree (operands only; override nodes are not part of it). */
  ghost function Subtree(nodes: seq<Node>, t: Option<NodeId>): (s: set<NodeId>)
    requires WellFormed(nodes) && Below(t, |nodes|)
    ensures forall x :: x in s ==> x < |nodes|
    decreases Rank(t)
  {
    if t.None? then {}
    else {t.value} + Subtree(nodes, nodes[t.value].trait01) + Subtree(nodes, nodes[t.value].trait02)
  }

  /**
   * `composition`: the leaves of the tree, left operand first. Every one of
   * them is a childless node of the tree, and only the empty tree has none.
   */
  function Composition(nodes: seq<Node>, t: Option<NodeId>): (r: seq<NodeId>)
    requires WellFormed(nodes) && Below(t, |nodes|)
    ensures t.Some? <==> |r| > 0
    ensures forall k :: 0 <= k < |r| ==> r[k] in Subtree(nodes, t) && IsLeaf(nodes[r[k]])
    decreases Rank(t)
  {
    if t.None? then []
    else if IsLeaf(nodes[t.value]) then [t.value]
    else Composition(nodes, nodes[t.value].trait01) + Composition(nodes, nodes[t.value].trait02)
  }

  /** `Class#has_trait`: the node is one of the leaves of the class's tree. */
  function HasTrait(nodes: seq<Node>, cls: ClassState, t: NodeId): Result<bool>
    requires WellFormed(nodes) && Below(cls.traits, |nodes|)
  {
    if cls.traits.None? then Err(NoTraitsApplied)
    else Ok(t in Composition(nodes, cls.traits))
  }

  /** The names the holders of the tree define: what `apply_methods` installs. */
  ghost function DefinedIn(nodes: seq<Node>, t: Option<NodeId>): set<Name>
    requires WellFormed(nodes) && Below(t, |nodes|)
    decreases Rank(t)
  {
    if t.None? then {}
    else nodes[t.value].holder.methods.Keys
         + DefinedIn(nodes, nodes[t.value].trait01) + DefinedIn(nodes, nodes[t.value].trait02)
  }

  /** The names the holders of the tree require: what `apply_requirements` installs. */
  ghost function RequiredIn(nodes: seq<Node>, t: Option<NodeId>): set<Name>
    requires WellFormed(nodes) && Below(t, |nodes|)
    decreases Rank(t)
  {
    if t.None? then {}
    else (set n | n in nodes[t.value].holder.required)
         + RequiredIn(nodes, nodes[t.value].trait01) + RequiredIn(nodes, nodes[t.value].trait02)
  }

  /** The node's override node defines the name. */
  predicate Overrides(nodes: seq<Node>, x: NodeId, name: Name)
    requires WellFormed(nodes) && x < |nodes|
  {
    nodes[x].redefined.Some? && name in nodes[nodes[x].redefined.value].holder.methods
  }

  /** No node of the tree has an override for the name. */
  ghost predicate OverrideFree(nodes: seq<Node>, t: Option<NodeId>, name: Name)
    requires WellFormed(nodes) && Below(t, |nodes|)
  {
    forall x :: x in Subtree(nodes, t) ==> !Overrides(nodes, x, name)
  }

  /** No node of the tree lists the name as removed. */
  ghost predicate RemovalFree(nodes: seq<Node>, t: Option<NodeId>, name: Name)
    requires WellFormed(nodes) && Below(t, |nodes|)
  {
    forall x :: x in Subtree(nodes, t) ==> name !in nodes[x].removed
  }

  /** Reference enumeration: every node of the tree, the node before its operands. */
  function PreOrder(nodes: seq<Node>, t: Option<NodeId>): (r: seq<NodeId>)
    requires WellFormed(nodes) && Below(t, |nodes|)
    ensures forall k :: 0 <= k < |r| ==> r[k] < |nodes|
    decreases Rank(t)
  {
    if t.None? then []
    else [t.value] + PreOrder(nodes, nodes[t.value].trait01) + PreOrder(nodes, nodes[t.value].trait02)
  }

  /** The entries of `s` that are nodes of the arena whose holder defines the name, in order. */
  function Defining(nodes: seq<Node>, s: seq<NodeId>, name: Name): (r: seq<NodeId>)
    ensures forall k :: 0 <= k < |r| ==> r[k] < |nodes| && name in nodes[r[k]].holder.methods
  {
    if s == [] then []
    else (if s[0] < |nodes| && name in nodes[s[0]].holder.methods then [s[0]] else []) + Defining(nodes, s[1..], name)
  }
}
