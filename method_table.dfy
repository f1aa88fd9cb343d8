/**
 * The method table of a class that uses traits, as `apply_to` leaves it:
 * requirement stubs for the required names the class lacks, then
 * dispatchers for the defined names the class does not define itself.
 */
module MethodTable {
  import opened TraitTypes
  import opened Resolution

  /**
   * The table after `apply_methods_to`-style installation of dispatchers for
   * `names`: a name the class already defines itself keeps its entry.
   */
  function WithDispatchers(own: map<Name, Entry>, names: set<Name>): (r: map<Name, Entry>)
    ensures r.Keys == own.Keys + names
    ensures forall n :: n in own ==> r[n] == own[n]
    ensures forall n :: n in r && n !in own ==> r[n] == Dispatcher
  {
    map n | n in own.Keys + names :: if n in own then own[n] else Dispatcher
  }

  /**
   * The table after `add_required_methods`-style installation of stubs for
   * `names`: a name the class defines or inherits is left alone.
   */
  function WithStubs(own: map<Name, Entry>, inherited: map<Name, Impl>, names: set<Name>): (r: map<Name, Entry>)
    ensures r.Keys == own.Keys + (names - inherited.Keys)
    ensures forall n :: n in own ==> r[n] == own[n]
    ensures forall n :: n in r && n !in own ==> r[n] == RequirementStub
  {
    map n | n in own.Keys + (names - inherited.Keys) :: if n in own then own[n] else RequirementStub
  }

  /** Installing dispatchers in two rounds is installing them for both sets at once. */
  lemma WithDispatchersUnion(own: map<Name, Entry>, a: set<Name>, b: set<Name>)
    ensures WithDispatchers(WithDispatchers(own, a), b) == WithDispatchers(own, a + b)
  {
    var lhs, rhs := WithDispatchers(WithDispatchers(own, a), b), WithDispatchers(own, a + b);
    assert forall n :: n in lhs ==> lhs[n] == rhs[n];
  }

  /** Installing stubs in two rounds is installing them for both sets at once. */
  lemma WithStubsUnion(own: map<Name, Entry>, inherited: map<Name, Impl>, a: set<Name>, b: set<Name>)
    ensures WithStubs(WithStubs(own, inherited, a), inherited, b) == WithStubs(own, inherited, a + b)
  {
    var lhs, rhs := WithStubs(WithStubs(own, inherited, a), inherited, b), WithStubs(own, inherited, a + b);
    assert forall n :: n in lhs ==> lhs[n] == rhs[n];
  }

  /** One more required name: a stub unless the table or the inherited methods have it. */
  lemma WithStubsStep(own: map<Name, Entry>, inherited: map<Name, Impl>, s: seq<Name>, n: Name)
    ensures var before := WithStubs(own, inherited, set m | m in s);
      WithStubs(own, inherited, set m | m in s + [n]) ==
        if n in before || n in inherited then before else before[n := RequirementStub]
  {
    assert (set m | m in s + [n]) == (set m | m in s) + {n};
  }

  /** The class after `apply_methods_to` ran for a holder defining `names`. */
  function Refreshed(cls: ClassState, names: set<Name>): ClassState {
    cls.(own := WithDispatchers(cls.own, names))
  }

  /** Refreshing twice with the same names is refreshing once. */
  lemma RefreshedIdempotent(cls: ClassState, names: set<Name>)
    ensures Refreshed(Refreshed(cls, names), names) == Refreshed(cls, names)
  {
    WithDispatchersUnion(cls.own, names, names);
    assert names + names == names;
  }

  /** The table after `apply_requirements` and then `apply_methods` for one tree. */
  function Attached(cls: ClassState, required: set<Name>, defined: set<Name>): map<Name, Entry> {
    WithDispatchers(WithStubs(cls.own, cls.inherited, required), defined)
  }

  /**
   * What a call on the class runs once a tree requiring `required` and
   * defining `defined` is attached with root `root`: the class's own
   * methods win; a required name the class neither defines nor inherits
   * raises the requirement error even when the tree defines it, since the
   * stub is installed first; a defined name otherwise resolves through the
   * new root; anything else behaves as before.
   */
  lemma AttachedSend(
    nodes: seq<Node>, cls: ClassState, root: NodeId, required: set<Name>, defined: set<Name>, name: Name)
    requires WellFormed(nodes) && root < |nodes| && Below(cls.traits, |nodes|)
    ensures var after := ClassState(Some(root), Attached(cls, required, defined), cls.inherited);
      && (name in cls.own && !cls.own[name].Dispatcher? ==> Send(nodes, after, name) == Send(nodes, cls, name))
      && (name in cls.own && cls.own[name].Dispatcher? ==> Send(nodes, after, name) == Dispatch(nodes, root, name))
      && (name !in cls.own && name in required && name !in cls.inherited ==>
            Send(nodes, after, name) == Err(RequiredMethodMissing))
      && (name !in cls.own && (name !in required || name in cls.inherited) && name in defined ==>
            Send(nodes, after, name) == Dispatch(nodes, root, name))
      && (name !in cls.own && (name !in required || name in cls.inherited) && name !in defined ==>
            Send(nodes, after, name) == Send(nodes, cls, name))
  {
  }
}
