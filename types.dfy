/**
 * Values of the trait engine: method names, implementations, the holder
 * module every trait node owns, the trait nodes themselves, and the
 * method table of a class the traits are applied to.
 */
module TraitTypes {

  /** Method names are Ruby symbols; they are compared by identity only. */
  type Name = string

  /** A trait node is identified by its position in the arena of all nodes. */
  type NodeId = nat

  /** A class that uses traits is identified by its position among all classes. */
  type ClassId = nat

  datatype Option<T> = None | Some(value: T)

  /**
   * The distinct exceptions the engine raises, one per message text, plus the
   * two `NoMethodError`s the host raises when a class has no such method or
   * no trait tree at all.
   */
  datatype Error =
    | NoImplementation       // "No implementation for such method"
    | UnresolvedConflict     // "There's an unresolved conflict with the method"
    | MethodNotFound         // "Unexpected error, method not found"
    | NameAlreadyUsed        // "One of the new method names is already being used"
    | MatchesRequirement     // "One of the new method names matches that of a requirement"
    | RequiredMethodMissing  // "One of the required methods is not defined for the class"
    | UndefinedMethod        // the class neither defines nor inherits the method
    | NoTraitsApplied        // `@traits` of the class is nil

  datatype Result<T> = Ok(value: T) | Err(error: Error)

  datatype Outcome = Pass | Fail(error: Error)

  /**
   * A method body, kept opaque. `Body(id)` is a body written by the user;
   * `Resolver(block, providers)` is the body `redefine_method` installs: it
   * calls the user's block once per captured provider, in order.
   */
  datatype Impl = Body(id: nat) | Resolver(block: nat, providers: seq<Impl>)

  /** The anonymous module behind a trait: its methods and its `requires` list. */
  datatype Holder = Holder(methods: map<Name, Impl>, required: seq<Name>)

  /** A fresh auxiliary module: no methods, nothing required. */
  const EmptyHolder := Holder(map[], [])

  /**
   * One `Trait` object. `trait01`/`trait02` are the operands of `+` (or the
   * operand of `-` and `<<`), `removed` the `@removed_methods` list,
   * `redefined` the lazily created override node and `classesApplied` the
   * classes `apply_to` was called with on this very node.
   */
  datatype Node = Node(
    trait01: Option<NodeId>,
    trait02: Option<NodeId>,
    removed: seq<Name>,
    holder: Holder,
    redefined: Option<NodeId>,
    classesApplied: seq<ClassId>)

  /** What a class has under a method name it defines itself. */
  datatype Entry =
    | UserDefined(impl: Impl)  // written in the class body
    | RequirementStub          // raises RequiredMethodMissing when called
    | Dispatcher               // resolves through the class's trait tree when called

  /**
   * A class as the engine sees it: its `@traits` tree, the methods it defines
   * itself (`instance_methods(false)`) and those it inherits.
   */
  datatype ClassState = ClassState(
    traits: Option<NodeId>,
    own: map<Name, Entry>,
    inherited: map<Name, Impl>)
}
