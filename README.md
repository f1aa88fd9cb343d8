# Traits for Ruby classes — a Dafny model

This project models the composition and resolution engine of a small Ruby
traits library. A `Trait` is a node of a binary tree: a leaf built by
`Trait.from_block` owns an anonymous holder module with the methods it
defines and the names it `requires`; `a + b` builds a node over both
operands, `a - m` a node over `a` that removes `m`, and `a << {old => new}`
a node over `a` whose own holder binds aliases. `lookup` walks a tree to
find the nodes that provide a method name, honouring removals and the
per-node override node that `redefine_method` creates. A class that `uses`
a trait gets a requirement stub for every required name it lacks and a
dispatcher for every defined name it does not define itself; a dispatcher
re-runs `lookup` on each call and runs the single provider's body, or
raises when there is none or more than one.

The model has six modules:

- `TraitTypes` (`types.dfy`): names, bodies, holders, trait nodes, class
  method tables and the engine's errors.
- `Resolution` (`resolution.dfy`): the read-only walks over an arena of
  nodes — `lookup`, `has_method_rec`, `has_requirement_rec`,
  `composition`, `get_implementation(s)`, the dispatcher, `has_trait` —
  and reference definitions (pre-order enumeration, subtree, defined and
  required names) to state them against.
- `LookupFacts` (`lookup_facts.dfy`): what the walks mean, how `+` and `-`
  change them, and that they only read what they should.
- `MethodTable` (`method_table.dfy`): the method table of a class after
  stubs and dispatchers are installed, and what a call on it runs.
- `Engine` (`engine.dfy`): class `Runtime`, holding every trait node and
  every class, whose methods are the operations that allocate nodes or
  update nodes and classes in place: `Trait.new`, `from_block`, `+`, `-`,
  `<<`, `define_method`, `redefine_method`, `apply_to` and its helpers.
  Nodes are shared by id, so a change made through one tree is seen by
  every tree that holds the node.
- `Scenarios` (`scenarios.dfy`): the behaviours the repository's own
  examples describe, proved on concrete trees.

Five behaviours of the code are easy to miss, and the model keeps them:

- `redefine_method` with no provider does not fail; it installs a body that
  calls the block zero times.
- `apply_to` records the class on the applied node only, not on the nodes
  below it, so a later `define_method` on an inner node does not refresh
  that class.
- The providers a redefinition combines are captured when
  `redefine_method` runs, not when the method is called.
- The requirement test of `<<` and `define_method` reads the `requires`
  list of the root node only; below the root it asks only whether a node
  defines the name.
- The name test of `<<` does not look at override nodes: an alias whose new
  name an override node below the trait defines succeeds, and calling the
  new name is then an unresolved conflict between the alias and the override.

## Model

| member | source | states |
|---|---|---|
| Resolution.Lookup | lib/trait.rb:35-50 | every node `lookup` returns is a node of the arena whose holder defines the name |
| LookupFacts.LookupIsPreOrder | lib/trait.rb:35-50 | with no removal or override of the name in the tree, `lookup` returns exactly the nodes defining the name, in pre-order (node, then left operand, then right operand) |
| LookupFacts.LookupDependsOnlyOnMembership | lib/trait.rb:39-46 | `lookup` depends on the accumulated removed list only through whether it contains the name |
| LookupFacts.OwnRemovedIsRedundant | lib/trait.rb:39 | passing a node its own removed list as the starting list, as every caller does, changes nothing |
| LookupFacts.LookupEmpty | lib/trait.rb:35-50 | with no override in the tree, a name an ancestor removed, or one no node of the tree defines, has no provider |
| LookupFacts.HasMethodRecMeansSomeHolder | lib/trait.rb:158-164 | `has_method_rec` holds exactly when some node of the tree defines the name; removals and overrides are not consulted |
| LookupFacts.RequirementCheckSeesOnlyRoot | lib/trait.rb:166-172 | `has_requirement_rec` holds exactly when the root's `requires` list holds the name or the name is among those the holders of an operand's tree define |
| LookupFacts.RequirementBelowRootMissed | lib/trait.rb:166-172 | on `t - :x` over a leaf requiring `m` and defining nothing, `m` is required in the tree but the requirement test does not see it |
| LookupFacts.HasTraitIsLeafOfTree | lib/trait.rb:265-267 | `has_trait` fails for a class with no tree; otherwise it holds exactly for the childless nodes of the class's tree |
| LookupFacts.GetImplementationIsTheOnlyImplementation | lib/trait.rb:145-156 | `get_implementation` succeeds exactly when `get_implementations` has one body, and returns it; it reports a missing method for none and a conflict for more than one |
| Resolution.Composition | lib/trait.rb:100-110 | `composition` is non-empty exactly for a non-empty tree, and lists only childless nodes of the tree |
| LookupFacts.CompositionIsLeaves | lib/trait.rb:100-110 | a node is in `composition` exactly when it is a childless node of the tree |
| LookupFacts.SumProviders | lib/trait.rb:113-115 | the providers of `a + b` are those of `a` followed by those of `b` |
| LookupFacts.RemoveKeepsOtherNames | lib/trait.rb:117-120 | `a - m` leaves the providers of every other name unchanged |
| LookupFacts.RemoveHidesName | lib/trait.rb:117-120 | without overrides of `m` in `a`, `a - m` has no provider of `m` |
| LookupFacts.RemoveKeepsOverride | lib/trait.rb:40 | removing `m` above a node whose override defines `m` does not hide the override |
| LookupFacts.DispatchAgreesWithGetImplementation | lib/trait.rb:61-80 | the dispatcher and `get_implementation` succeed on the same trees with the same body, and fail for the same reasons under their own messages |
| LookupFacts.SumConflicts | lib/trait.rb:67-74 | if both operands of a sum provide the name, calling it is an unresolved conflict |
| LookupFacts.SumResolvesSingleProvider | lib/trait.rb:67-68 | if exactly one operand provides the name, once, the sum dispatches to that provider |
| LookupFacts.SelfSumConflicts | lib/trait.rb:113-115 | `t + t` conflicts with itself on every name `t` resolves |
| LookupFacts.LookupFrame | lib/trait.rb:35-50 | `lookup` reads only the operands, removed lists, holders and override holders of the tree's nodes, so recording classes on nodes or appending nodes does not change it |
| MethodTable.WithDispatchers | lib/trait.rb:61-80 | installing dispatchers keeps every name the class defines itself and adds a dispatcher for each other name |
| MethodTable.WithStubs | lib/trait.rb:91-97 | installing stubs keeps every name the class defines and adds a stub for each required name it neither defines nor inherits |
| MethodTable.WithDispatchersUnion | lib/trait.rb:53-59 | installing dispatchers node by node is installing them for all names of the tree at once |
| MethodTable.WithStubsUnion | lib/trait.rb:83-89 | installing stubs node by node is installing them for all required names of the tree at once |
| MethodTable.WithStubsStep | lib/trait.rb:92-95 | one more required name adds a stub exactly when the class neither has nor inherits it |
| MethodTable.RefreshedIdempotent | lib/trait.rb:183-185 | refreshing a class twice with the same holder is refreshing it once |
| MethodTable.AttachedSend | lib/trait.rb:22-32 | after `apply_to`: a method the class wrote and an earlier stub stay as they were; an earlier dispatcher now resolves through the new tree; a required name the class lacks raises the requirement error even when the tree defines it, since stubs go in first; another defined name resolves through the new tree; anything else is unchanged |
| Engine.Runtime.NewTrait | lib/trait.rb:3-14 | `Trait.new` appends a node with the given operands, holder and removed list, no override and no classes, and changes nothing already there |
| Engine.Runtime.FromBlock | lib/trait.rb:16-20 | `from_block` yields a leaf that is its own composition and the only provider of exactly the names its block defines |
| Engine.Runtime.Sum | lib/trait.rb:113-115 | `a + b` is a fresh node; its providers, leaves, defined and required names are those of `a` followed by those of `b` |
| Engine.Runtime.Remove | lib/trait.rb:117-120 | `a - m` is a fresh node over `a` alone removing `a`'s list plus `m`; every other name keeps its providers; without overrides `m` has none |
| Engine.AliasBindingsSucceed | lib/trait.rb:137-139 | the aliases resolve exactly when every original name resolves to a single provider |
| Engine.AliasBindingsKeys | lib/trait.rb:137-139 | a successful alias binds exactly the new names |
| Engine.AliasBindingsValue | lib/trait.rb:137-139 | each new name is bound to what its last pair's original name resolves to |
| Engine.AliasBindingsError | lib/trait.rb:137-156 | a failed alias reports the error of the first original name that does not resolve |
| Engine.AliasBindingsPrefixFails | lib/trait.rb:137-139 | once an original name fails, later pairs do not change the outcome |
| Engine.Runtime.Alias | lib/trait.rb:123-143 | `<<` fails, allocating nothing, if a new name is defined in the tree, else if it passes the requirement test, else with the first resolution error; otherwise it appends one node over the trait holding the bindings, and calling a new name on it runs what its last original name resolved to, unless an override node below the trait defines the new name |
| Engine.AliasCallRunsBinding | lib/trait.rb:136-140 | on the node `<<` appends, calling a new name that no holder of the trait defines and no override below it defines runs the body bound to it |
| Engine.AliasCallRunsOriginal | lib/trait.rb:136-140 | after a successful `<<`, calling a new name runs what its last original name resolved to on the trait when the alias was made |
| Engine.AliasCallsRunOriginals | lib/trait.rb:136-140 | the same for every new name of the alias at once |
| Engine.AliasOverOverrideConflicts | lib/trait.rb:126-131 | aliasing `m` to `a` on a trait whose override node defines `a` passes both name tests, yet calling `a` on the new node is an unresolved conflict |
| Engine.Runtime.DefineMethod | lib/trait.rb:175-188 | `define_method` fails, changing nothing, if the name is defined in the tree or passes the requirement test; otherwise only this node's holder gains it and exactly the classes applied to this node are refreshed |
| Engine.Runtime.AddToHolder | lib/trait.rb:182 | the node's holder gains the name; no other node and no class changes |
| Engine.Runtime.RedefineMethod | lib/trait.rb:191-203 | the override node is created on first use, childless, requiring nothing and with no classes; only its holder changes, gaining a body combining the providers found now unless it already has the name; creating it touches no class; afterwards the node dispatches the name to that body when it does not remove the name |
| Engine.Runtime.OverrideNode | lib/trait.rb:192-194 | the override node exists afterwards, is childless and created after the node, and creating it does not change the providers `get_implementations` sees |
| Engine.CapturedProvidersUnchanged | lib/trait.rb:192-195 | an empty override node changes no provider |
| Engine.Runtime.ApplyMethodsTo | lib/trait.rb:61-80 | the class gains a dispatcher for each name of this node's holder it does not define itself, and nothing else changes |
| Engine.Runtime.AddRequiredMethods | lib/trait.rb:91-97 | the class gains a stub for each name this node requires that it neither defines nor inherits |
| Engine.Runtime.ApplyMethods | lib/trait.rb:53-59 | walking the tree installs dispatchers for exactly the names the tree defines |
| Engine.Runtime.ApplyRequirements | lib/trait.rb:83-89 | walking the tree installs stubs for exactly the names the tree requires |
| Engine.Runtime.ApplyTo | lib/trait.rb:22-32 | `apply_to` (and `uses`) makes the class's tree `t + old tree`, records the class on `t` alone, installs the stubs then the dispatchers, and the new tree's leaves and providers are `t`'s then the old tree's |
| Engine.Runtime.AttachTree | lib/trait.rb:23-28 | the class's tree becomes `t + old tree`, with `t`'s leaves and providers first, and `t` records the class |
| Engine.Runtime.RecordApplied | lib/trait.rb:28 | the class is appended to this node's applied classes and nothing a walk reads changes |
| Engine.Runtime.NewClass | lib/trait.rb:273-275 | a class starts without a trait tree and without methods of its own |
| Engine.Runtime.DefineOnClass | spec/trait_spec.rb:176-178 | a method the class defines itself is what a call runs |
| Scenarios.ConflictingTraits | spec/trait_spec.rb:90-104 | two traits each holding its own body of `message`, summed: the sum defines only `message`, requires nothing, and its providers of `message` are the two traits, left first |
| Scenarios.ConflictExample | spec/trait_spec.rb:90-110 | calling `message` on a class using the sum is an unresolved conflict |
| Scenarios.ConflictingCall | spec/trait_spec.rb:106-109 | a dispatcher over two providers raises the conflict error |
| Scenarios.RedefineExample | spec/trait_spec.rb:399-431 | redefining `message` on the conflicting class's tree succeeds, and a call then runs the block over trait_01's body and then trait_02's |
| Scenarios.OneTraitExample | spec/trait_spec.rb:6-15 | a class using one trait has that trait |
| Scenarios.UsesLeaf | lib/trait.rb:100-110 | a class whose tree is a single trait over nothing has that trait |
| Scenarios.SummedTraitsExample | spec/trait_spec.rb:17-29 | a class using `trait01 + trait02` has both traits |
| Scenarios.UsesSumOfTwo | lib/trait.rb:100-110 | the leaves of a sum of two childless traits are the two traits, so a class over it has both |
| Scenarios.ThreeTraitsExample | spec/trait_spec.rb:31-46 | a class using `trait01 + trait02 + trait03` has all three |
| Scenarios.UsesSumOfThree | lib/trait.rb:100-110 | a class over `(t1 + t2) + t3` has all three childless traits |
| Scenarios.RetroactiveDefineExample | spec/trait_spec.rb:336-397 | after three classes used the traits, `define_method` refuses a name `another_trait` defines and a name `a_trait` requires; `new_method` defined on `a_trait` then runs in the two classes that used `a_trait` alone and is a conflict in the class that used the sum |
| Scenarios.RetroactiveSetup | spec/trait_spec.rb:337-377 | the three classes' trees and method tables before the definition: only the class using the sum has a dispatcher for `new_method` |
| Scenarios.UseWithRequired | spec/trait_spec.rb:351-357 | a class that uses a trait and defines `required_method` gets the trait's stubs and dispatchers, then its own `required_method`; only the used node records it |
| Scenarios.UsedATraitAlone | spec/trait_spec.rb:351-357 | a class that used `a_trait` alone has no entry for `new_method` |
| Scenarios.UsedSum | spec/trait_spec.rb:370-376 | the class that used `a_trait + another_trait` has a dispatcher for `new_method` |
| Scenarios.RetroactiveNames | lib/trait.rb:175-181 | `new_method` is already used in `another_trait`; `required_method` is not defined but is required in `a_trait`; `new_method` is neither in `a_trait` |
| Scenarios.RetroactiveCallAlone | lib/trait.rb:183-185 | once `a_trait` defines `new_method`, a refreshed class over `a_trait` alone runs it |
| Scenarios.RetroactiveCallSum | lib/trait.rb:67-74 | in the class over `a_trait + another_trait` both traits now provide `new_method`, so calling it is a conflict |
| Scenarios.RemovalExampleMessage02 | spec/trait_spec.rb:112-158 | in `t1 + (t2 - :message_02) + ((t3 + t4) - :message_03) + t5`, `message_02` resolves to trait03's body only |
| Scenarios.RemovalExampleMessage03 | spec/trait_spec.rb:112-158 | in the same tree `message_03` resolves to trait05's body only |
| Scenarios.RemovalExampleOthers | spec/trait_spec.rb:148-157 | in the same tree `message_01`, `message_04` and `message_05` reach their only definitions |
| Scenarios.RemovalLeaves | spec/trait_spec.rb:148-150 | the providers in that tree are the leaves defining the name, minus those under a `-` of the name |
| Scenarios.RequirementExample | spec/trait_spec.rb:160-186 | a class using a trait that requires `m01` and `m02` and defining only `m01`: `message_01` runs, `m02` raises the requirement error |
| Scenarios.CallsAfterUse | spec/trait_spec.rb:173-185 | the calls of that class as a lemma over its method table |
| Scenarios.AliasedTrait | spec/trait_spec.rb:217-227 | `a_trait << {message_01: :a_new_name}` succeeds and appends one node binding `a_new_name` to `message_01`'s body |
| Scenarios.AliasSourceChecks | lib/trait.rb:123-139 | on that trait the new name is neither defined nor required, and the binding resolves to `message_01`'s body |
| Scenarios.AliasExample | spec/trait_spec.rb:217-236 | a class using the aliased trait and defining `m01`: `a_new_name` and `message_01` run `message_01`'s body and `m01` runs the class's own |
| Scenarios.AliasUserTable | spec/trait_spec.rb:226-232 | that class has dispatchers for `a_new_name` and `message_01` |
| Scenarios.AliasUserCalls | spec/trait_spec.rb:233-235 | over its tree the alias node is the only provider of `a_new_name`, and `a_trait` the only provider of `message_01` |
| Scenarios.AliasNameUsedExample | spec/trait_spec.rb:188-201 | aliasing to a name the trait defines fails with the name-in-use error |
| Scenarios.AliasRequirementExample | spec/trait_spec.rb:203-215 | aliasing to a name the trait requires fails with the requirement error |

## Left out

- Ruby metaprogramming is not modelled: a method body is an opaque value
  (`Body(id)`), and the body `redefine_method` installs is the value
  `Resolver(block, providers)`; binding a body to an instance and running
  it, and so the arguments and return values of calls, are not modelled.
- The exception classes are not modelled: `NameError` and `NoMethodError`
  are one `Error` value per message text.
- `<<` in Ruby allocates the new node before resolving the original names
  and drops it when one fails; the model allocates the node only on success.
  No reference to the dropped node escapes, so nothing observable differs.
- `Class#uses` is `ApplyTo`; `set_trait` and `traits` are assignments to and
  reads of a class's `traits` field and have no member of their own.
- `get_aux_module`, `requires` and `get_required_methods` are the `Holder`
  value: `requires` appends to its `required` list and `from_block` takes
  the finished holder.
- Method visibility, `instance_methods(true)` beyond the class's own and
  inherited maps, and classes that inherit traits from a superclass are not
  modelled.
- Holder modules are held by value in each node, whereas Ruby holds them by
  reference, so two traits built on one module would share later additions.
  The model assumes holders are unshared, as every `Trait.new` call in the
  library creates a fresh module or passes the one `from_block` just made.
- Scenarios.RemovalLeaves and the other removal lemmas take the tree as an
  arena of the given shape rather than building it through `Runtime`.
