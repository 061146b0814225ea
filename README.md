# FlowLogicRef factory and dummy contract of a Corda node, in Dafny

This project models two pieces of a Corda node and proves properties about them.

**The FlowLogicRef factory** (`FlowLogicRefFactoryImpl`) converts in both directions between a
flow class plus constructor arguments and a symbolic `FlowLogicRef`. A `FlowLogicRef` holds a
class name, an application context and a map from parameter names to values.
- `create` matches positional arguments against every constructor. Exactly one constructor may
  match.
- `createKotlin` and `toFlowLogic` look a constructor up by parameter names. The first constructor
  in declaration order that can be built wins.

Reflection is replaced by explicit data:
- a flow class is a list of constructor descriptors in declaration order;
- each parameter has a name, a generic Java type, an erased class, an optional flag and a nullable flag;
- a class table answers `isAssignableFrom`;
- class loading is a map from class names to flow classes;
- "constructing" a flow returns the chosen constructor with its parameter bindings.

The loops of the source are methods with loops, proved against specification predicates:
- the `single { }` search in `create` and its per-constructor `for`/`continue` loop;
- `buildParams`, which fills the `params` map and the `usedKeys` set;
- `createConstructor`, which returns at the first constructor that builds.

**The dummy contract** (`DummyContract`) is a test contract. It has single- and multi-owner
states, `Create` and `Move` commands, a `verify` that accepts everything, and the builders
`generateInitial` and `move`. Keys, parties and hashes are opaque values. The transaction builder
is a record of notary, inputs, outputs and commands.

Files:
- `outcomes.dfy`: `Option` and `Result`.
- `jvm_types.dfy`: primitive and wrapper classes (Guava's `Primitives.wrap`/`unwrap`) and
  assignability over a class table.
- `flow_logic_ref_factory.dfy`: the factory.
- `dummy_contract.dfy`: the contract.

Three behaviours of the code a reader may not expect:
- Resolution has no separate "unused argument" error. A map with an unused key makes every
  constructor fail, and the result is the same "could not find matching constructor" error as
  any other mismatch.
- `create` also fails after a unique positional match when no constructor can be built from the
  resulting name map. `createKotlin` checks this before `create` returns.
- `DummyContract.verify` accepts every transaction, including a `Move` signed by a key other than
  the owner's.

## Model

| member | source | states |
|---|---|---|
| `JvmTypes.UnboxedKind` | node/src/main/kotlin/net/corda/node/services/statemachine/FlowLogicRefFactoryImpl.kt:128 | a recognised wrapper name is the box of the primitive returned |
| `JvmTypes.UnboxedKindOfBox` | node/src/main/kotlin/net/corda/node/services/statemachine/FlowLogicRefFactoryImpl.kt:128 | every wrapper class name unboxes to its own primitive |
| `JvmTypes.Wrap` | node/src/main/kotlin/net/corda/node/services/statemachine/FlowLogicRefFactoryImpl.kt:46 | boxing always yields a reference class and leaves reference classes unchanged |
| `JvmTypes.Unwrap` | node/src/main/kotlin/net/corda/node/services/statemachine/FlowLogicRefFactoryImpl.kt:128 | unboxing leaves primitives unchanged and yields a primitive only from that primitive's wrapper |
| `JvmTypes.WrapUnwrapInverse` | node/src/main/kotlin/net/corda/node/services/statemachine/FlowLogicRefFactoryImpl.kt:46 | wrap/unwrap is a bijection between primitives and wrappers: unwrap(wrap(p)) = p, and wrap(unwrap(c)) = c for reference classes |
| `JvmTypes.UnwrapIsPrimitiveExactly` | node/src/main/kotlin/net/corda/node/services/statemachine/FlowLogicRefFactoryImpl.kt:128 | a class unwraps to primitive p iff it is p's wrapper, so there is no widening |
| `JvmTypes.AssignableReflexive` | node/src/main/kotlin/net/corda/node/services/statemachine/FlowLogicRefFactoryImpl.kt:51 | every class is assignable from itself |
| `JvmTypes.AssignableTransitive` | node/src/main/kotlin/net/corda/node/services/statemachine/FlowLogicRefFactoryImpl.kt:130 | over a well-formed hierarchy, assignability is transitive |
| `JvmTypes.PrimitiveAcceptsOnlyItself` | node/src/main/kotlin/net/corda/node/services/statemachine/FlowLogicRefFactoryImpl.kt:51 | a primitive class is assignable only from itself |
| `FlowLogicRefFactory.JavaClassOf` | node/src/main/kotlin/net/corda/node/services/statemachine/FlowLogicRefFactoryImpl.kt:42 | the runtime class of a value is never primitive |
| `FlowLogicRefFactory.ArgTypes` | node/src/main/kotlin/net/corda/node/services/statemachine/FlowLogicRefFactoryImpl.kt:42 | one argument type per argument: absent exactly for null arguments, and the argument's runtime class otherwise |
| `FlowLogicRefFactory.MatchesArgTypes` | node/src/main/kotlin/net/corda/node/services/statemachine/FlowLogicRefFactoryImpl.kt:46-53 | a constructor matches iff the arity is equal and every non-null argument's class is assignable to the boxed parameter class; null is a wildcard |
| `FlowLogicRefFactory.MatchTrichotomy` | node/src/main/kotlin/net/corda/node/services/statemachine/FlowLogicRefFactoryImpl.kt:43-59 | exactly one holds: no match, an ambiguous match, or a unique match |
| `FlowLogicRefFactory.SingleMatching` | node/src/main/kotlin/net/corda/node/services/statemachine/FlowLogicRefFactoryImpl.kt:44-54 | succeeds iff exactly one constructor matches and returns it; "more than one" iff two match; "none" iff none match |
| `FlowLogicRefFactory.ArgsMapUpToBindsPositions` | node/src/main/kotlin/net/corda/node/services/statemachine/FlowLogicRefFactoryImpl.kt:62 | with distinct names, the zipped map's keys are the parameter names and the i-th name maps to the i-th argument |
| `FlowLogicRefFactory.ArgsMapBindsPositions` | node/src/main/kotlin/net/corda/node/services/statemachine/FlowLogicRefFactoryImpl.kt:62 | the same, for the whole parameter list of a same-arity constructor |
| `FlowLogicRefFactory.ParameterAssignableFromRawClass` | node/src/main/kotlin/net/corda/node/services/statemachine/FlowLogicRefFactoryImpl.kt:125-137 | a type accepts a value iff it has a raw class and that class accepts it: a primitive takes only its exact wrapper, a class takes subclasses, type arguments are ignored, other kinds of type reject |
| `FlowLogicRefFactory.ParamCanBeBuilt` | node/src/main/kotlin/net/corda/node/services/statemachine/FlowLogicRefFactoryImpl.kt:119-123 | records the looked-up value, possibly null; accepts every value for a nullable parameter, otherwise only a non-null assignable value |
| `FlowLogicRefFactory.TryBuildParam` | node/src/main/kotlin/net/corda/node/services/statemachine/FlowLogicRefFactoryImpl.kt:113-117 | satisfied iff optional and absent, or present and (non-null assignable or nullable); records a binding exactly when the name is present |
| `FlowLogicRefFactory.BuildParams` | node/src/main/kotlin/net/corda/node/services/statemachine/FlowLogicRefFactoryImpl.kt:96-111 | returns bindings iff every parameter is satisfied and every map key is a parameter name; the bindings map each present parameter's position to its value; an unused key means no bindings |
| `FlowLogicRefFactory.FirstBuilding` | node/src/main/kotlin/net/corda/node/services/statemachine/FlowLogicRefFactoryImpl.kt:88-92 | the index returned builds and no earlier constructor builds; none is returned only when no constructor builds |
| `FlowLogicRefFactory.Resolution` | node/src/main/kotlin/net/corda/node/services/statemachine/FlowLogicRefFactoryImpl.kt:87-94 | succeeds iff some constructor builds, then with the first such one and its bindings; otherwise fails with "could not find matching constructor" |
| `FlowLogicRefFactory.CreateConstructor` | node/src/main/kotlin/net/corda/node/services/statemachine/FlowLogicRefFactoryImpl.kt:87-94 | the loop with early return computes exactly the first-match resolution |
| `FlowLogicRefFactory.CreateKotlin` | node/src/main/kotlin/net/corda/node/services/statemachine/FlowLogicRefFactoryImpl.kt:72-79 | succeeds iff resolution would succeed, without constructing anything; the ref has the class name, an empty context and exactly the given map |
| `FlowLogicRefFactory.Create` | node/src/main/kotlin/net/corda/node/services/statemachine/FlowLogicRefFactoryImpl.kt:37-64 | ambiguous match or no match fail with their own errors; success needs a unique match; after a unique match the result is createKotlin on the map zipping that constructor's names with the arguments |
| `FlowLogicRefFactory.ToFlowLogic` | node/src/main/kotlin/net/corda/node/services/statemachine/FlowLogicRefFactoryImpl.kt:81-85 | rejects refs of another class, reports an unknown class name, and otherwise resolves the ref's map by first match |
| `FlowLogicRefFactory.NullableAcceptsAnyPresentValue` | node/src/main/kotlin/net/corda/node/services/statemachine/FlowLogicRefFactoryImpl.kt:122 | a nullable parameter present in the map is satisfied whatever the value's class |
| `FlowLogicRefFactory.NullOnNonNullableParameter` | node/src/main/kotlin/net/corda/node/services/statemachine/FlowLogicRefFactoryImpl.kt:122 | a null argument on a non-nullable parameter means the matched constructor cannot be built from the map `create` makes |
| `FlowLogicRefFactory.ResolutionUsesEveryArgument` | node/src/main/kotlin/net/corda/node/services/statemachine/FlowLogicRefFactoryImpl.kt:96-111 | a successful resolution binds every map entry, with its value, to a parameter, and every binding carries the map's value |
| `FlowLogicRefFactory.MatchedArgumentsRoundTrip` | node/src/main/kotlin/net/corda/node/services/statemachine/FlowLogicRefFactoryImpl.kt:62-63 | the map from the matched constructor binds names positionally, and a successful resolution of it binds every entry |
| `FlowLogicRefFactory.CreateThenResolve` | node/src/main/kotlin/net/corda/node/services/statemachine/FlowLogicRefFactoryImpl.kt:37-85 | round trip: a ref that create returns resolves; the ref binds the matched constructor's names to the positional arguments; the resolved constructor binds every entry |
| `FlowLogicRefFactory.CreationAndResolutionDisagree` | node/src/main/kotlin/net/corda/node/services/statemachine/FlowLogicRefFactoryImpl.kt:44-92 | an argument list can match exactly one constructor for create, while resolving the resulting map picks an earlier constructor whose nullable parameter accepts the value |
| `FlowLogicRefFactory.StrictCreationLenientResolution` | node/src/main/kotlin/net/corda/node/services/statemachine/FlowLogicRefFactoryImpl.kt:44-92 | `(x: Int)`/`(x: Long?)` with a null argument is ambiguous for create, yet `x -> null` resolves to the second; when two constructors both build, resolution takes the first |
| `Contracts.SingleOwnerState.Participants` | core/src/main/kotlin/net/corda/core/contracts/DummyContract.kt:19-20 | a single-owner state has exactly one participant, its owner |
| `Contracts.SingleOwnerState.WithNewOwner` | core/src/main/kotlin/net/corda/core/contracts/DummyContract.kt:22 | yields a `Move` command and a copy whose owner (and only participant) is the new key; magic number and contract are kept |
| `Contracts.MultiOwnerState.Participants` | core/src/main/kotlin/net/corda/core/contracts/DummyContract.kt:33 | the participants are exactly the owners, in order |
| `Contracts.Verify` | core/src/main/kotlin/net/corda/core/contracts/DummyContract.kt:41-43 | every transaction is accepted |
| `Contracts.GenerateInitial` | core/src/main/kotlin/net/corda/core/contracts/DummyContract.kt:47-56 | no inputs and one output under the given notary, with the given magic number; one `Create` command signed by all owners' keys in order; a single-owner state iff there are no other owners, else a multi-owner state over all keys |
| `Contracts.GenerateInitialSignersAreParticipants` | core/src/main/kotlin/net/corda/core/contracts/DummyContract.kt:47-56 | the `Create` command's signers are exactly the created state's participants |
| `Contracts.MoveAll` | core/src/main/kotlin/net/corda/core/contracts/DummyContract.kt:59-68 | fails iff there are no priors; otherwise inputs are all priors' refs in order, the notary is the first prior's, the only command is `Move` signed by the first prior's owner, and the only output is that state re-owned by the new key |
| `Contracts.MoveOne` | core/src/main/kotlin/net/corda/core/contracts/DummyContract.kt:58 | equals moving the one-element list; always succeeds, consuming that one prior |
| `Contracts.MoveTransfersOwnership` | core/src/main/kotlin/net/corda/core/contracts/DummyContract.kt:59-68 | after a move the output's only participant is the new owner, the only signer is the old owner, and magic number and contract are preserved |
| `Contracts.WithNewOwnerLaws` | core/src/main/kotlin/net/corda/core/contracts/DummyContract.kt:22 | re-owning to the current owner is the identity, and two re-ownings equal the last one |
| `Contracts.Defaults` | core/src/main/kotlin/net/corda/core/contracts/DummyContract.kt:10-32 | both state kinds default the magic number to 0 and name `DUMMY_PROGRAM_ID`, whose reference defaults to `sha256("")` |

## Left out

- Reflection is replaced by explicit descriptors. This covers `kotlin.constructors`, `javaConstructor`, `KParameter`, `javaType` and `isMarkedNullable`. The order of `constructors` is taken to be declaration order.
- Class loading is a name → class map passed to `ToFlowLogic`. This covers `Class.forName` with the context's class loader. The context's attachments play no part in it. An unknown name yields `ClassNotFound`. The `ClassCastException` from `asSubclass` is not modelled, because the map holds only flow classes.
- `callBy` is not executed. A successful resolution returns the chosen constructor and its bindings. Running the flow's constructor body, and any exception it throws, is outside the model.
- ToFlowLogic: `Ok` means that `createConstructor`'s validation passed, not that construction succeeded. The type check that `callBy` itself makes on each argument is dropped, and `paramCanBeBuilt` lets a value of any class through to a nullable parameter, where `callBy` would then throw `IllegalArgumentException`. In `CreateThenResolve`, "resolves" has this meaning, and the resolved constructor can differ from the one `create` matched (`CreationAndResolutionDisagree` shows such a class).
- Bindings are keyed by parameter position rather than by `KParameter` object. Every parameter has a name. Constructors of inner classes, whose outer-instance parameter has no name, are not modelled.
- Exception messages are structured `Reason` values. The argument types or the map are kept; the message text is not.
- Guava's `Primitives` is written out as the nine primitive/wrapper pairs. Array classes, and arrays in `isAssignableFrom`, are not modelled. `TypeVariable`, `WildcardType` and `GenericArrayType` carry no bounds, because `parameterAssignableFrom` rejects them whatever their bounds.
- `SecureHash.sha256` is symbolic (`Sha256Of`). `PublicKey`, `Party` and `PartyAndReference` are opaque records.
- `TransactionBuilder.withItems` is reduced to appending to inputs, outputs and commands. Its other checks and bookkeeping are not modelled: the check that an input's notary equals the builder's, the signer list it keeps, and transaction types.
- The magic number is a 32-bit integer. No operation does arithmetic on it, so wrap-around does not arise.
- `Contracts.Verify` is modelled as accepting everything, as the source does. Signature-based rejection of `Move` is not part of this contract.
- The schema service (NodeSchemaService.kt, SchemaService.kt) and the `StartableByRPC` annotation are not part of this model. They are ORM delegation and an annotation declaration with no behaviour.
- The flow state-machine engine, checkpoints, messaging and notary consensus are not part of this model.
