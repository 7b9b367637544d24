# Sierra libfunc specialization and the memory-management family, in Dafny

This project models two pieces of the Sierra intermediate representation's
library-function ("libfunc") machinery. The first is the specialization framework.
It resolves a generic libfunc id plus a list of generic arguments into a concrete
libfunc, and it resolves generic types against the program's declared concrete
types. The second is the memory-management family, which is the first worked
instance of that framework. It has six operations: `store_temp`, `align_temps`,
`store_local`, `alloc_locals`, `rename` and `move`. The model covers how each one
specializes and how each one simulates over memory cells.

Every operation in both source files is pure and total. Each returns a success value
or an error value, so the model is made of datatypes, functions and lemmas:

- `Wrappers`: `Option` and `Result`. `Result` works with `:-`, which plays the part of Rust's `?`.
- `Ids`, `Errors`: identifiers, generic arguments and the three error types.
- `LibFunc`: the specialization context and its type lookup, plus the adapters from
  `lib_func.rs` written as functions over a family's `by_id` and `specialize`:
  specialize-by-id, single fixed id, no generic arguments, and the non-branch signature.
- `Hierarchy`: what `define_libfunc_hierarchy!` and `define_concrete_libfunc_hierarchy!`
  generate, for a list of members given in declaration order. `by_id` is a first-match
  search. `specialize` and the concrete accessors dispatch to the active variant and tag
  the result with that variant's position.
- `CoreHelpers`: `unpack_inputs`, `single_cell_identity` and `MemCell`. The module that
  defines them is not part of this model. Their bodies are inferred from their names and
  call sites, and each is marked ASSUMED in the code.
- `Mem`: the six families. Each has a generic datatype with `ID`, `ById` and `Specialize`,
  and a concrete datatype with `NonBranchSimulate`. They are composed into `MemExtension`
  and `MemConcrete`, each written out as a datatype with one constructor per family.
  `ByIdIsFirstMatch` proves that the written-out `by_id` chain is the generic first-match
  dispatch. `SpecializeByIdOutcome` gives the whole specialize-by-id behaviour of the family.

## Model

| member | source | states |
|---|---|---|
| `LibFunc.SpecializationContext.GetConcreteType` | crates/sierra/src/extensions/lib_func.rs:17-27 | succeeds exactly when `(id, args)` is a declared key, and then returns the stored id; otherwise fails with `TypeWasNotDeclared` carrying the same id and args |
| `LibFunc.SpecializationContext.GetWrappedConcreteType` | crates/sierra/src/extensions/lib_func.rs:28-35 | is the lookup of `id` with the one-element argument list `[Type(wrapped)]`, succeeding exactly when that key is declared |
| `LibFunc.LookupAfterDeclarations` | crates/sierra/src/extensions/lib_func.rs:8-27 | after any sequence of type declarations, lookup fails exactly when no declaration has the key, and otherwise returns the id of the last declaration of that key |
| `LibFunc.SpecializeById` | crates/sierra/src/extensions/lib_func.rs:60-77 | an unclaimed id gives `LibFuncSpecialization(id, UnsupportedId)`; otherwise the result succeeds exactly when the family's specialize does, with its value unchanged, or carries the family's error verbatim; every error names the requested libfunc id |
| `LibFunc.NamedById` | crates/sierra/src/extensions/lib_func.rs:90-95 | a fixed-id family claims an id if and only if it equals its `ID`, and then yields its default value |
| `LibFunc.NoGenericArgsSpecialize` | crates/sierra/src/extensions/lib_func.rs:115-130 | any non-empty argument list is rejected with `WrongNumberOfGenericArgs`; the empty list gives exactly the zero-argument result |
| `LibFunc.NonBranchSignature.AsConcrete` | crates/sierra/src/extensions/lib_func.rs:147-159 | the concrete view keeps the input types, has the flat outputs as its one branch, and has fallthrough `Some(0)`, which names a branch |
| `LibFunc.NonBranchSignatureRoundTrip` | crates/sierra/src/extensions/lib_func.rs:142-159 | every single-branch signature with fallthrough 0 is the concrete view of exactly one flat signature |
| `Hierarchy.ById` | crates/sierra/src/extensions/lib_func.rs:227-234 | returns the first member in declaration order that claims the id, tagged with its position, with that member's value; returns none exactly when no member claims it |
| `Hierarchy.ByIdAt` | crates/sierra/src/extensions/lib_func.rs:227-234 | if member `k` claims the id and no earlier member does, dispatch reports variant `k` with member `k`'s value |
| `Hierarchy.ByIdFindsSoleOwner` | crates/sierra/src/extensions/lib_func.rs:227-234 | when at most one member claims the id, dispatch lands on a member exactly when that member claims the id |
| `Hierarchy.Specialize` | crates/sierra/src/extensions/lib_func.rs:235-248 | the active member specializes; success keeps the same variant tag and the member's concrete value, and a member error passes through unchanged |
| `Hierarchy.Signature` | crates/sierra/src/extensions/lib_func.rs:181-199 | each accessor of the aggregate concrete libfunc is the active variant's accessor applied to its value; `DispatchThenSignature` chains it after dispatch and specialization |
| `Hierarchy.DispatchThenSignature` | crates/sierra/src/extensions/lib_func.rs:181-248 | when member `k` alone claims the id: dispatch lands on variant `k`; specialization succeeds exactly when member `k`'s does, keeps tag `k`, or passes on its error; the result's accessors equal member `k`'s on its concrete value |
| `Hierarchy.NonBranchMembersGiveNonBranchAggregate` | crates/sierra/src/extensions/lib_func.rs:181-199 | the aggregate's forwarded accessors are non-branching (one branch, fallthrough 0) whichever variant is active, when every member's are |
| `CoreHelpers.CellsOf` | crates/sierra/src/extensions/core/mem.rs:72 | (assumed) succeeds exactly when every variable is one cell, and returns those cells in order |
| `CoreHelpers.UnpackInputs` | crates/sierra/src/extensions/core/mem.rs:72-73 | (assumed) succeeds exactly when there are `n` variables of one cell each, and returns their cells |
| `CoreHelpers.SingleCellIdentity` | crates/sierra/src/extensions/core/mem.rs:49 | (assumed) succeeds exactly when there are `n` single-cell variables, and then returns the input unchanged |
| `Mem.AsSingleType` | crates/sierra/src/extensions/core/mem.rs:22-28 | succeeds if and only if the argument list is `[Type(t)]`, returning `t`; the empty list, two or more arguments or a single `Value` give `UnsupportedGenericArg` |
| `Mem.StoreTempGeneric.ById` | crates/sierra/src/extensions/core/mem.rs:33-35 | the derived `by_id` claims an id exactly when it is `store_temp` |
| `Mem.AlignTempsGeneric.ById` | crates/sierra/src/extensions/core/mem.rs:56-58 | the derived `by_id` claims an id exactly when it is `align_temps` |
| `Mem.StoreLocalGeneric.ById` | crates/sierra/src/extensions/core/mem.rs:80-82 | the derived `by_id` claims an id exactly when it is `store_local` |
| `Mem.AllocLocalsGeneric.ById` | crates/sierra/src/extensions/core/mem.rs:103-105 | the derived `by_id` claims an id exactly when it is `alloc_locals` |
| `Mem.RenameGeneric.ById` | crates/sierra/src/extensions/core/mem.rs:125-127 | the derived `by_id` claims an id exactly when it is `rename` |
| `Mem.MoveGeneric.ById` | crates/sierra/src/extensions/core/mem.rs:148-150 | the derived `by_id` claims an id exactly when it is `move` |
| `Mem.AllocLocalsGeneric.SpecializeNoArgs` | crates/sierra/src/extensions/core/mem.rs:106-108 | the zero-argument body cannot fail and yields the empty concrete value; `AllocLocalsGeneric.Specialize` returns exactly it on `[]` |
| `Mem.StoreTempGeneric.Specialize` | crates/sierra/src/extensions/core/mem.rs:33-38 | succeeds exactly when `AsSingleType` does, and the concrete value records that type; fails only with `UnsupportedGenericArg` |
| `Mem.StoreTempConcrete.NonBranchSimulate` | crates/sierra/src/extensions/core/mem.rs:44-51 | succeeds exactly on one single-cell variable, and then outputs the input unchanged |
| `Mem.AlignTempsGeneric.Specialize` | crates/sierra/src/extensions/core/mem.rs:56-61 | demands exactly one type argument, records it, and fails with `UnsupportedGenericArg` otherwise |
| `Mem.AlignTempsConcrete.NonBranchSimulate` | crates/sierra/src/extensions/core/mem.rs:67-75 | succeeds exactly on zero input variables, and then outputs nothing |
| `Mem.StoreLocalGeneric.Specialize` | crates/sierra/src/extensions/core/mem.rs:80-85 | succeeds exactly when `AsSingleType` does, and the concrete value records that type; fails only with `UnsupportedGenericArg` |
| `Mem.StoreLocalConcrete.NonBranchSimulate` | crates/sierra/src/extensions/core/mem.rs:91-98 | succeeds exactly on one single-cell variable, and then outputs the input unchanged |
| `Mem.AllocLocalsGeneric.Specialize` | crates/sierra/src/extensions/core/mem.rs:103-108 | through the zero-argument adapter: succeeds exactly on the empty argument list, and otherwise fails with `WrongNumberOfGenericArgs` |
| `Mem.AllocLocalsConcrete.NonBranchSimulate` | crates/sierra/src/extensions/core/mem.rs:112-120 | succeeds exactly on zero input variables, and then outputs nothing |
| `Mem.RenameGeneric.Specialize` | crates/sierra/src/extensions/core/mem.rs:125-130 | succeeds exactly when `AsSingleType` does, and the concrete value records that type; fails only with `UnsupportedGenericArg` |
| `Mem.RenameConcrete.NonBranchSimulate` | crates/sierra/src/extensions/core/mem.rs:136-143 | succeeds exactly on one single-cell variable, and then outputs the input unchanged |
| `Mem.MoveGeneric.Specialize` | crates/sierra/src/extensions/core/mem.rs:148-153 | succeeds exactly when `AsSingleType` does, and the concrete value records that type; fails only with `UnsupportedGenericArg` |
| `Mem.MoveConcrete.NonBranchSimulate` | crates/sierra/src/extensions/core/mem.rs:159-166 | succeeds exactly on one single-cell variable, and then outputs the input unchanged |
| `Mem.FamilyIdsDistinct` | crates/sierra/src/extensions/core/mem.rs:11-20 | the six family names are pairwise distinct |
| `Mem.MemExtension.Specialize` | crates/sierra/src/extensions/core/mem.rs:11-20 | the result keeps the family's variant; it succeeds on `[]` for `alloc_locals` and on one type argument for every other family, and otherwise fails with that family's error (`WrongNumberOfGenericArgs` or `UnsupportedGenericArg`); a single-type result records the argument's type |
| `Mem.MemExtension.ById` | crates/sierra/src/extensions/core/mem.rs:11-20 | the generated `by_id` finds a family exactly for the six names, and the family found is the one named by the id; `ByIdIsFirstMatch` shows it is first-match dispatch |
| `Mem.MemExtension.SpecializeById` | crates/sierra/src/extensions/lib_func.rs:60-77 | over the memory family: unknown ids give `UnsupportedId`, every error names the requested id, and a result belongs to the family named by the id; `SpecializeByIdOutcome` adds each family's accepted arguments and errors |
| `Mem.MemConcrete.Simulate` | crates/sierra/src/extensions/core/mem.rs:11-20 | forwards to the active variant: the four pass-through variants return one single-cell input unchanged, and `align_temps`/`alloc_locals` return nothing for no input; every other shape is an `InputError` |
| `Mem.IdentitySimulationIgnoresType` | crates/sierra/src/extensions/core/mem.rs:44-166 | `store_temp`, `store_local`, `rename` and `move` simulate identically, whatever type each recorded |
| `Mem.MemberClaims` | crates/sierra/src/extensions/core/mem.rs:11-20 | the `k`-th member of the composition claims exactly the `k`-th family name and yields the `k`-th variant |
| `Mem.ByIdIsFirstMatch` | crates/sierra/src/extensions/lib_func.rs:227-234 | the written-out `MemExtension` `by_id` equals generic first-match dispatch over the six members, with the variant at its declared position |
| `Mem.ByIdExact` | crates/sierra/src/extensions/core/mem.rs:11-20 | because the names are distinct, `by_id` returns a family exactly for that family's own name, and nothing for any other id |
| `Mem.SpecializeByIdOutcome` | crates/sierra/src/extensions/lib_func.rs:60-77 | specialize-by-id over the memory family: unknown ids give `UnsupportedId`; `alloc_locals` accepts only `[]`, other families only one type argument, each rejecting with its own error; a result belongs to the family named by the id; every error names the id |
| `Mem.StoreTempScenario` | crates/sierra/src/extensions/core/mem.rs:33-51 | `store_temp` with `[Type(felt)]` specializes to a concrete value recording `felt`, which simulates `[[cell]]` to `[[cell]]` |
| `Mem.AllocLocalsRejectsArgs` | crates/sierra/src/extensions/core/mem.rs:100-109 | `alloc_locals` with `[Type(felt)]` fails with `WrongNumberOfGenericArgs`, attributed to `alloc_locals` |

## Left out

- Rust mechanics are not modelled: hashing, lifetimes, borrowing of the map and the slices, `Clone`/`Default` derivations, `into()` conversions and macro expansion itself. The map is a Dafny `map`. The generated enums are written out as datatypes.
- `FunctionMap`, `Function` and the `functions` field of the context are left out. `lib_func.rs` never reads them.
- Identifiers are modelled as their names and compared by name. The generic argument `Value` carries an unbounded integer. `ids.rs`, `program.rs` and `error.rs` are not part of this model.
- `InputError`'s two variants (`WrongNumberOfArgs`, `MemoryLayoutMismatch`) and which of them each helper raises are assumptions. The contracts of the memory family only say that a wrong shape is an error.
- `unpack_inputs` and `single_cell_identity` are not part of this model. `CoreHelpers` gives them bodies inferred from their names and call sites. In particular, every variable is taken to occupy exactly one cell. A pass-through could also be read as accepting a variable of any non-empty number of cells. The model follows the helper's name `single_cell_identity` and takes exactly one cell.
- `MemCell` is an opaque type with equality. There is no cell arithmetic.
- `mem.rs` builds on the `*Extension` traits (`NamedExtension`, `NoGenericArgsGenericExtension`, `NonBranchConcreteExtension`, `define_extension_hierarchy!`), whose definitions are not part of this model. They are modelled as the analogues of the `lib_func.rs` traits. The zero-argument body of `alloc_locals` returns a value rather than a `Result`, so it enters the adapter as `Ok(value)`.
- The memory families' `specialize` takes no context, so `MemExtension.SpecializeById` ignores its context argument.
- The concrete memory libfuncs' `input_types`/`output_types`/`fallthrough` are left out, because `mem.rs` does not define them. `NonBranchConcreteExtension`, which may wrap `non_branch_simulate` into branches, is defined outside `mem.rs` and `lib_func.rs` and is not part of this model. The model stops at the flat simulation result.
- `Hierarchy` gives all members one value type. In the generated Rust enum, each variant has its own type.
- `Hierarchy.Specialize` and `Hierarchy.Signature` are reference definitions of what the macros generate. `Hierarchy.DispatchThenSignature` connects them to `Hierarchy.ById`. No lemma equates them with the written-out `MemExtension.Specialize` or `MemConcrete.Simulate`; only `by_id` is linked that way, by `Mem.ByIdIsFirstMatch`.
- Error display and diagnostic formatting are left out. Nothing in the code is concurrent.
