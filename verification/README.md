# Nia backend verification

Nia is a compiler written in Rust. This project models the parts of its backend where a wrong step silently produces wrong code, and proves what they promise. Dafny verifies everything; nothing here executes the compiler.

The parts, in the compiler's own terms:

- **Types.** `Types` has interned types as values and the two comparison procedures of the compiler, one that pairs associated-type bindings greedily and one that backtracks, both decided by one canonical form. `Bindings` is the backtracking search over a `used` array for any comparison. `Substitution` has simultaneous substitution, with the trait solver as a parameter, and the key of a type where type parameters, `Self`, length parameters and const parameters stand for given keys. `Comparison` is semantic type comparison as the compiler runs it, which instantiates both sides anew at every level.
- **Pattern matching.** `Matching` walks an extension pattern against an actual type and grows a substitution; `Matcher` is the same in place, with one mutable substitution and a marked array. `Fillings` are patterns with a value chosen at each const position that a pattern leaves open.
- **Instantiation.** `Scopes` rebuilds a generic scope from positional arguments. `Instantiation` is instantiation without a cache, with its stack of active projections; `Memo` is the cached version, an object whose cache every call may fill; `Halting` says when both halt; `Resolution` says that they keep the meaning of types, in every interpretation of projections that the solver's answers are true of; `Aliases` says what they make of a foreign type alias.
- **C calling conventions.** `CTypes` flattens C values to scalar leaves, `SysV64` classifies eightbytes and forms machine parts (section 3.2.3 of the System V AMD64 psABI), `SysV64Calls` hands out registers over a whole parameter list, `I386` expands small structs.
- **Dead-function elimination.** `DeadFunctions` is the two-sorted worklist and the sweep.
- **Publication.** `Readiness` is the module store shared by concurrent publishers and one consumer, as interleaved atomic steps of any number of threads.
- **Ownership and finalization.** `Paths`, `Owners` and `InstanceOwners` give each generic instance and vtable one owner; `Collector` joins finalized modules in source order.
- **Materialization.** `Instances` is the bounded function-instance worklist, `Fixpoint` the mutual fixed point over functions, instances, globals and vtables, and `PolymorphicRecursion` what it does with functions that instantiate themselves without end. `ForeignRouting` sorts references that modules forward by the modules that declare them, and `WholeProgram` is the fixed point over all modules.
- **Partitioning.** `Sorting`, `Partition` and `PartitionPlan` split modules into code-generation units and order them.
- **Syntax identities.** `Terms` is the notation and why it is uniquely readable, `Syntax` the syntax trees and declaration equality, `Identity` the theorem connecting them, `IdentityWriter` the writers that append to a buffer, `Brackets` the bracket arguments that are an expression or a type.
- **Static initializers.** `StaticInits` is simplification against a typed denotation.
- `Collections` and `Options` hold what several modules share.

`dafny verify dfyconfig.toml` checks the project.

## What the proofs found

- Array lengths of the form builtin-of-type are looked into by matching but left alone by instantiation. So a successful match against a concrete type instantiates back to it if and only if no such operand in the pattern holds a generic (`Matching.MatchAgainstConcrete`, with `Matching.GenericLengthIsNotInstantiated` as the instance).
- Matching can miss an instance of its pattern. A part of the pattern that has generics, all of them bound, is instantiated and compared as a whole; every other part is walked, and so are parts without any generic. Matching finds the instance if and only if no walked pointer has an unsized pointee in it and no walked projection has an answer of the solver (`Matching.MatchIsComplete`). A const parameter in the pattern matches every value in a walked part, at each place its own (`Matching.OpenValueMatches`), but a part that is compared as a whole keeps it as a parameter: `Buf[T, N]` matches `Buf[u, 4]` while `T` is unbound and misses it once `T` is bound (`Matching.BoundPartIsCompared`). The instances are the pointer `*T` and a slice, and the projection `<T as Tr>::A` and what it resolves to; both are missed while `T` is unbound and found once it is bound (`Matching.UnsizedGenericIsMissed`, `Matching.ResolvedProjectionIsMissed`).
- Instantiation keeps a stack against cyclic projections, but comparing projections starts over on an empty one. A program with two projections can make it diverge (`Halting.CyclicProjectionDiverges`, `Halting.FiniteIsNotEnough`). In a program with finitely many projections everything halts if and only if comparisons do (`Halting.HaltsIffComparable`), and a rank that drops from a projection to what it is made of is enough (`Halting.InstHalts`) but not needed (`Halting.RankIsNotNeeded`).
- The solver's answer is instantiated in the scope of the projection once more, so it can be captured: `<T as Tr>::A` becomes `?T` and not `T` where the scope takes `T` to `?T` and an implementation for `?X` answers `X` (`Resolution.AnswerIsCaptured`). A scope keeps the meaning of every type if and only if substitution in it leaves every answer alone that a run uses (`Resolution.KeepsIffUsedFixed`). That is so for scopes of types without generics, as monomorphization has them, and answers that hold of every instance, as those of generic implementations do (`Resolution.GroundScopeIsApart`, with `Resolution.GenericImplIsApart` as the instance). The target of an alias is instantiated twice in the same way, and keeps its meaning under the same condition (`Aliases.AliasMeansItsTarget`).
- A const parameter bound to another parameter of the scope is looked up until the end, a length parameter only once: where `A` is bound to `B` and `B` to 4, the argument `A` becomes 4 and the array `[u; A]` becomes `[u; B]` (`Resolution.LengthIsLookedUpOnce`).
- The greedy and the backtracking comparison of trait-object bindings are different algorithms and always agree (`Types.ComparisonsAgree`).
- The System V register count of an aggregate ignores an empty first eightbyte although a part is still passed for it: the parts use the registers charged if and only if the first eightbyte holds data, one more otherwise (`SysV64.ChargedRegistersAreUsed`). The count of a whole call is exact if and only if no such aggregate gets registers (`SysV64Calls.CountIsExactIffNoHollow`), and four of them need eight of the six integer registers (`SysV64Calls.HollowArgumentsOverrun`, with `SysV64Calls.HollowExists` as the layout). Such an aggregate has its first field at offset 8: a layout whose first leaf is at offset 0 is none (`SysV64.DataAtStart`).
- The filters of the instance worklist look at arguments and const arguments, not at the self argument: a method of a generic self type is materialized (`Instances.GenericSelfIsMaterialized`).
- An expression and a type in brackets have the same identity if and only if both are the same nesting of tuples around errors, as the value `()` and the type `()` are (`Brackets.IdentityIffSameSuffix`, `Brackets.UnitReadingsPrintAlike`).
- Dead-function elimination keeps the closures of a retained owner without a body but does not follow them. Nothing dangles if and only if such closures mention only what survives or was never there (`DeadFunctions.DanglesIffBodyless`, with `DeadFunctions.BodylessOwnerDangles` as the instance). That lowering gives every owner of a closure a body is an assumption here, not a result.

## Model

| member | source | states |
|---|---|---|
| Types.SameTyIffCanon | crates/nia-ty/src/lib.rs:897-1259 | two types compare equal, by either procedure, exactly when their canonical forms are equal: lengths and const values evaluated, signedness dropped, bindings as a multiset |
| Types.TakeFirstIffCanon | crates/nia-ty/src/lib.rs:1224-1259 | taking the first unused partner of each binding succeeds exactly when the bindings are equal as multisets |
| Types.SearchIffCanon | crates/nia-backend-lower/src/instantiate.rs:3017-3043 | the backtracking search succeeds exactly when the left bindings are the unused right ones as multisets |
| Types.ComparisonsAgree | crates/nia-backend-lower/src/instantiate.rs:2668-3043 | the greedy and the backtracking comparison never disagree |
| Types.SameTyIsEquivalence | crates/nia-backend-lower/src/lib.rs:1060-1135 | the comparison is reflexive, symmetric and transitive, whatever const expressions evaluate to |
| Bindings.SameBindingsWith | crates/nia-backend-lower/src/instantiate.rs:158-208 | true if and only if some bijection pairs every left binding with an equal right binding, for any comparison |
| Bindings.Visit | crates/nia-backend-lower/src/instantiate.rs:172-199 | the search from one index on, with the `used` array restored when it fails |
| Substitution.KeyOfApply | crates/nia-backend-lower/src/instantiate.rs:969-1575 | substituting through the solver and then canonicalizing is canonicalizing under the canonicalized substitution, pointer-to-unsized rewrites and solver answers included |
| Substitution.TypesMatchIffKey | crates/nia-backend-lower/src/instantiate.rs:2668-3015 | semantic type matching of two types, both settled through the solver, is equality of canonical keys |
| Comparison.DeepIffKey | crates/nia-backend-lower/src/instantiate.rs:2668-3043 | comparing level by level, both sides instantiated anew each time and bindings paired by backtracking, decides equality of canonical keys |
| Comparison.DeepIffTypesMatch | crates/nia-backend-lower/src/instantiate.rs:2668-3043 | so it answers what settling both sides once and comparing them answers |
| Substitution.KeyDependsOnBound | crates/nia-backend-lower/src/instantiate.rs:2356-2495 | the key of a type depends, of the type parameters, only on its generics |
| Substitution.OpenIffGeneric | crates/nia-backend-lower/src/instantiate.rs:2497-2628 | the canonical key of a type that instantiation leaves alone holds a generic exactly when the containment check says so |
| Substitution.ClosedKey | crates/nia-backend-lower/src/instantiate.rs:2497-2628 | a type without generics has a key without generics, through every solver that answers closed questions with closed types |
| Substitution.KeyOfParamFree | crates/nia-backend-lower/src/instantiate.rs:969-1575 | a type without type parameters, `Self`, length parameters and const parameters has the same key whatever they stand for |
| Matching.MatchIsSound | crates/nia-backend-lower/src/instantiate.rs:1944-2354 | success overwrites nothing, binds every generic of the pattern, and for some choice of a value at each open const position instantiating the pattern through the solver gives the actual type, through nested types, projections and backtracked bindings |
| Matching.MatchAgainstConcrete | crates/nia-backend-lower/src/instantiate.rs:1944-2354 | against a concrete type the fully instantiated pattern is the actual type for some choice of the open const values; where there are none, what the compiler instantiates it to is the actual type if and only if no builtin-length operand of the pattern holds a generic |
| Matching.MatchIsComplete | crates/nia-backend-lower/src/instantiate.rs:1944-2354 | matching finds an extension of the substitution if and only if for some choice of a value at each open const position it makes the pattern the actual type and nothing hides that: in the parts walked (those without generics and those with an unbound one) no pointer has an unsized pointee and no projection has an answer, and in the others the choice makes no difference; without projections the same decides whether it succeeds at all, whatever the choice |
| Matching.ClosedMatchIsSound | crates/nia-backend-lower/src/instantiate.rs:1944-2354 | without open const values the instantiated pattern itself is the actual type |
| Matching.CompleteConsts | crates/nia-backend-lower/src/instantiate.rs:719-735 | const arguments that are those of the pattern for some choice of its open values match, whatever the choice |
| Matching.SoundConsts | crates/nia-backend-lower/src/instantiate.rs:719-735 | const arguments that match are those of the pattern with their own values chosen where it is open |
| Matching.OpenValueMatches | crates/nia-backend-lower/src/instantiate.rs:726-727 | the instance `Buf[N]`, which matches `Buf[v]` for every value |
| Matching.BoundPartIsCompared | crates/nia-backend-lower/src/instantiate.rs:1952-1963 | the instance `Buf[T, N]`, which matches `Buf[u, 4]` while `T` is unbound and misses it once `T` is bound |
| Fillings.ClosedIsFilled | crates/nia-backend-lower/src/instantiate.rs:719-735 | only a pattern with open const values can be filled in more than one way |
| Fillings.FilledGenerics | crates/nia-backend-lower/src/instantiate.rs:2356-2495 | choosing const values changes no generics |
| Matching.SoundBindings | crates/nia-backend-lower/src/instantiate.rs:3077-3129 | a successful search over bindings leaves their instantiated keys equal, as a multiset, to the unused actual ones |
| Matching.GenericLengthIsNotInstantiated | crates/nia-backend-lower/src/instantiate.rs:1685-1697 | the instance where a match does not instantiate back |
| Matching.UnsizedGenericIsMissed | crates/nia-backend-lower/src/instantiate.rs:1964-1972 | the instance where a pointer pattern misses the slice it instantiates to, and finds it once its generic is bound |
| Matching.ResolvedProjectionIsMissed | crates/nia-backend-lower/src/instantiate.rs:1952-1963 | the instance where a projection pattern misses the type it resolves to, and finds it once its generic is bound |
| Matcher.PatternMatcher.MatchType | crates/nia-backend-lower/src/instantiate.rs:1944-2354 | the in-place matcher leaves the answer and the substitution of the matching function, grown by failed attempts as well |
| Matcher.PatternMatcher.MatchLength | crates/nia-backend-lower/src/instantiate.rs:2088-2109 | array lengths, with the operand of a builtin matched as a type |
| Matcher.PatternMatcher.MatchTypes | crates/nia-backend-lower/src/instantiate.rs:1978-1992 | argument lists left to right, stopping at the first failure |
| Matcher.PatternMatcher.MatchOneBinding | crates/nia-backend-lower/src/instantiate.rs:3045-3075 | a binding matches as a whole or leaves the substitution alone |
| Matcher.PatternMatcher.MatchAllBindings | crates/nia-backend-lower/src/instantiate.rs:3095-3129 | the search restores its `used` array and commits only a full pairing |
| Scopes.Rebuild | crates/nia-backend-lower/src/instantiate.rs:281-308 | two cursors over interleaved type and const parameters give the scope each parameter's own argument |
| Scopes.ReadBack | crates/nia-backend-lower/src/instantiate.rs:1704-1737 | reading the rebuilt scope back returns the canonical form of each positional argument, in order |
| Instantiation.InstMono | crates/nia-backend-lower/src/instantiate.rs:969-1575 | an answer of the instantiation without a cache does not depend on the recursion bound it was found with |
| Instantiation.AnswersAgree | crates/nia-backend-lower/src/instantiate.rs:969-1575 | two answers for one type, scope and projection stack are equal |
| Instantiation.ActiveResultsAreTruncated | crates/nia-backend-lower/src/instantiate.rs:1784-1795 | a projection instantiates differently once it is active, which is why such results must stay out of the cache |
| Memo.TypeContext.Instantiate | crates/nia-backend-lower/src/instantiate.rs:961-985 | keeps every cache entry equal to the cache-free result of its key on an empty stack, and answers what instantiation without a cache answers, whatever was cached before |
| Memo.TypeContext.InstantiateNode | crates/nia-backend-lower/src/instantiate.rs:986-1575 | the same for one normalized type |
| Memo.TypeContext.InstantiateProjection | crates/nia-backend-lower/src/instantiate.rs:1492-1566 | the same for a projection, through the active stack |
| Memo.TypeContext.Resolve | crates/nia-backend-lower/src/instantiate.rs:1797-1933 | the same for a resolved projection, instantiated with the projection active |
| Memo.TypeContext.InstantiateAlias | crates/nia-backend-lower/src/instantiate.rs:253-273 | the same for an expanded type alias |
| Memo.TypeContext.MatchesActive | crates/nia-backend-lower/src/instantiate.rs:2630-2666 | comparing a projection with the active ones keeps the cache sound and agrees with the comparison without a cache |
| Halting.InstHalts | crates/nia-backend-lower/src/instantiate.rs:969-1575 | with a rank of types and projections that drops from a projection to its self, arguments and const arguments and from an alias to its target, and that answers and assumptions do not exceed, every type gets an answer in every scope on every stack |
| Halting.HaltsIffComparable | crates/nia-backend-lower/src/instantiate.rs:969-1575 | in a program that forms finitely many projections, every type gets an answer if and only if every comparison of projections does |
| Halting.RankedIsComparable | crates/nia-backend-lower/src/instantiate.rs:2650-2666 | the rank makes every comparison of projections halt |
| Halting.CyclicProjectionDiverges | crates/nia-backend-lower/src/instantiate.rs:2668-2673 | a projection whose answer needs itself to be compared gets no answer, however long the run |
| Halting.FiniteIsNotEnough | crates/nia-backend-lower/src/instantiate.rs:1535-1555 | such a program has two projections and is closed, and does not halt |
| Halting.CyclicHasNoRank | crates/nia-backend-lower/src/instantiate.rs:1535-1555 | no rank fits such a program |
| Halting.SelfReferenceIsRanked | crates/nia-backend-lower/src/instantiate.rs:1535-1555 | a projection that stands for a type around itself has a rank |
| Halting.RankIsNotNeeded | crates/nia-backend-lower/src/instantiate.rs:1535-1555 | the converse fails: in a program where one projection stands for a second one around it, and that for a primitive type, a closed region with four projection keys in which every type gets an answer, although no region with the first projection has a rank |
| Resolution.InstKeepsMeaning | crates/nia-backend-lower/src/instantiate.rs:969-1575 | on every stack and whatever the assumptions, an answer has the canonical key of the type where type parameters and `Self` stand for the types of the scope, const parameters for their const arguments and length parameters for the integers they are bound to, in every interpretation of projections that the solver's answers are true of; the answers may need further instantiation themselves; the scope leaves alone every answer, or its own types and every answer about what it leaves alone |
| Resolution.LenIsKept | crates/nia-backend-lower/src/instantiate.rs:1685-1697 | a length parameter bound to an integer from 0 to 2^64 - 1, read as two's complement when signed, becomes that integer; one bound to a parameter or const expression becomes that; otherwise it stays |
| Resolution.ConstIsKept | crates/nia-backend-lower/src/instantiate.rs:502-521 | a const argument that is a parameter of the scope has the canonical value and type of what it is bound to, looked up as often as that is a parameter again |
| Resolution.ScopeEnvDenotes | crates/nia-backend-lower/src/instantiate.rs:1665-1683 | there are such keys for every scope whose const arguments are not its own parameters and have types without parameters |
| Resolution.ArrayIsInstantiated | crates/nia-backend-lower/src/instantiate.rs:1685-1697 | the instance `[T; N]` |
| Resolution.LengthIsLookedUpOnce | crates/nia-backend-lower/src/instantiate.rs:502-521 | the instance where a const argument is looked up twice and an array length once |
| Resolution.KeepsIffUsedFixed | crates/nia-backend-lower/src/instantiate.rs:1541-1555 | every type keeps its meaning in a scope if and only if substitution in it leaves every answer alone that a run in it uses |
| Resolution.GroundScopeIsApart | crates/nia-backend-lower/src/instantiate.rs:1541-1555 | scopes whose types, self type and const arguments hold no parameter are such scopes, for solvers whose answers hold of every instance |
| Resolution.UnmentionedIsApart | crates/nia-backend-lower/src/instantiate.rs:1541-1555 | so are scopes of types whose names no answer mentions |
| Resolution.MatchingTypes | crates/nia-backend-lower/src/instantiate.rs:2668-2673 | types that compare equal after instantiation mean the same |
| Resolution.InstIsApply | crates/nia-backend-lower/src/instantiate.rs:969-1575 | where the interpretation gives settled types, an answer on any stack is plain substitution through it, up to semantic equality |
| Resolution.TwoStepsAreInterpreted | crates/nia-backend-lower/src/instantiate.rs:1541-1555 | a solver whose answer is itself a projection with an answer has such an interpretation |
| Resolution.GenericImplIsApart | crates/nia-backend-lower/src/instantiate.rs:1541-1555 | the instance of an implementation for `?X` that answers `X`: a scope that takes a name to a primitive type is such a scope, and the projection of `?T` becomes that type |
| Resolution.AnswerIsCaptured | crates/nia-backend-lower/src/instantiate.rs:1541-1555 | the same solver in a scope that takes a name to a type around it: the answer is substituted once more, against every interpretation |
| Resolution.MatchedPatternInstantiates | crates/nia-backend-lower/src/instantiate.rs:1944-2354 | what the compiler instantiates a matched pattern to, for some choice of its open const values, is semantically the type it was matched against |
| Aliases.AliasMeansItsTarget | crates/nia-backend-lower/src/instantiate.rs:253-273 | an expanded alias has the canonical key of its target where its parameters stand for the instantiated arguments; the answer has that key if and only if instantiating the expansion once more in the scope does not change its meaning |
| Aliases.ArityIsChecked | crates/nia-backend-lower/src/instantiate.rs:262-264 | with another number of arguments than declared the answer is the error type |
| Aliases.ClearTypeKeepsMeaning | crates/nia-backend-lower/src/instantiate.rs:969-1575 | a type without aliases means in a program with aliases what it means without |
| Aliases.InstIsClear | crates/nia-backend-lower/src/instantiate.rs:969-1575 | instantiating a type without aliases meets none and gives one without |
| Aliases.OptionalAlias | crates/nia-backend-lower/src/instantiate.rs:253-273 | the instance `Opt[u]` where `Opt[T]` is an alias of `?T` |
| CTypes.PushLeaves | crates/nia-abi-check/src/c_abi.rs:197-215 | appends exactly the leaves of a value, arrays element by element at their stride |
| CTypes.PushFields | crates/nia-abi-check/src/c_abi.rs:217-223 | appends the leaves of the fields at their offsets |
| CTypes.LeavesTile | crates/nia-abi-check/src/c_abi.rs:197-223 | the leaves of a laid-out value are ascending, disjoint and inside it, nested arrays and structs included |
| CTypes.LeafIffScalar | crates/nia-abi-check/src/c_abi.rs:197-223 | there is a leaf at an offset if and only if a path through fields and array indexes leads to a scalar there, and it has the kind and width of that scalar |
| SysV64.ClassifyEightbytes | crates/nia-abi-check/src/c_abi.rs:306-325 | memory if and only if larger than 16 bytes or unaligned; otherwise each eightbyte is integer, floating or empty by what touches it |
| SysV64.ClassByScalars | crates/nia-abi-check/src/c_abi.rs:306-325 | an eightbyte is empty if and only if no scalar has a byte in it, and floating point if and only if some has and every one that has is a `float` or a `double` |
| SysV64.UnalignedByScalars | crates/nia-abi-check/src/c_abi.rs:306-325 | an aggregate is unaligned if and only if some scalar is not at a multiple of its size |
| SysV64.FloatingPartByScalars | crates/nia-abi-check/src/c_abi.rs:344-402 | a floating-point part is a `double` if there is one, a pair if there is a `float` in its second half, and otherwise a `float` |
| SysV64.IntegerPartByScalars | crates/nia-abi-check/src/c_abi.rs:344-402 | any other part is a pointer if and only if one is at its start, the integer at its start if nothing comes after it, and otherwise all bytes up to the end |
| SysV64.PartsCoverExactlyTheAggregate | crates/nia-abi-check/src/c_abi.rs:344-423 | the machine parts at offsets 0 and 8 hold every byte of every leaf and stay inside the aggregate |
| SysV64.HighPartIsAtEight | crates/nia-abi-check/src/c_abi.rs:404-423 | the widening rule makes natural placement put the high part of a returned pair at exactly offset 8 |
| SysV64.ChargedRegistersAreUsed | crates/nia-abi-check/src/c_abi.rs:425-434 | parts occupy the registers charged exactly when the first eightbyte holds data, one more otherwise |
| SysV64.ClassesIgnoreLeafOrder | crates/nia-abi-check/src/c_abi.rs:296-325 | classes do not depend on the order of leaves |
| SysV64Calls.Classify | crates/nia-abi-check/src/c_abi.rs:435-511 | every argument has the form that all-or-nothing allocation from left to right gives it, after a hidden result pointer took its register; the laws on demands, forms and extensions say which |
| SysV64Calls.ClassifyArg | crates/nia-abi-check/src/c_abi.rs:465-508 | one argument takes all registers it asks for or none, and the counters never underflow |
| SysV64Calls.ClassifyRet | crates/nia-abi-check/src/c_abi.rs:438-463 | results by size, alignment and classes |
| SysV64Calls.DemandByScalars | crates/nia-abi-check/src/c_abi.rs:425-480 | an aggregate asks for registers if and only if it has 1 to 16 bytes and every scalar at a multiple of its size, for an integer register for each eightbyte with an integer or pointer and a vector register for each with floating-point scalars only |
| SysV64Calls.ScalarFile | crates/nia-abi-check/src/c_abi.rs:496-501 | a `float` or `double` asks for one vector register, every other scalar for as many integer registers as its bytes need |
| SysV64Calls.ScalarIsLikeItsStruct | crates/nia-abi-check/src/c_abi.rs:425-505 | a scalar asks for what a struct with it as its only field asks for |
| SysV64Calls.ExtensionKeepsEveryValue | crates/nia-abi-check/src/c_abi.rs:225-236 | of zero, sign and no extension exactly the chosen one keeps the value of every integer below four bytes |
| SysV64Calls.OnlySmallIntegersAreExtended | crates/nia-abi-check/src/c_abi.rs:225-236 | nothing but integers below four bytes is extended |
| SysV64Calls.FormCarriesTheAggregate | crates/nia-abi-check/src/c_abi.rs:483-493 | in registers an aggregate is one part or two, at offsets 0 and 8 and inside it, that hold every byte of every scalar, in a vector register if and only if the eightbyte is floating point |
| SysV64Calls.MemoryForm | crates/nia-abi-check/src/c_abi.rs:468-480 | in memory it has the larger of its own alignment and 8; an empty one is not passed |
| SysV64Calls.HiddenPointer | crates/nia-abi-check/src/c_abi.rs:438-463 | a result takes an integer register for its pointer if and only if it is a non-empty aggregate that has to be in memory |
| SysV64Calls.RegistersAreConserved | crates/nia-abi-check/src/c_abi.rs:435-511 | at most 6 integer and 8 vector registers are counted, and laid-out register arguments occupy those and one integer register more for every aggregate with an empty first eightbyte |
| SysV64Calls.CountIsExactIffNoHollow | crates/nia-abi-check/src/c_abi.rs:425-511 | the count is what the register arguments occupy if and only if none of them is an aggregate with an empty first eightbyte |
| SysV64Calls.HollowArgumentsOverrun | crates/nia-abi-check/src/c_abi.rs:425-511 | up to six such aggregates are granted, occupy twice what is counted, and from four on more than there is |
| SysV64Calls.HollowExists | crates/nia-abi-check/src/c_abi.rs:306-325 | there is a layout with an empty first eightbyte and an integer in the second; it is charged one register and occupies two |
| SysV64.DataAtStart | crates/nia-abi-check/src/c_abi.rs:306-325 | an aggregate with data at offset 0 has a class for its first eightbyte |
| SysV64Calls.MemoryArgumentsTakeNothing | crates/nia-abi-check/src/c_abi.rs:474-480 | an argument in memory leaves every register to later arguments |
| SysV64Calls.RefusalIsPermanent | crates/nia-abi-check/src/c_abi.rs:474-480 | once an argument is turned away, later ones that need as much are too |
| I386.ExpandedFields | crates/nia-abi-check/src/c_abi.rs:522-541 | a struct expands exactly when it has at most 16 bytes of direct fields without padding |
| I386.ExpandedImageIsMemoryImage | crates/nia-abi-check/src/c_abi.rs:519-541 | the expanded fields leave byte for byte the stack image of the struct in memory if and only if there is no padding |
| DeadFunctions.RemoveUnusedPrivateFunctions | crates/nia-backend-lower/src/module_dce.rs:19-184 | leaves exactly the swept module |
| DeadFunctions.RootRefs | crates/nia-backend-lower/src/module_dce.rs:50-117 | roots are what retained items with bodies, their closures, initializers and vtables mention |
| DeadFunctions.CollectTransitiveRefs | crates/nia-backend-lower/src/module_dce.rs:207-294 | the two worklists end with exactly the references reachable from the roots |
| DeadFunctions.EnqueueNewRefs | crates/nia-backend-lower/src/module_dce.rs:310-328 | references grow by what was discovered, and only new ones are queued |
| DeadFunctions.SweepIsExact | crates/nia-backend-lower/src/module_dce.rs:126-171 | an item survives if and only if it is not removable or is reachable through bodies and closure bodies |
| DeadFunctions.RetainedItemStays | crates/nia-backend-lower/src/module_dce.rs:36-171 | with unique ids an item goes if and only if it is removable and unreachable |
| DeadFunctions.FindIsLast | crates/nia-backend-lower/src/module_dce.rs:207-294 | a lookup by id finds the last item with it, if there is one |
| DeadFunctions.ClosuresFollowOwners | crates/nia-backend-lower/src/module_dce.rs:172-183 | a closure entry survives if and only if its owner does |
| DeadFunctions.NothingDangles | crates/nia-backend-lower/src/module_dce.rs:36-184 | whatever a survivor refers to is still there if it was there before |
| DeadFunctions.DanglesIffBodyless | crates/nia-backend-lower/src/module_dce.rs:36-184 | nothing dangles after the sweep if and only if the closures of retained owners without a body mention only survivors or absent items |
| DeadFunctions.SweepIsIdempotent | crates/nia-backend-lower/src/module_dce.rs:36-184 | a second run removes nothing |
| DeadFunctions.BodylessOwnerDangles | crates/nia-backend-lower/src/module_dce.rs:51-63 | the instance where a retained owner without a body leaves its closure dangling |
| Readiness.NewStore | crates/nia-backend-ir/src/lib.rs:546-566 | a store is made exactly when no owner is listed twice, and its positions are those of the owners |
| Readiness.StepHolds | crates/nia-backend-ir/src/lib.rs:574-653 | every atomic step of every thread keeps the invariant: filled slots are logged or owed by the call that set them, calls hold the position of their own module, the mutex has its holder, the consumer sleeps only with nothing to answer |
| Readiness.DeliveriesAreSound | crates/nia-backend-ir/src/lib.rs:574-653 | in every interleaving a delivery names a registered module at its own position, whose slot was set by a call made with that module, nothing is delivered or published twice, and there is one consumer at most |
| Readiness.NothingIsTakenBack | crates/nia-backend-ir/src/lib.rs:574-653 | slots, completions and deliveries only grow, and calls keep their modules |
| Readiness.LookUpRejectsIffUnregistered | crates/nia-backend-ir/src/lib.rs:576-580 | a call is rejected at the lookup if and only if its module is not registered |
| Readiness.SetSlotRejectsIffPublished | crates/nia-backend-ir/src/lib.rs:581-585 | a call is rejected at its slot if and only if the module was published before |
| Readiness.ModulesAreSetOnce | crates/nia-backend-ir/src/lib.rs:581-585 | at most one call sets the slot of a module |
| Readiness.GetIsPublished | crates/nia-backend-ir/src/lib.rs:596-600 | a module can be read if and only if a call made with it has set its slot |
| Readiness.CheckAnswers | crates/nia-backend-ir/src/lib.rs:641-653 | the consumer gets the next completion, the end after the last of all, or goes to sleep |
| Readiness.BeginEnters | crates/nia-backend-ir/src/lib.rs:574-575 | a call keeps the module it was made with in every later state |
| Readiness.EndComesLast | crates/nia-backend-ir/src/lib.rs:641-653 | the end of the stream is answered only after every registered module was delivered |
| Readiness.NoLostWakeup | crates/nia-backend-ir/src/lib.rs:586-592 | a consumer asleep with something to answer is about to be woken by the publisher that holds the mutex |
| Readiness.MutexHolderCanMove | crates/nia-backend-ir/src/lib.rs:586-653 | whoever holds the mutex has a step |
| Readiness.CompleteStoreAnswers | crates/nia-backend-ir/src/lib.rs:617-653 | once all slots are filled and all calls have returned, the log is complete and the consumer is awake and gets an answer |
| Owners.AssignUniqueOwners | crates/nia-backend-lower/src/lib.rs:828-889 | keeps the items that own their keys, leaves every key an owner, and reports a conflict if and only if two items with one key differ |
| Owners.VisitItem | crates/nia-backend-lower/src/lib.rs:830-862 | one visit keeps the preferred owner of every key seen so far |
| Owners.OwnerIsUnique | crates/nia-backend-lower/src/lib.rs:824-826 | a key has one owner at most |
| Owners.OrderDoesNotMatter | crates/nia-backend-lower/src/lib.rs:824-826 | with distinct paths, what a module keeps does not depend on the order of modules |
| InstanceOwners.AssignAggregateOwners | crates/nia-backend-lower/src/lib.rs:820-953 | the same for struct and union instances, keys and payloads compared up to type equivalence |
| InstanceOwners.AssignVtableOwners | crates/nia-backend-lower/src/lib.rs:1137-1198 | the same for trait-object vtables |
| InstanceOwners.AggregatePayloadsMatchIffSame | crates/nia-backend-lower/src/lib.rs:968-1053 | two aggregate instances match exactly when their canonical forms are equal |
| InstanceOwners.VtablePayloadsMatchIffSame | crates/nia-backend-lower/src/lib.rs:1200-1285 | two vtables match exactly when their canonical forms are equal, entry by entry |
| Paths.Total | crates/nia-backend-lower/src/lib.rs:856-858 | normalized paths are totally ordered |
| Paths.LessMeans | crates/nia-backend-lower/src/lib.rs:856-858 | the lesser of two paths is a proper prefix of the other or has the lesser character where they first differ |
| Collector.FromModules | crates/nia-backend-ir/src/lib.rs:326-438 | a directory is built exactly when no definition has two owners, and maps each to its module |
| Collector.ValidateFinalizedModule | crates/nia-backend-ir/src/lib.rs:446-491 | accepts a module exactly when each of its definitions has it as planned owner |
| Collector.FinalizationCollector.constructor | crates/nia-backend-lower/src/lib.rs:233-245 | starts with every position empty |
| Collector.FinalizationCollector.Push | crates/nia-backend-lower/src/lib.rs:268-299 | fills an empty position with the module expected there, or is rejected and changes nothing |
| Collector.FinalizationCollector.Finish | crates/nia-backend-lower/src/lib.rs:306-333 | joins reports and diagnostics in source order, or fails |
| Collector.CompletionOrderDoesNotMatter | crates/nia-backend-lower/src/lib.rs:290-298 | the same results in any order of completion give the same modules, changes and diagnostics |
| Collector.JoinNeedsEveryPosition | crates/nia-backend-lower/src/lib.rs:313-333 | joining succeeds if and only if no position is missing |
| Collector.FinishedInSourceOrder | crates/nia-backend-lower/src/lib.rs:306-333 | results for all positions, pushed in any order, finish as the reports of planning followed by modules, changes and diagnostics of every position in source order |
| Collector.FinishedProgramIsPlanned | crates/nia-backend-lower/src/lib.rs:292-295 | every definition of a finished program has the owner fixed at planning, whatever was pushed |
| ForeignRouting.DrainPlan | crates/nia-backend-lower/src/lib.rs:1570-1628 | new references by kind and owner, each once, and those of unknown modules |
| WholeProgram.ModuleIndices | crates/nia-backend-lower/src/lib.rs:723-732 | every module has its own position, or two modules are the same and there are no positions |
| WholeProgram.LowerBatch | crates/nia-backend-lower/src/lib.rs:738-780 | a module resumed with a batch is closed, accounts for it, and uses up some of the functions not lowered yet or of the instances left to the limit, or forwards nothing but functions and function instances that global instances refer to |
| WholeProgram.Route | crates/nia-backend-lower/src/lib.rs:733-784 | ends for every program; every key is handed over once, to its declaring module, or reported once if there is none, and these are exactly the keys that some module forwards; every reference of every module is planned elsewhere, accounted for by the module that declares it, or reported; everything materialized or forwarded has a chain of references through the modules from what they forwarded at first |
| WholeProgram.PlanProgram | crates/nia-backend-lower/src/lib.rs:672-784 | the same from the roots of every module, which are accounted for too; fails exactly when two modules are the same |
| Instances.LowerFunctionInstances | crates/nia-backend-lower/src/function_instances.rs:60-232 | ends for every discovery; at most 4096 instances unless more existed; keys new and distinct; arguments ground and at most 256 deep; every initial and discovered reference is materialized, forwarded or dropped by a named filter, the limit only when it is reached; every instance and every forwarded reference was asked for by a reference or by an earlier instance |
| Instances.Turn | crates/nia-backend-lower/src/function_instances.rs:91-226 | one turn uses up budget or shortens the queue |
| Instances.EnqueueDiscovered | crates/nia-backend-lower/src/function_instances.rs:192-224 | discovered references are queued unless seen or queued before |
| Instances.ExceedsIffDeep | crates/nia-backend-lower/src/function_instances.rs:310-470 | the recursion with a budget answers exactly whether some chain of nested types is longer |
| Instances.GroundIffNothingOpen | crates/nia-backend-lower/src/function_instances.rs:951-1440 | the filters accept a type if and only if no chain of nested types from it ends in a parameter, a projection or the error type |
| Instances.FiltersDecideTypes | crates/nia-backend-lower/src/function_instances.rs:119-138 | a key passes the filters on types if and only if that holds of its arguments and the types of its const arguments, and none is nested more than 256 deep |
| Instances.SameInstanceIff | crates/nia-backend-lower/src/function_instances.rs:106-118 | two references stand for one instance if and only if definition, argument module and const arguments are the same and self types and arguments have the same canonical forms |
| Instances.GenericSelfIsMaterialized | crates/nia-backend-lower/src/function_instances.rs:119-139 | a run that materializes a method of a generic self type |
| Fixpoint.LowerReachable | crates/nia-backend-lower/src/lowerer_materialize.rs:181-255 | ends for every program; leaves only when every reference in the lowered body of every function, in the body of every instance, among the instances found in it and in the initializer of every global instance is materialized here, forwarded, planned elsewhere or dropped by a named filter, the instance limit only when it is reached, and the vtables of these bodies are there with their entries accounted for; everything materialized passes the filters; everything materialized, forwarded or added as a vtable has a chain of such references from the roots; only references to other modules are forwarded |
| Fixpoint.DiscoveryIsUse | crates/nia-backend-lower/src/lowerer_materialize.rs:204-246 | what is queued for an item is exactly what its body, the instances found in it and its initializer refer to, and its vtables |
| Fixpoint.LowerFunctionClosure | crates/nia-backend-lower/src/lowerer_materialize.rs:7-65 | drains the function queue, accounts for each function, and keeps what the loop keeps |
| Fixpoint.LowerInstances | crates/nia-backend-lower/src/lowerer_materialize.rs:204-229 | drains the instance queue through the instance worklist, whose named filters account for each reference; uses up room or queues nothing; marks only a full module as limited |
| Fixpoint.LowerGlobals | crates/nia-backend-lower/src/lowerer_materialize.rs:230-246 | drains the global queue, accounts for each reference and queues no further global instance |
| Fixpoint.NoMoreGlobals | crates/nia-static-ir/src/lib.rs:184-215 | queueing what static initializers refer to queues no global instance, which is why the rounds end |
| Fixpoint.LowerGlobalRefs | crates/nia-backend-lower/src/lowerer_materialize.rs:284-342 | every global reference is forwarded, known, not ground, not lowerable or new; new ones are ground, distinct, canonical and stand for a given reference |
| Fixpoint.SameGlobalIff | crates/nia-backend-lower/src/lowerer_materialize.rs:284-342 | two references stand for one global instance if and only if their keys differ in nothing but arguments with the same canonical forms |
| Fixpoint.GlobalFilterDecides | crates/nia-backend-lower/src/lowerer_materialize.rs:284-342 | the filter on global instances lets a key through if and only if nothing nested in its arguments is a parameter, a projection or the error type |
| Fixpoint.ReopenedIsValid | crates/nia-backend-lower/src/lowerer_materialize.rs:150-179 | a closed module whose worklist is rebuilt from its own items is a valid state, although what was forwarded or dropped is no longer queued |
| Fixpoint.LowerAdditionalFunctions | crates/nia-backend-lower/src/lowerer_materialize.rs:67-85 | resuming a closed module with functions always ends, accounts for them, closes it again and adds only what they lead to; it uses up some of the functions not lowered yet or of the instances left to the limit, or forwards none but given references |
| Fixpoint.LowerAdditionalInstances | crates/nia-backend-lower/src/lowerer_materialize.rs:87-108 | the same for function instances |
| Fixpoint.LowerAdditionalGlobals | crates/nia-backend-lower/src/lowerer_materialize.rs:110-125 | the same for global instances, which may also forward the functions and function instances that their initializers refer to |
| Fixpoint.LowerAdditionalItems | crates/nia-backend-lower/src/lowerer_materialize.rs:127-148 | a module closed but for the references of new items is closed again, adding only what they lead to |
| Fixpoint.StartIsValid | crates/nia-backend-lower/src/lowerer_setup.rs:224-241 | a new worklist with its roots pending is a valid state whose pending items are the roots of the run |
| Fixpoint.AppendVtableDelta | crates/nia-backend-lower/src/lowerer_materialize.rs:502-522 | adds vtables with new keys, queues their entries, and says whether it added any; nothing else is added or queued |
| Fixpoint.Enqueue | crates/nia-backend-lower/src/lib.rs:2001-2030 | queues the given items that were never queued before and no others |
| PolymorphicRecursion.EndlessChainFillsTheModule | crates/nia-backend-lower/src/function_instances.rs:140-153 | a closed module that was asked for an endless chain of distinct instances is full and says so |
| PolymorphicRecursion.Run | crates/nia-backend-lower/src/lowerer_materialize.rs:181-255 | the fixed point from such a reference ends with exactly 4096 instances |
| Partition.ForModule | crates/nia-backend-ir/src/lib.rs:1099-1161 | the partitions are those of the definitions in some sorted arrangement: none without definitions, one below the threshold of 8, otherwise the nonempty buckets |
| Partition.SortedDefinitions | crates/nia-backend-ir/src/lib.rs:1026-1079 | exactly the eligible definitions of a kind, each once, in the order of their stable keys |
| Partition.PartsAreOrdered | crates/nia-backend-ir/src/lib.rs:1154-1160 | at most four partitions, none empty, by ascending ordinal |
| Partition.PartitionIsExact | crates/nia-backend-ir/src/lib.rs:1099-1161 | every definition that is emitted (globals that are not imported, functions that are not generic and have a body, function instances with a body, global instances, closure entries) is in exactly one partition, once, by number or symbol hash modulo 4, and nothing else is |
| Partition.PartitionIsSorted | crates/nia-backend-ir/src/lib.rs:1053-1078 | in every partition globals and functions are ordered by number, the others by symbol |
| Partition.VtablesStayTogether | crates/nia-backend-ir/src/lib.rs:1152 | vtables keep source order in the partition with ordinal 0 |
| Partition.ClosureFollowsOwner | crates/nia-backend-ir/src/lib.rs:1127-1151 | a closure entry shares the partition of its emitted owner |
| Partition.SplitIsCanonical | crates/nia-backend-ir/src/lib.rs:1026-1161 | for uniquely keyed definitions the partitions do not depend on input order |
| PartitionPlan.BuildPlan | crates/nia-backend-ir/src/lib.rs:898-934 | a plan, strictly ascending by stable key, exactly when no two vtables and no two partitions collide |
| PartitionPlan.PlanIsByPathAndOrdinal | crates/nia-backend-ir/src/lib.rs:898-934 | every entry of a plan is a partition of a module, ordered by source path and then by ordinal |
| PartitionPlan.PlanIgnoresModuleOrder | crates/nia-backend-ir/src/lib.rs:889-934 | the plan is the same for every order of modules |
| PartitionPlan.RestrictionIsReadyPlan | crates/nia-backend-ir/src/lib.rs:893-896 | the plan restricted to a module is the plan built for that module alone |
| PartitionPlan.ReadyPlanExists | crates/nia-backend-ir/src/lib.rs:893-896 | a module with distinct vtables always has a plan of its own |
| Sorting.AscendingIsUnique | crates/nia-backend-ir/src/lib.rs:925-932 | a strictly ascending arrangement of given elements is unique |
| Terms.ReadTerm | crates/nia-ast/src/types.rs:484-651 | two printed terms that read alike before any delimiter are the same term |
| Terms.PrintIsInjective | crates/nia-ast/src/types.rs:484-885 | identities are uniquely readable, with texts that hold delimiters and keywords that start other keywords |
| Terms.HexIsInjective | crates/nia-symbol/src/lib.rs:54-56 | symbol keys of 64-bit identities are distinct |
| Terms.DecimalIsInjective | crates/nia-ast/src/types.rs:1222-1226 | length prefixes are distinct |
| Identity.IdentityIffDeclEq | crates/nia-ast/src/types.rs:219-482 | two types have the same identity if and only if they are equal as declarations |
| Identity.ExprIdentityIffSame | crates/nia-ast/src/types.rs:479-482 | two expressions of the modelled forms have the same identity if and only if they have the same structure |
| Brackets.IdentityIffSameSuffix | crates/nia-ast/src/types.rs:691-697 | two bracket suffixes have the same identity if and only if callee and arguments are the same in turn, where an expression and a type are the same if both are the same nesting of tuples around errors |
| Brackets.PartsIffSameArg | crates/nia-ast/src/types.rs:1228-1241 | the same for one argument, over its four combinations of readings |
| Brackets.TermIffAlike | crates/nia-ast/src/types.rs:1228-1241 | an expression and a type print alike exactly when they are such tuples |
| Brackets.UnitReadingsPrintAlike | crates/nia-ast/src/types.rs:1228-1241 | the instance with the empty tuple as a value and as a type |
| Identity.SameTypeWord | crates/nia-ast/src/types.rs:484-598 | type keywords are told apart |
| Identity.SameBinaryWord | crates/nia-ast/src/types.rs:1325-1346 | operator words are told apart |
| IdentityWriter.TypeRefIdentity | crates/nia-ast/src/types.rs:254-258 | the writers leave the identity of the type |
| IdentityWriter.WriteTerm | crates/nia-ast/src/types.rs:484-598 | a writer appends exactly the printed term to its buffer |
| IdentityWriter.WriteTerms | crates/nia-ast/src/types.rs:1364-1371 | a joined list appends its elements with commas between them |
| IdentityWriter.WriteSegments | crates/nia-ast/src/types.rs:487-498 | path segments with their bracketed arguments |
| IdentityWriter.WriteArg | crates/nia-ast/src/types.rs:614-644 | the four forms of a generic argument |
| StaticInits.SimplifyStaticInit | crates/nia-backend-lower/src/items.rs:569-685 | gives the simplified initializer and a flag that is set exactly when it differs from the input |
| StaticInits.SimplifyPreserves | crates/nia-backend-lower/src/items.rs:569-685 | the simplified initializer fits every type the original fits and denotes the same value there |
| StaticInits.SimplifyIsIdempotent | crates/nia-backend-lower/src/items.rs:569-685 | a second run changes nothing |
| StaticInits.ZeroIffIsZero | crates/nia-backend-lower/src/items.rs:687-710 | the result is a zero fill exactly for zero initializers |

## Left out

- Matching.MatchIsComplete: not across trait-object bindings, where backtracking is local to one binding list.
- Matching.MatchIsSound: the types of const arguments in the pattern hold no generic, as those of the language (integers, `bool`, `char`) do not. The value of a const parameter is chosen at each place on its own, as matching does; that one parameter has one value is left to the trait solver.
- Matching.MatchAgainstConcrete: the second half is for patterns without open const values. A builtin-length operand that holds a generic must be one the solver has no answer for, and outside of projections, because what the solver says about an uninstantiated operand is unknown.
- Substitution.KeyOfApply: the solver is given as an interpretation whose answers need no further instantiation; Resolution.InstKeepsMeaning ties the solver of the compiler, whose answers may, to such an interpretation.
- Types.ComparisonsAgree: compares types that are settled already; Comparison.DeepIffKey is the comparison that instantiates every component.
- Memo.TypeContext.MatchesActive: components are compared after one instantiation of the whole, as Instantiation.TysMatch does; the compiler instantiates each component again, which can differ on results cut short by the projection stack.
- Resolution.InstKeepsMeaning: without aliases; normalization is assumed to keep keys.
- Aliases.AliasMeansItsTarget: the target and the arguments of the alias hold no further alias.
- Resolution.UnmentionedIsApart: for scopes of types only.
- Halting.InstHalts: that finitely many projections are formed is a condition on the program, not derived from its types.
- Instantiation.InstMono: recursion is bounded by fuel; Halting.InstHalts says when some fuel is enough.
- Fixpoint.LowerReachable: keys of queued items are compared as they are; the instance worklist canonicalizes them. Which templates exist does not change during a run. Closure entries follow their owners and are not listed.
- WholeProgram.Route: the order of references inside one batch is not modelled; which functions count as planned elsewhere already is a parameter of each module.
- DeadFunctions.NothingDangles: assumes unique keys and that owners of closures have bodies, neither of which is proved of lowering; DeadFunctions.DanglesIffBodyless drops the latter.
- Partition.SplitIsCanonical: for uniquely keyed definitions only; the order of equal keys under an unstable sort is unspecified.
- Collector.FinalizationCollector.Finish: whether the joined modules have a partition plan is a parameter; PartitionPlan.BuildPlan says when they do.
- StaticInits.SimplifyPreserves: floats enter through the bits of their literals, with positive zero as the only zero.
- Identity.IdentityIffDeclEq: bracket suffixes inside types, closures, blocks, patterns, conditionals and literals of arrays and structs are not among the modelled expression forms; Brackets.IdentityIffSameSuffix has a bracket suffix around modelled ones.
- Closure states, function items and the self-argument stamp in types, matching and depth checks.
- Interning: interned types are values, substitutions in cache keys are compared by content, and the memo table of the generic-containment check is left out.
- Trait solving, mangling, layout, lowering of bodies and `value_refs` are parameters.
- Evaluated array lengths of all modules are one map, given to owner assignment.
- Integer parts and scalars are given by width in bytes, 16 at most: every bit width that occurs is a whole number of bytes.
- Win64, AAPCS64 and the argument forms of i386 other than expansion: one branch each.
- Vtables-by-type indexes of the owner directory, timing, spans and diagnostic text.
- Weak memory: the publication protocol is sequentially consistent, with the mutex, the condition variable and write-once slots as atomic steps.
