# Verified models of the TOP compiler's ownership checker and solvers

TOP is a small functional language whose compiler frees heap memory without a
garbage collector: owning pointers and sums are moved, borrowed for the length of
a call, and destroyed at statically planned places. These files model the parts of
the compiler that this rests on, and prove what they are for.

* **Ownership.** `Syntax`, `Moves` and `MoveAnalysis` are the move checker and the
  destroys it plans; `Machine` and `Heap` say what generated code does with memory:
  loads, stores, frees, recursive destroys, taking matched values apart. `Static`
  holds what other passes check (types, scopes; each pattern variable has a type of
  its own, and the uses of a name that of its last declaration) and, apart from that,
  what no pass checks (definite assignment, and the care of the section below).
  `Safety` and `Theorems` prove that a run of an accepted program, on every input and
  every path, never touches freed memory and frees every cell exactly once;
  `Watching` relates runs that stop at the first step no pass guards to runs that go
  on. `Copying` says what a program means without addresses, frees or moves: sums are
  trees, an owner is the integer it holds, a borrow the variable borrowed, naming an
  owner copies it; and `ProgramMeaning` proves that generated code returns, prints,
  stops or goes on exactly as that says. `Reading`, `Agreement`, `Places`, `Twins`,
  `ArmTwins` and `Meaning` build up to it, statement by statement; `Arithmetic` says
  what the operators compute. `Acceptance` says which programs are accepted, by the
  events of each expression in the order of evaluation (`Events`) and path by path.
  `Paths` proves that the set of owners at a point depends neither on the branches
  taken nor on iteration counts; `DefiniteAssignment` says on paths what definite
  assignment amounts to; `Matching` that a consuming match loses and repeats nothing,
  and `Patterns` what it is to match; `Unmatched`, with `Roots`, what a match that no
  arm takes leaves behind; `Repeats` and `Retyped` what an arm does that binds an
  owner twice, or a name at another type than its uses have, up to its end;
  `Dispatch` that arms are tried in source order; `Budget` that the step budget of a
  run only decides whether it ends. `DestroyFunctions` is the generation of the
  recursive destroys, and what they do. The move checker is a class with the fields
  of the original, each of whose methods is proved against a function in `Moves`.
* **Unification.** `UnionFind` and `TermUnifier` are the union-find and the
  worklist unifier, which makes no occurs check; `Unification`, `MostGeneral` and
  `Closure` say what it computes: the finest solution, and a most general unifier
  exactly when the solution is acyclic. `Unfolding` is about cyclic ones too: the mus
  of a closed type unfold to the tree that the representatives span.
* **Subset constraints.** `CubicSolver` is the cubic solver with its classes of
  variables, cycle collapsing and conditional constraints, its loops over sets of
  nodes going by positions that are a parameter. `CubicRun` is the same computation
  as a function, to which `CubicRefine` ties every method. `Cubic` says what a graph
  tells of a solution, `CubicGraph`, `CubicSteps` and `CubicProgress` what each update
  keeps; `CubicLoops`, `BackWalk` and `CubicLevels` when its two order-dependent loops
  do what they are for.
* **Inference order.** `InferenceOrder` is the sort of the non-recursive functions.
* **Copy requirements.** `CopyRequirements` and `RequirementResolver` are the
  fixpoint that moves requirements of generic bodies to their callers, and when the
  verdict on an actual has to be put off.
* **Control-flow graphs.** `CfgBuilder` builds a graph backwards, `CfgValidate`
  checks it; `CfgMeaning` and `CfgAssembly` prove that the graph has exactly the
  traces of the structured body.

Verify everything with `dafny verify dfyconfig.toml --resource-limit 2000000`.

## Where the code falls short of its own claim

`README.md:77-79` of the repository promises that accepted programs free everything
once and never use freed memory. Five families of accepted programs do not keep it;
the model keeps the code as it is. Four of them show in single steps that no pass
guards, and the machine can be told to stop there (`Machine.Stray`).
`Theorems.ProgramSafe` and `ProgramMeaning.ProgramMeans` hold of every accepted
program up to its first such step, and a program written with care (`Static.Careful`: no write whose right-hand side moves
its target, no case that some value falls through, no arm that binds an owner twice,
or a name at another type than its uses have) never takes one.

1. `*x = e` where `e` moves `x`. The target is evaluated first
   (`src/semantic/ownership/MoveAnalysis.cpp:313-328`), so the later move goes
   unnoticed and the store hits a freed cell. `Theorems.WriteFaultsExactly`: of any
   accepted write in any accepted program it does if and only if `e` runs to its end
   and `x` is among the variables that `e` moves. `Counterexamples.WriteAfterFree` is
   a program, and `Counterexamples.WriteMainFaultsByTheorem` applies the theorem to it.
2. A variable assigned and moved in the body of a `while`, then read after it. The
   checker continues with the state before the loop
   (`src/semantic/ownership/MoveAnalysis.cpp:125-136`), where the variable is absent,
   and absent is not rejected. `Counterexamples.UseAfterLoop` is a program.
   `DefiniteAssignment.AssignedExactly`: an accepted function is definitely assigned
   if and only if on every path through it each owner named owns when it is named.
3. A case that covers every outer constructor but not every nested pattern
   (`src/semantic/weeding/CheckCaseCompleteness.cpp:88-179`). When no arm matches,
   control falls to the merge (`src/codegen/CodeGenVisitor.cpp:1358-1366`), and the
   destroys planned afterwards are those of the arms that did not run. A consuming
   match may leak what was in the box (`StrayExamples.UnmatchedLeak`); and, consuming
   or not, a variable that the arms would have assigned may be freed a second time
   (`StrayExamples.UnmatchedFreesTwice`, `StrayExamples.BorrowedMatchFreesTwice`).
   `Unmatched.CaseKeepsOwnersExactly`, for both kinds of scrutinee: the owners are as
   planned if and only if some arm matches the value's shape, or the planned owners
   are those before the arms and the match leaves no owned payload behind. One thing
   can upset this: a variable whose value was moved keeps its address, and when just
   that value is what the match leaves behind, the planned destroy of the variable
   frees it after all (`StrayExamples.StaleNameSaves`). The theorem says so in general,
   and the plain form where no such address is left.
   `Dispatch.AcceptedIsExhaustive` proves that plain payloads exclude the family.
4. A consuming arm that binds one name twice to owners. No pass looks for it: arm
   bindings overwrite one another (`src/semantic/symboltable/LocalNameCollector.cpp:38-46`).
   What the second binding saved, an owner, is put back last, so the name stays owned
   after the arm, and the first payload is lost (`Repeats.RepeatedBinderExactly`).
   `StrayExamples.BoundTwiceFaults` is a program that destroys the second payload
   twice. Code generation rejects the destroy of a name that no longer has a slot, so
   this reaches a run only where an enclosing arm binds the name as well.
5. Arms that bind one name at different types. A pattern's variable has the type of
   its own node (`src/semantic/types/constraints/TypeConstraintVisitor.cpp:364-365`),
   its uses that of the last declaration of the name (`:32-38` of the same file;
   `src/semantic/symboltable/LocalNameCollector.cpp:38-46`), and no pass compares the
   two. `Retyped.RetypedExactly`, for both kinds of scrutinee: an arm hands its body
   what the analysis plans with if and only if each owner it binds, and each owner
   whose name it binds, has in its uses the type it is bound at.
   `RetypedExamples.RetypedFaults` takes a cell apart as a box, and
   `UnsavedExamples.PokedFaults` stores an integer into a box that it borrows. An arm
   that is handed the right things can still leave wrong ones behind: a binder that is
   an integer is not saved (`src/semantic/ownership/MoveAnalysis.cpp:233-247`), yet the
   arm's body may assign an owner to its name. `Retyped.RetypedEndsExactly`: the arm's
   own body and destroys never fault; the owners after it are the planned ones but for
   those names; what these held is lost; and the plan fits if and only if there is no
   such name, or, by the chance of the third family, variables that own nothing still
   hold just that. `UnsavedExamples.UnsavedFaults` destroys the binder of an enclosing
   arm a second time that way, and nobody holds the new cell. It is enough that all
   binders of a name in a function have one type. `RetypedExamples.IntegerFreed` passes
   an integer on as an owner, and it is freed as an address; the name never owns there,
   so that program is in the second family as well.

The cubic solver depends at two places on the order of a set of pointers. The solver
modelled here goes through such a set by positions that are given to it, whatever
they are.

6. The walk back along a path looks at the first predecessor with a known distance
   and never past it (`src/semantic/solver/cubic/CubicSolverT.h:157-168`).
   `BackWalk.WalkArrivesExactly`: it arrives if and only if at every node it comes to
   that first one is nearer. `CubicExamples.WalkGoesRound` runs four constraints for
   which it never ends.
7. Elements are passed on in a loop over a node's set of supersets while the calls
   made from it merge nodes and so change that set
   (`src/semantic/solver/cubic/CubicSolverT.h:234-240`). `CubicLoops.LoopExactly`: when
   its calls come back, the loop is defined if and only if none of them erases the
   element it stands on, and it leaves every superset with the elements if and only
   if those inserted at or before its position have them. `CubicExamples.CurrentIsErased`
   and `CubicExamples.SupersetIsSkipped` run constraints for which it fails either way.
   Whether the sets solve the constraints in the end can be read off the graph:
   `Cubic.SolvedExactly`.
   A caller can check beforehand that neither happens: it is enough that variables can
   be given levels which subset constraints never lower and conditional ones raise
   (`CubicLevels.EdgeUpClosesNothing`, and the last clauses of each method of
   `CubicSolver`).

## Model

| member | source | states |
|---|---|---|
| Theorems.ProgramSafe | README.md:77-79 | A run of any accepted program, on any input and for any number of steps, touches no freed cell and, if it returns, leaves an empty heap, up to the first step that no pass guards; a careful program takes no such step |
| ProgramMeaning.ProgramMeans | README.md:77-83 | A run of any accepted program, on any input and for any number of steps, returns the value the program means after the same output, stops with the same error after the same output, or goes on, each exactly when the meaning without addresses does, up to the first step that no pass guards; a careful program takes no such step |
| Meaning.InvokeMeans | src/codegen/CodeGenVisitor.cpp:329-422 | A call of an accepted function gives what the function means, reads the same inputs and prints the same; afterwards every variable it was lent reads as the store says, and no cell it was not lent has changed |
| Meaning.ExecMeans | src/codegen/CodeGenVisitor.cpp:702-906 | An accepted statement, run with its planned destroys, leaves every owner, integer and alias of the frame, and all that is lent, reading as the statement says; it stops or goes on exactly when that does |
| Meaning.WriteMeans | src/codegen/CodeGenVisitor.cpp:702-742 | A store changes exactly the variable or part that its target leads to, to the value of the right-hand side |
| Meaning.EvalMeans | src/codegen/CodeGenVisitor.cpp:428-679 | An accepted expression evaluates to a word that reads as its meaning, with the operands in order |
| Meaning.CaseMeans | src/codegen/CodeGenVisitor.cpp:1219-1378 | The first arm that suits the value is run, with each binder holding, or for a borrow naming, the part it matches |
| Copying.PutReads | README.md:83 | A store is read back where it was made, and nowhere that is not inside or around it |
| Reading.StoreChanges | src/codegen/CodeGenVisitor.cpp:724-740 | Storing into the cell of a part changes what the whole value reads as at that part only |
| Arithmetic.ArithExactly | src/codegen/CodeGenVisitor.cpp:442-524 | An operator gives the one result that is right modulo 2^64 and in range, or for a division the quotient rounded towards zero, and stops the program if and only if there is none |
| Watching.InvokeFollows | src/codegen/CodeGenVisitor.cpp:329-422 | A run that stops at unguarded steps and never met one is the run of the generated code; one that stopped at a moved target is a fault of it |
| Safety.InvokeSafe | src/codegen/CodeGenVisitor.cpp:329-422 | Any call of an accepted function is safe; when it returns, the live cells are those it was lent plus those of the returned value, and the caller's frames are undisturbed |
| Safety.ExecSafe | src/semantic/ownership/MoveAnalysis.cpp:95-209 | An accepted statement, run with its planned destroys, never faults, and leaves owning exactly the variables the analysis says |
| Safety.EvalSafe | src/semantic/ownership/MoveAnalysis.cpp:359-432 | An accepted expression never faults and yields a whole value disjoint from all others held |
| Safety.WhileSafe | src/codegen/CodeGenVisitor.cpp:755-797 | A loop keeps the ownership invariant for any number of iterations |
| Safety.CaseSafe | src/codegen/CodeGenVisitor.cpp:1219-1378 | A case over a value or over a borrow, nested patterns included, is safe and ends with the owners the analysis says |
| Safety.CalleeSafe | src/semantic/ownership/MoveAnalysis.cpp:369-402 | Entering a callee with evaluated actuals and coming back keeps all that the caller still owns, lends or holds |
| Safety.DerefSafe | src/codegen/CodeGenVisitor.cpp:645-679 | Reading through an owned temporary frees it exactly once, after the read |
| Safety.LeaveSafe | src/semantic/ownership/DestructionPass.cpp:13-24 | The destroys at a function's exit, run after the result is evaluated, free all owners left and none of the result |
| Theorems.WriteFaultsExactly | src/semantic/ownership/MoveAnalysis.cpp:313-328 | Any accepted write in any accepted program, neither of whose operands strays inside a function it calls, faults if and only if both complete and the right-hand side moves the target |
| Unmatched.NoArmRuns | src/codegen/CodeGenVisitor.cpp:1322-1378 | When no arm's patterns match, the chains fall through to the merge and change nothing |
| Unmatched.UnmatchedRuns | src/codegen/CodeGenVisitor.cpp:1219-1378 | A case none of whose arms matches ends normally, with the owners before its arms, and with exactly the payloads of a consumed box left over |
| Unmatched.CaseKeepsOwnersExactly | src/semantic/weeding/CheckCaseCompleteness.cpp:88-179 | After an accepted case, over a value or a borrow, the planned owners own exactly the live cells if and only if an arm matches, or they are the owners before the arms and nothing is left behind (or stale names hold just what is) |
| Unmatched.TakenOverExactly | src/semantic/ownership/MoveAnalysis.cpp:551-600 | Other owners than there are fit the heap if and only if those added hold exactly the values that those dropped and the match left behind |
| Roots.SameRoots | src/codegen/CodeGenVisitor.cpp:932-1032 | Two families of whole, disjoint values over the same cells are the same values |
| Repeats.RepeatedBinderExactly | src/semantic/ownership/MoveAnalysis.cpp:227-274 | After an arm whose binders repeat, exactly the repeated owners are planned beyond those that own, a repeated owner left over is destroyed twice, and a payload is lost if and only if a binder repeats |
| Retyped.RetypedExactly | src/semantic/types/constraints/TypeConstraintVisitor.cpp:364-365 | A selected arm, consuming or borrowed, never faults in binding, and what the invariant asks at its body's start holds if and only if each name bound has some type, and owners bound, and owners whose names are bound, are used at the types they are bound at |
| Retyped.RetypedEndsExactly | src/semantic/ownership/MoveAnalysis.cpp:227-274 | Once the body of such an arm has run, its destroys do not fault; those own that are planned but for the names bound at integers that the body made owners; exactly the cells of these are lost; the plan fits if and only if there are none (or stale names hold just what they held) |
| DefiniteAssignment.AssignedExactly | src/semantic/ownership/MoveAnalysis.cpp:125-136 | An accepted function is definitely assigned if and only if on every path each owner named owns at that point |
| Events.ExpressionAcceptedExactly | src/semantic/ownership/MoveAnalysis.cpp:359-432 | An expression is accepted if and only if, in the order of its events, none names or moves a variable moved before, and none moves a variable between the entry and the return of a call that is lent it |
| Acceptance.AcceptedExactly | src/semantic/ownership/MoveAnalysis.cpp:95-357 | A statement is accepted if and only if on every way through it each expression keeps to that, no owner is overwritten, no condition of a loop moves, and where ways part they end with the same owners |
| Acceptance.FunctionAcceptedExactly | src/semantic/ownership/MoveAnalysis.cpp:60-89 | The same of a function, its result included |
| Counterexamples.WriteAfterFree | src/codegen/CodeGenVisitor.cpp:702-742 | A concrete accepted program stores into a freed cell |
| Counterexamples.WriteMainFaultsByTheorem | src/semantic/ownership/MoveAnalysis.cpp:313-328 | The theorem on writes applies to that program's write, in that program |
| Counterexamples.UseAfterLoop | src/semantic/ownership/MoveAnalysis.cpp:125-136 | A concrete program, accepted but not definitely assigned, reads a freed cell after a loop, and names an owner that does not own on some path |
| StrayExamples.UnmatchedLeak | src/semantic/weeding/CheckCaseCompleteness.cpp:88-179 | A concrete accepted program leaks a payload |
| StrayExamples.LeakByTheorem | src/semantic/weeding/CheckCaseCompleteness.cpp:88-179 | The theorem on cases applies to that program's case: the owners are not as planned |
| StrayExamples.UnmatchedFreesTwice | src/semantic/ownership/MoveAnalysis.cpp:551-600 | A concrete accepted program frees a cell twice after a match that no arm took |
| StrayExamples.BorrowedMatchFreesTwice | src/semantic/ownership/MoveAnalysis.cpp:551-600 | The same for a match on a borrow, where nothing leaks |
| StrayExamples.StaleNameSaves | src/semantic/ownership/MoveAnalysis.cpp:551-600 | A concrete accepted program whose unmatched case plans for other owners than there are and yet frees everything once |
| StrayExamples.BoundTwiceFaults | src/semantic/symboltable/LocalNameCollector.cpp:38-46 | A concrete accepted program binds one owner twice and destroys it twice |
| RetypedExamples.RetypedFaults | src/semantic/types/constraints/TypeConstraintVisitor.cpp:32-38 | A concrete accepted program, definitely assigned, takes a cell for a box because another arm binds the name at a sum type |
| RetypedExamples.RetypedByTheorem | src/semantic/types/constraints/TypeConstraintVisitor.cpp:364-365 | The theorem on such arms applies to that program's arm |
| UnsavedExamples.UnsavedFaults | src/semantic/ownership/MoveAnalysis.cpp:233-247 | A concrete accepted program, definitely assigned, whose inner arm assigns a cell to the name of its integer binder, and whose outer arm then destroys a cell freed before |
| UnsavedExamples.UnsavedByTheorem | src/semantic/ownership/MoveAnalysis.cpp:233-247 | The theorem on the end of such arms applies to that inner arm: it is handed what it should be, and afterwards the planned owner does not own and the cell made is held by nobody |
| UnsavedExamples.PokedFaults | src/codegen/CodeGenVisitor.cpp:702-742 | A concrete accepted program, definitely assigned, stores an integer into a box it borrows because another arm binds the name to a cell |
| UnsavedExamples.PokedByTheorem | src/semantic/types/constraints/TypeConstraintVisitor.cpp:364-365 | The theorem on retyped binders applies to that borrowed arm |
| RetypedExamples.IntegerFreed | src/semantic/types/constraints/TypeConstraintVisitor.cpp:32-38 | A concrete program that every pass accepts frees an integer as an address because another arm binds the name to an owner |
| Paths.EveryPathAgrees | src/semantic/ownership/MoveAnalysis.cpp:95-209 | Following any one path through an accepted statement, with no checks and no joins, ends with the owners the analysis computes |
| Paths.BranchAcceptedExactly | src/semantic/ownership/MoveAnalysis.cpp:551-600 | A branch whose parts are accepted is accepted if and only if all paths through it end with the same owners |
| Paths.CaseAcceptedExactly | src/semantic/ownership/MoveAnalysis.cpp:551-600 | A case whose arms are accepted is accepted if and only if all paths through it end with the same owners |
| Paths.LoopAcceptedExactly | src/semantic/ownership/MoveAnalysis.cpp:602-627 | A loop whose body is accepted is accepted if and only if every number of iterations ends with the same owners |
| Facts.EvalMovesExactly | src/semantic/ownership/MoveAnalysis.cpp:359-476 | Evaluating an expression takes away exactly the variables it moves, all of them owning before, and none of those lent |
| Facts.CallKeepsLentOwners | src/semantic/ownership/MoveAnalysis.cpp:448-476 | When a callee is entered every owner lent by the actuals, at any nesting, still owns, whatever the order of the actuals |
| Matching.BindConsumes | src/codegen/CodeGenVisitor.cpp:1112-1166 | Taking a value apart by a pattern gives every one of its cells to a binder or frees it, once, and reads no freed box |
| Matching.BindsConsume | src/semantic/ownership/MoveAnalysis.cpp:490-513 | The same for the payloads of a matched box, wildcards included |
| Matching.TestDecides | src/codegen/CodeGenVisitor.cpp:1067-1110 | The emitted tests on a whole value never fault and hold if and only if the pattern matches it |
| Matching.TestsExactly | src/codegen/CodeGenVisitor.cpp:1076-1109 | The tests of a pattern on a whole value come out true if and only if the value is the pattern with something in the place of each variable and wildcard |
| Patterns.MatchesExactly | src/codegen/CodeGenVisitor.cpp:1076-1109 | The same of shapes |
| Heap.DestroyFreesFootprint | src/codegen/CodeGenVisitor.cpp:932-1032 | The recursive destroy of a value of any recursive sum type succeeds and frees exactly its cells |
| DestroyFunctions.DestroyGenerator.GetOrCreate | src/codegen/CodeGenVisitor.cpp:932-1007 | Generating the destroy function of a type ends, however types hold one another, and emits one function, with the right cases, for each type needed and for no other |
| DestroyFunctions.CallDestroys | src/codegen/CodeGenVisitor.cpp:955-1032 | On a whole value the generated functions do what the recursive destroy does |
| Budget.InvokeLasts | src/codegen/CodeGenVisitor.cpp:329-422 | A call that ends within a budget ends the same within any larger one |
| MoveAnalyzer.MoveAnalysis.ConsumeVar | src/semantic/ownership/MoveAnalysis.cpp:448-476 | Moving a variable, rejected if moved or lent |
| MoveAnalyzer.MoveAnalysis.EvaluateExpr | src/semantic/ownership/MoveAnalysis.cpp:359-432 | The recursive walk with pushed and popped borrows computes the specified state or rejects when it does |
| MoveAnalyzer.MoveAnalysis.EvaluateOperands | src/semantic/ownership/MoveAnalysis.cpp:369-402 | Operands left to right, those taken being consumed |
| MoveAnalyzer.MoveAnalysis.AnalyzeAssign | src/semantic/ownership/MoveAnalysis.cpp:276-357 | Assignments and writes, and the overwriting of an owner rejected |
| MoveAnalyzer.MoveAnalysis.JoinStates | src/semantic/ownership/MoveAnalysis.cpp:551-600 | The counting loop over branches accepts exactly branches with the same owners, and joins them |
| MoveAnalyzer.MoveAnalysis.LoopInvariantHolds | src/semantic/ownership/MoveAnalysis.cpp:602-627 | The check on a loop body accepts exactly when the same variables own |
| MoveAnalyzer.MoveAnalysis.AnalyzeStatement | src/semantic/ownership/MoveAnalysis.cpp:95-209 | The statement walk, against its specification |
| MoveAnalyzer.MoveAnalysis.AnalyzeCaseArm | src/semantic/ownership/MoveAnalysis.cpp:227-274 | An arm with its binders entered, its leftover owners destroyed and the entries they shadowed put back |
| MoveAnalyzer.MoveAnalysis.SaveAndOwn | src/semantic/ownership/MoveAnalysis.cpp:233-247 | The loop that saves what each binder shadows, in order, and makes it an owner |
| MoveAnalyzer.MoveAnalysis.PutSavedBack | src/semantic/ownership/MoveAnalysis.cpp:262-274 | The loop that puts the saved entries back, the last one put back prevailing |
| Facts.RestoredState | src/semantic/ownership/MoveAnalysis.cpp:227-274 | After an arm the owners are those of the body outside its binders, those of its binders that owned before, and those bound twice |
| MoveAnalyzer.MoveAnalysis.AnalyzeFun | src/semantic/ownership/MoveAnalysis.cpp:60-93 | A function with the destroys planned at its exit |
| Dispatch.CheckArms | src/semantic/weeding/CheckCaseCompleteness.cpp:88-150 | The pass over the arms accepts exactly arms of the right arity none of which an earlier one covers |
| Dispatch.CheckCase | src/semantic/weeding/CheckCaseCompleteness.cpp:88-179 | A case is accepted exactly when it is complete on outer constructors and has no covered arm |
| Dispatch.IdenticalIsEqual | src/semantic/weeding/CheckCaseCompleteness.cpp:33-62 | The structural comparison of patterns for one payload is equality |
| Dispatch.CoversExactly | src/semantic/weeding/CheckCaseCompleteness.cpp:21-76 | An arm covers a later one if and only if the tags agree and it has only variables and wildcards or the same patterns |
| Dispatch.RejectedNeverSelected | src/semantic/weeding/CheckCaseCompleteness.cpp:112-135 | Whatever value an arm rejected as unreachable matches, the earlier arm matches too |
| Dispatch.AcceptedIsExhaustive | src/semantic/weeding/CheckCaseCompleteness.cpp:140-179 | An accepted case with a plain arm for each constructor selects some arm for every value of the type |
| Dispatch.SwitchThenChain | src/codegen/CodeGenVisitor.cpp:1263-1358 | Switching on the outer tag and then trying that tag's chain runs the arm that trying all arms in source order runs |
| UnionFind.TermUnionFind.Find | src/semantic/solver/term/TermUnionFind.cpp:43-54 | Chasing parents ends, at the representative, and changes no class |
| UnionFind.TermUnionFind.QuickUnion | src/semantic/solver/term/TermUnionFind.cpp:56-73 | Exactly the two classes merge, under the second's root; the parent graph stays a forest |
| UnionFind.Rehung | src/semantic/solver/term/TermUnionFind.cpp:61-72 | Hanging one root below another keeps every path finite and leads each term to the right root |
| TermUnifier.TermUnifier.Solve | src/semantic/solver/term/TermUnifier.cpp:11-27 | Ends on all constraints, cyclic ones too; on success the classes satisfy every constraint ever given, are coherent, and are contained in every other solution; on a clash there is no solution, even over rational trees |
| TermUnifier.TermUnifier.Unify | src/semantic/solver/term/TermUnifier.cpp:42-78 | One constraint: nothing, a merge with a proper term on top, or a merge and the arguments' equations, each merge costing a root |
| TermUnifier.TermUnifier.Apply | src/semantic/solver/term/TermUnifier.cpp:84-127 | Ends on all classes; on acyclic ones returns the fully resolved term, and on a solution, cyclic or not, a term that stands for the same tree as its argument |
| Unification.ProgressMerge | src/semantic/solver/term/TermUnifier.cpp:52-77 | A merge keeps the constraints equivalent to the classes together with what is pending |
| Unification.ClashMeansNone | src/semantic/solver/term/TermUnifier.cpp:58-64 | Two proper representatives with different functors exclude every solution |
| Unification.ClassesAreMostGeneral | src/semantic/solver/term/TermUnifier.cpp:11-27 | With nothing pending the classes are a solution, and every solution equates all they equate |
| MostGeneral.ResolvedIsMostGeneral | src/semantic/solver/term/TermUnifier.cpp:84-127 | On acyclic classes resolving is a unifier, and every other unifier factors through it |
| MostGeneral.FinitelyUnifiableExactly | src/semantic/solver/term/TermUnifier.cpp:29-41 | The constraints have a finite unifier if and only if the classes are acyclic |
| MostGeneral.ResolveIsSubst | src/semantic/solver/term/TermUnifier.cpp:89-127 | Resolving commutes with the structure of terms |
| Closure.CloseResolves | src/semantic/types/TopTypeClosure.cpp:47-123 | On an acyclic solution closing a type agrees with applying the solution up to renaming, leaves no bound variable and makes no mu |
| Closure.NoBoundVariableLeft | src/semantic/types/TopTypeClosure.cpp:71-111 | Every variable left in a resolved term is unbound |
| Unfolding.CloseUnfolds | src/semantic/types/TopTypeClosure.cpp:47-123 | For any classes, cyclic or not, every variable free in a closed type is its own representative, and the mus of the type unfold, to every depth, to the tree of the representatives and their arguments |
| Unfolding.EquatedCloseAlike | src/semantic/types/TopTypeClosure.cpp:47-123 | Types that a solution equates close to types with the same unfolding |
| CopyRequirements.VerdictStable | src/semantic/ownership/FunctionEffectSummaries.cpp:577-608 | A satisfied verdict holds at every instantiation of types and modes, a violated one fails at every one |
| CopyRequirements.UndeterminedExactly | src/semantic/ownership/FunctionEffectSummaries.cpp:577-608 | A verdict is put off if and only if the actual breaks the requirement at some instantiation and not at another, or is a sum or function type with variables whose referent is asked for |
| CopyRequirements.VariablesExactly | src/semantic/ownership/FunctionEffectSummaries.cpp:577-608 | The test for type variables is true if and only if two instantiations of the type differ |
| CopyRequirements.MonomorphicSettledExactly | src/semantic/ownership/FunctionEffectSummaries.cpp:620-748 | When no actual has a variable, there is a settled assignment if and only if no actual breaks what the body it goes to asks for, and then those are one |
| CopyRequirements.JudgeMonotone | src/semantic/ownership/FunctionEffectSummaries.cpp:577-608 | A larger requirement is never judged more kindly |
| CopyRequirements.CalleeHarmless | src/semantic/ownership/FunctionEffectSummaries.cpp:628-740 | From a caller entered harmlessly, a settled call enters its callee harmlessly |
| CopyRequirements.ChainsHarmless | src/semantic/ownership/FunctionEffectSummaries.cpp:573-748 | On every call chain and at every instantiation no owned value reaches a formal that needs a copy, and no borrow of one a formal that takes what is behind it |
| RequirementResolver.RequirementResolver.Resolve | src/semantic/ownership/FunctionEffectSummaries.cpp:620-748 | The loop ends, accepts if and only if a settled assignment of requirements exists, and then computes the least |
| RequirementResolver.RequirementResolver.ResolveActual | src/semantic/ownership/FunctionEffectSummaries.cpp:628-744 | One actual: nothing to do, a rejection that no settled assignment survives, or a forced requirement inherited |
| RequirementResolver.OrderDoesNotMatter | src/semantic/ownership/FunctionEffectSummaries.cpp:620-748 | Any two orders of the calls are accepted or rejected alike, and accepted with the same requirements |
| CubicSolver.CubicSolver.GetElements | src/semantic/solver/cubic/CubicSolverT.h:72-82 | The sets are contained in every solution of the constraints so far, and solve them all if and only if the graph has nothing left to pass on or to enforce; so it is unless a loop has ended with a superset that lacks the elements |
| Cubic.SolvedExactly | src/semantic/solver/cubic/CubicSolverT.h:72-82 | A graph that records every constraint and says nothing unsound holds a solution if and only if no set is below one that lacks its elements and no condition that has come true waits to be enforced |
| CubicSolver.CubicSolver.AddElementofConstraint | src/semantic/solver/cubic/CubicSolverT.h:44-48 | Enters an element constraint and propagates it as the run does; for constraints with levels it always returns and misses nothing |
| CubicSolver.CubicSolver.AddConditionalConstraint | src/semantic/solver/cubic/CubicSolverT.h:50-58 | Enters a conditional constraint, which waits for its element or is activated; the same for one that raises the level |
| CubicSolver.CubicSolver.AddSubseteqConstraint | src/semantic/solver/cubic/CubicSolverT.h:60-70 | Enters a subset constraint, collapsing the cycles it closes; one that does not lower the level never breaks the loop nor makes it miss, and one that raises it always returns |
| CubicSolver.CubicSolver.Propagate | src/semantic/solver/cubic/CubicSolverT.h:224-241 | Re-entrant and on nodes merged away too: comes back, or ends as the run does; afterwards, unless something was missed, all at the node has been passed on, and every other variable is as it was or passed on too |
| CubicSolver.CubicSolver.PushUp | src/semantic/solver/cubic/CubicSolverT.h:234-240 | The loop over the supersets as written, by position, while its calls change the set: it ends as the run does, breaks when its element is erased, and is noted when it misses one |
| CubicSolver.CubicSolver.WalkBack | src/semantic/solver/cubic/CubicSolverT.h:157-168 | The walk by first known predecessors: a path, or never an end |
| CubicSolver.CubicSolver.KillCyclesAt | src/semantic/solver/cubic/CubicSolverT.h:106-121 | When every cycle passes through the node, collapsing leaves none; no class but the merged one changes |
| CubicSolver.CubicSolver.FindPath | src/semantic/solver/cubic/CubicSolverT.h:123-171 | A path it returns is simple and leads there; it returns none only when there is none; and it hangs only when there is one |
| CubicSolver.CubicSolver.MergeNodes | src/semantic/solver/cubic/CubicSolverT.h:187-222 | The updates in place make the graph with the two nodes merged |
| Cubic.LeastSolution | src/semantic/solver/cubic/CubicSolverT.h:44-82 | A graph that records every constraint, says nothing unsound and has nothing left to pass on holds the least solution |
| CubicGraph.MergeEvolves | src/semantic/solver/cubic/CubicSolverT.h:187-222 | A merge loses nothing, and variables of other classes see no difference |
| CubicGraph.NoCycleLeft | src/semantic/solver/cubic/CubicSolverT.h:106-121 | A graph without cycles but through a node, from whose supersets the node is not reached, has no cycle |
| CubicGraph.CycleSame | src/semantic/solver/cubic/CubicSolverT.h:106-121 | Every solution gives all nodes of a cycle one set |
| BackWalk.WalkArrivesExactly | src/semantic/solver/cubic/CubicSolverT.h:157-168 | The walk back reaches the source if and only if at every node it comes to the first known predecessor is nearer |
| CubicLoops.LoopExactly | src/semantic/solver/cubic/CubicSolverT.h:234-240 | The loop is defined if and only if no call erases the element it stands on, and complete if and only if what was inserted at or before its position has the elements |
| CubicLevels.EdgeUpClosesNothing | src/semantic/solver/cubic/CubicSolverT.h:89-97 | Under constraints with levels an edge that raises the level closes no cycle |
| CubicExamples.WalkGoesRound | src/semantic/solver/cubic/CubicSolverT.h:157-168 | Four constraints, entered one by one, after which the walk back never ends, for some positions |
| CubicExamples.CurrentIsErased | src/semantic/solver/cubic/CubicSolverT.h:234-240 | Four constraints for which the loop has to go on from an element erased from its set, for all positions |
| CubicExamples.SupersetIsSkipped | src/semantic/solver/cubic/CubicSolverT.h:234-240 | Constraints after which the run ends with sets that do not solve them, for some positions |
| CubicExamples.SkippingByTheorem | src/semantic/solver/cubic/CubicSolverT.h:234-240 | The theorem on the loop applies to that run: what slipped in behind lacks the element |
| InferenceOrder.TopoSortNonRecursive | src/semantic/types/TypeInference.cpp:81-121 | Lists exactly the functions that neither are on a cycle of calls nor reach one, each once, callees before callers |
| InferenceOrder.TopoSorter.TopoVisit | src/semantic/types/TypeInference.cpp:26-44 | A visit adds the function after all it calls, and loses and repeats none |
| InferenceOrder.MayIndirectlyCall | src/semantic/types/TypeInference.cpp:50-67 | True if and only if there is a chain of calls |
| CfgMeaning.RunIsPath | src/semantic/cfg/CFGBuilder.cpp:164-225 | Every structured run of a built statement is a path with the same trace |
| CfgMeaning.PathIsRun | src/semantic/cfg/CFGBuilder.cpp:164-225 | Every path through a built statement is a structured run with the same trace |
| CfgMeaning.SequenceRunIsPath | src/semantic/cfg/CFGBuilder.cpp:227-289 | The same for a sequence with grouped straight-line runs |
| CfgBuilder.FunctionCfgBuilder.BuildStmt | src/semantic/cfg/CFGBuilder.cpp:164-225 | Adds, with new ids only, blocks that stand for the statement and its continuation; fails exactly on a case without arms; keeps the graph in order |
| CfgBuilder.FunctionCfgBuilder.BuildSequence | src/semantic/cfg/CFGBuilder.cpp:227-289 | The backward grouping loops build the sequence up to its first return |
| CfgBuilder.FunctionCfgBuilder.Build | src/semantic/cfg/CFGBuilder.cpp:39-145 | Entry-to-exit paths of the finished graph carry exactly the traces of the body's complete runs; tidy bodies give well-formed graphs; fails exactly when the last statement is no return or a case has no arms |
| CfgBuilder.BuildForFunction | src/semantic/cfg/CFGBuilder.cpp:293-322 | For a tidy body validation never fails |
| CfgBuilder.FunctionCfgBuilder.Predecessors | src/semantic/cfg/CFGBuilder.cpp:83-91 | The recorded predecessors are exactly the blocks with an edge, once for each edge, in order |
| CfgAssembly.SameTraces | src/semantic/cfg/CFGBuilder.cpp:50-81 | Resolving the returns and adding entry and exit gives the traces of the body |
| CfgAssembly.GraphWellFormed | src/semantic/cfg/CFGBuilder.cpp:39-104 | The finished graph of a tidy body has unique ids and names, mirrored edges, proper shapes, and every block reachable |
| CfgOrder.EndReached | src/semantic/cfg/CFGBuilder.cpp:164-225 | The continuation of a statement without returns is reached from its entry |
| CfgValidate.Validate | src/semantic/cfg/ControlFlowGraph.cpp:53-193 | Accepts exactly the well-formed graphs |
| CfgValidate.CheckBlock | src/semantic/cfg/ControlFlowGraph.cpp:91-173 | One block's edges, predecessors and terminator |
| CfgValidate.Explore | src/semantic/cfg/ControlFlowGraph.cpp:175-188 | The worklist visits exactly the blocks on paths from the entry |

## Left out

- The ownership model covers ints, `own&int`, sums and borrows, with direct calls. Generic functions, first-class functions, mode variables and owned operands of `==` are not in it; generic bodies are covered by the copy-requirement model instead.
- Locals of borrow type, which the position checks of `BorrowChecker` allow, are not modelled, nor are borrows of anything but a variable, borrows of a borrowed formal (`&q`), or assignments to a borrowed formal; those checks themselves are not part of this model.
- A binder of a borrowed arm differs here from those of the arms around it; the compiler lets it shadow one (`src/semantic/ownership/BorrowChecker.cpp:212-224`).
- Theorems.ProgramSafe: takes functions to be definitely assigned, which no pass checks; `DefiniteAssignment.AssignedExactly` says on paths which ones are, and values at run time, such as an address that is live again by chance, are not taken into account.
- The destruction plan is not kept as sets of declarations: the specification returns each statement with its planned destroys in place, which is what `DestructionPass` makes of the plan. Diagnostics, traces and recorded move sites are left out.
- Names are numbers ordered as the original orders them, and an arm's binders are taken to differ from formals and locals, which the lookup by name needs.
- Runs of generated code have a budget of calls and iterations; a run that exhausts it is neither a return nor a fault, and everything about runs is proved for every budget.
- LLVM values are words of the machine's own kinds, and blocks and jumps are nested statements; printing and reading are a record of integers and an input stream, and the message of a division error is left out.
- Meaning.ExecMeans: says what is true of owners and integers; the word that a moved variable keeps stands for nothing.
- Acceptance.AcceptedExactly: of a loop the analysis forgets, after each iteration, what was moved in it and did not own before it (`src/semantic/ownership/MoveAnalysis.cpp:125-136`), and so do the ways.
- Terms are compared by value, as `equals` does; the canonical pointers kept for them are left out, and so are `unifiesByStructureOnlyWith` and `preferAsRepresentativeOver`, which `TopTermAdapter` overrides with the same constants (`src/semantic/types/solver/TopTermAdapter.cpp:57-63`).
- Closure.CloseResolves: does not model mode variables or alphas that carry a context; the same holds of `Unfolding.CloseUnfolds`.
- The walk that finds the seeds of copy requirements and the formals that actuals alias is taken as given; mu types are left out of judging.
- Arm labels of the control-flow graph and the names of statements are opaque, and block names keep their number without its decimal form.
- CfgBuilder.FunctionCfgBuilder.Build: well-formedness is stated for bodies with no return but the last statement and no two arms of one case with the same label, which the validator itself requires of a graph built from a body.
- CubicSolver.CubicSolver.AddElementofConstraint: elements are those given at construction, each once; the original takes an unknown one for index 0 and makes the nodes of later variables longer than those before, whose vectors are then indexed out of range (`src/semantic/solver/cubic/CubicSolverT.h:44-58`).
- CubicSolver.CubicSolver.AddConditionalConstraint: the same.
- Retyped.RetypedExactly: asks that an arm bind no name twice; of an arm that repeats a name and also retypes one nothing is said but that a watched run stops at it.
- Retyped.RetypedEndsExactly: the same; and the body is taken to run to its end without an unguarded step of its own.
- Theorems.WriteFaultsExactly: says nothing of a write with an operand that takes an unguarded step inside a function it calls; what such a step does is stated for the step itself.
- Constraint generation and polymorphic instantiation are not part of this model.
