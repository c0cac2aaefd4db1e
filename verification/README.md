# ShortHand in Dafny

This project models the parts of the ShortHand compiler and of its AI runtime whose behaviour is
hardest to get right, and proves what they promise. Every statement below is about all programs, all
runs or all inputs of the model; nothing is bounded.

**The compiler** (`mlir/`). A scoped, work-limited type checker, a code generator from structured
statements to basic blocks, and a second pass that expands operations on enums, options, results,
records and slices into checks and field accesses.

- `SemanticIR`, `Typing`, `Evaluator`: programs, typing rules, and a fuel-indexed evaluator with the
  outcomes fall through, break, continue, return, trap, out of fuel and wrong.
- `Machine`, `Codegen`: instructions, blocks, a small-step machine with frames, and the specification
  of the generator as functions on its state.
- `Verifier`, `Generator`, `Rewriter`: the three imperative passes as classes that update their fields
  in place, each proved equal to its specification.
- `Growth`, `ControlGrowth`, `Lockstep`: generated code only grows, is well formed, and is generated
  without a failed lookup. `Resolution` and `Placement` say exactly when that last point holds once
  dead code is taken into account.
- `Soundness`, `TypedMemory`: verified programs never go wrong, and memory stays typed in every state.
- `Straight`, `Access`, `Relation`, `ExprCases`, `StmtRelation`, `StmtCases`, `ForCases`,
  `DeclareCases`, `ControlCases`, `Simulation`, `Preservation`: the simulation between evaluator and
  generated code, case by case, and the theorem that it preserves results, traps, final stores,
  output and divergence.
- `CompositeLowering`, `LoweringSimulation`, `LoweredCode`: the same for the second pass.
- `Compiler`: all passes in a row.

**The runtime and the tools.**

- `HardwareDiscovery`, `RouteCache`: device probing, routing and the two-level route cache, over every
  run of environment changes, refreshes and requests.
- `PreparedCache`: the prepared-session cache over changing model files.
- `BatchClassifier`, `DatasetRun`: the transactional batch classifier, sequences of calls, and the loop
  over a data set.
- `AffineKernel`, `AffineGraph`: the ahead-of-time compiler of affine ONNX models, its kernel over one
  memory with overlapping buffers, and the meaning of the accepted graphs.
- `Rapl`: the sampler of wrapping energy counters.
- `EnergyPlan`, `Strings`: the choice of an energy-aware plan.
- `ModuleGraph`: the module loader, its topological order and the symbol check.
- `DigitWorkload`: the nearest-centroid program that the energy experiments generate.
- `Shapes`: overflow-guarded shape arithmetic.

`Wrappers` holds the `Maybe` type. Two hypotheses run through the compiler theorems and are stated in
them: programs stay in the structured fragment, without labels, and every declaration is a direct child
of a lexical block or of a function body (`ProgramPlaced`).

Conventions: integers are unbounded in Dafny, so every 32-bit or 64-bit wrap of the sources is written
out. Floating-point operations of the compiled language and of the kernel are parameters of which
nothing is assumed, so that no proof reorders them; sampler, planner and workload compute over reals.

## Model

| member | source | states |
|---|---|---|
| Compiler.Build | mlir/lib/SemanticLowering.cpp:414-419 | Verifier, generator and second pass run in turn. A module comes out exactly for the well-typed programs within the limits, and it is primitive and well formed. For placed programs it halts in a result, trap or final store exactly when the structured program does, runs forever exactly when that does, and every configuration it reaches is safe. |
| Compiler.FinalPreserves | mlir/lib/LowerToLLVM.cpp:111-169 | The code after both passes ends exactly as the structured program ends, diverges exactly when it diverges, and never gets stuck. |
| Compiler.FinalIsSafe | mlir/lib/LowerToLLVM.cpp:119-163 | In every configuration that a run of the final code reaches, also in runs without end, globals have values of their types, no step is undefined and only genuine faults trap; memory that stores whatever it is given would do the same. |
| Compiler.FinalIsWellFormed | mlir/lib/SemanticLowering.cpp:115-123 | After both passes every block of every function ends in its one terminator, all targets exist, and no composite operation is left. |
| Compiler.TrapsAreGenuine | mlir/lib/LowerToLLVM.cpp:119-163 | A trap of the final code is never a re-check of a stored tag or of a slice descriptor. |
| Preservation.CompilationPreserves | mlir/lib/SemanticLowering.cpp:235-297 | For every accepted program and every decided behaviour: the structured run ends in it (result, trap code, globals and output) if and only if the generated blocks do; no accepted program goes wrong. |
| Preservation.DivergencePreserved | mlir/lib/SemanticLowering.cpp:273-297 | No amount of fuel decides the structured program if and only if the generated blocks run forever. |
| Preservation.CompiledIsSafe | mlir/lib/SemanticLowering.cpp:118-119 | Every configuration of every run of generated code is defined, has globals of their types (tags in range, bools 0 or 1, slices inside one global array), and traps only for genuine faults. |
| Verifier.Verifier.Run | mlir/lib/SemanticVerifier.cpp:189-246 | The work-limited checker accepts exactly the programs that the typing rules accept and whose node count and nesting stay within the limits. |
| Verifier.Verifier.Expr | mlir/lib/SemanticVerifier.cpp:55-58 | Acceptance of an expression is the typing rule plus the two limits; the counters grow by exactly the size of the expression and the depth is restored. |
| Verifier.Verifier.ExprImpl | mlir/lib/SemanticVerifier.cpp:59-122 | The same, for the rule of one node over its operands. |
| Verifier.Verifier.Stmt | mlir/lib/SemanticVerifier.cpp:123-126 | Acceptance of a statement is the rule plus the limits, and the scope stack left behind is the one the rules give; loop count and depth are restored. |
| Verifier.Verifier.StmtImpl | mlir/lib/SemanticVerifier.cpp:127-188 | The same for the body of the statement rule, branch by branch. |
| Verifier.Verifier.Stmts | mlir/lib/SemanticVerifier.cpp:184-186 | A statement list is accepted exactly when each statement is, in the scopes left by those before it. |
| Verifier.Verifier.Lookup | mlir/lib/SemanticVerifier.cpp:51-54 | The loop over the scopes finds the innermost declaration, then the global, then nothing. |
| Verifier.Verifier.IsIdentifier | mlir/lib/SemanticVerifier.cpp:27-34 | The character loop accepts exactly the identifiers. |
| Verifier.Verifier.IsVariable | mlir/lib/SemanticVerifier.cpp:47-50 | A declaration is accepted exactly when its name, type and extent obey the rule. |
| Verifier.Verifier.Tabulate | mlir/lib/SemanticVerifier.cpp:190-208 | The tables are filled exactly when every declaration obeys its rule against the tables filled before it, and are then the tables of the program. |
| Typing.CheckStmtFrame | mlir/lib/SemanticVerifier.cpp:127-188 | Away from declaration positions a well-typed statement leaves the scope stack as it was. |
| Typing.CheckListFrame | mlir/lib/SemanticVerifier.cpp:136 | The same for the statement list of a body that opens no scope. |
| Typing.CheckStmt | mlir/lib/SemanticVerifier.cpp:136-142 | A statement changes at most the innermost scope: the height of the stack and all outer scopes stay. |
| Typing.ProgramTablesOk | mlir/lib/SemanticVerifier.cpp:190-243 | The tables of an accepted program are consistent, and every function in them obeys its rule. |
| Soundness.ExprSound | mlir/lib/SemanticVerifier.cpp:59-122 | Evaluating a well-typed expression in a well-typed store never goes wrong, gives a value of its type and keeps the store well typed; its faults are genuine. |
| Soundness.ExecSound | mlir/lib/SemanticVerifier.cpp:127-188 | Running a well-typed, placed statement keeps the store typed, returns only values of the result type, and breaks or continues only inside loops. |
| Soundness.CallSound | mlir/lib/SemanticVerifier.cpp:87-92 | A call with arguments of the parameter types gives a result of the declared type. |
| Soundness.ProgramSound | mlir/lib/SemanticVerifier.cpp:238-245 | A verified program never goes wrong; whatever it ends in, its globals are well typed and its faults genuine. |
| Soundness.ConstructSound | mlir/lib/LowerToLLVM.cpp:137-140 | A composite built from fields of the right types has its tag in range, or the build faults. |
| Soundness.ProjectSound | mlir/lib/LowerToLLVM.cpp:149-155 | A payload is read exactly when its own tag is active, and the fault otherwise is the wrong-variant one. |
| Soundness.SliceElementSound | mlir/lib/SemanticLowering.cpp:209-219 | Every in-bounds read through a well-typed slice hits an element of the owning array with the element type. |
| SemanticIR.Wrap32 | mlir/lib/SemanticLowering.cpp:155-157 | The 32-bit result differs from the true one by a multiple of 2^32 and equals it when it fits. |
| SemanticIR.TruncDivInRange | mlir/lib/SemanticLowering.cpp:158-164 | The quotient fits 32 bits exactly when the guard does not trap; the remainder always does. |
| Generator.Lower | mlir/lib/SemanticLowering.cpp:407-408 | The imperative generator emits, function by function, exactly the module of the specification. |
| Generator.EmitFunction | mlir/lib/SemanticLowering.cpp:396-406 | A function emitted by a fresh generator is the specified code, trap on fall-through included. |
| Generator.Generator.Function | mlir/lib/SemanticLowering.cpp:396-406 | The prologue, the body and the ending, in place, give the specified generator state. |
| Generator.Generator.Stmt | mlir/lib/SemanticLowering.cpp:236-297 | Generating a statement in place takes the state to the one specified, with scopes, targets, counters and insertion point. |
| Generator.Generator.Statements | mlir/lib/SemanticLowering.cpp:235 | Statements behind a terminator produce nothing. |
| Generator.Generator.If | mlir/lib/SemanticLowering.cpp:266-272 | Three fresh blocks, the condition, both branches and the join as specified. |
| Generator.Generator.While | mlir/lib/SemanticLowering.cpp:273-278 | Test, body and exit blocks with the loop targets pushed around the body and popped after it. |
| Generator.Generator.For | mlir/lib/SemanticLowering.cpp:279-292 | Start, test, body, step and exit blocks; the step slot is saved at the test and used at the step. |
| Generator.Generator.Expr | mlir/lib/SemanticLowering.cpp:171-230 | Generating an expression appends the specified instructions and returns the specified operand. |
| Generator.Generator.Pointer | mlir/lib/SemanticLowering.cpp:124-132 | The index is generated before the variable is looked up, with the bounds trap between them. |
| Generator.Generator.Binary | mlir/lib/SemanticLowering.cpp:137-170 | Each operator on each operand type becomes the specified instructions. |
| Generator.Generator.Division | mlir/lib/SemanticLowering.cpp:158-164 | The zero and overflow guards, their trap and the operation. |
| Generator.Generator.TrapIf | mlir/lib/SemanticLowering.cpp:120-123 | A branch to a fresh trapping block, going on in another fresh one. |
| Generator.Generator.Lookup | mlir/lib/SemanticLowering.cpp:110-114 | The innermost binding, then the global. |
| Generator.Generator.Declare | mlir/lib/SemanticLowering.cpp:231-234 | A slot of its own, a zero store and a binding in the innermost scope. |
| Generator.Generator.BranchTo | mlir/lib/SemanticLowering.cpp:115-117 | A branch is added only to a block that has no terminator. |
| Generator.StmtKeepsScopes | mlir/lib/SemanticLowering.cpp:236-297 | A statement leaves the height of the scope stack and every outer scope alone, whatever the statement. |
| Growth.ExprGrows | mlir/lib/SemanticLowering.cpp:171-230 | Code of an expression only appends: earlier instructions stay, blocks left behind are closed, the current one stays open, and registers only grow. |
| ControlGrowth.StmtExtends | mlir/lib/SemanticLowering.cpp:236-297 | Code of a statement extends what was there: earlier blocks keep their instructions, new ones are closed except the current one, and the target stacks are restored. |
| ControlGrowth.FunctionWellFormed | mlir/lib/SemanticLowering.cpp:115-123 | Every block of every emitted function ends in exactly one terminator with nothing after it, and all its targets belong to the function. |
| ControlGrowth.ModuleWellFormed | mlir/lib/SemanticLowering.cpp:396-406 | The same for the whole module, for every program, verified or not. |
| ControlGrowth.FallThrough | mlir/lib/SemanticLowering.cpp:400-404 | The end of a non-void body that is reached is the missing-return trap. |
| Lockstep.AcceptedProgramsLower | mlir/lib/SemanticLowering.cpp:231-297 | Lowering a verified, placed program is total: no lookup of a variable, function, composite or jump target fails. |
| Lockstep.StmtTotal | mlir/lib/SemanticLowering.cpp:231-297 | Scope stacks of verifier and generator stay in lockstep over every statement, with the same names, types, extents and composites, and slots of their own. |
| Lockstep.ExprTotal | mlir/lib/SemanticLowering.cpp:171-230 | Every lookup in an expression succeeds when the scope stacks agree. |
| Resolution.LookupsAreExact | mlir/lib/SemanticVerifier.cpp:139-142 | Without the placement rule: in an accepted program the generator finds exactly the verifier's declarations if and only if cutting the dead code keeps what every name refers to; lowering is then total. |
| Resolution.FunctionExact | mlir/lib/SemanticLowering.cpp:235 | For one function: dead code changes no instruction, lookups are exact if and only if names are kept, and then none fails and the pruned body still passes the rules. |
| Resolution.ExactStmt | mlir/lib/SemanticLowering.cpp:236-297 | For one statement in any pair of scope stacks: exactness if and only if names are kept. |
| Resolution.CutStmt | mlir/lib/SemanticLowering.cpp:235 | Generating a statement and generating it without its dead code give the same state. |
| Resolution.PlacedProgramsKeepNames | mlir/lib/SemanticVerifier.cpp:139-142 | Programs that declare only in blocks and bodies keep their names. |
| Resolution.PrunedChecks | mlir/lib/SemanticVerifier.cpp:127-188 | With its names kept, a statement without its dead code passes the rules in the smaller scopes. |
| Placement.DeadDeclarationBreaksLowering | mlir/lib/SemanticVerifier.cpp:139-142 | A declaration behind a break is recorded by the verifier and skipped by the generator: the accepted program does not lower. |
| Placement.DeadDeclarationMisbinds | mlir/lib/SemanticVerifier.cpp:139-142 | With a global of the same name the accepted program lowers, and the later use is bound to the wrong variable. |
| Placement.DeadDeclarationNotKept | mlir/lib/SemanticLowering.cpp:235 | In both programs the name is not kept, as the exact condition says. |
| Placement.BranchDeclarationLowers | mlir/lib/SemanticVerifier.cpp:139-142 | The placement rule is sufficient, not necessary: a declaration in a branch is lowered all the same. |
| Machine.HaltsOnce | mlir/lib/SemanticLowering.cpp:115-123 | A run has one end at most. |
| TypedMemory.ReachableStatesAreTyped | mlir/lib/SemanticLowering.cpp:231-234 | Every state that a module reaches from its start has globals of their declared types. |
| TypedMemory.RunsAgree | mlir/lib/SemanticLowering.cpp:247-254 | Until a step is undefined, memory that refuses ill-typed stores and memory that accepts them run alike. |
| Simulation.StmtSim | mlir/lib/SemanticLowering.cpp:236-297 | From a state that holds the store, the code of a statement runs to the place, store and flow that the evaluator gives: fall through, break, continue, return or trap, and it keeps running when fuel runs out. |
| Simulation.ExprSim | mlir/lib/SemanticLowering.cpp:171-230 | The code of an expression ends in the evaluator's value, store or trap, with all older registers and slots unchanged. |
| Simulation.ExprsSim | mlir/lib/SemanticLowering.cpp:171-183 | Operands are evaluated left to right, each seeing the effects of those before it. |
| Simulation.PlaceSim | mlir/lib/SemanticLowering.cpp:124-132 | The address of a place is computed with its index first; it points where the evaluator's place is, or traps as it does. |
| Simulation.CallRun | mlir/lib/SemanticLowering.cpp:183-187 | A call pushes a frame, runs the callee's code and comes back with its result in the register that waits for it. |
| Simulation.FunctionSim | mlir/lib/SemanticLowering.cpp:396-406 | A whole activation answers as the body does: a value, the missing-return trap, or a fault inside. |
| Simulation.AssignSim | mlir/lib/SemanticLowering.cpp:247 | The value is computed before the target, and the target gets it. |
| Simulation.UpdateSim | mlir/lib/SemanticLowering.cpp:248-254 | A field update reads the record, computes the field, then locates and stores. |
| Simulation.DeclareSim | mlir/lib/SemanticLowering.cpp:246 | Declared variables start at zero in storage of their own. |
| Simulation.ReturnSim | mlir/lib/SemanticLowering.cpp:295-297 | A return leaves every loop and gives its value to the caller. |
| Simulation.PrintStmtSim | mlir/lib/SemanticLowering.cpp:259-265 | Items are evaluated and printed one by one, with separators between and a newline at the end; null strings print as empty. |
| Simulation.JumpSim | mlir/lib/SemanticLowering.cpp:293-294 | Break goes to the innermost exit and continue to the innermost step or test. |
| Simulation.BlockSim | mlir/lib/SemanticLowering.cpp:239-245 | A block runs in a scope of its own, which is gone afterwards. |
| Simulation.ListSim | mlir/lib/SemanticLowering.cpp:235 | A list runs until a statement stops it. |
| Simulation.IfSim | mlir/lib/SemanticLowering.cpp:266-272 | Either branch is run, as the condition says, and control joins again. |
| Simulation.WhileLoop | mlir/lib/SemanticLowering.cpp:273-278 | By induction on fuel, the loop blocks do what the evaluator's loop does, from every store at the test. |
| Simulation.ForSim | mlir/lib/SemanticLowering.cpp:279-292 | The start value is stored, then the loop is entered; the whole statement agrees with the evaluator. |
| Simulation.IterateSim | mlir/lib/SemanticLowering.cpp:281-292 | On every test: the counter is read, the step is evaluated and traps when zero, the end is evaluated, the direction decides; the step saved at that test is added later, even when the body or the bounds change the counter. |
| Straight.BinarySim | mlir/lib/SemanticLowering.cpp:137-170 | The code of an operator computes its value or its trap: wrapping sums, guarded division, both operands of and/or, comparisons of each type. |
| Straight.DivisionSim | mlir/lib/SemanticLowering.cpp:158-164 | Division and remainder trap exactly for zero and for the overflowing pair, and truncate otherwise. |
| Straight.FloatSim | mlir/lib/SemanticLowering.cpp:143-154 | Float operators call the uninterpreted operation; division by zero traps. |
| Straight.TextSim | mlir/lib/SemanticLowering.cpp:139-142 | Strings compare equal as their contents do, null counting as empty. |
| Straight.UnarySim | mlir/lib/SemanticLowering.cpp:178-181 | Negation wraps on integers and is the float operation on floats. |
| Access.ElementSim | mlir/lib/SemanticLowering.cpp:124-132 | The bounds code traps exactly outside the extent and otherwise computes the element's address. |
| Access.SliceSim | mlir/lib/SemanticLowering.cpp:198-208 | Slicing traps exactly when the window leaves the owner, 64-bit sum included, and its descriptor check never traps. |
| Access.SliceIndexSim | mlir/lib/SemanticLowering.cpp:209-219 | One unsigned comparison rejects negative and too large indices alike, and the load behind it is inside the owner. |
| Access.FoundAddr | mlir/lib/SemanticLowering.cpp:110-114 | The binding found has the declaration that the verifier resolved and addresses the storage of that very variable. |
| ForCases.StepRun | mlir/lib/SemanticLowering.cpp:283-284 | The step check traps exactly for zero and saves the step in a slot that only this loop uses. |
| ForCases.DirectionRun | mlir/lib/SemanticLowering.cpp:285-288 | The four instructions compute: counter below end for positive steps, above for negative. |
| ForCases.AdvanceRun | mlir/lib/SemanticLowering.cpp:290-291 | The step block reads the counter's storage again, adds the saved step with wrap-around and goes back to the test. |
| DeclareCases.DeclareEachRun | mlir/lib/SemanticLowering.cpp:231-234 | Each declared variable has a fresh slot with zero contents, and nothing older changes. |
| DeclareCases.ParametersRun | mlir/lib/SemanticLowering.cpp:397-398 | The prologue leaves every parameter's slot with its argument. |
| LoweredCode.LoweringPreserves | mlir/lib/LowerToLLVM.cpp:111-169 | Expanding composite operations preserves every result, trap and final state, and divergence, and introduces no undefined step. |
| LoweredCode.LoweredIsWellFormed | mlir/lib/LowerToLLVM.cpp:25-32 | The expanded code is well formed again and has no composite operation left. |
| LoweringSimulation.StepMatch | mlir/lib/LowerToLLVM.cpp:132-169 | Every step is matched by one or more steps of the expanded code, in related states. |
| LoweringSimulation.RunMatch | mlir/lib/LowerToLLVM.cpp:132-169 | So is every run that is never stuck. |
| LoweringSimulation.MakeRun | mlir/lib/LowerToLLVM.cpp:132-143 | The code for building a value traps as the build does, or leaves the aggregate in the same register. |
| LoweringSimulation.ProjectRun | mlir/lib/LowerToLLVM.cpp:144-163 | The code for a projection checks the tag, then the payload's own tag, or the slice descriptor, and reads the field. |
| Rewriter.Rewritten | mlir/lib/LowerToLLVM.cpp:111-169 | The in-place rewriter of all functions gives the expanded module of the specification. |
| Rewriter.Rewriter.CheckComposite | mlir/lib/LowerToLLVM.cpp:119-131 | In place: the tag range check of enums, options and results, the descriptor check of slices, nothing for records. |
| Rewriter.Rewriter.Value | mlir/lib/LowerToLLVM.cpp:132-143 | In place: the check, then one insertion per field. |
| Rewriter.Rewriter.Project | mlir/lib/LowerToLLVM.cpp:144-163 | In place: range check, active-tag check, extraction. |
| Rewriter.Rewriter.FailIf | mlir/lib/LowerToLLVM.cpp:25-32 | In place: the block is split, and the failing side traps. |
| Rewriter.Rewriter.RewriteFunction | mlir/lib/LowerToLLVM.cpp:111-169 | In place: all blocks of a function, each with the rest of its old instructions behind the new checks. |
| Shapes.ElementCount | mlir/include/ShortHand/SemanticIR.h:79-87 | The true product when the shape is static and the product is at most 2^63-1; zero for every other shape. |
| Shapes.VerifyTensor | mlir/lib/ShortHandDialect.cpp:38-60 | Accepts exactly the unencoded shapes of positive rank with a supported element, positive dimensions and at most 2^63-1 bytes. |
| Shapes.IsStatic | mlir/include/ShortHand/SemanticIR.h:71-77 | Non-empty with positive dimensions. |
| Shapes.GuardIsExact | mlir/include/ShortHand/SemanticIR.h:83 | Dividing the limit first tests exactly whether the product exceeds it. |
| Shapes.WithinBytes | mlir/lib/ShortHandDialect.cpp:55-58 | The byte bound is decided exactly without multiplying a count that might overflow. |
| RouteCache.RouteIsFresh | Compiler_new_ws/Short_Hand/src/ai_runtime/AI_Runtime.cpp:173-191 | After any run of device and environment changes, refreshes and requests: the answered route is the one a fresh probe and selection would give, if and only if it is no cache hit or the production override is what it was when the cached route was computed. |
| RouteCache.CacheIsExact | Compiler_new_ws/Short_Hand/src/ai_runtime/AI_Runtime.cpp:163-191 | While the override never changes, every request of every run gets the fresh route. |
| RouteCache.StaleRoute | Compiler_new_ws/Short_Hand/src/ai_runtime/ProductionBackendQualification.h:45-62 | Clearing the override between two equal requests leaves a stale route in the cache. |
| RouteCache.RunsStayCoherent | Compiler_new_ws/Short_Hand/src/ai_runtime/AI_Runtime.cpp:163-191 | In every reachable state the cached inventory is that of the last observed signals, and the cached route was selected from it under the current policy. |
| RouteCache.OverrideShows | Compiler_new_ws/Short_Hand/src/ai_runtime/ProductionBackendQualification.h:64-87 | Routes computed under different overrides differ: the override is part of the evidence. |
| RouteCache.AIRuntime.GenerationToken | Compiler_new_ws/Short_Hand/src/ai_runtime/HardwareDiscovery.h:235-270 | The observer state moves as specified, with the wrap of the 64-bit generation past zero. |
| RouteCache.AIRuntime.RefreshPolicyFromEnvironment | Compiler_new_ws/Short_Hand/src/ai_runtime/AI_Runtime.cpp:163-171 | The policy is re-read and the route dropped exactly when one of the five variables changed since the last refresh. |
| RouteCache.AIRuntime.RouteForModel | Compiler_new_ws/Short_Hand/src/ai_runtime/AI_Runtime.cpp:173-191 | The state moves as specified; the hit flag, route and probe count are those of the new state. |
| HardwareDiscovery.ProbeFollowsSignals | Compiler_new_ws/Short_Hand/src/ai_runtime/HardwareDiscovery.h:235-312 | Two worlds with equal signals and host memory give equal inventories: the signals are everything a probe looks at. |
| HardwareDiscovery.NamesDeviceExactly | Compiler_new_ws/Short_Hand/src/ai_runtime/HardwareDiscovery.h:105-108 | A variable names a device exactly when its normalised value is not empty, "none", "void" or "false": no normalised value has a dash, so the entry "-1" never matches. |
| HardwareDiscovery.MinusOneNamesDevice | Compiler_new_ws/Short_Hand/src/ai_runtime/HardwareDiscovery.h:105-108 | Every value with a dash names a device, "-1" among them. |
| HardwareDiscovery.RoutingOrder | Compiler_new_ws/Short_Hand/src/ai_runtime/HardwareDiscovery.h:190-209 | The loops compute the specified order, each class once. |
| HardwareDiscovery.OrderIs | Compiler_new_ws/Short_Hand/src/ai_runtime/HardwareDiscovery.h:190-209 | A class is tried exactly when it is the override, or preferred without an override; the CPU exactly when fallback is allowed. |
| HardwareDiscovery.UniqueDistinct | Compiler_new_ws/Short_Hand/src/ai_runtime/HardwareDiscovery.h:204-208 | No class is tried twice. |
| HardwareDiscovery.ReadyIs | Compiler_new_ws/Short_Hand/src/ai_runtime/HardwareDiscovery.h:174-188 | A device has a backend exactly when the policy admits it and some available backend is compatible; the one found is. |
| HardwareDiscovery.ExecutionReadyBackend | Compiler_new_ws/Short_Hand/src/ai_runtime/HardwareDiscovery.h:174-188 | The first backend that may serve the device, if any. |
| HardwareDiscovery.SelectDevice | Compiler_new_ws/Short_Hand/src/ai_runtime/HardwareDiscovery.h:401-415 | The nested loops find the first class in routing order with a served device. |
| HardwareDiscovery.RouteIsEarliest | Compiler_new_ws/Short_Hand/src/ai_runtime/HardwareDiscovery.h:395-415 | A route is selected exactly when some wanted class is served, and then from the earliest such class. |
| HardwareDiscovery.SameModelSameRoute | Compiler_new_ws/Short_Hand/src/ai_runtime/AI_Runtime.cpp:18-28 | Models that the cache regards as the same are routed alike, though they need not be equal. |
| PreparedCache.SessionAnswersAreFresh | Compiler_new_ws/Short_Hand/src/ai_runtime/AI_Runtime.cpp:217-248 | After any run of file rewrites, requests and failures: when a session answers, preparing afresh from the bytes now on disk succeeds and gives that answer. |
| PreparedCache.RunsStayCoherent | Compiler_new_ws/Short_Hand/src/ai_runtime/AI_Runtime.h:18-31 | In every reachable state a live session was prepared from exactly the recorded model and bytes. |
| PreparedCache.PreparationsAreCounted | Compiler_new_ws/Short_Hand/src/ai_runtime/AI_Runtime.cpp:228-233 | The counter is the number of successful preparations modulo 2^64. |
| PreparedCache.PreparedInferenceCache.Infer | Compiler_new_ws/Short_Hand/src/ai_runtime/AI_Runtime.cpp:211-260 | A request moves the cache and answers as specified, on all its branches: session, path-based inference, fallback, refusal. |
| PreparedCache.PreparedInferenceCache.Prepare | Compiler_new_ws/Short_Hand/src/ai_runtime/AI_Runtime.cpp:222-234 | A miss clears the cache, prepares, and records model and bytes only on success. |
| PreparedCache.PreparedInferenceCache.ReadCacheableSnapshot | Compiler_new_ws/Short_Hand/src/ai_runtime/AI_Runtime.cpp:29-42 | A snapshot is taken exactly of ONNX float32 files between one byte and 16 MiB that are read whole. |
| PreparedCache.PreparedInferenceCache.Clear | Compiler_new_ws/Short_Hand/src/ai_runtime/AI_Runtime.h:20 | Everything but the counter is reset. |
| BatchClassifier.ClassifyBatchAppend | Compiler_new_ws/Short_Hand/src/ai_runtime/ApplicationQualification.cpp:128-243 | Success exactly under the stated condition, in which the workspace has no part; on failure the three vectors are as before; on success they grow by the rows of the call, their predictions and their top-k lists. |
| BatchClassifier.Preprocess | Compiler_new_ws/Short_Hand/src/ai_runtime/ApplicationQualification.cpp:140-150 | The session's input is the normalised rows and zeros behind them, whatever the workspace held. |
| BatchClassifier.RankRows | Compiler_new_ws/Short_Hand/src/ai_runtime/ApplicationQualification.cpp:208-221 | Each row's prediction and top-k list go to their places behind the old ones. |
| BatchClassifier.PartialSort | Compiler_new_ws/Short_Hand/src/ai_runtime/ApplicationQualification.cpp:213-218 | The first k labels of the one ranking by descending score and ascending label. |
| BatchClassifier.RankingIsUnique | Compiler_new_ws/Short_Hand/src/ai_runtime/ApplicationQualification.cpp:214-218 | Any ordering of all labels by that comparison is the ranking. |
| BatchClassifier.PredictionLeads | Compiler_new_ws/Short_Hand/src/ai_runtime/ApplicationQualification.cpp:219-220 | The prediction heads the top-k list of its row, and no label of the row comes before it. |
| BatchClassifier.Outputs.Rollback | Compiler_new_ws/Short_Hand/src/ai_runtime/ApplicationQualification.cpp:170-182 | All three vectors get their old lengths back. |
| BatchClassifier.StaysAligned | Compiler_new_ws/Short_Hand/src/ai_runtime/ApplicationQualification.cpp:152-154 | A successful call leaves the vectors aligned, so that the next is not refused for it. |
| DatasetRun.MakeCalls | Compiler_new_ws/Short_Hand/src/ai_runtime/ApplicationQualification.cpp:254-265 | Any sequence of calls on the same vectors: they hold what the successful ones added, and each outcome is told. |
| DatasetRun.RowsInOrder | Compiler_new_ws/Short_Hand/src/ai_runtime/ApplicationQualification.cpp:206-221 | After any sequence of calls the rows of every successful call stand, in order, behind those of the calls before it, with their best labels and top-k lists. |
| DatasetRun.After | Compiler_new_ws/Short_Hand/src/ai_runtime/ApplicationQualification.cpp:153-154 | After any sequence of calls the three vectors are aligned. |
| DatasetRun.ClassifyDataset | Compiler_new_ws/Short_Hand/src/ai_runtime/ApplicationQualification.cpp:410-435 | One pass over a data set completes exactly when every batch has values in range and a session that answers; it then has one prediction per row. |
| DatasetRun.DatasetInOrder | Compiler_new_ws/Short_Hand/src/ai_runtime/ApplicationQualification.cpp:415-435 | The answer to row i of batch k is row k * batch + i of the vectors. |
| DatasetRun.LimitsSuffice | Compiler_new_ws/Short_Hand/src/ai_runtime/ApplicationQualification.cpp:95-110 | The limits of the data set reader imply the output limits of the classifier: no call is refused for its vectors. |
| AffineKernel.Infer | experiments/aot/compile_model.py:142-162 | Code 0 exactly for finite input and result: the output is the left-to-right accumulation plus bias for the input as it was, even where input and output overlap. Codes 1 and 2 leave the output alone; nothing but workspace and output ever changes. |
| AffineKernel.OverlapIsExact | experiments/aot/compile_model.py:133-140 | For buffers that passed the region check no address wraps and the test says exactly whether they share a byte. |
| AffineKernel.CellsApart | experiments/aot/compile_model.py:133-140 | Buffers that do not overlap share no cell of memory. |
| AffineKernel.ComputeRow | experiments/aot/compile_model.py:150-158 | One row in the workspace: zeroing, accumulation in order, bias, and the finiteness test. |
| AffineKernel.Commit | experiments/aot/compile_model.py:160 | The output gets the workspace. |
| AffineGraph.Inspect | experiments/aot/compile_model.py:39-98 | Accepts exactly the supported models that also pass the schema checker, and extracts their shape and constants. |
| AffineGraph.StaticShape | experiments/aot/compile_model.py:25-36 | Dimensions between 1 and 1024. |
| AffineGraph.GraphIsKernel | experiments/aot/compile_model.py:55-83 | An accepted graph denotes, under the operator definitions of MatMul-13 and Add-13, the function of the kernel, if and only if the bias is the second operand or every sum that arises commutes with its bias. |
| AffineGraph.CommutingGraphsAreKernels | experiments/aot/compile_model.py:73-74 | With a commutative addition every supported graph is its kernel on every input. |
| AffineGraph.InferGraph | experiments/aot/compile_model.py:120-162 | The kernel of an accepted model, when it succeeds, leaves in the output what the graph denotes for the input as it was. |
| AffineGraph.Denotation | experiments/aot/compile_model.py:58-83 | Every accepted graph is defined on every input of its shape, with these elements. |
| Rapl.ExactUnlessFullTurn | experiments/energy/ci_energy_evidence.py:435-470 | A run of accepted passes never reports more than the energy that flowed, and reports exactly that if and only if no gap holds a full turn of a counter. |
| Rapl.Reconstruction | experiments/energy/ci_energy_evidence.py:435-470 | The reported total plus one range per full turn within a gap is the energy that flowed between first and last reads, summed over domains. |
| Rapl.WholeRunsAreExact | experiments/energy/ci_energy_evidence.py:435-470 | When reads fall on whole microjoules every accepted run is exact. |
| Rapl.CertainRunsAreExact | experiments/energy/ci_energy_evidence.py:448-465 | When for every domain each gap leaves a microjoule of room below one range, or the counter shows a change, the run is exact whatever the domains did. |
| Rapl.PairIsExactWhenCertain | experiments/energy/ci_energy_evidence.py:448-465 | Exactly then: two accepted passes determine the energy for all domains that could have shown them, if and only if the pair is certain. |
| Rapl.UncertainPairHidesARange | experiments/energy/ci_energy_evidence.py:461-465 | For every other accepted pair there are domains within the power bound that show it and flowed more than reported. |
| Rapl.GapIsRead | experiments/energy/ci_energy_evidence.py:454-466 | Within an admitted gap the computed advance is the true one, or zero for a full turn. |
| Rapl.RaplSampler.SampleOnce | experiments/energy/ci_energy_evidence.py:435-470 | An accepted sample extends the run by its reading; a rejected one changes no state. |
| Rapl.RaplSampler.Start | experiments/energy/ci_energy_evidence.py:472-484 | Starting takes the first sample. |
| Rapl.RaplSampler.Poll | experiments/energy/ci_energy_evidence.py:475-481 | The first error is kept and ends the polling. |
| Rapl.RaplSampler.Stop | experiments/energy/ci_energy_evidence.py:486-497 | A report is given only when no pass failed, and is the total of the whole run. |
| Rapl.RaplSampler.Advance | experiments/energy/ci_energy_evidence.py:453-466 | The increment in the order of the domains, or the first error. |
| EnergyPlan.Select | Compiler_new_ws/Short_Hand/src/ai_runtime/ExecutionPlan.cpp:115-152 | Refusals exactly for a bad protocol, count or name; otherwise the plan chooses the unique least eligible candidate against the last base candidate, or falls back, and marks the comparable ones. |
| EnergyPlan.NeverWorse | Compiler_new_ws/Short_Hand/src/ai_runtime/ExecutionPlan.cpp:135-145 | The choice takes no more energy than the baseline and saves between 0 and 100 percent. |
| EnergyPlan.ClaimIsSeparated | Compiler_new_ws/Short_Hand/src/ai_runtime/ExecutionPlan.cpp:146-147 | A comparative claim is not synthetic, not about the baseline, and the uncertainty intervals are disjoint. |
| EnergyPlan.BestIsUnique | Compiler_new_ws/Short_Hand/src/ai_runtime/ExecutionPlan.cpp:136-138 | There is one least candidate at most. |
| EnergyPlan.OrderMattersExactly | Compiler_new_ws/Short_Hand/src/ai_runtime/ExecutionPlan.cpp:118-139 | The order of the candidates changes the choice if and only if two base candidates lead to different choices. |
| EnergyPlan.OrderDecidesBaseline | Compiler_new_ws/Short_Hand/src/ai_runtime/ExecutionPlan.cpp:123-126 | Any order of the same candidates chooses what its last base candidate leads to: the order decides nothing else. |
| EnergyPlan.OrderDoesNotMatter | Compiler_new_ws/Short_Hand/src/ai_runtime/ExecutionPlan.cpp:123-152 | With one base candidate the choice, reason and claim are the same in every order. |
| EnergyPlan.OrderMattersWithTwoBaselines | Compiler_new_ws/Short_Hand/src/ai_runtime/ExecutionPlan.cpp:123 | With two base candidates and no measured energy the later is chosen. |
| EnergyPlan.Qualify | Compiler_new_ws/Short_Hand/src/ai_runtime/ExecutionPlan.cpp:89-114 | Execution and energy validity, means and expanded uncertainty as the rule over all trials says. |
| EnergyPlan.Gather | Compiler_new_ws/Short_Hand/src/ai_runtime/ExecutionPlan.cpp:94-104 | An energy counts when it is measured for the right units by the instrument of those before it. |
| EnergyPlan.Summarize | Compiler_new_ws/Short_Hand/src/ai_runtime/ExecutionPlan.cpp:71-81 | Mean and sample deviation. |
| EnergyPlan.QualifyAll | Compiler_new_ws/Short_Hand/src/ai_runtime/ExecutionPlan.cpp:118-124 | Names are checked as they come; the baseline is the last one-thread CPU candidate that ran. |
| EnergyPlan.Choose | Compiler_new_ws/Short_Hand/src/ai_runtime/ExecutionPlan.cpp:127-139 | The loop's choice is the least eligible candidate seen, and the flags say what stayed comparable. |
| EnergyPlan.EnergyIsPositive | Compiler_new_ws/Short_Hand/src/ai_runtime/ExecutionPlan.cpp:106-113 | A candidate with valid energy has a positive mean, so that the reduction is defined. |
| ModuleGraph.LoadModuleGraph | Compiler_new_ws/Short_Hand/src/main.cpp:173-227 | For every finite import graph: loading ends, and succeeds exactly when every module the entry reaches resolves and none lies on a cycle; the units are then exactly the reachable modules, each parsed once, ordered after their imports. |
| ModuleGraph.Close | Compiler_new_ws/Short_Hand/src/main.cpp:188-225 | The expansion, cycles included, leaves exactly the reachable modules, each parsed once, and fails exactly when a reached module does not resolve. |
| ModuleGraph.Loader.Expand | Compiler_new_ws/Short_Hand/src/main.cpp:190-223 | A module under way is not entered again; afterwards everything it imports is expanded or under way. |
| ModuleGraph.ClosureIsReach | Compiler_new_ws/Short_Hand/src/main.cpp:188-223 | A set that holds the entry, is closed under imports and holds only reached modules is the reach of the entry. |
| ModuleGraph.TopologicalOrder | Compiler_new_ws/Short_Hand/src/module/ModuleResolver.cpp:617-665 | Succeeds exactly when nothing reached is absent or on a cycle, and then orders exactly the reached modules after their imports. |
| ModuleGraph.Ordering.Visit | Compiler_new_ws/Short_Hand/src/module/ModuleResolver.cpp:631-662 | A failure means a cycle or an absent module; a success places the module behind its imports. |
| ModuleGraph.ValidateGraphSymbols | Compiler_new_ws/Short_Hand/src/main.cpp:229-250 | Succeeds exactly when no two modules of the order share a symbol. |
| ModuleGraph.GraphsAgree | Compiler_new_ws/Short_Hand/src/main.cpp:225-227 | Cycles in the loaded units are the cycles of the import graph. |
| DigitWorkload.Run | experiments/energy/source_workload.py:51-64 | After R repetitions the predictions are rotated by (R - 1) mod N and the checksum is R times their sum in 32 bits; every index is inside its array. |
| DigitWorkload.PredictIsNearest | experiments/energy/source_workload.py:24-33 | The predicted centroid is nearest, and every lower label is farther. |
| DigitWorkload.Workload | experiments/energy/source_workload.py:13-64 | From training rows to printed output: nothing is emitted unless every label occurs; otherwise the output is that of the fitted centroids. |
| DigitWorkload.Fit | experiments/energy/source_workload.py:17-22 | Centroids are the means of the rows of their label; there is no result when a label does not occur. |
| DigitWorkload.FittedIsNearest | experiments/energy/source_workload.py:17-33 | With fitted centroids the prediction is the nearest one, the lowest label on ties. |
| DigitWorkload.CentersAreGood | scripts/create_digit_application_fixture.py:26-33 | Rows within the data set's range give centroids within the unit range. |
| DigitWorkload.ChecksumIsExact | experiments/energy/source_workload.py:62-64 | The checksum is exact if and only if the true one is at most 2^31-1, which holds up to 132782 repetitions whatever the data. |
| DigitWorkload.Classify | experiments/energy/source_workload.py:58-61 | The scan under the sentinel finds the first largest score: the sentinel never wins. |
| DigitWorkload.AboveSentinel | experiments/energy/source_workload.py:58-61 | Every score exceeds the sentinel. |
| DigitWorkload.ScoreAndDistance | experiments/energy/source_workload.py:24-33 | Score and squared distance add up to the same number for every label. |
| DigitWorkload.ReadInput | experiments/energy/source_workload.py:49-50 | The split arrays hold the input stream. |
| DigitWorkload.LoadRow | experiments/energy/source_workload.py:53-57 | A row is taken from the array it is in, with every index inside. |
| DigitWorkload.Repeat | experiments/energy/source_workload.py:52-63 | One repetition fills the predictions with the rotation by its shift and adds their sum. |
| DigitWorkload.Constants | experiments/energy/source_workload.py:23-24 | The emitted weights and biases are those of the centroids. |
| DigitWorkload.SumRotated | experiments/energy/source_workload.py:39-42 | A rotation keeps the sum. |
| Strings.SortIsSorted | Compiler_new_ws/Short_Hand/src/module/ModuleResolver.cpp:653-654 | The sorted import list is sorted. |

## Findings

Properties one would expect, which fail, each with an input on which it does and the exact condition
under which it holds.

- A route from the cache is not always the fresh one: the cache does not watch the production override.
  `RouteCache.StaleRoute` clears the override between two equal requests; `RouteCache.RouteIsFresh` says
  that a route is fresh if and only if it is no cache hit or the override is what it was when the cached
  route was computed (`Compiler_new_ws/Short_Hand/src/ai_runtime/ProductionBackendQualification.h:35-62`).
- An accepted sampling run can miss a whole counter range: counters show whole microjoules, so that a gap
  which the guard admits by less than one of them can still hold a full turn. `Rapl.UncertainPairHidesARange` builds such
  domains for every pair of passes that is not certain; `Rapl.PairIsExactWhenCertain` says that the others
  are exact, whatever the domains did, and `Rapl.ExactUnlessFullTurn` that a run is exact if and only if no
  gap holds a full turn (`experiments/energy/ci_energy_evidence.py:448-466`).
- A declaration behind a terminator is recorded by the verifier and skipped by the generator.
  `Placement.DeadDeclarationBreaksLowering` is an accepted program whose lowering fails, and
  `Placement.DeadDeclarationMisbinds` one whose lowering binds a name to another variable;
  `Resolution.LookupsAreExact` says that lookups agree if and only if cutting the dead code keeps what every
  name refers to (`mlir/lib/SemanticVerifier.cpp:139-142`, `mlir/lib/SemanticLowering.cpp:235`).
- The value "-1" does not disable a device: dashes become underscores before the comparison.
  `HardwareDiscovery.MinusOneNamesDevice` states it for every value with a dash, and
  `HardwareDiscovery.NamesDeviceExactly` says which values name a device
  (`Compiler_new_ws/Short_Hand/src/ai_runtime/HardwareDiscovery.h:105-108`).
- The chosen plan can depend on the order of the candidates. `EnergyPlan.OrderMattersWithTwoBaselines`
  shows it for two one-thread CPU candidates; `EnergyPlan.OrderMattersExactly` says that the order matters
  if and only if two of them lead to different choices
  (`Compiler_new_ws/Short_Hand/src/ai_runtime/ExecutionPlan.cpp:123`).
- A graph that adds the product to the bias, and not the bias to the product, denotes its kernel only as
  far as the additions that arise commute: `AffineGraph.GraphIsKernel` is an if-and-only-if
  (`experiments/aot/compile_model.py:73-74`).
- The checksum of the generated program wraps: `DigitWorkload.ChecksumIsExact` says that it is exact if and
  only if the true one fits 32 bits (`experiments/energy/source_workload.py:62`).

## Left out

- Goto and Label statements, and with them labels: the theorems are about the structured fragment.
- Read statements, tensor indexing, model, tensor, contract, inference, measurement and report statements:
  calls into a runtime interface that is not part of this model.
- The MLIR and LLVM libraries: blocks, instructions and rewriting are the abstract ones they stand for. In
  the second pass the value of an erased operation reaches its users through the register of that operation.
- Metadata sections, source locations, diagnostics text and optimisation of the emitted module.
- Compiler.Build: preservation and safety are stated for placed programs; for the others `Resolution`
  says when lookups agree, and the meaning of a program whose lookups disagree is not modelled.
- Memory without types: in the machine a store of an ill-typed value to a global is an undefined step;
  `TypedMemory.RunsAgree` and `Compiler.FinalIsSafe` say that compiled programs make none.
- Float64 arithmetic: uninterpreted, but for the comparison with zero that guards division.
- Routing evidence as JSON text: a record of the same fields. Parsing of numbers in the environment, host
  memory (fixed during a run) and the Apple branch of the probe.
- Locking: requests to the runtime are atomic steps. Telemetry and phase timing.
- Backends: preparing and running a session are functions of model, bytes and input.
- RouteCache.AIRuntime.GenerationToken: one probe object and its observer state; copies that share it are not modelled.
- The serving path of the classifier, repetitions, latency statistics and the accuracy threshold.
- ONNX protobuf decoding and the schema checker: the model is a record, and the checker's verdict a parameter.
- The validation of numerical agreement between candidates, and the median and extremes of a distribution.
- Doubles that are not finite in plans, counters and times; thread scheduling of the sampler.
- Manifest and lock file handling of the module resolver: resolving a name is a function.
- Reading and checking the data files: rows within their documented range are a precondition.
