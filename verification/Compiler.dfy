/**
The compiler from front to back: verify, generate, lower the composite operations. What it
returns is primitive, well-formed code that behaves like the program.
*/
module Compiler {
  import opened Wrappers
  import opened SemanticIR
  import opened Typing
  import opened Evaluator
  import opened Machine
  import opened TypedMemory
  import opened Soundness
  import opened ControlGrowth
  import opened CompositeLowering
  import opened LoweringSimulation
  import opened LoweredCode
  import opened Preservation
  import Codegen
  import Verifier
  import Generator
  import Rewriter

  /** The code of a program after both passes. */
  function Final(p: Program, floats: FloatSem): Module {
    Lowered(Compile(p, floats))
  }

  ghost predicate Finished(m: Module) {
    forall f <- m.code :: WellFormed(m.code[f]) && PrimitiveCode(m.code[f])
  }

  /** Every function of the final code is primitive and well formed. */
  lemma FinalIsWellFormed(p: Program, floats: FloatSem)
    ensures AllWellFormed(Compile(p, floats))
    ensures Finished(Final(p, floats))
  {
    hide WellFormed, PrimitiveCode, LowerCode, Tables, Codegen.GenModule;
    var m := Compile(p, floats);
    ModuleWellFormed(Tables(p, floats), p.body);
    forall f <- Final(p, floats).code ensures WellFormed(Final(p, floats).code[f]) && PrimitiveCode(Final(p, floats).code[f]) {
      LoweredIsWellFormed(m.env, m.code[f]);
    }
  }

  lemma CompiledNeverStuck(p: Program, floats: FloatSem)
    requires Accepted(p, floats)
    ensures NeverStuck(Compile(p, floats))
  {
    hide Accepted, Run, Compile, Tables;
    forall k: nat ensures Run(Compile(p, floats), Start(Compile(p, floats)), k) != Stuck {
      CompiledIsSafe(p, floats, k);
    }
  }

  /** The final code ends as the program ends, diverges when it does, and never gets stuck. */
  lemma FinalPreserves(p: Program, floats: FloatSem, b: Behaviour)
    requires Accepted(p, floats) && b != Undecided
    ensures Behaves(p, floats, b) <==> Halts(Final(p, floats), b)
    ensures Diverges(p, floats) <==> RunsForever(Final(p, floats))
    ensures NeverStuck(Final(p, floats))
  {
    hide Accepted, Compile, Behaves, Halts, Diverges, RunsForever, NeverStuck, AllWellFormed, Lowered;
    FinalIsWellFormed(p, floats);
    CompiledNeverStuck(p, floats);
    CompilationPreserves(p, floats, b);
    DivergencePreserved(p, floats);
    LoweringPreserves(Compile(p, floats), b);
  }

  /**
  Every configuration the final code reaches is typed and not stuck, only genuine faults occur,
  and memory that stores whatever it is given would do the same.
  */
  lemma FinalIsSafe(p: Program, floats: FloatSem, k: nat)
    requires Accepted(p, floats)
    ensures var m := Final(p, floats);
            var c := Run(m, Start(m), k);
            && c != Stuck && ConfigTyped(m.env, c) && (c.Trapped? ==> Genuine(c.fault)) && RunFreely(m, Start(m), k) == c
  {
    hide Accepted, Compile, Tables, Halts, Behaves, Lowered, ConfigTyped, Run, RunFreely, Start;
    var m := Final(p, floats);
    var c := Run(m, Start(m), k);
    FinalPreserves(p, floats, GoesWrong);
    RunsAgree(m, Start(m), k);
    FinalTables(p, floats);
    ReachableStatesAreTyped(m, k);
    if c.Trapped? {
      TrapsAreGenuine(p, floats, Observed(c), k);
    }
  }

  lemma FinalTables(p: Program, floats: FloatSem)
    requires Accepted(p, floats)
    ensures TablesOk(Final(p, floats).env)
  {
    hide ProgramOk, ProgramPlaced, TablesOk, LowerCode, Codegen.GenFunction;
    AcceptedSane(p, floats);
    ModuleEnv(p, floats);
    MainSane(Tables(p, floats));
  }

  lemma TrapsAreGenuine(p: Program, floats: FloatSem, b: Behaviour, k: nat)
    requires Accepted(p, floats) && b.Aborts? && Observed(Run(Final(p, floats), Start(Final(p, floats)), k)) == b
    ensures Genuine(b.fault)
  {
    hide Accepted, Compile, Lowered, Run, Behaves, Start, Tables, NeverStuck, RunsForever, Diverges;
    var m := Compile(p, floats);
    assert Halts(Final(p, floats), b);
    FinalPreserves(p, floats, b);
    CompilationPreserves(p, floats, b);
    var j: nat :| Observed(Run(m, Start(m), j)) == b;
    CompiledIsSafe(p, floats, j);
  }

  method Build(p: Program, floats: FloatSem) returns (r: Maybe<Module>)
    ensures r.Just? <==> ProgramOk(p, floats) && Verifier.ProgramFits(p)
    ensures r.Just? ==> Finished(r.value)
    ensures r.Just? && ProgramPlaced(p) ==>
              && (forall b: Behaviour | b != Undecided :: Behaves(p, floats, b) <==> Halts(r.value, b))
              && (Diverges(p, floats) <==> RunsForever(r.value))
              && (forall k: nat :: SafeAt(r.value, k))
  {
    hide ProgramOk, ProgramPlaced, Compile, Lowered, Behaves, Halts, Diverges, RunsForever, NeverStuck, Finished;
    var verifier := new Verifier.Verifier(floats);
    var ok := verifier.Run(p);
    if !ok {
      return Nothing;
    }
    var m := Generator.Lower(p, floats);
    CompileIs(p, floats);
    var q := Rewriter.Rewritten(m);
    r := Just(q);
    FinalIsWellFormed(p, floats);
    if ProgramPlaced(p) {
      assert Accepted(p, floats);
      forall b: Behaviour | b != Undecided ensures Behaves(p, floats, b) <==> Halts(q, b) {
        FinalPreserves(p, floats, b);
      }
      FinalPreserves(p, floats, GoesWrong);
      forall k: nat ensures SafeAt(q, k) {
        FinalIsSafe(p, floats, k);
      }
    }
  }

  /** Not stuck after `k` steps, and the globals typed. */
  ghost predicate SafeAt(m: Module, k: nat) {
    Run(m, Start(m), k) != Stuck && ConfigTyped(m.env, Run(m, Start(m), k))
  }

  lemma CompileIs(p: Program, floats: FloatSem)
    ensures Compile(p, floats) == Codegen.GenModule(Tables(p, floats), p.body)
  {
  }

}
