/**
Compiling preserves meaning. For every program the verifier accepts (with declarations placed
in lexical scopes) the generated module and the structured program have the same behaviour, in
both directions: the same result, final globals and output, the same trap, or divergence.
*/
module Preservation {
  import opened SemanticIR
  import opened Typing
  import opened Evaluator
  import opened Soundness
  import opened Machine
  import opened Codegen
  import opened Lockstep
  import opened Relation
  import opened StmtRelation
  import opened Simulation
  import opened TypedMemory

  ghost predicate Accepted(p: Program, floats: FloatSem) {
    ProgramOk(p, floats) && ProgramPlaced(p)
  }

  /** What a finished machine has done. */
  function Observed(c: Config): Behaviour {
    match c
    case Running(_) => Undecided
    case Done(v, globals, out) => Exits(v, globals, out)
    case Trapped(f, globals, out) => Aborts(f, globals, out)
    case Stuck => GoesWrong
  }

  function Compile(p: Program, floats: FloatSem): Module {
    GenModule(Tables(p, floats), p.body)
  }

  lemma AcceptedSane(p: Program, floats: FloatSem)
    requires Accepted(p, floats)
    ensures var w := Tables(p, floats); Sane(w) && BodyOk(w, p.body) && Placed(p.body, true)
  {
    hide CheckStmt, Placed, CompositeOk, VariableOk, SignatureOk;
    ProgramTablesOk(p, floats);
    var w := Tables(p, floats);
    forall n <- w.functions ensures FunctionOk(w, w.functions[n]) && Placed(w.functions[n].body, true) {
      assert w.functions[n] in p.functions;
    }
  }

  lemma AcceptedCompiled(p: Program, floats: FloatSem)
    requires Accepted(p, floats)
    ensures var m := Compile(p, floats);
            Compiled(m) && "main" in m.code && m.code["main"] == GenFunction(m.env, [], p.body, Exit).code
  {
    hide GenFunction, FunctionOk, Placed, SignatureOk, BodyOk, CompositeOk, VariableOk, ProgramOk;
    AcceptedSane(p, floats);
  }

  lemma InitialOk(w: Env)
    requires TablesOk(w)
    ensures ScopeOk(w, w.globals, InitialStore(w).globals)
  {
    forall n <- w.globals ensures HasStorage(w, InitialStore(w).globals[n], w.globals[n]) {
      ZeroOk(w, w.globals[n]);
    }
  }

  /** With enough steps the machine does whatever the evaluator decides, and it takes as many as the fuel. */
  lemma Follows(p: Program, floats: FloatSem, fuel: nat) returns (k: nat)
    requires Accepted(p, floats)
    ensures var m, b := Compile(p, floats), RunProgram(Tables(p, floats), fuel, p.body);
            && b != GoesWrong
            && (b == Undecided ==> k >= fuel && Run(m, Start(m), k).Running?)
            && (b != Undecided ==> Observed(Run(m, Start(m), k)) == b)
  {
    hide Run, GenFunction, ProgramOk, ProgramPlaced, Exec, Compiled, CheckStmt, Placed, ScopeOk, ZeroStorage, TablesOk, GenModule;
    var m, w := Compile(p, floats), Tables(p, floats);
    AcceptedCompiled(p, floats);
    AcceptedSane(p, floats);
    CompiledSane(m);
    ModuleEnv(p, floats);
    MainSane(w);
    InitialOk(w);
    assert Start(m).s.globals == InitialStore(w).globals;
    RunZero(m);
    k := FunctionSim(m, Start(m), 0, fuel, "main", Return(Int32, ""), [], p.body, Exit, Start(m).s, []);
  }

  lemma RunZero(m: Module)
    ensures Run(m, Start(m), 0) == Start(m)
  {
  }

  lemma ModuleEnv(p: Program, floats: FloatSem)
    ensures Compile(p, floats).env == Tables(p, floats)
  {
    hide GenFunction;
  }

  lemma MainSane(w: Env)
    requires Sane(w)
    ensures TablesOk(w) && ParametersOk(w, []) && ParameterScope([]) == map[]
  {
  }

  /** A result of the source program: some fuel decides it. */
  ghost predicate Behaves(p: Program, floats: FloatSem, b: Behaviour) {
    exists fuel: nat :: RunProgram(Tables(p, floats), fuel, p.body) == b
  }

  ghost predicate Halts(m: Module, b: Behaviour) {
    exists k: nat :: Observed(Run(m, Start(m), k)) == b
  }

  /** The compiled program ends in `b` exactly when the source program does, and never gets stuck. */
  lemma CompilationPreserves(p: Program, floats: FloatSem, b: Behaviour)
    requires Accepted(p, floats) && b != Undecided
    ensures Behaves(p, floats, b) <==> Halts(Compile(p, floats), b)
    ensures b == GoesWrong ==> !Behaves(p, floats, b)
  {
    hide Accepted, RunProgram, Run, Compile, Tables;
    var m := Compile(p, floats);
    if Behaves(p, floats, b) {
      var fuel: nat :| RunProgram(Tables(p, floats), fuel, p.body) == b;
      var k := Follows(p, floats, fuel);
      assert Observed(Run(m, Start(m), k)) == b;
    }
    if Halts(m, b) {
      var j: nat :| Observed(Run(m, Start(m), j)) == b;
      var k := Follows(p, floats, j);
      var d := RunProgram(Tables(p, floats), j, p.body);
      if d == Undecided {
        RunningBefore(m, Start(m), j, k);
        assert false;
      }
      HaltsOnce(m, Start(m), j, k);
      assert RunProgram(Tables(p, floats), j, p.body) == b;
    }
  }

  ghost predicate Diverges(p: Program, floats: FloatSem) {
    forall fuel: nat :: RunProgram(Tables(p, floats), fuel, p.body) == Undecided
  }

  ghost predicate RunsForever(m: Module) {
    forall k: nat :: Run(m, Start(m), k).Running?
  }

  /** Divergence is preserved too: no fuel decides the program exactly when the machine runs forever. */
  lemma DivergencePreserved(p: Program, floats: FloatSem)
    requires Accepted(p, floats)
    ensures Diverges(p, floats) <==> RunsForever(Compile(p, floats))
  {
    hide Accepted, RunProgram, Run, Compile, Tables;
    var m := Compile(p, floats);
    if Diverges(p, floats) {
      forall k: nat ensures Run(m, Start(m), k).Running? {
        var j := Follows(p, floats, k);
        assert RunProgram(Tables(p, floats), k, p.body) == Undecided;
        RunningBefore(m, Start(m), k, j);
      }
    }
    if RunsForever(m) {
      forall fuel: nat ensures RunProgram(Tables(p, floats), fuel, p.body) == Undecided {
        var j := Follows(p, floats, fuel);
        assert Run(m, Start(m), j).Running?;
      }
    }
  }

  /**
  No accepted program reaches an undefined step, a stored-tag trap or a slice-descriptor trap, and
  in every state it reaches, also in runs that never end, the globals hold values of their types.
  */
  lemma CompiledIsSafe(p: Program, floats: FloatSem, k: nat)
    requires Accepted(p, floats)
    ensures var c := Run(Compile(p, floats), Start(Compile(p, floats)), k);
            && c != Stuck && ConfigTyped(Tables(p, floats), c)
            && (c.Trapped? ==> Genuine(c.fault) && ScopeOk(Tables(p, floats), Tables(p, floats).globals, c.finals))
            && (c.Done? ==> HasScalar(c.v, Int32) && ScopeOk(Tables(p, floats), Tables(p, floats).globals, c.finals))
  {
    hide ProgramOk, ProgramPlaced, Run, Exec, ConfigTyped;
    var m := Compile(p, floats);
    var b := Observed(Run(m, Start(m), k));
    AcceptedSane(p, floats);
    ModuleEnv(p, floats);
    MainSane(Tables(p, floats));
    ReachableStatesAreTyped(m, k);
    if b != Undecided {
      assert Halts(m, b);
      CompilationPreserves(p, floats, b);
      var fuel: nat :| RunProgram(Tables(p, floats), fuel, p.body) == b;
      AcceptedSane(p, floats);
      ProgramSound(Tables(p, floats), fuel, p.body);
    }
  }
}
