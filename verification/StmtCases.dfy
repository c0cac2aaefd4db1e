/**
The last steps of each statement: stores, prints, branches and returns, given that the
statement's expressions have been evaluated.
*/
module StmtCases {
  import opened SemanticIR
  import opened Typing
  import opened Evaluator
  import opened Soundness
  import opened Machine
  import opened Codegen
  import opened Growth
  import opened ControlGrowth
  import opened Lockstep
  import opened Straight
  import opened Access
  import opened Relation
  import opened StmtRelation

  // ----- stores -----

  lemma StoreRun(m: Module, c: Config, k: nat, slots: nat, bs: Bindings, g: Gen, s: State, st: Store, o: Operand, a: Operand, p: Place, v: Value)
    returns (s': State)
    requires Reached(m, c, k, g, s) && Coded(m, s.top.fn, Emit(g, StoreTo(o, a))) && Holds(s, o, v) && HoldsPlace(bs, s, a, p)
    requires Stored(bs, st.scopes, s.top) && Separate(bs, slots) && InStep(s, st) && Evaluator.Valid(st, p)
    requires GlobalsOk(m.env, Write(st, p, v))
    ensures Run(m, c, k + 1) == Running(s') && At(Emit(g, StoreTo(o, a)), s'.top) && Settled(g, s, bs, s', Write(st, p, v))
  {
    hide Run, Coded, Stored, Separate, Valid, Write;
    Then(m, c, k, g, StoreTo(o, a), s);
    var f' := StorePlace(m.env, bs, slots, st, s, p, v);
    s' := s.(top := f'.(at := s.top.at + 1), globals := Write(st, p, v).globals);
    assert Stored(bs, Write(st, p, v).scopes, s'.top) by { StoredFrame(bs, Write(st, p, v).scopes, f', s'.top); }
  }

  lemma StoredFrame(bs: Bindings, ms: seq<map<string, Value>>, f: Frame, f': Frame)
    requires Stored(bs, ms, f) && f'.slots == f.slots
    ensures Stored(bs, ms, f')
  {
  }

  lemma StoreLand(m: Module, c: Config, vs: Scopes, g: Gen, s: State, st: Store, h: Gen, k1: nat, s1: State, st1: Store,
                  o: Operand, a: Operand, p: Place, v: Value) returns (s': State)
    requires Live(m.env, vs, g, st, s) && Grows(g, h) && Evaluator.Valid(st1, p) && GlobalsOk(m.env, Write(st1, p, v))
    requires Run(m, c, k1) == Running(s1) && Moved(g, s, st, h, s1, st1)
    requires Coded(m, s.top.fn, Emit(h, StoreTo(o, a))) && Holds(s1, o, v) && HoldsPlace(g.scopes, s1, a, p)
    ensures Landed(m, c, g, s, Emit(h, StoreTo(o, a)), Write(st1, p, v), k1 + 1, s')
  {
    hide Run, Coded, Stored, Agree, Separate, Valid, Write, Grows, Keeps, HoldsPlace, StoreOk, At, Emit, Holds, GlobalsOk;
    MovedSettled(g, s, st, h, s1, st1);
    GrowCounts(g, h);
    DestKept(g, s, s1);
    EmitScopes(h, StoreTo(o, a));
    s' := StoreRun(m, c, k1, g.slots, g.scopes, h, s1, st1, o, a, p, v);
    SettledTrans(g, s, g.scopes, s1, st1, h, g.scopes, s', Write(st1, p, v));
  }

  /** A store at the end of an assignment, seen from the start of the statement. */
  lemma StoreEnd(m: Module, c: Config, k: nat, fuel: nat, vs: Scopes, g: Gen, s: State, st: Store, h: Gen, k1: nat, s1: State, st1: Store,
                 o: Operand, a: Operand, p: Place, v: Value, t: ScalarType, composite: string, here: bool) returns (s': State)
    requires Live(m.env, vs, g, st, s) && Fine(g) && Grows(g, h) && k <= k1
    requires Run(m, c, k1) == Running(s1) && Moved(g, s, st, h, s1, st1) && StoreOk(m.env, vs, st1) && PlaceOk(m.env, vs, p, t, composite)
    requires HasType(m.env, v, t, composite)
    requires Coded(m, s.top.fn, Emit(h, StoreTo(o, a))) && Holds(s1, o, v) && HoldsPlace(g.scopes, s1, a, p)
    ensures Evaluator.Valid(st1, p)
    ensures Executes(m, c, k, fuel, g, s, Emit(h, StoreTo(o, a)), Ok(Next, Write(st1, p, v)), here, k1 + 1, s')
  {
    hide Run, Coded, Valid, Write, Fine, Grows, HoldsPlace, StoreOk, PlaceOk, Emit, Moved, Live, Landed, Executes, Holds, GlobalsOk, HasType;
    WriteOk(m.env, vs, st1, p, t, composite, v);
    OkGlobals(m.env, vs, Write(st1, p, v));
    s' := StoreLand(m, c, vs, g, s, st, h, k1, s1, st1, o, a, p, v);
    EmitGrows(h, StoreTo(o, a));
    GrowsTrans(g, h, Emit(h, StoreTo(o, a)));
    FallsThrough(m, c, k, fuel, g, s, Emit(h, StoreTo(o, a)), Write(st1, p, v), here, k1 + 1, s');
  }

  lemma OkGlobals(w: Env, vs: Scopes, st: Store)
    requires StoreOk(w, vs, st)
    ensures GlobalsOk(w, st)
  {
  }

  lemma GrowCounts(g: Gen, h: Gen)
    requires Grows(g, h)
    ensures g.regs <= h.regs && g.steps <= h.steps && g.slots <= h.slots && SameLoops(g, h) && h.scopes == g.scopes
  {
  }

  // ----- branches on a condition -----

  lemma CondRun(m: Module, c: Config, k: nat, g: Gen, s: State, o: Operand, n: int, yes: nat, no: nat) returns (s': State)
    requires Reached(m, c, k, g, s) && Holds(s, o, I(n)) && Coded(m, s.top.fn, Emit(g, CondBr(o, yes, no)))
    ensures Run(m, c, k + 1) == Running(s') && Starts(s'.top, if n != 0 then yes else no) && Undisturbed(g, s, s')
  {
    hide Run, Coded;
    Then(m, c, k, g, CondBr(o, yes, no), s);
    s' := s.(top := s.top.(block := if n != 0 then yes else no, at := 0));
  }

  lemma TestRun(m: Module, c: Config, k: nat, x: Out, s: State, n: int, yes: nat, no: nat) returns (s': State)
    requires Reached(m, c, k, x.g, s) && Holds(s, x.o, I(n))
    requires var b := BoolValue(x.g, x.o); Coded(m, s.top.fn, Emit(b.g, CondBr(b.o, yes, no)))
    ensures Run(m, c, k + 2) == Running(s') && Starts(s'.top, if n != 0 then yes else no) && Undisturbed(x.g, s, s')
  {
    var b := BoolValue(x.g, x.o);
    CodedEmit(m, s.top.fn, b.g, CondBr(b.o, yes, no));
    var t, s1 := if n != 0 then 1 else 0, Put(s, x.g.regs, I(if n != 0 then 1 else 0));
    hide Run, Coded, Emit;
    OneBin(m, c, k, x.g, s, ICmp(Ne), x.o, Imm(I(0)), I(n), I(0), I(t));
    hide Put, Perform, BinResult;
    s' := CondRun(m, c, k + 1, b.g, s1, b.o, t, yes, no);
    UndisturbedTrans(x.g, b.g, s, s1, s');
  }

  lemma UndisturbedTrans(g: Gen, h: Gen, s: State, s1: State, s2: State)
    requires Undisturbed(g, s, s1) && Undisturbed(h, s1, s2) && g.regs <= h.regs && g.steps <= h.steps
    ensures Undisturbed(g, s, s2)
  {
  }

  lemma BranchRun(m: Module, c: Config, k: nat, g: Gen, s: State, b: nat) returns (s': State)
    requires Reached(m, c, k, g, s) && !Terminated(g) && Coded(m, s.top.fn, Branch(g, b))
    ensures Run(m, c, k + 1) == Running(s') && Starts(s'.top, b) && Undisturbed(g, s, s')
  {
    hide Run, Coded;
    Then(m, c, k, g, Br(b), s);
    s' := s.(top := s.top.(block := b, at := 0));
  }

  // ----- break, continue and return -----

  /** A jump statement is one branch, to the innermost target. */
  lemma JumpShape(w: Env, fuel: nat, g: Gen, st: Store, stmt: Statement)
    requires (stmt.kind == BreakS || stmt.kind == ContinueS) && g.breaks != [] && g.continues != []
    ensures var targets := if stmt.kind == BreakS then g.breaks else g.continues;
            GenStmt(w, g, stmt) == Branch(g, targets[|targets| - 1])
    ensures Exec(w, fuel, st, stmt) == Ok(if stmt.kind == BreakS then Breaks else Continues, st)
  {
    hide Branch;
  }

  lemma JumpRun(m: Module, c: Config, k: nat, fuel: nat, g: Gen, s: State, st: Store, stmt: Statement, here: bool) returns (s': State)
    requires stmt.kind == BreakS || stmt.kind == ContinueS
    requires Reached(m, c, k, g, s) && Fine(g) && g.breaks != [] && g.continues != [] && Stored(g.scopes, st.scopes, s.top) && InStep(s, st)
    requires Coded(m, s.top.fn, GenStmt(m.env, g, stmt))
    ensures Executes(m, c, k, fuel, g, s, GenStmt(m.env, g, stmt), Exec(m.env, fuel, st, stmt), here, k + 1, s')
  {
    hide Run, Coded, Fine, Branch, GenStmt, Exec;
    OpenNotEnded(g);
    var targets := if stmt.kind == BreakS then g.breaks else g.continues;
    JumpShape(m.env, fuel, g, st, stmt);
    s' := BranchRun(m, c, k, g, s, targets[|targets| - 1]);
    var n := |OuterOf(g.scopes, here)|;
    StoredOuter(g.scopes, st.scopes, s.top, n);
    StoredFrame(g.scopes[..n], st.scopes[..n], s.top, s'.top);
  }

  lemma ReturnRun(m: Module, c: Config, k: nat, g: Gen, s: State, o: Operand, v: Value)
    requires Reached(m, c, k, g, s) && Holds(s, o, v) && Coded(m, s.top.fn, Emit(g, Ret(o)))
    ensures Run(m, c, k + 1) == Returned(s, v, s.globals, s.out)
  {
    Then(m, c, k, g, Ret(o), s);
  }

  /** A return at the end of a statement. */
  lemma ReturnEnd(m: Module, c: Config, k: nat, fuel: nat, g: Gen, s: State, st: Store, h: Gen, k1: nat, s1: State, st1: Store, o: Operand, v: Value, here: bool)
    requires Run(m, c, k1) == Running(s1) && Moved(g, s, st, h, s1, st1) && k <= k1 && Holds(s1, o, v) && Coded(m, s.top.fn, Emit(h, Ret(o)))
    ensures Executes(m, c, k, fuel, g, s, Emit(h, Ret(o)), Ok(Returns(v), st1), here, k1 + 1, s)
  {
    hide Coded, Run;
    ReturnRun(m, c, k1, h, s1, o, v);
  }

  // ----- update of a record field -----

  lemma UpdateRun(m: Module, c: Config, k: nat, g: Gen, s: State, composite: string, field: int, record: Operand, o: Operand, x: Value, v: Value)
    returns (s': State)
    requires Ready(m, c, k, g, s, Def(g, UpdateValue(g.regs, composite, field, record, o))) && Holds(s, record, x) && Holds(s, o, v)
    requires x.Agg? && 0 <= field < |x.fields|
    ensures Computes(m, c, k + 1, g, s, Def(g, UpdateValue(g.regs, composite, field, record, o)), Val(Agg(x.fields[field := v])), s')
  {
    hide Ready, Computes;
    OneSim(m, c, k, g, s, UpdateValue(g.regs, composite, field, record, o), Agg(x.fields[field := v]));
    s' := Put(s, g.regs, Agg(x.fields[field := v]));
  }

  /** An operator's run is a move. */
  lemma ComputesMoves(m: Module, c: Config, g: Gen, s: State, st: Store, h: Gen, s1: State, st1: Store, x: Out, v: Value, k': nat, s': State)
    requires Moved(g, s, st, h, s1, st1) && Grows(g, h) && Computes(m, c, k', h, s1, x, Val(v), s')
    ensures Run(m, c, k') == Running(s') && Moved(g, s, st, x.g, s', st1) && Moved(h, s1, st1, x.g, s', st1) && Holds(s', x.o, v)
  {
    hide Run, Fine, Sealed;
    KeepsTrans(g, h, s.top, s1.top, s'.top);
  }

  // ----- print -----

  lemma PrintfRun(m: Module, c: Config, k: nat, g: Gen, s: State, st: Store, format: string, o: Operand, v: Value) returns (s': State)
    requires Reached(m, c, k, g, s) && Coded(m, s.top.fn, Emit(g, Printf(format, o))) && Holds(s, o, v) && InStep(s, st)
    ensures Run(m, c, k + 1) == Running(s') && Moved(g, s, st, Emit(g, Printf(format, o)), s', st.(out := st.out + [Printed(format, v)]))
  {
    hide Run, Coded;
    Then(m, c, k, g, Printf(format, o), s);
    s' := s.(top := s.top.(at := s.top.at + 1), out := s.out + [Printed(format, v)]);
  }

  /** The string made safe, or the value as it is. */
  function PrintOperand(x: Out, t: ScalarType): Out {
    if t == String then Def(x.g, Un(x.g.regs, SafeString, x.o)) else x
  }

  lemma SafeRun(m: Module, c: Config, k: nat, x: Out, s: State, st: Store, t: ScalarType, v: Value) returns (k': nat, s': State)
    requires Reached(m, c, k, x.g, s) && Coded(m, s.top.fn, PrintOperand(x, t).g) && Holds(s, x.o, v) && HasScalar(v, t) && InStep(s, st)
    ensures k' >= k && Run(m, c, k') == Running(s') && Moved(x.g, s, st, PrintOperand(x, t).g, s', st) && Holds(s', PrintOperand(x, t).o, Printable(t, v))
  {
    if t == String {
      OneSim(m, c, k, x.g, s, Un(x.g.regs, SafeString, x.o), Printable(t, v));
      k', s' := k + 1, Put(s, x.g.regs, Printable(t, v));
    } else {
      k', s' := k, s;
    }
  }

  function PrintItem(x: Out, t: ScalarType, last: bool): Gen {
    var y := PrintOperand(x, t);
    Emit(Emit(y.g, Printf(PrintFormat(t), y.o)), Printf("%s", Imm(Separator(last))))
  }

  function ItemPrinted(st: Store, t: ScalarType, v: Value, last: bool): Store {
    st.(out := st.out + [Printed(PrintFormat(t), Printable(t, v)), Printed("%s", Separator(last))])
  }

  lemma PrintItemGrows(x: Out, t: ScalarType, last: bool)
    ensures Grows(x.g, PrintOperand(x, t).g) && Grows(PrintOperand(x, t).g, PrintItem(x, t, last)) && Grows(x.g, PrintItem(x, t, last))
    ensures var y := PrintOperand(x, t); Grows(Emit(y.g, Printf(PrintFormat(t), y.o)), PrintItem(x, t, last))
  {
    hide Grows, Emit, Def;
    var y := PrintOperand(x, t);
    Chains(x.g);
    Chains(y.g);
    Chains(Emit(y.g, Printf(PrintFormat(t), y.o)));
  }

  /** A value and its separator, one after the other. */
  lemma TwoPrints(m: Module, c: Config, k: nat, y: Out, s: State, st: Store, format: string, v: Value, separator: Value) returns (s': State)
    requires Reached(m, c, k, y.g, s) && Holds(s, y.o, v) && InStep(s, st)
    requires Coded(m, s.top.fn, Emit(Emit(y.g, Printf(format, y.o)), Printf("%s", Imm(separator))))
    ensures Run(m, c, k + 2) == Running(s')
    ensures Moved(y.g, s, st, Emit(Emit(y.g, Printf(format, y.o)), Printf("%s", Imm(separator))), s',
                  st.(out := st.out + [Printed(format, v), Printed("%s", separator)]))
  {
    hide Run, Coded, Grows, Emit, Keeps, Holds;
    var a := Emit(y.g, Printf(format, y.o));
    CodedEmit(m, s.top.fn, a, Printf("%s", Imm(separator)));
    CodedEmit(m, s.top.fn, y.g, Printf(format, y.o));
    var s1 := PrintfRun(m, c, k, y.g, s, st, format, y.o, v);
    DestKept(y.g, s, s1);
    var st1 := st.(out := st.out + [Printed(format, v)]);
    HoldsImm(s1, separator);
    s' := PrintfRun(m, c, k + 1, a, s1, st1, "%s", Imm(separator), separator);
    PrintTwice(st, Printed(format, v), Printed("%s", separator));
    EmitGrows(y.g, Printf(format, y.o));
    MovedTrans(y.g, s, st, a, s1, st1, Emit(a, Printf("%s", Imm(separator))), s', st.(out := st.out + [Printed(format, v), Printed("%s", separator)]));
  }

  lemma ItemRun(m: Module, c: Config, k: nat, x: Out, s: State, st: Store, t: ScalarType, v: Value, last: bool) returns (k': nat, s': State)
    requires Reached(m, c, k, x.g, s) && Coded(m, s.top.fn, PrintItem(x, t, last)) && Holds(s, x.o, v) && HasScalar(v, t) && InStep(s, st)
    ensures k' >= k && Run(m, c, k') == Running(s') && Moved(x.g, s, st, PrintItem(x, t, last), s', ItemPrinted(st, t, v, last))
  {
    hide Run, Coded, Grows, Emit, PrintOperand, Keeps, Holds, HasScalar, Printable, PrintFormat, Separator;
    PrintItemGrows(x, t, last);
    var y := PrintOperand(x, t);
    var a := Emit(y.g, Printf(PrintFormat(t), y.o));
    CodedEmit(m, s.top.fn, a, Printf("%s", Imm(Separator(last))));
    CodedEmit(m, s.top.fn, y.g, Printf(PrintFormat(t), y.o));
    var k1, s1 := SafeRun(m, c, k, x, s, st, t, v);
    DestKept(x.g, s, s1);
    s' := TwoPrints(m, c, k1, y, s1, st, PrintFormat(t), Printable(t, v), Separator(last));
    k' := k1 + 2;
    MovedTrans(x.g, s, st, y.g, s1, st, PrintItem(x, t, last), s', ItemPrinted(st, t, v, last));
  }

  lemma PrintTwice(st: Store, a: Event, b: Event)
    ensures var st2 := st.(out := st.out + [a]); st2.(out := st2.out + [b]) == st.(out := st.out + [a, b])
  {
    assert st.out + [a] + [b] == st.out + [a, b];
  }
}
