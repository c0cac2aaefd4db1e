/**
Globals hold values of their types in every reachable state, running or halted: bools are 0 or 1,
tags are declared ones, slices lie within their owners. The machine refuses any other store; a
machine that does not look agrees with it on every module whose runs do not get stuck.
*/
module TypedMemory {
  import opened SemanticIR
  import opened Typing
  import opened Soundness
  import opened Machine

  ghost predicate GlobalsTyped(w: Env, globals: map<string, Value>) {
    ScopeOk(w, w.globals, globals)
  }

  /** Running or halted, but not stuck. */
  ghost predicate ConfigTyped(w: Env, c: Config) {
    match c
    case Running(s) => GlobalsTyped(w, s.globals)
    case Done(_, finals, _) => GlobalsTyped(w, finals)
    case Trapped(_, finals, _) => GlobalsTyped(w, finals)
    case Stuck => true
  }

  lemma UpdateTyped(w: Env, globals: map<string, Value>, x: string, v: Value)
    requires GlobalsTyped(w, globals) && x in globals && Admits(w, x, v)
    ensures GlobalsTyped(w, globals[x := v])
  {
  }

  lemma StoreTyped(w: Env, c: State, p: Pointer, v: Value)
    requires GlobalsTyped(w, c.globals)
    ensures ConfigTyped(w, StoreAt(w, c, p, v))
  {
    hide GlobalsTyped, Admits;
    match p
    case GlobalAddr(x) =>
      if x in c.globals && Admits(w, x, v) {
        UpdateTyped(w, c.globals, x, v);
      }
    case GlobalElem(x, i) =>
      if x in c.globals && Elem(c.globals[x], i).Cell? && Admits(w, x, Arr(c.globals[x].elems[i := v])) {
        UpdateTyped(w, c.globals, x, Arr(c.globals[x].elems[i := v]));
      }
    case _ =>
  }

  lemma PerformTyped(m: Module, s: State, i: Instr)
    requires GlobalsTyped(m.env, s.globals)
    ensures ConfigTyped(m.env, Perform(m, s, i))
  {
    hide GlobalsTyped, StoreAt, BinResult, UnResult, Make, Projection, LoadFrom, Entry;
    if i.StoreTo? && Has(s.top, i.v) && Has(s.top, i.addr) && Get(s.top, i.addr).P? {
      StoreTyped(m.env, s, Get(s.top, i.addr).p, Get(s.top, i.v));
    }
  }

  lemma StepTyped(m: Module, c: Config)
    requires ConfigTyped(m.env, c)
    ensures ConfigTyped(m.env, Step(m, c))
  {
    hide GlobalsTyped, Perform;
    if c.Running? && HasInstr(m, c.s.top) {
      PerformTyped(m, c.s, Fetch(m, c.s.top));
    }
  }

  lemma {:induction false} RunTyped(m: Module, c: Config, k: nat)
    requires ConfigTyped(m.env, c)
    ensures ConfigTyped(m.env, Run(m, c, k))
    decreases k
  {
    hide ConfigTyped, Step;
    if k > 0 {
      StepTyped(m, c);
      RunTyped(m, Step(m, c), k - 1);
    }
  }

  lemma StartTyped(m: Module)
    requires TablesOk(m.env)
    ensures ConfigTyped(m.env, Start(m))
  {
    var globals := Start(m).s.globals;
    forall n <- globals ensures FlatArray(m.env.globals[n]) && HasStorage(m.env, globals[n], m.env.globals[n]) {
      ZeroOk(m.env, m.env.globals[n]);
    }
  }

  /** Every state a module reaches has typed globals. */
  lemma ReachableStatesAreTyped(m: Module, k: nat)
    requires TablesOk(m.env)
    ensures ConfigTyped(m.env, Run(m, Start(m), k))
  {
    hide ConfigTyped, Run, Start, TablesOk;
    StartTyped(m);
    RunTyped(m, Start(m), k);
  }

  // ----- memory without types -----

  /** Stores whatever it is given. */
  function StoreFreely(w: Env, c: State, p: Pointer, v: Value): Config {
    match p
    case GlobalAddr(x) => if x in c.globals then Running(c.(globals := c.globals[x := v])) else Stuck
    case GlobalElem(x, i) =>
      if x in c.globals && Elem(c.globals[x], i).Cell? then
        Running(c.(globals := c.globals[x := Arr(c.globals[x].elems[i := v])]))
      else Stuck
    case _ => StoreAt(w, c, p, v)
  }

  function PerformFreely(m: Module, c: State, i: Instr): Config {
    if i.StoreTo? then
      var f := c.top;
      if Has(f, i.v) && Has(f, i.addr) && Get(f, i.addr).P? then
        var c' := StoreFreely(m.env, c, Get(f, i.addr).p, Get(f, i.v));
        if c'.Running? then Proceed(c'.s) else Stuck
      else Stuck
    else Perform(m, c, i)
  }

  function StepFreely(m: Module, c: Config): Config {
    if !c.Running? then c
    else if HasInstr(m, c.s.top) then PerformFreely(m, c.s, Fetch(m, c.s.top))
    else Stuck
  }

  function RunFreely(m: Module, c: Config, k: nat): Config
    decreases k
  {
    if k == 0 then c else RunFreely(m, StepFreely(m, c), k - 1)
  }

  lemma StoresAgree(w: Env, c: State, p: Pointer, v: Value)
    requires StoreAt(w, c, p, v) != Stuck
    ensures StoreFreely(w, c, p, v) == StoreAt(w, c, p, v)
  {
    hide Admits;
  }

  lemma StepsAgree(m: Module, c: Config)
    requires Step(m, c) != Stuck
    ensures StepFreely(m, c) == Step(m, c)
  {
    hide StoreAt, StoreFreely;
    if c.Running? {
      var i := Fetch(m, c.s.top);
      if i.StoreTo? {
        StoresAgree(m.env, c.s, Get(c.s.top, i.addr).p, Get(c.s.top, i.v));
      }
    }
  }

  /** Without a stuck step the two machines do the same. */
  lemma {:induction false} RunsAgree(m: Module, c: Config, k: nat)
    requires Run(m, c, k) != Stuck
    ensures RunFreely(m, c, k) == Run(m, c, k)
    decreases k
  {
    hide Step, StepFreely;
    if k > 0 {
      if Step(m, c) == Stuck {
        Halted(m, Stuck, k - 1);
      }
      StepsAgree(m, c);
      RunsAgree(m, Step(m, c), k - 1);
    }
  }
}
