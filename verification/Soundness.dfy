/**
Type soundness of the evaluator: a verified program never goes wrong, and every store it
reaches is well typed. Since the type of a slice is a window of a global array, the type of a
tagged composite bounds its tag and the type of a bool is {0, 1}, this is also the slice, tag
and bool invariant of every reachable state.
*/
module Soundness {
  import opened Wrappers
  import opened SemanticIR
  import opened Typing
  import opened Evaluator

  // ----- well-typed stores -----

  /** Arrays hold scalars. */
  predicate FlatArray(d: Variable) {
    d.extent > 0 ==> d.ty != Composite
  }

  ghost predicate ScopeOk(w: Env, ds: map<string, Variable>, m: map<string, Value>) {
    m.Keys == ds.Keys && forall n <- m :: FlatArray(ds[n]) && HasStorage(w, m[n], ds[n])
  }

  ghost predicate ScopesOk(w: Env, vs: Scopes, ms: seq<map<string, Value>>) {
    |vs| == |ms| && forall i | 0 <= i < |vs| :: ScopeOk(w, vs[i], ms[i])
  }

  ghost predicate StoreOk(w: Env, vs: Scopes, st: Store) {
    ScopeOk(w, w.globals, st.globals) && ScopesOk(w, vs, st.scopes)
  }

  /** The environment of a verified program whose declarations are placed as required. */
  ghost predicate Sane(w: Env) {
    && TablesOk(w)
    && forall n <- w.functions :: FunctionOk(w, w.functions[n]) && Placed(w.functions[n].body, true)
  }

  /** The re-checks of a projection and of a slice descriptor are not faults of the structured program. */
  predicate Genuine(f: Fault) {
    f != StoredTag && f != StoredSlice
  }

  ghost predicate Kept<A>(w: Env, r: R<A>) {
    && r != Wrong
    && (r.Trap? ==> Genuine(r.fault) && ScopeOk(w, w.globals, r.globals))
  }

  ghost predicate Typed(w: Env, vs: Scopes, r: R<Value>, t: ScalarType, composite: string) {
    Kept(w, r) && (r.Ok? ==> StoreOk(w, vs, r.st) && HasType(w, r.v, t, composite))
  }

  ghost predicate TypedAll(w: Env, vs: Scopes, r: R<seq<Value>>, es: seq<Expression>) {
    && Kept(w, r)
    && (r.Ok? ==> && StoreOk(w, vs, r.st) && |r.v| == |es|
                  && forall i | 0 <= i < |es| :: HasType(w, r.v[i], es[i].ty, es[i].composite))
  }

  // ----- places -----

  ghost predicate Declares(w: Env, vs: Scopes, b: Base, d: Variable) {
    match b
    case Global(x) => x in w.globals && w.globals[x] == d
    case Local(i, x) => i < |vs| && x in vs[i] && vs[i][x] == d
  }

  /** `p` denotes storage of the given type in every store typed by `vs`. */
  ghost predicate PlaceOk(w: Env, vs: Scopes, p: Place, t: ScalarType, composite: string) {
    exists d: Variable :: DeclaredAs(w, vs, p, d, t, composite)
  }

  ghost predicate DeclaredAs(w: Env, vs: Scopes, p: Place, d: Variable, t: ScalarType, composite: string) {
    && Declares(w, vs, p.base, d) && d.ty == t && d.composite == composite
    && (if p.Element? then 0 <= p.index < d.extent else d.extent <= 0)
  }

  ghost predicate PlaceTyped(w: Env, vs: Scopes, r: R<Place>, e: Expression) {
    Kept(w, r) && (r.Ok? ==> StoreOk(w, vs, r.st) && PlaceOk(w, vs, r.v, e.ty, e.composite))
  }

  lemma ResolveOk(w: Env, vs: Scopes, st: Store, name: string)
    requires StoreOk(w, vs, st) && Lookup(w, vs, name).Just?
    ensures Bound(st, Resolve(st, name)) && Declares(w, vs, Resolve(st, name), Lookup(w, vs, name).value)
    ensures HasStorage(w, ReadBase(st, Resolve(st, name)), Lookup(w, vs, name).value)
    ensures FlatArray(Lookup(w, vs, name).value)
  {
    InnermostSame(vs, st.scopes, name);
  }

  lemma BaseOk(w: Env, vs: Scopes, st: Store, b: Base, d: Variable)
    requires StoreOk(w, vs, st) && Declares(w, vs, b, d)
    ensures Bound(st, b) && HasStorage(w, ReadBase(st, b), d)
  {
    match b
    case Global(x) =>
    case Local(i, x) => assert ScopeOk(w, vs[i], st.scopes[i]);
  }

  lemma ReadOk(w: Env, vs: Scopes, st: Store, p: Place, t: ScalarType, composite: string)
    requires StoreOk(w, vs, st) && PlaceOk(w, vs, p, t, composite)
    ensures Evaluator.Valid(st, p) && HasType(w, Read(st, p), t, composite)
  {
    var d :| DeclaredAs(w, vs, p, d, t, composite);
    BaseOk(w, vs, st, p.base, d);
  }

  lemma WriteBaseOk(w: Env, vs: Scopes, st: Store, b: Base, d: Variable, v: Value)
    requires StoreOk(w, vs, st) && Declares(w, vs, b, d) && HasStorage(w, v, d) && Bound(st, b)
    ensures StoreOk(w, vs, WriteBase(st, b, v))
  {
    var st' := WriteBase(st, b, v);
    match b
    case Global(x) =>
    case Local(i, x) =>
      forall j | 0 <= j < |vs| ensures ScopeOk(w, vs[j], st'.scopes[j]) {
        assert ScopeOk(w, vs[j], st.scopes[j]);
      }
  }

  lemma WriteOk(w: Env, vs: Scopes, st: Store, p: Place, t: ScalarType, composite: string, v: Value)
    requires StoreOk(w, vs, st) && PlaceOk(w, vs, p, t, composite) && HasType(w, v, t, composite)
    ensures Evaluator.Valid(st, p) && StoreOk(w, vs, Write(st, p, v))
  {
    ReadOk(w, vs, st, p, t, composite);
    var d :| DeclaredAs(w, vs, p, d, t, composite);
    BaseOk(w, vs, st, p.base, d);
    match p
    case Whole(b) => WriteBaseOk(w, vs, st, b, d, v);
    case Element(b, i) =>
      var elems := ReadBase(st, b).elems[i := v];
      assert HasStorage(w, Arr(elems), d);
      WriteBaseOk(w, vs, st, b, d, Arr(elems));
  }

  lemma ZeroOk(w: Env, d: Variable)
    requires TablesOk(w) && VariableOk(w, d)
    ensures HasStorage(w, ZeroStorage(w, d), d)
  {
    if d.ty == Composite {
      assert CompositeOk(w.composites[d.composite]);
    }
    assert HasType(w, ZeroValue(w, d.ty, d.composite), d.ty, d.composite);
  }

  lemma {:induction false} DeclareZeroOk(w: Env, vs: Scopes, st: Store, ds: seq<Variable>)
    requires TablesOk(w) && StoreOk(w, vs, st) && |vs| > 0 && DeclareAll(w, vs, ds).Just?
    ensures StoreOk(w, DeclareAll(w, vs, ds).value, DeclareZero(w, st, ds))
    decreases ds
  {
    if ds != [] {
      var n, d := |vs| - 1, ds[0];
      ZeroOk(w, d);
      var vs' := vs[..n] + [vs[n][d.name := d]];
      var st' := st.(scopes := st.scopes[n := st.scopes[n][d.name := ZeroStorage(w, d)]]);
      forall i | 0 <= i < |vs'| ensures ScopeOk(w, vs'[i], st'.scopes[i]) {
        assert ScopeOk(w, vs[i], st.scopes[i]);
      }
      DeclareZeroOk(w, vs', st', ds[1..]);
    }
  }

  lemma PopOk(w: Env, vs: Scopes, st: Store, n: nat)
    requires StoreOk(w, vs, st) && n <= |vs|
    ensures StoreOk(w, vs[..n], PopTo(st, n))
  {
  }

  // ----- operators -----

  lemma IntBinaryOk(opcode: int, a: int32, b: int32, result: ScalarType)
    requires BinaryOk(opcode, Int32, result) || (opcode >= 10 && BinaryOk(opcode, Bool, result))
    ensures match IntBinary(opcode, a, b)
            case Val(v) => HasScalar(v, result)
            case Faults(f) => Genuine(f)
            case Meaningless => false
  {
    if b != 0 {
      TruncDivInRange(a, b);
    }
  }

  lemma BinarySound(fs: FloatSem, opcode: int, t: ScalarType, l: Value, r: Value, result: ScalarType)
    requires BinaryOk(opcode, t, result) && HasScalar(l, t) && HasScalar(r, t)
    ensures match Binary(fs, opcode, l, r)
            case Val(v) => HasScalar(v, result)
            case Faults(f) => Genuine(f)
            case Meaningless => false
  {
    if l.I? && r.I? {
      IntBinaryOk(opcode, l.n, r.n, result);
    }
  }

  lemma ConstructSound(w: Env, c: CompositeDecl, vs: seq<Value>)
    requires c.kind != Slice && HasFields(vs, c.Storage())
    ensures match Construct(c, vs)
            case Val(v) => HasComposite(w, v, c)
            case Faults(f) => Genuine(f)
            case Meaningless => false
  {
    if c.Tagged() {
      assert HasScalar(vs[0], c.Storage()[0]);
    }
  }

  /** A payload is only ever read under its own tag. */
  lemma ProjectSound(w: Env, c: CompositeDecl, index: int, v: Value)
    requires c.kind != Slice && HasComposite(w, v, c) && 0 <= index < |c.Storage()|
    ensures match Project(c, index, v)
            case Val(x) => HasScalar(x, c.Storage()[index]) && (c.Tagged() && index > 0 ==> v.fields[0] == I(ActiveTag(c, index)))
            case Faults(f) => Genuine(f) && c.Tagged() && index > 0 && v.fields[0] != I(ActiveTag(c, index))
            case Meaningless => false
  {
    assert HasScalar(v.fields[index], c.Storage()[index]);
    if c.Tagged() {
      assert HasScalar(v.fields[0], c.Storage()[0]);
    }
  }

  lemma SliceElementSound(w: Env, c: CompositeDecl, globals: map<string, Value>, v: Value, index: int)
    requires TablesOk(w) && ScopeOk(w, w.globals, globals) && c.kind == Slice && CompositeOk(c) && HasComposite(w, v, c)
    ensures match SliceElement(globals, v, index)
            case Val(x) => HasScalar(x, c.fields[0])
            case Faults(f) => Genuine(f)
            case Meaningless => false
  {
    var p, n := v.fields[0].p, v.fields[1].n;
    if p.GlobalElem? && 0 <= index < n {
      assert HasStorage(w, globals[p.name], w.globals[p.name]);
      assert VariableOk(w, w.globals[p.name]);
      assert HasType(w, globals[p.name].elems[p.index + index], w.globals[p.name].ty, w.globals[p.name].composite);
    }
  }

  // ----- expressions -----

  lemma {:induction false} ExprSound(w: Env, fuel: nat, vs: Scopes, st: Store, e: Expression)
    requires Sane(w) && StoreOk(w, vs, st) && ExprOk(w, vs, e)
    ensures Typed(w, vs, EvalExpr(w, fuel, st, e), e.ty, e.composite)
    decreases fuel, 0, e, 2
  {
    hide Typed, TypedAll, StoreOk, EvalExpr, EvalExprs, EvalPlace, Sane, PlaceTyped;
    match e.kind
    case IntegerE | BooleanE | FloatE | StringE => LiteralCase(w, fuel, vs, st, e);
    case VariableE | IndexE =>
      PlaceSound(w, fuel, vs, st, e);
      LoadCase(w, fuel, vs, st, e);
    case UnaryE =>
      ExprSound(w, fuel, vs, st, e.operands[0]);
      UnaryCase(w, fuel, vs, st, e);
    case BinaryE =>
      OperandsSound(w, fuel, vs, st, e.operands, 0);
      BinaryCase(w, fuel, vs, st, e);
    case CallE =>
      ExprsSound(w, fuel, vs, st, e.operands);
      CallCase(w, fuel, vs, st, e);
    case ConstructE =>
      ExprsSound(w, fuel, vs, st, e.operands);
      ConstructCase(w, fuel, vs, st, e);
    case ProjectE =>
      ExprSound(w, fuel, vs, st, e.operands[0]);
      ProjectCase(w, fuel, vs, st, e);
    case SliceE =>
      OperandsSound(w, fuel, vs, st, e.operands, 0);
      SliceCase(w, fuel, vs, st, e);
    case SliceIndexE =>
      ExprSound(w, fuel, vs, st, e.operands[0]);
      SliceIndexCase(w, fuel, vs, st, e);
  }

  lemma LiteralCase(w: Env, fuel: nat, vs: Scopes, st: Store, e: Expression)
    requires StoreOk(w, vs, st) && ExprOk(w, vs, e) && e.kind in {IntegerE, BooleanE, FloatE, StringE}
    ensures Typed(w, vs, EvalExpr(w, fuel, st, e), e.ty, e.composite)
  {
    hide StoreOk;
  }

  lemma LoadCase(w: Env, fuel: nat, vs: Scopes, st: Store, e: Expression)
    requires Sane(w) && ExprOk(w, vs, e) && Assignable(e) && PlaceTyped(w, vs, EvalPlace(w, fuel, st, e), e)
    ensures Typed(w, vs, EvalExpr(w, fuel, st, e), e.ty, e.composite)
  {
    hide StoreOk, EvalPlace, PlaceOk, Sane, ExprOk, HasType;
    var r := EvalPlace(w, fuel, st, e);
    if r.Ok? {
      ReadOk(w, vs, r.st, r.v, e.ty, e.composite);
    }
  }

  lemma UnaryCase(w: Env, fuel: nat, vs: Scopes, st: Store, e: Expression)
    requires Sane(w) && ExprOk(w, vs, e) && e.kind == UnaryE
    requires Typed(w, vs, EvalExpr(w, fuel, st, e.operands[0]), e.operands[0].ty, e.operands[0].composite)
    ensures Typed(w, vs, EvalExpr(w, fuel, st, e), e.ty, e.composite)
  {
    hide ScopesOk, Sane, ScopeOk;
  }

  lemma BinaryCase(w: Env, fuel: nat, vs: Scopes, st: Store, e: Expression)
    requires Sane(w) && ExprOk(w, vs, e) && e.kind == BinaryE
    requires Typed(w, vs, EvalExpr(w, fuel, st, e.operands[0]), e.operands[0].ty, e.operands[0].composite)
    requires var l := EvalExpr(w, fuel, st, e.operands[0]);
             l.Ok? ==> Typed(w, vs, EvalExpr(w, fuel, l.st, e.operands[1]), e.operands[1].ty, e.operands[1].composite)
    ensures Typed(w, vs, EvalExpr(w, fuel, st, e), e.ty, e.composite)
  {
    hide ScopesOk, Sane, ScopeOk, Binary;
    var l := EvalExpr(w, fuel, st, e.operands[0]);
    if l.Ok? {
      var r := EvalExpr(w, fuel, l.st, e.operands[1]);
      if r.Ok? {
        BinarySound(w.floats, e.opcode, e.operands[0].ty, l.v, r.v, e.ty);
      }
    }
  }

  lemma FunctionFacts(w: Env, n: string)
    requires Sane(w) && n in w.functions
    ensures var f := w.functions[n]; f.name == n && n != "main" && FunctionOk(w, f) && Placed(f.body, true) && SignatureOk(w, f)
  {
    hide FunctionOk, Placed, SignatureOk, CompositeOk, VariableOk;
  }

  lemma CallNode(w: Env, vs: Scopes, e: Expression)
    requires ExprOk(w, vs, e) && e.kind == CallE
    ensures e.name in w.functions
    ensures var f := w.functions[e.name];
            f.result == e.ty && f.resultComposite == e.composite && ArgumentsOk(f.parameters, e.operands)
    ensures ExprsOk(w, vs, e.operands)
  {
  }

  lemma {:induction false} CallCase(w: Env, fuel: nat, vs: Scopes, st: Store, e: Expression)
    requires Sane(w) && ExprOk(w, vs, e) && e.kind == CallE
    requires TypedAll(w, vs, EvalExprs(w, fuel, st, e.operands), e.operands)
    ensures Typed(w, vs, EvalExpr(w, fuel, st, e), e.ty, e.composite)
    decreases fuel, 0, e, 1
  {
    hide StoreOk, ScopeOk, HasType, Call, EvalExprs, ExprOk, NodeOk, Sane, FunctionOk, Placed;
    CallNode(w, vs, e);
    FunctionFacts(w, e.name);
    var r := EvalExprs(w, fuel, st, e.operands);
    if r.Ok? && fuel > 0 {
      CallSound(w, fuel - 1, vs, r.st, w.functions[e.name], r.v);
    }
  }

  lemma ProjectCase(w: Env, fuel: nat, vs: Scopes, st: Store, e: Expression)
    requires Sane(w) && ExprOk(w, vs, e) && e.kind == ProjectE
    requires Typed(w, vs, EvalExpr(w, fuel, st, e.operands[0]), Composite, e.operands[0].composite)
    ensures Typed(w, vs, EvalExpr(w, fuel, st, e), e.ty, e.composite)
  {
    hide ScopesOk, ScopeOk, Project, HasComposite;
    var r := EvalExpr(w, fuel, st, e.operands[0]);
    if r.Ok? {
      var c := w.composites[e.operands[0].composite];
      assert CompositeOk(c);
      ProjectSound(w, c, e.integer, r.v);
    }
  }

  lemma SliceCase(w: Env, fuel: nat, vs: Scopes, st: Store, e: Expression)
    requires Sane(w) && ExprOk(w, vs, e) && e.kind == SliceE
    requires Typed(w, vs, EvalExpr(w, fuel, st, e.operands[0]), Int32, e.operands[0].composite)
    requires var l := EvalExpr(w, fuel, st, e.operands[0]);
             l.Ok? ==> Typed(w, vs, EvalExpr(w, fuel, l.st, e.operands[1]), Int32, e.operands[1].composite)
    ensures Typed(w, vs, EvalExpr(w, fuel, st, e), e.ty, e.composite)
  {
    hide ScopesOk, ScopeOk, Sane;
  }

  lemma {:induction false} OperandsSound(w: Env, fuel: nat, vs: Scopes, st: Store, es: seq<Expression>, i: nat)
    requires Sane(w) && StoreOk(w, vs, st) && i + 1 < |es| && ExprOk(w, vs, es[i]) && ExprOk(w, vs, es[i + 1])
    ensures Typed(w, vs, EvalExpr(w, fuel, st, es[i]), es[i].ty, es[i].composite)
    ensures var l := EvalExpr(w, fuel, st, es[i]);
            l.Ok? ==> Typed(w, vs, EvalExpr(w, fuel, l.st, es[i + 1]), es[i + 1].ty, es[i + 1].composite)
    decreases fuel, 0, es, 0
  {
    var a, b := es[i], es[i + 1];
    ExprSound(w, fuel, vs, st, a);
    var l := EvalExpr(w, fuel, st, a);
    if l.Ok? {
      ExprSound(w, fuel, vs, l.st, b);
    }
  }

  lemma ConstructCase(w: Env, fuel: nat, vs: Scopes, st: Store, e: Expression)
    requires Sane(w) && e.kind == ConstructE && ExprOk(w, vs, e)
    requires TypedAll(w, vs, EvalExprs(w, fuel, st, e.operands), e.operands)
    ensures Typed(w, vs, EvalExpr(w, fuel, st, e), e.ty, e.composite)
  {
    hide EvalExprs, CompositeOk, FieldsOk, HasScalar;
    var r := EvalExprs(w, fuel, st, e.operands);
    if r.Ok? {
      FieldsTyped(w, vs, e, r.v);
      ConstructSound(w, w.composites[e.composite], r.v);
    }
  }

  /** The operands of a construction fit the fields of the composite. */
  lemma FieldsTyped(w: Env, vs: Scopes, e: Expression, values: seq<Value>)
    requires Sane(w) && e.kind == ConstructE && ExprOk(w, vs, e)
    requires |values| == |e.operands| && forall i | 0 <= i < |values| :: HasType(w, values[i], e.operands[i].ty, e.operands[i].composite)
    ensures e.composite in w.composites && CompositeOk(w.composites[e.composite]) && |values| == |w.composites[e.composite].Storage()|
    ensures forall i | 0 <= i < |values| :: HasScalar(values[i], w.composites[e.composite].Storage()[i])
  {
    forall i | 0 <= i < |values| ensures HasScalar(values[i], w.composites[e.composite].Storage()[i]) {
      assert HasType(w, values[i], e.operands[i].ty, e.operands[i].composite);
    }
  }

  lemma SliceIndexCase(w: Env, fuel: nat, vs: Scopes, st: Store, e: Expression)
    requires Sane(w) && e.kind == SliceIndexE && ExprOk(w, vs, e)
    requires Typed(w, vs, EvalExpr(w, fuel, st, e.operands[0]), Int32, e.operands[0].composite)
    ensures Typed(w, vs, EvalExpr(w, fuel, st, e), e.ty, e.composite)
  {
    hide SliceElement, ReadBase, Resolve, Bound, Lookup;
    var r := EvalExpr(w, fuel, st, e.operands[0]);
    if r.Ok? {
      SliceRead(w, vs, r.st, e, r.v.n);
    }
  }

  /** A read through the slice that an expression names. */
  lemma SliceRead(w: Env, vs: Scopes, st: Store, e: Expression, n: int)
    requires Sane(w) && e.kind == SliceIndexE && NodeOk(w, vs, e) && StoreOk(w, vs, st)
    ensures Bound(st, Resolve(st, e.name))
    ensures match SliceElement(st.globals, ReadBase(st, Resolve(st, e.name)), n)
            case Val(x) => HasScalar(x, e.ty)
            case Faults(f) => Genuine(f)
            case Meaningless => false
  {
    hide SliceElement, ReadBase, Resolve, Bound, Lookup;
    ResolveOk(w, vs, st, e.name);
    var c := w.composites[Lookup(w, vs, e.name).value.composite];
    assert CompositeOk(c);
    SliceElementSound(w, c, st.globals, ReadBase(st, Resolve(st, e.name)), n);
  }

  /** An element of the array that an expression names. */
  lemma ElementSound(w: Env, vs: Scopes, st: Store, e: Expression, n: int)
    requires e.kind == IndexE && NodeOk(w, vs, e) && StoreOk(w, vs, st)
    ensures var base := Resolve(st, e.name);
            && Bound(st, base) && ReadBase(st, base).Arr?
            && (0 <= n < |ReadBase(st, base).elems| ==> PlaceOk(w, vs, Element(base, n), e.ty, e.composite))
  {
    hide Resolve, Bound, Lookup, ReadBase, Declares;
    ResolveOk(w, vs, st, e.name);
    var base, d := Resolve(st, e.name), Lookup(w, vs, e.name).value;
    if 0 <= n < |ReadBase(st, base).elems| {
      assert DeclaredAs(w, vs, Element(base, n), d, e.ty, e.composite);
    }
  }

  /** The whole of the variable that an expression names. */
  lemma WholeSound(w: Env, vs: Scopes, st: Store, e: Expression)
    requires e.kind == VariableE && NodeOk(w, vs, e) && StoreOk(w, vs, st)
    ensures Bound(st, Resolve(st, e.name)) && PlaceOk(w, vs, Whole(Resolve(st, e.name)), e.ty, e.composite)
  {
    hide Resolve, Bound, Lookup, ReadBase, Declares;
    ResolveOk(w, vs, st, e.name);
    assert DeclaredAs(w, vs, Whole(Resolve(st, e.name)), Lookup(w, vs, e.name).value, e.ty, e.composite);
  }

  lemma {:induction false} PlaceSound(w: Env, fuel: nat, vs: Scopes, st: Store, e: Expression)
    requires Sane(w) && StoreOk(w, vs, st) && ExprOk(w, vs, e) && Assignable(e)
    ensures PlaceTyped(w, vs, EvalPlace(w, fuel, st, e), e)
    decreases fuel, 0, e, 1
  {
    hide EvalExpr, Sane, Resolve, Bound, ReadBase, PlaceOk, Lookup;
    if e.kind == IndexE {
      ExprSound(w, fuel, vs, st, e.operands[0]);
      var r := EvalExpr(w, fuel, st, e.operands[0]);
      if r.Ok? {
        ElementSound(w, vs, r.st, e, r.v.n);
      }
    } else {
      WholeSound(w, vs, st, e);
    }
  }

  lemma {:induction false} ExprsSound(w: Env, fuel: nat, vs: Scopes, st: Store, es: seq<Expression>)
    requires Sane(w) && StoreOk(w, vs, st) && ExprsOk(w, vs, es)
    ensures TypedAll(w, vs, EvalExprs(w, fuel, st, es), es)
    decreases fuel, 0, es, 0
  {
    hide EvalExpr, ExprOk, StoreOk, Sane, HasType;
    if es != [] {
      ExprSound(w, fuel, vs, st, es[0]);
      var r := EvalExpr(w, fuel, st, es[0]);
      if r.Ok? {
        ExprsSound(w, fuel, vs, r.st, es[1..]);
      }
    }
  }

  lemma {:induction false} ArgumentsTyped(w: Env, ps: seq<Variable>, vs: seq<Value>)
    requires |ps| == |vs| && ParametersOk(w, ps)
    requires forall i | 0 <= i < |ps| :: HasType(w, vs[i], ps[i].ty, ps[i].composite)
    ensures ScopeOk(w, ParameterScope(ps), Arguments(ps, vs))
  {
    if ps != [] {
      hide VariableOk, HasType;
      var n := |ps| - 1;
      ArgumentsTyped(w, ps[..n], vs[..n]);
      ScopeExtend(w, ParameterScope(ps[..n]), Arguments(ps[..n], vs[..n]), ps[n], vs[n]);
      assert ParameterScope(ps) == ParameterScope(ps[..n])[ps[n].name := ps[n]];
    }
  }

  lemma ScopeExtend(w: Env, ds: map<string, Variable>, m: map<string, Value>, d: Variable, v: Value)
    requires ScopeOk(w, ds, m) && HasType(w, v, d.ty, d.composite) && d.extent == 0
    ensures ScopeOk(w, ds[d.name := d], m[d.name := v])
  {
    hide HasType;
  }

  lemma {:induction false} CallSound(w: Env, fuel: nat, vs: Scopes, st: Store, f: Function, args: seq<Value>)
    requires Sane(w) && StoreOk(w, vs, st) && f.name in w.functions && w.functions[f.name] == f && |args| == |f.parameters|
    requires forall i | 0 <= i < |args| :: HasType(w, args[i], f.parameters[i].ty, f.parameters[i].composite)
    ensures Typed(w, vs, Call(w, fuel, st, f, args), f.result, f.resultComposite)
    decreases fuel, 2
  {
    hide CheckStmt, Placed, ScopeOk, Exec, Sane, SignatureOk, ParametersOk, ParameterScope, Arguments;
    FunctionFacts(w, f.name);
    ArgumentsTyped(w, f.parameters, args);
    var inner := st.(scopes := [Arguments(f.parameters, args)]);
    ExecSound(w, fuel, Return(f.result, f.resultComposite), [ParameterScope(f.parameters)], 0, inner, f.body, true);
  }

  // ----- statements -----

  /** The scopes a jump out of the statement is sure to leave typed. */
  function Outer(vs: Scopes, here: bool): Scopes
    requires |vs| > 0
  {
    if here then vs[..|vs| - 1] else vs
  }

  ghost predicate FlowTyped(w: Env, ret: Return, vs: Scopes, vs': Scopes, loops: nat, r: R<Flow>, here: bool)
    requires |vs| > 0
  {
    && Kept(w, r)
    && (r.Ok? ==>
          match r.v
          case Next => StoreOk(w, vs', r.st)
          case Breaks | Continues =>
            loops > 0 && |r.st.scopes| == |vs| && StoreOk(w, Outer(vs, here), PopTo(r.st, |Outer(vs, here)|))
          case Returns(v) => ScopeOk(w, w.globals, r.st.globals) && HasType(w, v, ret.ty, ret.composite))
  }

  lemma {:induction false} ExecSound(w: Env, fuel: nat, ret: Return, vs: Scopes, loops: nat, st: Store, s: Statement, here: bool)
    requires Sane(w) && |vs| > 0 && StoreOk(w, vs, st)
    requires CheckStmt(w, ret, vs, loops, s).Just? && Placed(s, here)
    ensures FlowTyped(w, ret, vs, CheckStmt(w, ret, vs, loops, s).value, loops, Exec(w, fuel, st, s), here)
    decreases fuel, 1, s, 2
  {
    match s.kind
    case BlockS => BlockSound(w, fuel, ret, vs, loops, st, s, here);
    case DeclareS => DeclareZeroOk(w, vs, st, s.variables);
    case AssignS | UpdateS => StoreSound(w, fuel, vs, st, s);
    case ExpressionS | ReturnS =>
      if s.expressions != [] {
        ExprSound(w, fuel, vs, st, s.expressions[0]);
      }
    case PrintS => PrintSound(w, fuel, vs, st, s.expressions);
    case IfS => IfSound(w, fuel, ret, vs, loops, st, s, here);
    case WhileS => WhileSound(w, fuel, ret, vs, loops, st, s, here);
    case ForS => ForSound(w, fuel, ret, vs, loops, st, s, here);
    case BreakS | ContinueS => PopOk(w, vs, st, |Outer(vs, here)|);
  }

  lemma {:induction false} BlockSound(w: Env, fuel: nat, ret: Return, vs: Scopes, loops: nat, st: Store, s: Statement, here: bool)
    requires Sane(w) && |vs| > 0 && StoreOk(w, vs, st) && s.kind == BlockS
    requires CheckStmt(w, ret, vs, loops, s).Just? && Placed(s, here)
    ensures FlowTyped(w, ret, vs, CheckStmt(w, ret, vs, loops, s).value, loops, Exec(w, fuel, st, s), here)
    decreases fuel, 1, s, 1
  {
    if s.lexical {
      var inner := vs + [map[]];
      assert StoreOk(w, inner, Push(st));
      ListSound(w, fuel, ret, inner, loops, Push(st), s.body, true);
      assert inner[..|vs|] == vs;
      var r := ExecAll(w, fuel, Push(st), s.body);
      if r.Ok? && !r.v.Returns? {
        if r.v.Next? {
          var after := CheckList(w, ret, inner, loops, s.body).value;
          PopOk(w, after, r.st, |vs|);
        } else {
          PopOk(w, vs, PopTo(r.st, |vs|), |Outer(vs, here)|);
          assert r.st.scopes[..|vs|][..|Outer(vs, here)|] == r.st.scopes[..|Outer(vs, here)|];
        }
      }
    } else {
      ListSound(w, fuel, ret, vs, loops, st, s.body, here);
    }
  }

  lemma {:induction false} StoreSound(w: Env, fuel: nat, vs: Scopes, st: Store, s: Statement)
    requires Sane(w) && |vs| > 0 && StoreOk(w, vs, st) && (s.kind == AssignS || s.kind == UpdateS)
    requires ExprsOk(w, vs, s.expressions) && OperandsOk(w, Return(Void, ""), 0, s)
    ensures var r := Exec(w, fuel, st, s); Kept(w, r) && (r.Ok? ==> r.v == Next && StoreOk(w, vs, r.st))
    decreases fuel, 1, s, 1
  {
    hide Sane, StoreOk, ExprOk, HasType, PlaceOk, Write, Valid, EvalExpr, EvalPlace, ScopeOk;
    var a, b := s.expressions[0], s.expressions[1];
    if s.kind == AssignS {
      ExprSound(w, fuel, vs, st, b);
      var v := EvalExpr(w, fuel, st, b);
      if v.Ok? {
        PlaceSound(w, fuel, vs, v.st, a);
        var p := EvalPlace(w, fuel, v.st, a);
        if p.Ok? {
          WriteOk(w, vs, p.st, p.v, a.ty, a.composite, v.v);
        }
      }
    } else {
      ExprSound(w, fuel, vs, st, a);
      var record := EvalExpr(w, fuel, st, a);
      if record.Ok? {
        ExprSound(w, fuel, vs, record.st, b);
        var field := EvalExpr(w, fuel, record.st, b);
        if field.Ok? {
          UpdateSound(w, fuel, vs, field.st, s, record.v, field.v);
        }
      }
    }
  }

  lemma {:induction false} UpdateSound(w: Env, fuel: nat, vs: Scopes, st: Store, s: Statement, record: Value, field: Value)
    requires Sane(w) && |vs| > 0 && StoreOk(w, vs, st) && s.kind == UpdateS
    requires ExprsOk(w, vs, s.expressions) && OperandsOk(w, Return(Void, ""), 0, s)
    requires HasType(w, record, Composite, s.expressions[0].composite)
    requires HasType(w, field, s.expressions[1].ty, s.expressions[1].composite)
    ensures record.Agg? && s.declaration < |record.fields|
    ensures HasType(w, Agg(record.fields[s.declaration := field]), s.expressions[0].ty, s.expressions[0].composite)
    ensures var p := EvalPlace(w, fuel, st, s.expressions[0]);
            PlaceTyped(w, vs, p, s.expressions[0]) && (p.Ok? ==>
              Evaluator.Valid(p.st, p.v) && StoreOk(w, vs, Write(p.st, p.v, Agg(record.fields[s.declaration := field]))))
    decreases fuel, 1, s, 0
  {
    hide StoreOk, ExprOk, PlaceOk, Valid, Write, EvalPlace;
    var a := s.expressions[0];
    var c := w.composites[a.composite];
    assert CompositeOk(c);
    hide CompositeOk, Sane;
    PlaceSound(w, fuel, vs, st, a);
    var p := EvalPlace(w, fuel, st, a);
    var updated := Agg(record.fields[s.declaration := field]);
    assert HasComposite(w, updated, c);
    if p.Ok? {
      WriteOk(w, vs, p.st, p.v, a.ty, a.composite, updated);
    }
  }

  lemma {:induction false} IfSound(w: Env, fuel: nat, ret: Return, vs: Scopes, loops: nat, st: Store, s: Statement, here: bool)
    requires Sane(w) && |vs| > 0 && StoreOk(w, vs, st) && s.kind == IfS
    requires CheckStmt(w, ret, vs, loops, s).Just? && Placed(s, here)
    ensures FlowTyped(w, ret, vs, CheckStmt(w, ret, vs, loops, s).value, loops, Exec(w, fuel, st, s), here)
    decreases fuel, 1, s, 1
  {
    CheckListFrame(w, ret, vs, loops, s.body);
    CheckListFrame(w, ret, vs, loops, s.alternative);
    ExprSound(w, fuel, vs, st, s.expressions[0]);
    var c := EvalExpr(w, fuel, st, s.expressions[0]);
    if c.Ok? {
      if c.v.n != 0 {
        ListSound(w, fuel, ret, vs, loops, c.st, s.body, false);
        Weaken(w, ret, vs, loops, ExecAll(w, fuel, c.st, s.body), here);
      } else {
        ListSound(w, fuel, ret, vs, loops, c.st, s.alternative, false);
        Weaken(w, ret, vs, loops, ExecAll(w, fuel, c.st, s.alternative), here);
      }
    }
  }

  lemma Weaken(w: Env, ret: Return, vs: Scopes, loops: nat, r: R<Flow>, here: bool)
    requires |vs| > 0 && FlowTyped(w, ret, vs, vs, loops, r, false)
    ensures FlowTyped(w, ret, vs, vs, loops, r, here)
  {
    if r.Ok? && (r.v.Breaks? || r.v.Continues?) {
      assert r.st.scopes[..|vs|] == r.st.scopes;
      PopOk(w, vs, r.st, |Outer(vs, here)|);
    }
  }

  lemma {:induction false} WhileSound(w: Env, fuel: nat, ret: Return, vs: Scopes, loops: nat, st: Store, s: Statement, here: bool)
    requires Sane(w) && |vs| > 0 && StoreOk(w, vs, st) && s.kind == WhileS
    requires CheckStmt(w, ret, vs, loops, s).Just? && Placed(s, here)
    ensures FlowTyped(w, ret, vs, CheckStmt(w, ret, vs, loops, s).value, loops, Exec(w, fuel, st, s), here)
    decreases fuel, 1, s, 1
  {
    hide EvalExpr, ExecAll, Sane;
    CheckListFrame(w, ret, vs, loops + 1, s.body);
    CheckListFrame(w, ret, vs, loops, s.alternative);
    ExprSound(w, fuel, vs, st, s.expressions[0]);
    var c := EvalExpr(w, fuel, st, s.expressions[0]);
    if c.Ok? && c.v.n != 0 {
      ListSound(w, fuel, ret, vs, loops + 1, c.st, s.body, false);
      var r := ExecAll(w, fuel, c.st, s.body);
      if r.Ok? && !r.v.Returns? {
        assert r.st.scopes[..|vs|] == r.st.scopes;
        if !r.v.Breaks? && fuel > 0 {
          WhileSound(w, fuel - 1, ret, vs, loops, r.st, s, here);
        }
      }
    }
  }

  lemma {:induction false} ForSound(w: Env, fuel: nat, ret: Return, vs: Scopes, loops: nat, st: Store, s: Statement, here: bool)
    requires Sane(w) && |vs| > 0 && StoreOk(w, vs, st) && s.kind == ForS
    requires CheckStmt(w, ret, vs, loops, s).Just? && Placed(s, here)
    ensures FlowTyped(w, ret, vs, CheckStmt(w, ret, vs, loops, s).value, loops, Exec(w, fuel, st, s), here)
    decreases fuel, 1, s, 1
  {
    hide StoreOk, EvalExpr, EvalPlace, Iterate, Sane, Write;
    CheckListFrame(w, ret, vs, loops + 1, s.body);
    CheckListFrame(w, ret, vs, loops, s.alternative);
    var a, b := s.expressions[0], s.expressions[1];
    ExprSound(w, fuel, vs, st, b);
    var start := EvalExpr(w, fuel, st, b);
    if start.Ok? {
      PlaceSound(w, fuel, vs, start.st, a);
      var p := EvalPlace(w, fuel, start.st, a);
      if p.Ok? {
        WriteOk(w, vs, p.st, p.v, Int32, a.composite, start.v);
        IterateSound(w, fuel, ret, vs, loops, Write(p.st, p.v, start.v), p.v, s, here);
      }
    }
  }

  lemma ForParts(w: Env, ret: Return, vs: Scopes, loops: nat, s: Statement, here: bool)
    requires |vs| > 0 && s.kind == ForS && CheckStmt(w, ret, vs, loops, s).Just? && Placed(s, here)
    ensures |s.expressions| == 4 && forall i | 0 <= i < 4 :: ExprOk(w, vs, s.expressions[i]) && s.expressions[i].ty == Int32
    ensures CheckList(w, ret, vs, loops + 1, s.body) == Just(vs) && PlacedAll(s.body, false)
  {
    hide NodeOk, ExprOk;
    CheckListFrame(w, ret, vs, loops + 1, s.body);
  }

  lemma {:induction false} IterateSound(w: Env, fuel: nat, ret: Return, vs: Scopes, loops: nat, st: Store, p: Place, s: Statement, here: bool)
    requires Sane(w) && |vs| > 0 && StoreOk(w, vs, st) && s.kind == ForS
    requires CheckStmt(w, ret, vs, loops, s).Just? && Placed(s, here) && PlaceOk(w, vs, p, Int32, s.expressions[0].composite)
    ensures FlowTyped(w, ret, vs, vs, loops, Iterate(w, fuel, st, p, s), here)
    decreases fuel, 1, s, 0
  {
    hide CheckStmt, ExprOk, ScopeOk, ScopesOk, DeclaredAs, Placed, Sane, Read, Valid, ExecAll, PlaceOk, EvalExpr, CheckList, PlacedAll, Outer;
    ForParts(w, ret, vs, loops, s, here);
    ReadOk(w, vs, st, p, Int32, s.expressions[0].composite);
    OperandsSound(w, fuel, vs, st, s.expressions, 2);
    var step := EvalExpr(w, fuel, st, s.expressions[2]);
    if step.Ok? && step.v.n != 0 {
      var end := EvalExpr(w, fuel, step.st, s.expressions[3]);
      if end.Ok? && Continue(step.v.n, Read(st, p).n, end.v.n) {
        LoopBodySound(w, fuel, ret, vs, loops, end.st, p, s, here, step.v.n);
      }
    }
  }

  ghost predicate BodyTyped(w: Env, fuel: nat, ret: Return, vs: Scopes, loops: nat, r: R<Flow>, p: Place, s: Statement, here: bool, step: int)
    requires |vs| > 0 && |s.expressions| == 4
  {
    && Kept(w, r)
    && (r.Ok? && r.v.Breaks? ==> StoreOk(w, vs, r.st))
    && (r.Ok? && r.v.Returns? ==> ScopeOk(w, w.globals, r.st.globals) && HasType(w, r.v.v, ret.ty, ret.composite))
    && (r.Ok? && (r.v.Next? || r.v.Continues?) ==>
          && StoreOk(w, vs, r.st) && Evaluator.Valid(r.st, p) && Read(r.st, p).I?
          && (fuel > 0 ==>
                FlowTyped(w, ret, vs, vs, loops, Iterate(w, fuel - 1, Write(r.st, p, I(Wrap32(Read(r.st, p).n + step))), p, s), here)))
  }

  lemma {:induction false} LoopBodySound(w: Env, fuel: nat, ret: Return, vs: Scopes, loops: nat, st: Store, p: Place, s: Statement, here: bool, step: int)
    requires Sane(w) && |vs| > 0 && StoreOk(w, vs, st) && s.kind == ForS && InInt32(step)
    requires CheckStmt(w, ret, vs, loops, s).Just? && Placed(s, here) && PlaceOk(w, vs, p, Int32, s.expressions[0].composite)
    requires |s.expressions| == 4
    ensures BodyTyped(w, fuel, ret, vs, loops, ExecAll(w, fuel, st, s.body), p, s, here, step)
    decreases fuel, 1, s.body, 1
  {
    hide CheckStmt, ExprOk, ScopeOk, DeclaredAs, Placed, Sane, Read, Write, Valid, ExecAll, PlaceOk, Iterate;
    ForParts(w, ret, vs, loops, s, here);
    ListSound(w, fuel, ret, vs, loops + 1, st, s.body, false);
    var r := ExecAll(w, fuel, st, s.body);
    if r.Ok? && !r.v.Returns? {
      assert r.st.scopes[..|vs|] == r.st.scopes;
      if !r.v.Breaks? {
        ReadOk(w, vs, r.st, p, Int32, s.expressions[0].composite);
        var next := I(Wrap32(Read(r.st, p).n + step));
        WriteOk(w, vs, r.st, p, Int32, s.expressions[0].composite, next);
        if fuel > 0 {
          IterateSound(w, fuel - 1, ret, vs, loops, Write(r.st, p, next), p, s, here);
        }
      }
    }
  }

  lemma {:induction false} PrintSound(w: Env, fuel: nat, vs: Scopes, st: Store, es: seq<Expression>)
    requires Sane(w) && StoreOk(w, vs, st) && ExprsOk(w, vs, es)
    ensures var r := Print(w, fuel, st, es); Kept(w, r) && (r.Ok? ==> r.v == Next && StoreOk(w, vs, r.st))
    decreases fuel, 1, es, 0
  {
    if es != [] {
      ExprSound(w, fuel, vs, st, es[0]);
      var v := EvalExpr(w, fuel, st, es[0]);
      if v.Ok? {
        var item := Printed(PrintFormat(es[0].ty), Printable(es[0].ty, v.v));
        PrintSound(w, fuel, vs, v.st.(out := v.st.out + [item, Printed("%s", Separator(|es| == 1))]), es[1..]);
      }
    }
  }

  lemma {:induction false} ListSound(w: Env, fuel: nat, ret: Return, vs: Scopes, loops: nat, st: Store, ss: seq<Statement>, here: bool)
    requires Sane(w) && |vs| > 0 && StoreOk(w, vs, st)
    requires CheckList(w, ret, vs, loops, ss).Just? && PlacedAll(ss, here)
    ensures FlowTyped(w, ret, vs, CheckList(w, ret, vs, loops, ss).value, loops, ExecAll(w, fuel, st, ss), here)
    decreases fuel, 1, ss, 0
  {
    if ss != [] {
      ExecSound(w, fuel, ret, vs, loops, st, ss[0], here);
      var r := Exec(w, fuel, st, ss[0]);
      if r.Ok? && r.v.Next? {
        var vs' := CheckStmt(w, ret, vs, loops, ss[0]).value;
        if !here {
          CheckStmtFrame(w, ret, vs, loops, ss[0]);
        }
        ListSound(w, fuel, ret, vs', loops, r.st, ss[1..], here);
        assert Outer(vs', here) == Outer(vs, here);
      }
    }
  }

  // ----- programs -----

  /** A verified program never goes wrong; its faults are genuine and its final globals well typed. */
  lemma ProgramSound(w: Env, fuel: nat, body: Statement)
    requires Sane(w) && BodyOk(w, body) && Placed(body, true)
    ensures match RunProgram(w, fuel, body)
            case Exits(v, g, _) => ScopeOk(w, w.globals, g) && HasScalar(v, Int32)
            case Aborts(f, g, _) => Genuine(f) && ScopeOk(w, w.globals, g)
            case Undecided => true
            case GoesWrong => false
  {
    var st := InitialStore(w);
    forall n <- w.globals ensures HasStorage(w, st.globals[n], w.globals[n]) {
      ZeroOk(w, w.globals[n]);
    }
    ExecSound(w, fuel, Return(Int32, ""), [map[]], 0, st, body, true);
  }
}
