/**
  * Loading a program's modules: the depth-first closure of the imports, the order in which modules
  * are analysed, and the check that no symbol has two owners.
  *
  * Resolving, reading and identifying a module is one parameter, a partial function from names to
  * units; the only assumption about it is that finitely many names can be reached. Cycles are
  * allowed: the loader closes over them and the ordering refuses them.
  */
module ModuleGraph {
  import opened Wrappers
  import opened Strings

  /** A parsed source: what it imports, in order, and the functions and globals it defines. */
  datatype Unit = Unit(imports: seq<string>, symbols: set<string>)

  /** Resolves, parses and identifies the module of a name. */
  type Resolver = string -> Maybe<Unit>

  // ---------------------------------------------------------------------------------------------
  // Import graphs

  type Edges = string -> seq<string>

  predicate Walk(edges: Edges, p: seq<string>) {
    |p| > 0 && forall i | 0 <= i < |p| - 1 :: p[i + 1] in edges(p[i])
  }

  ghost predicate Reaches(edges: Edges, a: string, b: string) {
    exists p :: Walk(edges, p) && p[0] == a && p[|p| - 1] == b
  }

  /** A walk that returns to where it started. */
  predicate Cycle(edges: Edges, p: seq<string>) {
    Walk(edges, p) && |p| > 1 && p[0] == p[|p| - 1]
  }

  ghost predicate Cyclic(edges: Edges, a: string) {
    exists p :: Cycle(edges, p) && Reaches(edges, a, p[0])
  }

  lemma ReachesSelf(edges: Edges, a: string)
    ensures Reaches(edges, a, a)
  {
    assert Walk(edges, [a]);
  }

  lemma ReachesImport(edges: Edges, a: string, b: string, c: string)
    requires Reaches(edges, a, b) && c in edges(b)
    ensures Reaches(edges, a, c)
  {
    var p :| Walk(edges, p) && p[0] == a && p[|p| - 1] == b;
    assert Walk(edges, p + [c]);
  }

  /** A set that holds the start and is closed under imports holds whatever is reached. */
  lemma {:induction false} ClosedHolds(edges: Edges, s: set<string>, p: seq<string>)
    requires Walk(edges, p) && p[0] in s
    requires forall a, b | a in s && b in edges(a) :: b in s
    ensures p[|p| - 1] in s
    decreases |p|
  {
    if |p| > 1 {
      var q := p[..|p| - 1];
      ClosedHolds(edges, s, q);
      assert p[|p| - 1] in edges(q[|q| - 1]);
    }
  }

  // ---------------------------------------------------------------------------------------------
  // The closure

  /** What a name imports, with the entry given and every other module as resolved. */
  function Graph(resolve: Resolver, entry: string, unit: Unit): Resolver {
    n => if n == entry then Just(unit) else resolve(n)
  }

  function Imports(graph: Resolver): Edges {
    n => if graph(n).Just? then graph(n).value.imports else []
  }

  /** Finitely many names: those of the universe import only each other. */
  ghost predicate Finite(graph: Resolver, entry: string, universe: set<string>) {
    entry in universe && forall a, b | a in universe && b in Imports(graph)(a) :: b in universe
  }

  /** A module that the entry reaches and that does not resolve. */
  ghost predicate Missing(graph: Resolver, entry: string) {
    exists n :: Reaches(Imports(graph), entry, n) && graph(n).Nothing?
  }

  /** Every parsed unit is reached and is what its name resolves to, and no name was parsed twice. */
  ghost predicate Sound(graph: Resolver, entry: string, universe: set<string>, units: map<string, Unit>, parsed: seq<string>) {
    && Finite(graph, entry, universe) && entry in units
    && (forall n | n in units :: n in universe && graph(n) == Just(units[n]) && Reaches(Imports(graph), entry, n))
    && (forall i, j | 0 <= i < j < |parsed| :: parsed[i] != parsed[j])
    && (forall n :: n in parsed <==> n in units && n != entry)
  }

  /** The imports of an expanded module are parsed. */
  ghost predicate Closed(graph: Resolver, expanded: set<string>, parsed: set<string>) {
    forall a, b | a in expanded && b in Imports(graph)(a) :: b in parsed
  }

  lemma ImportOf(graph: Resolver, entry: string, universe: set<string>, units: map<string, Unit>, parsed: seq<string>, a: string, b: string)
    requires Sound(graph, entry, universe, units, parsed) && a in units && b in Imports(graph)(a)
    ensures b in universe && Reaches(Imports(graph), entry, b)
  {
    ReachesImport(Imports(graph), entry, a, b);
  }

  lemma Known(graph: Resolver, entry: string, universe: set<string>, units: map<string, Unit>, parsed: seq<string>, a: string)
    requires Sound(graph, entry, universe, units, parsed) && a in units
    ensures a in universe && Imports(graph)(a) == units[a].imports
  {
  }

  /** A module all of whose imports are parsed joins the expanded ones. */
  lemma Joins(graph: Resolver, expanded: set<string>, parsed: set<string>, name: string)
    requires Closed(graph, expanded, parsed) && forall b | b in Imports(graph)(name) :: b in parsed
    ensures Closed(graph, expanded + {name}, parsed)
  {
  }

  lemma Fewer(universe: set<string>, was: set<string>, outer: set<string>, now: set<string>, name: string)
    requires name in universe && name !in was && name !in outer && was <= now
    ensures universe - now - (outer + {name}) < universe - was - outer
  {
    assert name in universe - was - outer && name !in universe - now - (outer + {name});
  }

  class Loader {
    const graph: Resolver
    const entry: string
    ghost const universe: set<string>
    /** Parsed units and their descriptors, which have the same keys. */
    var units: map<string, Unit>
    var expanded: set<string>
    var expanding: set<string>
    /** The names parsed after the entry, in order. */
    var parsed: seq<string>

    ghost predicate Valid()
      reads this
    {
      && Sound(graph, entry, universe, units, parsed)
      && expanded + expanding <= units.Keys && Closed(graph, expanded, units.Keys)
    }

    constructor (resolve: Resolver, name: string, unit: Unit, ghost names: set<string>)
      requires Finite(Graph(resolve, name, unit), name, names)
      ensures Valid() && graph == Graph(resolve, name, unit) && entry == name
      ensures units == map[name := unit] && expanded == {} && expanding == {}
    {
      graph, entry, universe := Graph(resolve, name, unit), name, names;
      units, expanded, expanding, parsed := map[name := unit], {}, {}, [];
      new;
      ReachesSelf(Imports(graph), entry);
    }

    /** Parses an import that is new. */
    method Load(name: string) returns (ok: bool)
      requires Valid() && Reaches(Imports(graph), entry, name) && name in universe
      modifies this`units, this`parsed
      ensures ok ==> Valid() && units.Keys == old(units.Keys) + {name}
      ensures !ok ==> Missing(graph, entry)
    {
      ok := true;
      if name !in units {
        var unit := graph(name);
        if unit.Nothing? { return false; }
        units := units[name := unit.value];
        parsed := parsed + [name];
      }
    }

    /**
      * Expands a module: every import is parsed once and expanded in turn, unless that is done or
      * under way. Afterwards the module's imports are expanded or being expanded.
      */
    method Expand(name: string) returns (ok: bool)
      requires Valid() && name in units && units.Keys <= expanded + expanding + {name}
      modifies this
      ensures ok ==> Valid() && expanding == old(expanding) && old(expanded) <= expanded
      ensures ok ==> name in expanded + expanding && units.Keys == expanded + expanding
      ensures !ok ==> Missing(graph, entry)
      decreases universe - expanded - expanding, 0
    {
      hide Sound, Closed, Missing, Reaches;
      if name in expanded || name in expanding { return true; }
      ghost var outer, before := expanding, expanded;
      Known(graph, entry, universe, units, parsed, name);
      expanding := expanding + {name};
      var imports := units[name].imports;
      for i := 0 to |imports|
        invariant Valid() && expanding == outer + {name} && before <= expanded
        invariant units.Keys == expanded + expanding
        invariant forall k | 0 <= k < i :: imports[k] in units
      {
        ImportOf(graph, entry, universe, units, parsed, name, imports[i]);
        Fewer(universe, before, outer, expanded, name);
        ok := Import(imports[i]);
        if !ok { return false; }
      }
      Finish(name, outer);
      ok := true;
    }

    /** One import: parsed if it is new, then expanded. */
    method Import(name: string) returns (ok: bool)
      requires Valid() && Reaches(Imports(graph), entry, name) && name in universe
      requires units.Keys == expanded + expanding
      modifies this
      ensures ok ==> Valid() && expanding == old(expanding) && old(expanded) <= expanded
      ensures ok ==> name in units && units.Keys == expanded + expanding && old(units).Keys <= units.Keys
      ensures !ok ==> Missing(graph, entry)
      decreases universe - expanded - expanding, 1
    {
      hide Sound, Closed, Missing, Reaches;
      ok := Load(name);
      if !ok { return false; }
      ok := Expand(name);
    }

    method Finish(name: string, ghost outer: set<string>)
      requires Valid() && expanding == outer + {name} && name !in outer && units.Keys == expanded + expanding
      requires forall b | b in Imports(graph)(name) :: b in units
      modifies this`expanded, this`expanding
      ensures Valid() && expanding == outer && expanded == old(expanded) + {name} && units.Keys == expanded + expanding
    {
      hide Sound, Closed;
      Joins(graph, expanded, units.Keys, name);
      expanding := expanding - {name};
      expanded := expanded + {name};
      assert expanding == outer;
    }
  }

  // ---------------------------------------------------------------------------------------------
  // The order of analysis

  type Units = map<string, Unit>

  function UnitImports(units: Units): Edges {
    n => if n in units then units[n].imports else []
  }

  /** Every module once, after everything it imports. */
  predicate Topological(edges: Edges, order: seq<string>) {
    forall i | 0 <= i < |order| :: order[i] !in order[..i] && forall b | b in edges(order[i]) :: b in order[..i]
  }

  ghost predicate AllReached(edges: Edges, entry: string, order: seq<string>) {
    forall n | n in order :: Reaches(edges, entry, n)
  }

  /** The modules being visited: a walk from the entry. */
  predicate Trail(edges: Edges, entry: string, stack: seq<string>) {
    stack != [] ==> stack[0] == entry && Walk(edges, stack)
  }

  /** The entry is absent or reaches an absent module. */
  ghost predicate Absent(units: Units, entry: string) {
    exists n :: Reaches(UnitImports(units), entry, n) && n !in units
  }

  /** Along a walk of at least one step, one descends in a topological order. */
  lemma {:induction false} WalksDescend(edges: Edges, order: seq<string>, p: seq<string>, i: nat)
    requires Topological(edges, order) && Walk(edges, p) && |p| > 1 && i < |order| && order[i] == p[0]
    ensures p[|p| - 1] in order[..i]
    decreases |p|
  {
    assert p[1] in edges(p[0]) && p[1] in order[..i];
    var j :| 0 <= j < i && order[j] == p[1];
    if |p| > 2 {
      assert Walk(edges, p[1..]) by {
        forall k | 0 <= k < |p[1..]| - 1 ensures p[1..][k + 1] in edges(p[1..][k]) {
          assert p[(k + 1) + 1] in edges(p[k + 1]);
        }
      }
      WalksDescend(edges, order, p[1..], j);
      assert order[..j] <= order[..i];
    }
  }

  /** An order that holds the entry holds all it reaches. */
  lemma OrderHolds(edges: Edges, order: seq<string>, entry: string, n: string)
    requires Topological(edges, order) && entry in order && Reaches(edges, entry, n)
    ensures n in order
  {
    var p :| Walk(edges, p) && p[0] == entry && p[|p| - 1] == n;
    var i :| 0 <= i < |order| && order[i] == entry;
    if |p| > 1 {
      WalksDescend(edges, order, p, i);
    }
  }

  /** Whatever has a topological order holding the entry has no cycle within its reach. */
  lemma OrderedIsAcyclic(edges: Edges, order: seq<string>, entry: string)
    requires Topological(edges, order) && entry in order
    ensures !Cyclic(edges, entry)
  {
    if Cyclic(edges, entry) {
      var p :| Cycle(edges, p) && Reaches(edges, entry, p[0]);
      OrderHolds(edges, order, entry, p[0]);
      var i :| 0 <= i < |order| && order[i] == p[0];
      WalksDescend(edges, order, p, i);
    }
  }

  /** A module on the trail that is imported again closes a cycle. */
  lemma TrailCycle(edges: Edges, entry: string, stack: seq<string>, name: string)
    requires Trail(edges, entry, stack) && stack != [] && name in edges(stack[|stack| - 1]) && name in stack
    ensures Cyclic(edges, entry)
  {
    var i :| 0 <= i < |stack| && stack[i] == name;
    assert Walk(edges, stack[..i + 1]) && stack[..i + 1][i] == name;
    assert Reaches(edges, entry, name);
    var p := stack[i..] + [name];
    assert Walk(edges, p) by {
      forall k | 0 <= k < |p| - 1 ensures p[k + 1] in edges(p[k]) {
        if k < |stack| - i - 1 {
          assert stack[(i + k) + 1] in edges(stack[i + k]);
        }
      }
    }
    assert Cycle(edges, p) && p[0] == name;
  }

  lemma TrailReaches(edges: Edges, entry: string, stack: seq<string>, name: string)
    requires Trail(edges, entry, stack)
    requires Next(edges, entry, stack, name)
    ensures Reaches(edges, entry, name) && Trail(edges, entry, stack + [name])
  {
    assert Walk(edges, stack + [name]);
  }

  lemma Appends(edges: Edges, order: seq<string>, name: string)
    requires Topological(edges, order) && name !in order && forall b | b in edges(name) :: b in order
    ensures Topological(edges, order + [name])
  {
    var all := order + [name];
    forall i | 0 <= i < |all| ensures all[i] !in all[..i] && forall b | b in edges(all[i]) :: b in all[..i] {
      if i < |order| {
        assert all[..i] == order[..i];
      } else {
        assert all[..i] == order;
      }
    }
  }

  /** One marks the modules being visited, two those that are placed. */
  ghost predicate Marks(state: map<string, int>, stack: seq<string>, ordered: seq<string>) {
    && (forall n :: n in state && state[n] == 1 <==> n in stack)
    && (forall n :: n in state && state[n] == 2 <==> n in ordered)
    && (forall n | n in state :: state[n] == 1 || state[n] == 2)
  }

  lemma MarkOf(state: map<string, int>, stack: seq<string>, ordered: seq<string>, n: string)
    requires Marks(state, stack, ordered)
    ensures n in state && state[n] == 1 <==> n in stack
    ensures n in state && state[n] == 2 <==> n in ordered
    ensures n in state ==> state[n] == 1 || state[n] == 2
  {
  }

  lemma MarksEnter(state: map<string, int>, stack: seq<string>, ordered: seq<string>, n: string)
    requires Marks(state, stack, ordered) && n !in state
    ensures Marks(state[n := 1], stack + [n], ordered) && n !in stack
  {
  }

  lemma MarksLeave(state: map<string, int>, stack: seq<string>, ordered: seq<string>, n: string)
    requires Marks(state, stack + [n], ordered) && n !in stack
    ensures Marks(state[n := 2], stack, ordered + [n]) && n !in ordered && n in state
  {
    var now := state[n := 2];
    assert n in stack + [n];
    forall m ensures m in now && now[m] == 1 <==> m in stack {
      assert m in stack + [n] <==> m in stack || m == n;
    }
    forall m ensures m in now && now[m] == 2 <==> m in ordered + [n] {
      assert m in ordered + [n] <==> m in ordered || m == n;
    }
  }

  class Ordering {
    const units: Units
    const entry: string
    /** One while a module is being visited, two once it is placed. */
    var state: map<string, int>
    var stack: seq<string>
    var ordered: seq<string>

    ghost predicate Valid()
      reads this
    {
      && Trail(UnitImports(units), entry, stack) && Topological(UnitImports(units), ordered)
      && AllReached(UnitImports(units), entry, ordered) && Marks(state, stack, ordered) && state.Keys <= units.Keys
    }

    constructor (us: Units, name: string)
      ensures Valid() && units == us && entry == name && stack == [] && ordered == [] && state == map[]
    {
      units, entry, state, stack, ordered := us, name, map[], [], [];
    }

    method Enter(name: string)
      requires Valid() && name in units && name !in state
      requires Next(UnitImports(units), entry, stack, name)
      modifies this`state, this`stack
      ensures Valid() && stack == old(stack) + [name] && name !in old(stack) && state.Keys == old(state).Keys + {name}
    {
      hide Topological, Reaches, AllReached, Trail, Marks, UnitImports;
      TrailReaches(UnitImports(units), entry, stack, name);
      MarksEnter(state, stack, ordered, name);
      state := state[name := 1];
      stack := stack + [name];
    }

    method Leave(name: string, ghost outer: seq<string>)
      requires Valid() && name in units && stack == outer + [name] && name !in outer && Trail(UnitImports(units), entry, outer)
      requires Reaches(UnitImports(units), entry, name)
      requires forall b | b in UnitImports(units)(name) :: b in ordered
      modifies this`state, this`stack, this`ordered
      ensures Valid() && stack == outer && ordered == old(ordered) + [name] && state.Keys == old(state).Keys
    {
      hide Topological, Reaches, Trail, Marks, UnitImports;
      MarksLeave(state, outer, ordered, name);
      Appends(UnitImports(units), ordered, name);
      stack := stack[..|stack| - 1];
      state := state[name := 2];
      ordered := ordered + [name];
    }

    /** Places a module after its imports, taken in the order of their names; fails on a cycle or an absent module. */
    method Visit(name: string) returns (ok: bool)
      requires Valid() && Next(UnitImports(units), entry, stack, name)
      modifies this
      ensures ok ==> Valid() && stack == old(stack) && old(ordered) <= ordered && name in ordered && old(state).Keys <= state.Keys
      ensures !ok ==> Cyclic(UnitImports(units), entry) || Absent(units, entry)
      decreases units.Keys - state.Keys
    {
      hide Topological, Reaches, AllReached, Cyclic, Trail, Marks, Next, UnitImports, Sort;
      MarkOf(state, stack, ordered, name);
      TrailReaches(UnitImports(units), entry, stack, name);
      if name in state && state[name] == 2 { return true; }
      if name in state && state[name] == 1 {
        OnTrail(UnitImports(units), entry, stack, name);
        return false;
      }
      if name !in units {
        IsAbsent(units, entry, name);
        return false;
      }
      ghost var outer, before, known := stack, ordered, state.Keys;
      Enter(name);
      var imports := Sort(units[name].imports);
      SortedImports(units, name);
      for i := 0 to |imports|
        invariant Valid() && stack == outer + [name] && before <= ordered && known + {name} <= state.Keys
        invariant forall k | 0 <= k < i :: imports[k] in ordered
      {
        NextImport(UnitImports(units), entry, outer, name, imports[i]);
        Shrinks(units.Keys, known, state.Keys, name);
        ok := Visit(imports[i]);
        if !ok { return false; }
      }
      Leave(name, outer);
      ok := true;
    }
  }

  /** The entry to start with, afterwards an import of the module visited last. */
  predicate Next(edges: Edges, entry: string, stack: seq<string>, name: string) {
    if stack == [] then name == entry else name in edges(stack[|stack| - 1])
  }

  lemma NextImport(edges: Edges, entry: string, outer: seq<string>, name: string, b: string)
    requires b in edges(name)
    ensures Next(edges, entry, outer + [name], b)
  {
  }

  lemma SortedImports(units: Units, name: string)
    requires name in units
    ensures forall b :: b in UnitImports(units)(name) <==> b in Sort(units[name].imports)
  {
    forall b ensures b in UnitImports(units)(name) <==> b in Sort(units[name].imports) {
      SameMembers(units[name].imports, b);
    }
  }

  lemma IsAbsent(units: Units, entry: string, name: string)
    requires Reaches(UnitImports(units), entry, name) && name !in units
    ensures Absent(units, entry)
  {
  }

  lemma OnTrail(edges: Edges, entry: string, stack: seq<string>, name: string)
    requires Trail(edges, entry, stack) && name in stack
    requires Next(edges, entry, stack, name)
    ensures Cyclic(edges, entry)
  {
    TrailCycle(edges, entry, stack, name);
  }

  lemma Shrinks(all: set<string>, was: set<string>, now: set<string>, name: string)
    requires name in all && name !in was && was + {name} <= now
    ensures all - now < all - was
  {
    assert name in all - was && name !in all - now;
  }

  /** Succeeds exactly when nothing the entry reaches is absent or on a cycle; then it orders just that. */
  method TopologicalOrder(units: Units, entry: string) returns (ok: bool, ordered: seq<string>)
    ensures ok <==> !Cyclic(UnitImports(units), entry) && !Absent(units, entry)
    ensures ok ==> Topological(UnitImports(units), ordered)
    ensures ok ==> forall n :: n in ordered <==> Reaches(UnitImports(units), entry, n)
  {
    hide Topological, Reaches, Cyclic, Trail, Marks;
    ReachesSelf(UnitImports(units), entry);
    if entry !in units {
      IsAbsent(units, entry, entry);
      return false, [];
    }
    var o := new Ordering(units, entry);
    ok := o.Visit(entry);
    ordered := o.ordered;
    if ok {
      OrderedIsAcyclic(UnitImports(units), ordered, entry);
      PlacedAreKnown(o.state, o.stack, ordered, units.Keys);
      OrderedIsComplete(units, entry, ordered);
    }
  }

  lemma PlacedAreKnown(state: map<string, int>, stack: seq<string>, ordered: seq<string>, known: set<string>)
    requires Marks(state, stack, ordered) && state.Keys <= known
    ensures forall n | n in ordered :: n in known
  {
    forall n | n in ordered ensures n in known {
      MarkOf(state, stack, ordered, n);
    }
  }

  lemma OrderedIsComplete(units: Units, entry: string, ordered: seq<string>)
    requires Topological(UnitImports(units), ordered) && AllReached(UnitImports(units), entry, ordered) && entry in ordered
    requires forall n | n in ordered :: n in units
    ensures !Absent(units, entry) && forall n :: n in ordered <==> Reaches(UnitImports(units), entry, n)
  {
    hide Topological, Reaches;
    forall n ensures n in ordered <==> Reaches(UnitImports(units), entry, n) {
      if Reaches(UnitImports(units), entry, n) {
        OrderHolds(UnitImports(units), ordered, entry, n);
      }
    }
  }

  // ---------------------------------------------------------------------------------------------
  // The whole graph

  /** Two import graphs that agree on a set closed under the imports of the first. */
  ghost predicate Agree(edges: Edges, others: Edges, s: set<string>) {
    && (forall a | a in s :: edges(a) == others(a))
    && (forall a, b | a in s && b in edges(a) :: b in s)
  }

  lemma {:induction false} SameWalks(edges: Edges, others: Edges, s: set<string>, p: seq<string>)
    requires Agree(edges, others, s) && |p| > 0 && p[0] in s
    ensures Walk(edges, p) <==> Walk(others, p)
    ensures Walk(edges, p) ==> p[|p| - 1] in s
    decreases |p|
  {
    if |p| > 1 {
      var q := p[..|p| - 1];
      SameWalks(edges, others, s, q);
      Shorter(edges, p);
      Shorter(others, p);
    }
  }

  lemma Shorter(edges: Edges, p: seq<string>)
    requires |p| > 1
    ensures Walk(edges, p) <==> Walk(edges, p[..|p| - 1]) && p[|p| - 1] in edges(p[|p| - 2])
  {
    var q := p[..|p| - 1];
    if Walk(edges, q) && p[|p| - 1] in edges(p[|p| - 2]) {
      forall i | 0 <= i < |p| - 1 ensures p[i + 1] in edges(p[i]) {
        assert i < |q| - 1 ==> q[i + 1] in edges(q[i]);
      }
    }
    if Walk(edges, p) {
      forall i | 0 <= i < |q| - 1 ensures q[i + 1] in edges(q[i]) {
        assert p[i + 1] in edges(p[i]);
      }
      assert p[(|p| - 2) + 1] in edges(p[|p| - 2]);
    }
  }

  lemma SameReach(edges: Edges, others: Edges, s: set<string>, a: string, b: string)
    requires Agree(edges, others, s) && a in s
    ensures Reaches(edges, a, b) <==> Reaches(others, a, b)
    ensures Reaches(edges, a, b) ==> b in s
  {
    hide Agree;
    if Reaches(edges, a, b) {
      var p :| Walk(edges, p) && p[0] == a && p[|p| - 1] == b;
      SameWalks(edges, others, s, p);
    }
    if Reaches(others, a, b) {
      var p :| Walk(others, p) && p[0] == a && p[|p| - 1] == b;
      SameWalks(edges, others, s, p);
    }
  }

  lemma SameCycles(edges: Edges, others: Edges, s: set<string>, a: string)
    requires Agree(edges, others, s) && a in s
    ensures Cyclic(edges, a) <==> Cyclic(others, a)
  {
    hide Agree, Reaches;
    if Cyclic(edges, a) {
      var p :| Cycle(edges, p) && Reaches(edges, a, p[0]);
      SameReach(edges, others, s, a, p[0]);
      SameWalks(edges, others, s, p);
    }
    if Cyclic(others, a) {
      var p :| Cycle(others, p) && Reaches(others, a, p[0]);
      SameReach(edges, others, s, a, p[0]);
      SameWalks(edges, others, s, p);
    }
  }

  /** What loading leaves behind: exactly the modules the entry reaches, each as resolved and parsed once. */
  ghost predicate Loaded(graph: Resolver, entry: string, units: Units, parsed: seq<string>) {
    && (forall n :: n in units <==> Reaches(Imports(graph), entry, n))
    && (forall n | n in units :: graph(n) == Just(units[n]))
    && (forall i, j | 0 <= i < j < |parsed| :: parsed[i] != parsed[j])
    && (forall n :: n in parsed <==> n in units && n != entry)
  }

  lemma ClosureIsReach(graph: Resolver, entry: string, universe: set<string>, units: Units, parsed: seq<string>)
    requires Sound(graph, entry, universe, units, parsed) && Closed(graph, units.Keys, units.Keys)
    ensures Loaded(graph, entry, units, parsed) && !Missing(graph, entry)
    ensures Agree(Imports(graph), UnitImports(units), units.Keys)
  {
    forall n ensures n in units <==> Reaches(Imports(graph), entry, n) {
      if Reaches(Imports(graph), entry, n) {
        var p :| Walk(Imports(graph), p) && p[0] == entry && p[|p| - 1] == n;
        ClosedHolds(Imports(graph), units.Keys, p);
      }
    }
  }

  /** The closure of the imports, cycles included; fails exactly when a reached module does not resolve. */
  method Close(resolve: Resolver, entry: string, unit: Unit, ghost universe: set<string>)
    returns (ok: bool, units: Units, parsed: seq<string>)
    requires Finite(Graph(resolve, entry, unit), entry, universe)
    ensures ok <==> !Missing(Graph(resolve, entry, unit), entry)
    ensures ok ==> Loaded(Graph(resolve, entry, unit), entry, units, parsed)
    ensures ok ==> entry in units && Agree(Imports(Graph(resolve, entry, unit)), UnitImports(units), units.Keys)
  {
    hide Sound, Closed, Missing, Loaded, Agree, Finite;
    var loader := new Loader(resolve, entry, unit, universe);
    ok := loader.Expand(entry);
    units, parsed := loader.units, loader.parsed;
    if ok {
      assert loader.expanded == units.Keys;
      ClosureIsReach(loader.graph, entry, loader.universe, units, parsed);
    }
  }

  /**
    * Loading succeeds exactly when every module the entry reaches resolves and none lies on a
    * cycle; it then orders exactly those modules, each after everything it imports.
    */
  method LoadModuleGraph(resolve: Resolver, entry: string, unit: Unit, ghost universe: set<string>)
    returns (ok: bool, units: Units, parsed: seq<string>, ordered: seq<string>)
    requires Finite(Graph(resolve, entry, unit), entry, universe)
    ensures
      var graph := Graph(resolve, entry, unit);
      && (ok <==> !Missing(graph, entry) && !Cyclic(Imports(graph), entry))
      && (ok ==> Loaded(graph, entry, units, parsed) && Topological(UnitImports(units), ordered))
      && (ok ==> forall n :: n in ordered <==> n in units)
  {
    hide Missing, Loaded, Agree, Finite, Cyclic, Reaches, Topological, Absent;
    ok, units, parsed := Close(resolve, entry, unit, universe);
    ordered := [];
    if !ok { return; }
    ok, ordered := TopologicalOrder(units, entry);
    GraphsAgree(Graph(resolve, entry, unit), entry, units, parsed);
  }

  lemma GraphsAgree(graph: Resolver, entry: string, units: Units, parsed: seq<string>)
    requires Loaded(graph, entry, units, parsed) && entry in units && Agree(Imports(graph), UnitImports(units), units.Keys)
    ensures Cyclic(Imports(graph), entry) <==> Cyclic(UnitImports(units), entry)
    ensures !Absent(units, entry)
    ensures forall n :: n in units <==> Reaches(UnitImports(units), entry, n)
  {
    hide Agree, Cyclic, Reaches;
    SameCycles(Imports(graph), UnitImports(units), units.Keys, entry);
    forall n ensures n in units <==> Reaches(UnitImports(units), entry, n) {
      SameReach(Imports(graph), UnitImports(units), units.Keys, entry, n);
    }
  }

  // ---------------------------------------------------------------------------------------------
  // Symbols

  predicate SymbolsApart(units: Units, ordered: seq<string>)
    requires forall n | n in ordered :: n in units
  {
    forall i, j | 0 <= i < j < |ordered| :: units[ordered[i]].symbols !! units[ordered[j]].symbols
  }

  /** The owners found so far are the modules that define each symbol. */
  ghost predicate Owned(units: Units, ordered: seq<string>, n: nat, owners: map<string, string>)
    requires n <= |ordered| && forall m | m in ordered :: m in units
  {
    forall s :: s in owners <==> exists i | 0 <= i < n :: s in units[ordered[i]].symbols
  }

  /** Records the symbols of one module; fails when one has an owner already. */
  method Claim(symbols: set<string>, name: string, owners: map<string, string>) returns (ok: bool, all: map<string, string>)
    ensures ok <==> symbols !! owners.Keys
    ensures ok ==> all.Keys == owners.Keys + symbols
  {
    all := owners;
    var rest := symbols;
    while rest != {}
      invariant rest <= symbols && all.Keys == owners.Keys + (symbols - rest) && (symbols - rest) !! owners.Keys
      decreases rest
    {
      var s :| s in rest;
      if s in all {
        assert s in owners.Keys;
        return false, owners;
      }
      all := all[s := name];
      rest := rest - {s};
    }
    ok := true;
  }

  /** Succeeds exactly when no symbol belongs to two modules. */
  method ValidateGraphSymbols(units: Units, ordered: seq<string>) returns (ok: bool)
    requires forall n | n in ordered :: n in units
    ensures ok <==> SymbolsApart(units, ordered)
  {
    hide Owned, SymbolsApart;
    var owners: map<string, string> := map[];
    NothingOwned(units, ordered);
    for i := 0 to |ordered|
      invariant Owned(units, ordered, i, owners)
      invariant ApartUpTo(units, ordered, i)
    {
      var all;
      OneMoreOwner(units, ordered, i, owners);
      ok, all := Claim(units[ordered[i]].symbols, ordered[i], owners);
      if !ok { return false; }
      MoreOwned(units, ordered, i, owners, all);
      owners := all;
    }
    AllApart(units, ordered);
    ok := true;
  }

  predicate ApartUpTo(units: Units, ordered: seq<string>, n: nat)
    requires n <= |ordered| && forall m | m in ordered :: m in units
  {
    forall i, j | 0 <= i < j < n :: units[ordered[i]].symbols !! units[ordered[j]].symbols
  }

  lemma NothingOwned(units: Units, ordered: seq<string>)
    requires forall m | m in ordered :: m in units
    ensures Owned(units, ordered, 0, map[])
  {
  }

  lemma OneMoreOwner(units: Units, ordered: seq<string>, i: nat, owners: map<string, string>)
    requires i < |ordered| && (forall m | m in ordered :: m in units)
    requires Owned(units, ordered, i, owners) && ApartUpTo(units, ordered, i)
    ensures units[ordered[i]].symbols !! owners.Keys <==> ApartUpTo(units, ordered, i + 1)
    ensures !ApartUpTo(units, ordered, i + 1) ==> !SymbolsApart(units, ordered)
  {
    var mine := units[ordered[i]].symbols;
    if mine !! owners.Keys {
      forall k | 0 <= k < i ensures units[ordered[k]].symbols !! mine {
        forall s | s in units[ordered[k]].symbols ensures s !in mine {
          assert s in owners.Keys;
        }
      }
    } else {
      var s :| s in mine && s in owners.Keys;
      var k :| 0 <= k < i && s in units[ordered[k]].symbols;
      assert !(units[ordered[k]].symbols !! units[ordered[i]].symbols);
    }
  }

  lemma MoreOwned(units: Units, ordered: seq<string>, i: nat, owners: map<string, string>, all: map<string, string>)
    requires i < |ordered| && (forall m | m in ordered :: m in units) && Owned(units, ordered, i, owners)
    requires all.Keys == owners.Keys + units[ordered[i]].symbols
    ensures Owned(units, ordered, i + 1, all)
  {
    forall s ensures s in all <==> exists k | 0 <= k < i + 1 :: s in units[ordered[k]].symbols {
      assert s in all <==> s in owners || s in units[ordered[i]].symbols;
    }
  }

  lemma AllApart(units: Units, ordered: seq<string>)
    requires (forall m | m in ordered :: m in units) && ApartUpTo(units, ordered, |ordered|)
    ensures SymbolsApart(units, ordered)
  {
  }
}
