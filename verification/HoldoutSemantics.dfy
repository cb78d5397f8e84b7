/** What a holdout predicate does when it runs: a small Python over the checker's trees, with the
    facts mapping, the arithmetic library and the host kept apart so that a reader can see which of
    them a result comes from. `fuel` bounds the depth of the run; a run that needs more is Spent. */
module HoldoutSemantics {
  import opened Options
  import opened Holdout

  datatype Value =
    | DataV(data: Data)
    | TupleV(items: seq<Value>)
    | ModuleV(name: string)
    | MemberV(of: Value, attr: string)      // a module's function, or a value's bound method
    | BuiltinV(name: string)
    | FunctionV(def: Node)
    | FactsV                                 // the mapping the window hands to resolve
    | HostV(id: nat)                         // an object of the host's

  /** Which names of an interpreter are arithmetic: members of modules and values, operators and
      builtins; `others` are the builtins that are not. */
  datatype Names = Names(members: set<string>, operators: set<string>, builtins: set<string>, others: set<string>)

  /** The world a run meets. `pure` is arithmetic: what the listed names do with plain values. `whole`
      is what they do with the facts mapping. `host` is everything else: members, operators and
      builtins off the list, other modules, objects of the host. It can see the facts, and what it
      returns can be anything. */
  datatype World = World(
    names: Names,
    constant: (string, string) -> Option<Data>,
    pure: (string, seq<Value>) -> Option<Data>,
    whole: (string, seq<Value>, map<string, Value>) -> Option<Data>,
    host: (string, seq<Value>, map<string, Value>) -> Option<Value>)

  /** What a node states by name is on the list. */
  predicate OnList(n: Node, names: Names) {
    match n.kind
    case Name(_, id) => id in names.others ==> id in names.builtins
    case Attribute(attr, _) => attr in names.members
    case Operator(op) => op in names.operators
    case ImportFrom(_, _, imported) => forall x <- imported :: x.0 in names.members
    case _ => true
  }

  /** Such a list for CPython. It leaves out what shows an object's address or hash order, what calls
      back, and what goes from a value to its frame, class or module. */
  const ARITHMETIC := Names(
    {"ceil", "e", "exp", "fabs", "floor", "fmean", "fsum", "gcd", "get", "hypot", "inf", "isfinite", "log", "mean",
     "median", "pi", "pstdev", "pvariance", "sqrt", "stdev", "trunc", "variance"},
    {"+", "-", "*", "/", "//", "**", "<", "<=", ">", ">=", "==", "!=", "not", "in", "not in"},
    {"abs", "all", "any", "bool", "divmod", "enumerate", "float", "int", "len", "list", "max", "min", "pow", "range",
     "reversed", "round", "sorted", "sum", "tuple", "zip"},
    {"aiter", "anext", "ascii", "bin", "bytearray", "bytes", "callable", "chr", "classmethod", "complex", "copyright",
     "credits", "dict", "dir", "exit", "filter", "format", "frozenset", "hasattr", "hash", "help", "hex", "id",
     "isinstance", "issubclass", "iter", "license", "map", "memoryview", "next", "object", "oct", "ord", "print",
     "property", "quit", "repr", "set", "slice", "staticmethod", "str", "super", "type"})

  /** What a caller of the checker can check beside it: every attribute, imported member and operator
      is arithmetic, and no name is that of a builtin which is not. */
  predicate Arithmetic(m: Node, names: Names) {
    forall n <- Nodes(m) :: OnList(n, names)
  }

  /** `frame` holds the names that are local here; at module level it is empty. */
  datatype State = State(
    globals: map<string, Value>,
    frame: set<string>,
    locals: map<string, Value>,
    facts: map<string, Value>)

  datatype Outcome = Values(vs: seq<Value>) | Next | Returned(v: Value) | Raised | Spent

  // ----- Names -----

  function ImportedAs(x: (string, Option<string>)): string {
    if x.1.Some? then x.1.value else x.0
  }

  /** The names a node binds where it stands. */
  function Binds(n: Node): set<string> {
    match n.kind
    case Assign => if |n.kids| > 0 && n.kids[0].kind.Name? then {n.kids[0].kind.id} else {}
    case For => if |n.kids| > 0 && n.kids[0].kind.Name? then {n.kids[0].kind.id} else {}
    case Def(name, _) => {name}
    case Import(names) => set x <- names :: ImportedAs(x)
    case ImportFrom(_, _, names) => set x <- names :: ImportedAs(x)
    case _ => {}
  }

  function Declared(n: Node): set<string> {
    match n.kind
    case Global(names) => set x <- names :: x
    case _ => {}
  }

  /** The nodes of a body that belong to its own scope. */
  function Scope(kids: seq<Node>): set<Node> {
    if kids == [] then {}
    else {kids[0]} + (if kids[0].kind.Def? then {} else Scope(kids[0].kids)) + Scope(kids[1..])
  }

  /** The names local to a function: its parameters and what its body binds, less what it declares
      global. */
  function Frame(def: Node): set<string> {
    var all := Scope(def.kids);
    if def.kind.Def?
    then (set x <- def.kind.params :: x) + (set n <- all, x <- Binds(n) :: x) - (set n <- all, x <- Declared(n) :: x)
    else {}
  }

  function Lookup(id: string, s: State, names: Names): Outcome {
    if id in s.frame then if id in s.locals then Values([s.locals[id]]) else Raised
    else if id in s.globals then Values([s.globals[id]])
    else if id in names.builtins + names.others then Values([BuiltinV(id)])
    else Raised
  }

  function Bind(id: string, v: Value, s: State): State {
    if id in s.frame then s.(locals := s.locals[id := v]) else s.(globals := s.globals[id := v])
  }

  // ----- Values -----

  /** The value holds the facts mapping itself. */
  predicate Touches(v: Value) {
    match v
    case FactsV => true
    case TupleV(items) => exists x <- items :: Touches(x)
    case MemberV(of, _) => Touches(of)
    case _ => false
  }

  /** The value is of the host: another module, or a name off the list. */
  predicate Foreign(v: Value, names: Names) {
    match v
    case ModuleV(name) => name !in PURE_MODULES
    case BuiltinV(name) => name !in names.builtins
    case MemberV(of, attr) => attr !in names.members || Foreign(of, names)
    case TupleV(items) => exists x <- items :: Foreign(x, names)
    case HostV(_) => true
    case _ => false
  }

  function Known(d: Option<Data>): Outcome {
    if d.Some? then Values([DataV(d.value)]) else Raised
  }

  function Hosted(v: Option<Value>): Outcome {
    if v.Some? then Values([v.value]) else Raised
  }

  ghost function Compute(name: string, vs: seq<Value>, s: State, w: World): Outcome {
    if exists v <- vs :: Foreign(v, w.names) then Hosted(w.host(name, vs, s.facts))
    else if exists v <- vs :: Touches(v) then Known(w.whole(name, vs, s.facts))
    else Known(w.pure(name, vs))
  }

  ghost function Operate(op: string, vs: seq<Value>, s: State, w: World): Outcome {
    if op in w.names.operators then Compute(op, vs, s, w) else Hosted(w.host(op, vs, s.facts))
  }

  function Fact(k: Value, s: State): Outcome {
    if k.DataV? && k.data.Str? && k.data.s in s.facts then Values([s.facts[k.data.s]]) else Raised
  }

  ghost function Index(v: Value, k: Value, s: State, w: World): Outcome {
    match v
    case FactsV => Fact(k, s)
    case TupleV(items) =>
      if k.DataV? && k.data.Int? && 0 <= k.data.i < |items| then Values([items[k.data.i]]) else Raised
    case _ => Compute("[]", [v, k], s, w)
  }

  ghost function Member(v: Value, attr: string, w: World): Outcome {
    if v.ModuleV? && !Foreign(MemberV(v, attr), w.names) && w.constant(v.name, attr).Some?
    then Known(w.constant(v.name, attr))
    else Values([MemberV(v, attr)])
  }

  predicate IsTrue(v: Value, s: State) {
    match v
    case DataV(Null) => false
    case DataV(Bool(b)) => b
    case DataV(Int(i)) => i != 0
    case DataV(Real(r)) => r != 0.0
    case DataV(Str(x)) => x != ""
    case DataV(List(items)) => items != []
    case TupleV(items) => items != []
    case FactsV => s.facts != map[]
    case _ => true
  }

  function Lifted(ds: seq<Data>): seq<Value> {
    if ds == [] then [] else [DataV(ds[0])] + Lifted(ds[1..])
  }

  ghost function Iterated(v: Value, s: State, w: World): Outcome {
    match v
    case TupleV(items) => Values(items)
    case DataV(List(items)) => Values(Lifted(items))
    case _ =>
      match Compute("iter", [v], s, w)
      case Values(vs) =>
        if |vs| == 1 && vs[0].DataV? && vs[0].data.List? then Values(Lifted(vs[0].data.items)) else Raised
      case o => o
  }

  // ----- Running -----

  function Zip(ids: seq<string>, vs: seq<Value>): map<string, Value>
    requires |ids| == |vs|
  {
    if ids == [] then map[] else Zip(ids[..|ids| - 1], vs[..|vs| - 1])[ids[|ids| - 1] := vs[|vs| - 1]]
  }

  ghost function ImportAll(names: seq<(string, Option<string>)>, s: State): State {
    if names == [] then s
    else ImportAll(names[1..], Bind(ImportedAs(names[0]), ModuleV(names[0].0), s))
  }

  ghost function ImportMembers(from: string, names: seq<(string, Option<string>)>, s: State, w: World): State {
    if names == [] then s
    else
      var o := Member(ModuleV(from), names[0].0, w);
      var v := if o.Values? && |o.vs| == 1 then o.vs[0] else DataV(Null);
      ImportMembers(from, names[1..], Bind(ImportedAs(names[0]), v, s), w)
  }

  /** The kinds that evaluate all their children, in order, and then combine the values. */
  ghost function Finish(k: Kind, vs: seq<Value>, s: State, w: World, fuel: nat): (Outcome, State)
    decreases fuel, 1
  {
    match k
    case Subscript => (if |vs| == 2 then Index(vs[0], vs[1], s, w) else Raised, s)
    case Attribute(attr, _) => (if |vs| == 1 then Member(vs[0], attr, w) else Raised, s)
    case Call => if vs == [] then (Raised, s) else Apply(vs[0], vs[1..], s, w, fuel)
    case Operator(op) => (Operate(op, vs, s, w), s)
    case ListDisplay => (Values([TupleV(vs)]), s)
    case ExprStmt => (Next, s)
    case Return => (Returned(if vs == [] then DataV(Null) else vs[0]), s)
    case _ => (Raised, s)
  }

  /** A call. get on the facts reads one key; every other method of theirs meets the whole mapping. */
  ghost function Apply(f: Value, args: seq<Value>, s: State, w: World, fuel: nat): (Outcome, State)
    decreases fuel, 0
  {
    match f
    case FunctionV(def) =>
      if def.kind.Def? && |def.kind.params| == |args| && fuel > 0 then
        var (o, t) := RunBlock(def.kids, s.(frame := Frame(def), locals := Zip(def.kind.params, args)), w, fuel - 1);
        (AsCall(o), t.(frame := s.frame, locals := s.locals))
      else (if fuel > 0 then Raised else Spent, s)
    case MemberV(FactsV, attr) =>
      if attr == "get" then
        (if |args| == 0 || |args| > 2 then Raised
         else if Fact(args[0], s).Values? then Fact(args[0], s)
         else Values([if |args| == 2 then args[1] else DataV(Null)]), s)
      else (Compute("call", [f] + args, s, w), s)
    case _ => (Compute("call", [f] + args, s, w), s)
  }

  /** A function that ends without a return returns nothing. */
  function AsCall(o: Outcome): Outcome {
    match o
    case Returned(v) => Values([v])
    case Next => Values([DataV(Null)])
    case _ => o
  }

  ghost function Run(n: Node, s: State, w: World, fuel: nat): (Outcome, State)
    decreases fuel, 0
  {
    if fuel == 0 then (Spent, s)
    else
      match n.kind
      case Const(d) => (Values([DataV(d)]), s)
      case Name(_, id) => (Lookup(id, s, w.names), s)
      case Conditional => RunBranch(n.kids, s, w, fuel - 1)
      case If => RunBranch(n.kids, s, w, fuel - 1)
      case Assign => RunAssign(n.kids, s, w, fuel - 1)
      case For => RunFor(n.kids, s, w, fuel - 1)
      case While => RunWhile(n, s, w, fuel - 1)
      case Def(name, _) => (Next, Bind(name, FunctionV(n), s))
      case Import(names) => (Next, ImportAll(names, s))
      case ImportFrom(from, _, names) => (Next, ImportMembers(from, names, s, w))
      case Global(_) => (Next, s)
      case Block => RunBlock(n.kids, s, w, fuel - 1)
      case Module => RunBlock(n.kids, s, w, fuel - 1)
      case _ =>
        var (o, t) := RunAll(n.kids, s, w, fuel - 1);
        if o.Values? then Finish(n.kind, o.vs, t, w, fuel - 1) else (o, t)
  }

  ghost function RunAll(ns: seq<Node>, s: State, w: World, fuel: nat): (Outcome, State)
    decreases fuel, |ns|
  {
    if ns == [] then (Values([]), s)
    else
      var (o, t) := Run(ns[0], s, w, fuel);
      if o.Values? then
        var (p, u) := RunAll(ns[1..], t, w, fuel);
        (if p.Values? then Values(o.vs + p.vs) else p, u)
      else (if o.Next? then Raised else o, t)
  }

  ghost function RunBlock(ns: seq<Node>, s: State, w: World, fuel: nat): (Outcome, State)
    decreases fuel, |ns|
  {
    if ns == [] then (Next, s)
    else
      var (o, t) := Run(ns[0], s, w, fuel);
      if o.Next? then RunBlock(ns[1..], t, w, fuel) else (o, t)
  }

  /** Test, then one of two. */
  ghost function RunBranch(kids: seq<Node>, s: State, w: World, fuel: nat): (Outcome, State)
    decreases fuel, |kids|
  {
    if |kids| != 3 then (Raised, s)
    else
      var (o, t) := RunAll(kids[..1], s, w, fuel);
      if !o.Values? then (o, t)
      else if |o.vs| != 1 then (Raised, t)
      else Run(if IsTrue(o.vs[0], t) then kids[1] else kids[2], t, w, fuel)
  }

  /** Value first, then the target's parts; a target that is not a name must be an item of the facts,
      since tuples and library data cannot be written. */
  ghost function RunAssign(kids: seq<Node>, s: State, w: World, fuel: nat): (Outcome, State)
    decreases fuel, |kids| + 1
  {
    if |kids| != 2 then (Raised, s)
    else
      var (o, t) := RunAll(kids[1..], s, w, fuel);
      if !o.Values? then (o, t)
      else if |o.vs| != 1 then (Raised, t)
      else if kids[0].kind.Name? then (Next, Bind(kids[0].kind.id, o.vs[0], t))
      else if kids[0].kind.Subscript? && fuel > 0 then
        var (p, u) := RunAll(kids[0].kids, t, w, fuel - 1);
        if !p.Values? then (p, u)
        else if |p.vs| == 2 && p.vs[0].FactsV? && p.vs[1].DataV? && p.vs[1].data.Str?
        then (Next, u.(facts := u.facts[p.vs[1].data.s := o.vs[0]]))
        else (Raised, u)
      else (if fuel > 0 then Raised else Spent, t)
  }

  ghost function RunFor(kids: seq<Node>, s: State, w: World, fuel: nat): (Outcome, State)
    decreases fuel, |kids| + 1
  {
    if |kids| != 3 || !kids[0].kind.Name? then (Raised, s)
    else
      var (o, t) := RunAll(kids[1..2], s, w, fuel);
      if !o.Values? then (o, t)
      else if |o.vs| != 1 then (Raised, t)
      else
        var p := Iterated(o.vs[0], t, w);
        if !p.Values? || fuel == 0 then (if p.Values? then Spent else p, t)
        else RunLoop(kids[0].kind.id, p.vs, kids[2], t, w, fuel - 1)
  }

  ghost function RunLoop(id: string, items: seq<Value>, body: Node, s: State, w: World, fuel: nat): (Outcome, State)
    decreases fuel, |items|
  {
    if items == [] then (Next, s)
    else
      var (o, t) := Run(body, Bind(id, items[0], s), w, fuel);
      if o.Next? then RunLoop(id, items[1..], body, t, w, fuel) else (o, t)
  }

  ghost function RunWhile(n: Node, s: State, w: World, fuel: nat): (Outcome, State)
    decreases fuel, |n.kids| + 1
  {
    if |n.kids| != 2 then (Raised, s)
    else
      var (o, t) := RunAll(n.kids[..1], s, w, fuel);
      if !o.Values? then (o, t)
      else if |o.vs| != 1 then (Raised, t)
      else if !IsTrue(o.vs[0], t) then (Next, t)
      else
        var (p, u) := Run(n.kids[1], t, w, fuel);
        if p.Next? then Run(n, u, w, fuel) else (p, u)
  }

  function Window(facts: map<string, Data>): map<string, Value> {
    map k <- facts :: DataV(facts[k])
  }

  function Start(facts: map<string, Data>): State {
    State(map[], {}, map[], Window(facts))
  }

  ghost function Resolved(m: Node, s: State, w: World, fuel: nat): Outcome {
    var (o, t) := Run(m, s, w, fuel);
    if !o.Next? then o
    else if "resolve" !in t.globals then Raised
    else Apply(t.globals["resolve"], [FactsV], t, w, fuel).0
  }

  /** A window's verdict: run the module, then call what it left bound to resolve on the facts. */
  ghost function Resolve(m: Node, facts: map<string, Data>, w: World, fuel: nat): Outcome {
    Resolved(m, Start(facts), w, fuel)
  }
}
