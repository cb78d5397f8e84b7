/** Two runs of clean code, one beside the other.

    Both start from states that differ in the facts only, and not on the keys read; their worlds
    differ in the host only. Whatever the code does, the two runs do the same and end in two such
    states.

    The invariant is about values: none in reach holds the host, and the facts mapping itself is
    held under the parameter's own name alone. Clean code mentions that name only to read a key that
    both states agree on, so what it computes with is equal on both sides; and it binds `resolve` only
    to the definition that was checked. The lemmas follow the evaluator, one for each of its
    functions, by the same measure that makes it terminate. */
module HoldoutRuns {
  import opened Options
  import opened Holdout
  import opened HoldoutSemantics
  import opened HoldoutIdentity

  // ----- The relation between two runs -----

  /** The value holds neither the facts mapping nor the host, and every function in it is clean. */
  ghost predicate Plain(v: Value, c: Rules) {
    match v
    case DataV(_) => true
    case TupleV(items) => forall x <- items :: Plain(x, c)
    case ModuleV(name) => name in PURE_MODULES
    case MemberV(of, attr) => Plain(of, c) && attr in c.names.members
    case BuiltinV(name) => name in c.names.builtins
    case FunctionV(def) => CleanAll(def.kids, c)
    case FactsV => false
    case HostV(_) => false
  }

  ghost predicate AllPlain(vs: seq<Value>, c: Rules) {
    forall v <- vs :: Plain(v, c)
  }

  /** Only the parameter's own name may hold the facts. */
  ghost predicate Scoped(e: map<string, Value>, c: Rules) {
    forall x <- e :: Plain(e[x], c) || (x == c.facts && e[x] == FactsV)
  }

  ghost predicate Agree(f: map<string, Value>, g: map<string, Value>, keys: set<string>) {
    forall k <- keys :: (k in f <==> k in g) && (k in f ==> f[k] == g[k])
  }

  ghost predicate Good(s: State, c: Rules) {
    && Scoped(s.globals, c) && Scoped(s.locals, c)
    && (forall k <- c.keys | k in s.facts :: Plain(s.facts[k], c))
    && ("resolve" in s.globals ==> s.globals["resolve"] == FunctionV(c.def))
    && c.def.kind.Def? && CleanAll(c.def.kids, c)
  }

  /** Two states that differ in the facts only, and not on the keys read. */
  ghost predicate Alike(s: State, t: State, c: Rules) {
    && s.globals == t.globals && s.frame == t.frame && s.locals == t.locals
    && Agree(s.facts, t.facts, c.keys) && Good(s, c)
  }

  /** Two worlds of one interpreter that differ in the host only. */
  ghost predicate Worlds(w: World, h: World, c: Rules) {
    h == w.(host := h.host) && w.names == c.names
  }

  ghost predicate Fine(o: Outcome, c: Rules) {
    match o
    case Values(vs) => AllPlain(vs, c)
    case Returned(v) => Plain(v, c)
    case _ => true
  }

  ghost predicate Same(a: (Outcome, State), b: (Outcome, State), c: Rules) {
    a.0 == b.0 && Fine(a.0, c) && Alike(a.1, b.1, c)
  }

  // ----- Values -----

  lemma {:induction false} PlainIsClosed(v: Value, c: Rules)
    requires Plain(v, c)
    ensures !Touches(v) && !Foreign(v, c.names)
  {
    match v
    case TupleV(items) =>
      forall x <- items
        ensures !Touches(x) && !Foreign(x, c.names)
      {
        PlainIsClosed(x, c);
      }
    case MemberV(of, _) => PlainIsClosed(of, c);
    case _ =>
  }

  /** Arithmetic on plain values meets neither the facts nor the host. */
  lemma PlainComputes(name: string, vs: seq<Value>, s: State, t: State, w: World, h: World, c: Rules)
    requires AllPlain(vs, c) && Worlds(w, h, c)
    ensures Compute(name, vs, s, w) == Compute(name, vs, t, h)
    ensures Fine(Compute(name, vs, s, w), c)
    ensures Compute(name, vs, s, w).Values? ==> |Compute(name, vs, s, w).vs| == 1
  {
    forall v <- vs
      ensures !Touches(v) && !Foreign(v, c.names)
    {
      PlainIsClosed(v, c);
    }
  }

  lemma {:induction false} LiftedIsPlain(ds: seq<Data>, c: Rules)
    ensures AllPlain(Lifted(ds), c)
  {
    if ds != [] {
      LiftedIsPlain(ds[1..], c);
    }
  }

  lemma PlainIterates(v: Value, s: State, t: State, w: World, h: World, c: Rules)
    requires Plain(v, c) && Worlds(w, h, c)
    ensures Iterated(v, s, w) == Iterated(v, t, h) && Fine(Iterated(v, s, w), c)
  {
    PlainComputes("iter", [v], s, t, w, h, c);
    var o := Compute("iter", [v], s, w);
    if v.DataV? && v.data.List? {
      LiftedIsPlain(v.data.items, c);
    } else if o.Values? && |o.vs| == 1 && o.vs[0].DataV? && o.vs[0].data.List? {
      LiftedIsPlain(o.vs[0].data.items, c);
    }
  }

  lemma PlainIndexes(v: Value, k: Value, s: State, t: State, w: World, h: World, c: Rules)
    requires Plain(v, c) && Plain(k, c) && Worlds(w, h, c)
    ensures Index(v, k, s, w) == Index(v, k, t, h) && Fine(Index(v, k, s, w), c)
  {
    PlainComputes("[]", [v, k], s, t, w, h, c);
  }

  ghost predicate IsKeyValue(k: Value, c: Rules) {
    k.DataV? && k.data.Str? && k.data.s in c.keys
  }

  // ----- Binding -----

  lemma BindAlike(id: string, v: Value, s: State, t: State, c: Rules)
    requires Alike(s, t, c) && Plain(v, c) && (id == "resolve" ==> v == FunctionV(c.def))
    ensures Alike(Bind(id, v, s), Bind(id, v, t), c)
  {
  }

  lemma LookupAlike(id: string, s: State, t: State, c: Rules)
    requires Alike(s, t, c) && (id in c.names.others ==> id in c.names.builtins)
    ensures Lookup(id, s, c.names) == Lookup(id, t, c.names)
    ensures id != c.facts ==> Fine(Lookup(id, s, c.names), c)
    ensures
      var o := Lookup(id, s, c.names);
      o.Values? ==> |o.vs| == 1 && (Plain(o.vs[0], c) || o.vs[0] == FactsV)
  {
  }

  lemma {:induction false} ImportAllAlike(names: seq<(string, Option<string>)>, s: State, t: State, c: Rules)
    requires Alike(s, t, c)
    requires forall x <- names :: x.0 in PURE_MODULES && ImportedAs(x) != "resolve"
    ensures Alike(ImportAll(names, s), ImportAll(names, t), c)
  {
    if names != [] {
      var x := names[0];
      assert x in names;
      BindAlike(ImportedAs(x), ModuleV(x.0), s, t, c);
      ImportAllAlike(names[1..], Bind(ImportedAs(x), ModuleV(x.0), s), Bind(ImportedAs(x), ModuleV(x.0), t), c);
    }
  }

  lemma {:induction false} ImportMembersAlike(from: string, names: seq<(string, Option<string>)>,
                                              s: State, t: State, w: World, h: World, c: Rules)
    requires Alike(s, t, c) && from in PURE_MODULES && Worlds(w, h, c)
    requires forall x <- names :: x.0 in c.names.members && ImportedAs(x) != "resolve"
    ensures Alike(ImportMembers(from, names, s, w), ImportMembers(from, names, t, h), c)
  {
    if names != [] {
      var x := names[0];
      assert x in names;
      var o := Member(ModuleV(from), x.0, w);
      BindAlike(ImportedAs(x), o.vs[0], s, t, c);
      ImportMembersAlike(from, names[1..], Bind(ImportedAs(x), o.vs[0], s), Bind(ImportedAs(x), o.vs[0], t), w, h, c);
    }
  }

  lemma {:induction false} ZipScoped(ids: seq<string>, vs: seq<Value>, c: Rules)
    requires |ids| == |vs| && AllPlain(vs, c)
    ensures Scoped(Zip(ids, vs), c)
  {
    if ids != [] {
      ZipScoped(ids[..|ids| - 1], vs[..|vs| - 1], c);
    }
  }

  // ----- Runs -----

  /** The head of a subscript or of a call may be the facts or their get, if a read key follows. */
  ghost predicate Usable(k: Kind, vs: seq<Value>, c: Rules) {
    vs != [] ==>
      && AllPlain(vs[1..], c)
      && (|| Plain(vs[0], c)
          || (k.Subscript? && vs[0] == FactsV && |vs| > 1 && IsKeyValue(vs[1], c))
          || (k.Call? && vs[0] == MemberV(FactsV, "get") && |vs| > 1 && IsKeyValue(vs[1], c)))
  }

  lemma {:induction false} FinishSame(k: Kind, vs: seq<Value>, s: State, t: State,
                                      w: World, h: World, c: Rules, fuel: nat)
    requires Alike(s, t, c) && Worlds(w, h, c) && Usable(k, vs, c)
    requires k.Attribute? ==> k.attr in c.names.members
    requires k.Operator? ==> k.op in c.names.operators
    ensures Same(Finish(k, vs, s, w, fuel), Finish(k, vs, t, h, fuel), c)
    decreases fuel, 1
  {
    match k
    case Subscript =>
      if |vs| == 2 {
        if Plain(vs[0], c) {
          PlainIndexes(vs[0], vs[1], s, t, w, h, c);
        }
      }
    case Call => if vs != [] { ApplySame(vs[0], vs[1..], s, t, w, h, c, fuel); }
    case Operator(op) => PlainComputes(op, vs, s, t, w, h, c);
    case _ =>
  }

  lemma {:induction false} ApplySame(f: Value, args: seq<Value>, s: State, t: State,
                                     w: World, h: World, c: Rules, fuel: nat)
    requires Alike(s, t, c) && Worlds(w, h, c) && AllPlain(args, c)
    requires Plain(f, c) || (f == MemberV(FactsV, "get") && args != [] && IsKeyValue(args[0], c))
    ensures Same(Apply(f, args, s, w, fuel), Apply(f, args, t, h, fuel), c)
    decreases fuel, 0
  {
    if Plain(f, c) && f.FunctionV? {
      var def := f.def;
      if def.kind.Def? && |def.kind.params| == |args| && fuel > 0 {
        ZipScoped(def.kind.params, args, c);
        FunctionSame(def, args, s, t, w, h, c, fuel);
      }
    } else if Plain(f, c) {
      PlainComputes("call", [f] + args, s, t, w, h, c);
    }
  }

  lemma {:induction false} FunctionSame(def: Node, args: seq<Value>, s: State, t: State,
                                        w: World, h: World, c: Rules, fuel: nat)
    requires Alike(s, t, c) && Worlds(w, h, c) && CleanAll(def.kids, c)
    requires def.kind.Def? && |def.kind.params| == |args| && fuel > 0
    requires Scoped(Zip(def.kind.params, args), c)
    ensures Same(Apply(FunctionV(def), args, s, w, fuel), Apply(FunctionV(def), args, t, h, fuel), c)
    decreases fuel - 1, |def.kids| + 1
  {
    var s', t' := Entered(def, args, s), Entered(def, args, t);
    BlockSame(def.kids, s', t', w, h, c, fuel - 1);
    var a, b := RunBlock(def.kids, s', w, fuel - 1), RunBlock(def.kids, t', h, fuel - 1);
    assert Apply(FunctionV(def), args, s, w, fuel) == (AsCall(a.0), Left(a.1, s));
    assert Apply(FunctionV(def), args, t, h, fuel) == (AsCall(b.0), Left(b.1, t));
  }

  ghost function Entered(def: Node, args: seq<Value>, s: State): State
    requires def.kind.Def? && |def.kind.params| == |args|
  {
    s.(frame := Frame(def), locals := Zip(def.kind.params, args))
  }

  ghost function Left(t: State, s: State): State {
    t.(frame := s.frame, locals := s.locals)
  }

  /** What the evaluation of a node's children must agree on. */
  ghost predicate SameOperands(k: Kind, a: (Outcome, State), b: (Outcome, State), c: Rules) {
    && a.0 == b.0 && Alike(a.1, b.1, c)
    && if a.0.Values? then Usable(k, a.0.vs, c) else Fine(a.0, c)
  }

  lemma {:induction false} RunSame(n: Node, s: State, t: State, w: World, h: World, c: Rules, fuel: nat)
    requires Alike(s, t, c) && Worlds(w, h, c) && Clean(n, c)
    ensures Same(Run(n, s, w, fuel), Run(n, t, h, fuel), c)
    decreases fuel, 0
  {
    if fuel > 0 && Combines(n.kind) {
      StrictSame(n, s, t, w, h, c, fuel - 1);
    } else if fuel > 0 && Simple(n.kind) {
      SimpleSame(n, s, t, w, h, c, fuel);
    } else if fuel > 0 {
      match n.kind
      case Conditional => BranchSame(n.kids, s, t, w, h, c, fuel - 1);
      case If => BranchSame(n.kids, s, t, w, h, c, fuel - 1);
      case Assign => AssignSame(n, s, t, w, h, c, fuel - 1);
      case For => ForSame(n, s, t, w, h, c, fuel - 1);
      case While => WhileSame(n, s, t, w, h, c, fuel - 1);
      case Block => BlockSame(n.kids, s, t, w, h, c, fuel - 1);
      case Module => BlockSame(n.kids, s, t, w, h, c, fuel - 1);
      case _ =>
    }
  }

  /** Constants, names and the statements that only bind. */
  predicate Simple(k: Kind) {
    k.Const? || k.Name? || k.Def? || k.Import? || k.ImportFrom? || k.Global?
  }

  lemma SimpleSame(n: Node, s: State, t: State, w: World, h: World, c: Rules, fuel: nat)
    requires Alike(s, t, c) && Worlds(w, h, c) && Clean(n, c) && Simple(n.kind) && fuel > 0
    ensures Same(Run(n, s, w, fuel), Run(n, t, h, fuel), c)
  {
    match n.kind
    case Name(_, id) => LookupAlike(id, s, t, c);
    case Def(_, _) => DefSame(n, s, t, w, h, c, fuel);
    case Import(names) => ImportAllAlike(names, s, t, c);
    case ImportFrom(from, _, names) => ImportFromSame(n, s, t, w, h, c);
    case _ =>
  }

  lemma DefSame(n: Node, s: State, t: State, w: World, h: World, c: Rules, fuel: nat)
    requires Alike(s, t, c) && Clean(n, c) && n.kind.Def? && fuel > 0
    ensures Same(Run(n, s, w, fuel), Run(n, t, h, fuel), c)
  {
    BindAlike(n.kind.name, FunctionV(n), s, t, c);
  }

  lemma ImportFromSame(n: Node, s: State, t: State, w: World, h: World, c: Rules)
    requires Alike(s, t, c) && Worlds(w, h, c) && Clean(n, c) && n.kind.ImportFrom?
    ensures Alike(ImportMembers(n.kind.from, n.kind.names, s, w), ImportMembers(n.kind.from, n.kind.names, t, h), c)
  {
    forall x <- n.kind.names
      ensures x.0 in c.names.members && ImportedAs(x) != "resolve"
    {
      assert ImportedAs(x) in Binds(n);
    }
    ImportMembersAlike(n.kind.from, n.kind.names, s, t, w, h, c);
  }

  predicate Combines(k: Kind) {
    k.Subscript? || k.Attribute? || k.Call? || k.Operator? || k.ListDisplay? || k.ExprStmt? || k.Return?
  }

  lemma {:induction false} StrictSame(n: Node, s: State, t: State, w: World, h: World, c: Rules, fuel: nat)
    requires Alike(s, t, c) && Worlds(w, h, c) && Clean(n, c) && Combines(n.kind)
    ensures Same(Run(n, s, w, fuel + 1), Run(n, t, h, fuel + 1), c)
    decreases fuel, |n.kids| + 2
  {
    OperandsSame(n, s, t, w, h, c, fuel);
    var a, b := RunAll(n.kids, s, w, fuel), RunAll(n.kids, t, h, fuel);
    if a.0.Values? {
      FinishSame(n.kind, a.0.vs, a.1, b.1, w, h, c, fuel);
    }
  }

  lemma {:induction false} OperandsSame(n: Node, s: State, t: State, w: World, h: World, c: Rules, fuel: nat)
    requires Alike(s, t, c) && Worlds(w, h, c) && Clean(n, c)
    ensures SameOperands(n.kind, RunAll(n.kids, s, w, fuel), RunAll(n.kids, t, h, fuel), c)
    decreases fuel, |n.kids| + 1
  {
    if SubscriptsFacts(n, c.facts) || GetsFacts(n, c.facts) {
      if SubscriptsFacts(n, c.facts) {
        ParameterSame(n.kids[0], s, t, w, h, c, fuel);
      } else {
        GetSame(n.kids[0], s, t, w, h, c, fuel);
      }
      var a, b := Run(n.kids[0], s, w, fuel), Run(n.kids[0], t, h, fuel);
      if a.0.Values? {
        AllSame(n.kids[1..], a.1, b.1, w, h, c, fuel);
        KeyFirst(n.kids[1..], a.1, w, c, fuel);
        var tail := RunAll(n.kids[1..], a.1, w, fuel);
        if tail.0.Values? {
          assert RunAll(n.kids, s, w, fuel).0.vs == a.0.vs + tail.0.vs;
          assert (a.0.vs + tail.0.vs)[1..] == tail.0.vs;
        }
      }
    } else {
      AllSame(n.kids, s, t, w, h, c, fuel);
    }
  }

  lemma KeyFirst(ns: seq<Node>, s: State, w: World, c: Rules, fuel: nat)
    requires ns != [] && IsReadKey(ns[0], c)
    ensures
      var o := RunAll(ns, s, w, fuel).0;
      o.Values? ==> o.vs != [] && IsKeyValue(o.vs[0], c)
  {
  }

  lemma ParameterSame(n: Node, s: State, t: State, w: World, h: World, c: Rules, fuel: nat)
    requires Alike(s, t, c) && Worlds(w, h, c) && IsName(n, c.facts) && OnList(n, c.names)
    ensures
      var a, b := Run(n, s, w, fuel), Run(n, t, h, fuel);
      && a.0 == b.0 && Alike(a.1, b.1, c) && !a.0.Returned?
      && (a.0.Values? ==> |a.0.vs| == 1 && (Plain(a.0.vs[0], c) || a.0.vs[0] == FactsV))
  {
    LookupAlike(c.facts, s, t, c);
  }

  lemma {:induction false} GetSame(n: Node, s: State, t: State, w: World, h: World, c: Rules, fuel: nat)
    requires Alike(s, t, c) && Worlds(w, h, c)
    requires n.kind.Attribute? && n.kind.attr == "get" && n.kids != [] && IsName(n.kids[0], c.facts)
    requires OnList(n, c.names) && OnList(n.kids[0], c.names) && CleanAll(n.kids[1..], c)
    ensures
      var a, b := Run(n, s, w, fuel), Run(n, t, h, fuel);
      && a.0 == b.0 && Alike(a.1, b.1, c) && (!a.0.Values? ==> Fine(a.0, c))
      && (a.0.Values? ==> |a.0.vs| == 1 && (Plain(a.0.vs[0], c) || a.0.vs[0] == MemberV(FactsV, "get")))
    decreases fuel, 0
  {
    if fuel > 0 {
      ParameterSame(n.kids[0], s, t, w, h, c, fuel - 1);
      var a, b := Run(n.kids[0], s, w, fuel - 1), Run(n.kids[0], t, h, fuel - 1);
      if a.0.Values? {
        AllSame(n.kids[1..], a.1, b.1, w, h, c, fuel - 1);
        GetMember(n, a.0.vs, RunAll(n.kids[1..], a.1, w, fuel - 1), w, c, fuel - 1);
      }
    }
  }

  lemma GetMember(n: Node, head: seq<Value>, tail: (Outcome, State), w: World, c: Rules, fuel: nat)
    requires n.kind.Attribute? && n.kind.attr == "get" && "get" in c.names.members && w.names == c.names
    requires |head| == 1 && (Plain(head[0], c) || head[0] == FactsV)
    ensures
      tail.0.Values? ==>
        var o := Finish(n.kind, head + tail.0.vs, tail.1, w, fuel).0;
        if o.Values? then |o.vs| == 1 && (Plain(o.vs[0], c) || o.vs[0] == MemberV(FactsV, "get")) else o == Raised
  {
    if tail.0.Values? {
      MemberOfOne(n.kind, head + tail.0.vs, tail.1, w, c, fuel);
    }
  }

  lemma MemberOfOne(k: Kind, vs: seq<Value>, s: State, w: World, c: Rules, fuel: nat)
    requires k.Attribute? && k.attr == "get" && "get" in c.names.members && w.names == c.names
    requires vs != [] && (Plain(vs[0], c) || vs[0] == FactsV)
    ensures
      var o := Finish(k, vs, s, w, fuel).0;
      if o.Values? then |o.vs| == 1 && (Plain(o.vs[0], c) || o.vs[0] == MemberV(FactsV, "get")) else o == Raised
  {
  }

  lemma {:induction false} AllSame(ns: seq<Node>, s: State, t: State, w: World, h: World, c: Rules, fuel: nat)
    requires Alike(s, t, c) && Worlds(w, h, c) && CleanAll(ns, c)
    ensures Same(RunAll(ns, s, w, fuel), RunAll(ns, t, h, fuel), c)
    decreases fuel, |ns|
  {
    if ns != [] {
      RunSame(ns[0], s, t, w, h, c, fuel);
      var a, b := Run(ns[0], s, w, fuel), Run(ns[0], t, h, fuel);
      if a.0.Values? {
        AllSame(ns[1..], a.1, b.1, w, h, c, fuel);
      }
    }
  }

  lemma {:induction false} BlockSame(ns: seq<Node>, s: State, t: State, w: World, h: World, c: Rules, fuel: nat)
    requires Alike(s, t, c) && Worlds(w, h, c) && CleanAll(ns, c)
    ensures Same(RunBlock(ns, s, w, fuel), RunBlock(ns, t, h, fuel), c)
    decreases fuel, |ns|
  {
    if ns != [] {
      RunSame(ns[0], s, t, w, h, c, fuel);
      var a, b := Run(ns[0], s, w, fuel), Run(ns[0], t, h, fuel);
      if a.0.Next? {
        BlockSame(ns[1..], a.1, b.1, w, h, c, fuel);
      }
    }
  }

  lemma {:induction false} CleanAllMeans(ns: seq<Node>, i: nat, c: Rules)
    requires CleanAll(ns, c) && i < |ns|
    ensures Clean(ns[i], c) && CleanAll(ns[i..][..1], c)
  {
    if i > 0 {
      CleanAllMeans(ns[1..], i - 1, c);
      assert ns[1..][i - 1..] == ns[i..];
    } else {
      assert ns[0..][..1] == [ns[0]];
    }
  }

  lemma {:induction false} BranchSame(kids: seq<Node>, s: State, t: State, w: World, h: World, c: Rules, fuel: nat)
    requires Alike(s, t, c) && Worlds(w, h, c) && CleanAll(kids, c)
    ensures Same(RunBranch(kids, s, w, fuel), RunBranch(kids, t, h, fuel), c)
    decreases fuel, |kids|
  {
    if |kids| == 3 {
      CleanAllMeans(kids, 0, c);
      CleanAllMeans(kids, 1, c);
      CleanAllMeans(kids, 2, c);
      assert kids[0..][..1] == kids[..1];
      AllSame(kids[..1], s, t, w, h, c, fuel);
      var a, b := RunAll(kids[..1], s, w, fuel), RunAll(kids[..1], t, h, fuel);
      if a.0.Values? && |a.0.vs| == 1 {
        assert Plain(a.0.vs[0], c);
        RunSame(if IsTrue(a.0.vs[0], a.1) then kids[1] else kids[2], a.1, b.1, w, h, c, fuel);
      }
    }
  }

  lemma {:induction false} AssignSame(n: Node, s: State, t: State, w: World, h: World, c: Rules, fuel: nat)
    requires Alike(s, t, c) && Worlds(w, h, c) && Clean(n, c) && n.kind.Assign?
    ensures Same(RunAssign(n.kids, s, w, fuel), RunAssign(n.kids, t, h, fuel), c)
    decreases fuel, |n.kids| + 1
  {
    var kids := n.kids;
    if |kids| == 2 {
      AllSame(kids[1..], s, t, w, h, c, fuel);
      var a, b := RunAll(kids[1..], s, w, fuel), RunAll(kids[1..], t, h, fuel);
      if a.0.Values? && |a.0.vs| == 1 {
        if kids[0].kind.Name? {
          assert kids[0].kind.id in Binds(n);
          BindAlike(kids[0].kind.id, a.0.vs[0], a.1, b.1, c);
        } else if kids[0].kind.Subscript? && fuel > 0 {
          OperandsSame(kids[0], a.1, b.1, w, h, c, fuel - 1);
        }
      }
    }
  }

  lemma CleanLoop(n: Node, c: Rules)
    requires Clean(n, c) && n.kind.For? && |n.kids| == 3 && n.kids[0].kind.Name? && c.def.kind.Def?
    ensures CleanAll(n.kids[1..2], c) && Clean(n.kids[2], c) && n.kids[0].kind.id != "resolve"
  {
    CleanAllMeans(n.kids, 1, c);
    CleanAllMeans(n.kids, 2, c);
    CleanMiddle(n.kids, c);
    assert n.kids[0].kind.id in Binds(n);
  }

  lemma CleanMiddle(ns: seq<Node>, c: Rules)
    requires |ns| == 3 && Clean(ns[1], c)
    ensures CleanAll(ns[1..2], c)
  {
    assert ns[1..2] == [ns[1]] && ns[1..2][1..] == [];
  }

  lemma {:induction false} ForSame(n: Node, s: State, t: State, w: World, h: World, c: Rules, fuel: nat)
    requires Alike(s, t, c) && Worlds(w, h, c) && Clean(n, c) && n.kind.For?
    ensures Same(RunFor(n.kids, s, w, fuel), RunFor(n.kids, t, h, fuel), c)
    decreases fuel, |n.kids| + 1
  {
    var kids := n.kids;
    if |kids| == 3 && kids[0].kind.Name? {
      CleanLoop(n, c);
      AllSame(kids[1..2], s, t, w, h, c, fuel);
      var a, b := RunAll(kids[1..2], s, w, fuel), RunAll(kids[1..2], t, h, fuel);
      if a.0.Values? && |a.0.vs| == 1 {
        PlainIterates(a.0.vs[0], a.1, b.1, w, h, c);
        var p := Iterated(a.0.vs[0], a.1, w);
        if p.Values? && fuel > 0 {
          LoopSame(kids[0].kind.id, p.vs, kids[2], a.1, b.1, w, h, c, fuel - 1);
        }
      }
    }
  }

  lemma {:induction false} LoopSame(id: string, items: seq<Value>, body: Node, s: State, t: State,
                                    w: World, h: World, c: Rules, fuel: nat)
    requires Alike(s, t, c) && Worlds(w, h, c) && Clean(body, c) && AllPlain(items, c) && id != "resolve"
    ensures Same(RunLoop(id, items, body, s, w, fuel), RunLoop(id, items, body, t, h, fuel), c)
    decreases fuel, |items|
  {
    if items != [] {
      BindAlike(id, items[0], s, t, c);
      var s', t' := Bind(id, items[0], s), Bind(id, items[0], t);
      RunSame(body, s', t', w, h, c, fuel);
      var a, b := Run(body, s', w, fuel), Run(body, t', h, fuel);
      if a.0.Next? {
        LoopSame(id, items[1..], body, a.1, b.1, w, h, c, fuel);
      }
    }
  }

  lemma {:induction false} WhileSame(n: Node, s: State, t: State, w: World, h: World, c: Rules, fuel: nat)
    requires Alike(s, t, c) && Worlds(w, h, c) && Clean(n, c) && n.kind.While?
    ensures Same(RunWhile(n, s, w, fuel), RunWhile(n, t, h, fuel), c)
    decreases fuel, |n.kids| + 1
  {
    var kids := n.kids;
    if |kids| == 2 {
      CleanAllMeans(kids, 0, c);
      CleanAllMeans(kids, 1, c);
      assert kids[0..][..1] == kids[..1];
      AllSame(kids[..1], s, t, w, h, c, fuel);
      var a, b := RunAll(kids[..1], s, w, fuel), RunAll(kids[..1], t, h, fuel);
      if a.0.Values? && |a.0.vs| == 1 {
        assert Plain(a.0.vs[0], c);
        if IsTrue(a.0.vs[0], a.1) {
          RunSame(kids[1], a.1, b.1, w, h, c, fuel);
          var p, q := Run(kids[1], a.1, w, fuel), Run(kids[1], b.1, h, fuel);
          if p.0.Next? {
            RunSame(n, p.1, q.1, w, h, c, fuel);
          }
        }
      }
    }
  }
}
