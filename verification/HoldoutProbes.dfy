/** Predicates that the checker accepts and that ask the host.

    Each reads one behavioural fact and then answers an expression that does not mention the facts:

        import math as n

        def resolve(facts):
            facts["ok"]
            return n.x()

    for a member x of a module; or `n()` for x imported as n, `x()` for a builtin, `0 x 1` for an
    operator. The first part shows that any such module is accepted, whatever the expression; the
    second, that its answer is the expression's; the third, that the host's answer is what an
    expression comes to when its name is not arithmetic; and the last follows one longer expression, from
    the library to the interpreter's frame and back to the facts. */
module HoldoutProbes {
  import opened Options
  import opened Holdout
  import opened HoldoutSemantics
  import opened HoldoutIdentity
  import opened HoldoutRuns

  // ----- Predicates that read one fact and answer an expression -----

  const FIRST := Node(ExprStmt, [Node(Subscript, [Node(Name(0, "facts"), []), Node(Const(Str("ok")), [])])])

  function Answering(e: Node): Node {
    Node(Def("resolve", ["facts"]), [FIRST, Node(Return, [e])])
  }

  /** def resolve(facts): facts["ok"]; return e, after an import. */
  function Asking(imported: seq<Node>, e: Node): Node {
    Node(Module, imported + [Answering(e)])
  }

  /** A node that does not mention the facts, and that the checker lets through. */
  ghost predicate Aside(n: Node, facts: string) {
    NodeOk(n, facts) && !IsName(n, facts) && NodeReads(n, facts) == {} && NodeAllows(n, facts) == {}
  }

  /** And that binds nothing. */
  ghost predicate QuietNode(n: Node) {
    && Aside(n, "facts") && Binds(n) == {} && Declared(n) == {} && !n.kind.Def?
    && (n.kind.Name? ==> n.kind.uid != 0)
  }

  ghost predicate Bystander(n: Node) {
    QuietNode(n) && forall k <- n.kids :: Bystander(k)
  }

  /** The import, if any, binds some other name. */
  ghost predicate Importing(imported: seq<Node>, facts: string) {
    imported == [] || (|imported| == 1 && imported[0].kids == [] && NodeOk(imported[0], facts)
                       && (imported[0].kind.Import? || imported[0].kind.ImportFrom?)
                       && "resolve" !in Binds(imported[0]))
  }

  lemma {:induction false} BystanderNodes(n: Node)
    requires Bystander(n)
    ensures forall x <- Nodes(n) :: QuietNode(x)
    ensures 0 !in Uids(n)
    decreases n, 1
  {
    BystanderNodesOf(n.kids);
  }

  lemma {:induction false} BystanderNodesOf(ns: seq<Node>)
    requires forall k <- ns :: Bystander(k)
    ensures forall x <- NodesOf(ns) :: QuietNode(x)
    ensures 0 !in UidsOf(ns)
    decreases ns, 0
  {
    if ns != [] {
      BystanderNodes(ns[0]);
      BystanderNodesOf(ns[1..]);
    }
  }

  lemma PlainWords()
    ensures !Hidden("facts") && !Hidden("resolve") && !Hidden("n") && "ok" in BEHAVIOURAL_FACTS
  {
    assert "facts"[0] == 'f' && "resolve"[0] == 'r' && "n"[0] == 'n';
  }

  // ----- They are accepted -----

  lemma FirstIsRead()
    ensures forall x <- Nodes(FIRST) :: NodeOk(x, "facts") && Binds(x) == {} && Declared(x) == {} && !x.kind.Def?
    ensures forall x <- Nodes(FIRST) | IsName(x, "facts") :: x.kind.uid == 0
    ensures Reads(Nodes(FIRST), "facts") == {"ok"} && Allows(Nodes(FIRST), "facts") == {0}
    ensures Uids(FIRST) == {0} && Individual(FIRST)
  {
    PlainWords();
    assert IsFactKey(Node(Const(Str("ok")), []));
    StatementReads(Node(Name(0, "facts"), []), Node(Const(Str("ok")), []), "facts", "ok");
    StatementIsIndividual(Node(Name(0, "facts"), []), Node(Const(Str("ok")), []));
  }

  /** The nodes of an item of a name, as a statement. */
  lemma StatementNodes(name: Node, key: Node)
    requires name.kids == [] && key.kids == []
    ensures
      var item := Node(Subscript, [name, key]);
      var first := Node(ExprStmt, [item]);
      && Nodes(first) == {first, item, name, key} && Uids(first) == Uids(name) + Uids(key)
      && (Individual(name) && Individual(key) && Uids(name) !! Uids(key) ==> Individual(first))
  {
    var item := Node(Subscript, [name, key]);
    assert [name, key][1..] == [key];
    OneChild(key);
    OneChild(item);
    assert Nodes(name) == {name} && Nodes(key) == {key};
    assert NodesOf([name, key]) == Nodes(name) + NodesOf([key]);
    assert UidsOf([name, key]) == Uids(name) + UidsOf([key]);
    assert Uids(item) == UidsOf([name, key]);
  }

  lemma StatementReads(name: Node, key: Node, facts: string, k: string)
    requires name == Node(Name(0, facts), []) && key == Node(Const(Str(k)), [])
    requires !Hidden(facts) && IsFactKey(key)
    ensures
      var first := Node(ExprStmt, [Node(Subscript, [name, key])]);
      && (forall x <- Nodes(first) :: NodeOk(x, facts) && Binds(x) == {} && Declared(x) == {} && !x.kind.Def?)
      && (forall x <- Nodes(first) | IsName(x, facts) :: x.kind.uid == 0)
      && Reads(Nodes(first), facts) == {k} && Allows(Nodes(first), facts) == {0}
  {
    var item := Node(Subscript, [name, key]);
    var first := Node(ExprStmt, [item]);
    StatementNodes(name, key);
    ItemReads(item, facts, k);
    FourNodes(first, item, name, key, facts, k);
    FourOk(first, item, name, key, facts);
  }

  lemma FourOk(first: Node, item: Node, name: Node, key: Node, facts: string)
    requires first.kind.ExprStmt? && item.kind.Subscript? && name.kind == Name(0, facts) && key.kind.Const?
    requires NodeOk(item, facts) && !Hidden(facts)
    ensures forall x <- {first, item, name, key} ::
      && NodeOk(x, facts) && Binds(x) == {} && Declared(x) == {} && !x.kind.Def?
      && (IsName(x, facts) ==> x.kind.uid == 0)
  {
    NameIsOk(name, facts);
  }

  lemma NameIsOk(name: Node, facts: string)
    requires name.kind == Name(0, facts) && !Hidden(facts)
    ensures NodeOk(name, facts)
  {
    assert Identifiers(name) == {facts};
  }

  lemma ItemReads(item: Node, facts: string, k: string)
    requires item.kind.Subscript? && |item.kids| == 2 && item.kids[0].kind == Name(0, facts)
    requires item.kids[1].kind == Const(Str(k)) && IsFactKey(item.kids[1])
    ensures NodeReads(item, facts) == {k} && NodeAllows(item, facts) == {0} && NodeOk(item, facts)
  {
  }

  lemma FourNodes(first: Node, item: Node, name: Node, key: Node, facts: string, k: string)
    requires NodeReads(item, facts) == {k} && NodeAllows(item, facts) == {0}
    requires first.kind.ExprStmt? && name.kind.Name? && key.kind.Const?
    ensures Reads({first, item, name, key}, facts) == {k} && Allows({first, item, name, key}, facts) == {0}
  {
  }

  lemma StatementIsIndividual(name: Node, key: Node)
    requires name.kind.Name? && name.kind.uid == 0 && name.kids == [] && key.kind.Const? && key.kids == []
    ensures
      var first := Node(ExprStmt, [Node(Subscript, [name, key])]);
      Uids(first) == {0} && Individual(first)
  {
    StatementNodes(name, key);
    assert Uids(key) == {} && Uids(name) == {0} && Individual(name) && Individual(key);
    assert Uids(name) + Uids(key) == {0};
  }

  lemma ReturnIsQuiet(e: Node)
    requires Bystander(e) && Individual(e)
    ensures forall x <- Nodes(Node(Return, [e])) :: QuietNode(x)
    ensures Uids(Node(Return, [e])) == Uids(e) && Individual(Node(Return, [e]))
  {
    BystanderNodes(e);
    OneChild(e);
  }

  lemma OneChild(n: Node)
    ensures NodesOf([n]) == Nodes(n) && UidsOf([n]) == Uids(n) && IndividualAll([n]) == Individual(n)
  {
    assert [n][1..] == [];
    assert NodesOf([n][1..]) == {} && UidsOf([n][1..]) == {} && IndividualAll([n][1..]);
  }

  lemma DefNodes(def: Node, first: Node, ret: Node)
    requires def.kind.Def? && def.kids == [first, ret]
    requires Individual(first) && Individual(ret) && Uids(first) !! Uids(ret)
    ensures Nodes(def) == {def} + Nodes(first) + Nodes(ret) && Individual(def)
  {
    assert [first, ret][1..] == [ret];
    OneChild(ret);
  }

  lemma AskingNodes(m: Node, imported: seq<Node>, def: Node, facts: string)
    requires Importing(imported, facts) && m == Node(Module, imported + [def]) && Individual(def)
    requires def.kind.Def? && def.kind.name == "resolve"
    ensures Nodes(m) == {m} + SetOf(imported) + Nodes(def) && Individual(m) && FirstResolve(m.kids) == Some(def)
  {
    OneChild(def);
    if imported != [] {
      var n := imported[0];
      assert imported + [def] == [n, def] && [n, def][1..] == [def];
      assert Nodes(n) == {n} && Uids(n) == {} && FirstResolve([n, def]) == FirstResolve([def]);
    } else {
      assert imported + [def] == [def];
    }
  }

  function SetOf(ns: seq<Node>): set<Node> {
    set n <- ns
  }

  lemma ReadsUnion(a: set<Node>, b: set<Node>, facts: string)
    ensures Reads(a + b, facts) == Reads(a, facts) + Reads(b, facts)
    ensures Allows(a + b, facts) == Allows(a, facts) + Allows(b, facts)
  {
  }

  lemma QuietParts(m: Node, imported: seq<Node>, def: Node, ret: set<Node>, facts: string)
    requires m.kind.Module? && Aside(def, facts) && Importing(imported, facts)
    requires forall x <- ret :: Aside(x, facts) && Binds(x) == {}
    ensures forall x <- {m} + SetOf(imported) + {def} + ret ::
      Aside(x, facts) && ("resolve" in Binds(x) ==> x == def)
  {
    forall x <- SetOf(imported) ensures Aside(x, facts) && "resolve" !in Binds(x) {
      ImportIsQuiet(imported, x, facts);
    }
    ModuleIsQuiet(m, facts);
  }

  lemma ImportIsQuiet(imported: seq<Node>, x: Node, facts: string)
    requires Importing(imported, facts) && x in imported
    ensures Aside(x, facts) && "resolve" !in Binds(x)
  {
    assert x == imported[0];
  }

  lemma ModuleIsQuiet(m: Node, facts: string)
    requires m.kind.Module?
    ensures Aside(m, facts) && Binds(m) == {}
  {
  }

  lemma DefIsQuiet(def: Node, name: string, param: string, facts: string)
    requires def.kind == Def(name, [param]) && !Hidden(name) && !Hidden(param)
    ensures Aside(def, facts)
  {
    DefNames(name, param, def.kids);
  }

  lemma DefNames(name: string, param: string, kids: seq<Node>)
    ensures Identifiers(Node(Def(name, [param]), kids)) == {name, param}
  {
    assert [param][0] in [param];
  }

  lemma Admitted(m: Node, imported: seq<Node>, def: Node, first: Node, ret: Node, facts: string, key: string)
    requires m == Node(Module, imported + [def]) && Importing(imported, facts)
    requires def == Node(Def("resolve", [facts]), [first, ret]) && !Hidden("resolve") && !Hidden(facts)
    requires forall x <- Nodes(first) :: NodeOk(x, facts) && Binds(x) == {}
    requires forall x <- Nodes(first) | IsName(x, facts) :: x.kind.uid == 0
    requires Reads(Nodes(first), facts) == {key} && Allows(Nodes(first), facts) == {0} && Individual(first)
    requires forall x <- Nodes(ret) :: Aside(x, facts) && Binds(x) == {}
    requires Individual(ret) && Uids(first) !! Uids(ret)
    ensures m.kind.Module? && FactsParam(m) == Some(facts) && Reads(Nodes(m), facts) == {key}
    ensures Accepted(m) && Individual(m) && SoleResolve(m)
  {
    var rest := AdmittedNodes(m, imported, def, first, ret, facts);
    DefIsQuiet(def, "resolve", facts, facts);
    QuietParts(m, imported, def, Nodes(ret), facts);
    Together(m, rest, Nodes(first), def, facts, key);
  }

  lemma AdmittedNodes(m: Node, imported: seq<Node>, def: Node, first: Node, ret: Node, facts: string)
    returns (rest: set<Node>)
    requires m == Node(Module, imported + [def]) && Importing(imported, facts)
    requires def.kind.Def? && def.kind.name == "resolve" && def.kids == [first, ret]
    requires Individual(first) && Individual(ret) && Uids(first) !! Uids(ret)
    ensures rest == {m} + SetOf(imported) + {def} + Nodes(ret)
    ensures Nodes(m) == rest + Nodes(first) && Individual(m) && FirstResolve(m.kids) == Some(def)
  {
    rest := {m} + SetOf(imported) + {def} + Nodes(ret);
    DefNodes(def, first, ret);
    AskingNodes(m, imported, def, facts);
  }

  /** Such a predicate is accepted, reads one fact, and is in every other way as soundness asks. */
  lemma AskingIsAccepted(imported: seq<Node>, e: Node)
    requires Importing(imported, "facts") && Bystander(e) && Individual(e)
    ensures
      var m := Asking(imported, e);
      && m.kind.Module? && FactsParam(m) == Some("facts") && Reads(Nodes(m), "facts") == {"ok"}
      && Accepted(m) && Individual(m) && SoleResolve(m)
  {
    PlainWords();
    FirstIsRead();
    BystanderNodes(e);
    ReturnIsQuiet(e);
    Admitted(Asking(imported, e), imported, Answering(e), FIRST, Node(Return, [e]), "facts", "ok");
  }

  /** A tree in two parts, of which one reads a key and the other does nothing with the facts. */
  lemma Together(m: Node, a: set<Node>, b: set<Node>, def: Node, facts: string, key: string)
    requires FirstResolve(m.kids) == Some(def) && def.kind.Def? && def.kind.params == [facts] && Nodes(m) == a + b
    requires forall x <- a :: Aside(x, facts) && ("resolve" in Binds(x) ==> x == def)
    requires forall x <- b :: NodeOk(x, facts) && Binds(x) == {}
    requires forall x <- b | IsName(x, facts) :: x.kind.uid == 0
    requires Reads(b, facts) == {key} && Allows(b, facts) == {0}
    ensures FactsParam(m) == Some(facts) && Reads(Nodes(m), facts) == {key} && Accepted(m) && SoleResolve(m)
  {
    PartsTogether(a, b, facts, key);
    AcceptedBy(m, facts);
    SoleBinding(m, def);
  }

  lemma PartsTogether(a: set<Node>, b: set<Node>, facts: string, key: string)
    requires forall x <- a :: Aside(x, facts)
    requires forall x <- b | IsName(x, facts) :: x.kind.uid == 0
    requires Reads(b, facts) == {key} && Allows(b, facts) == {0}
    ensures Reads(a + b, facts) == {key} && Allows(a + b, facts) == {0} && NamesAllowed(a + b, facts, {0})
  {
    SilentPart(a, facts);
    ReadsUnion(a, b, facts);
    NamesTogether(a, b, facts);
  }

  lemma SoleBinding(m: Node, def: Node)
    requires FirstResolve(m.kids) == Some(def) && forall x <- Nodes(m) :: "resolve" in Binds(x) ==> x == def
    ensures SoleResolve(m)
  {
  }

  lemma SilentPart(a: set<Node>, facts: string)
    requires forall x <- a :: NodeReads(x, facts) == {} && NodeAllows(x, facts) == {}
    ensures Reads(a, facts) == {} && Allows(a, facts) == {}
  {
  }

  lemma NamesTogether(a: set<Node>, b: set<Node>, facts: string)
    requires forall x <- a :: !IsName(x, facts)
    requires forall x <- b | IsName(x, facts) :: x.kind.uid == 0
    ensures NamesAllowed(a + b, facts, {0})
  {
  }

  lemma AcceptedBy(m: Node, facts: string)
    requires FactsParam(m) == Some(facts) && forall x <- Nodes(m) :: NodeOk(x, facts)
    requires NamesAllowed(Nodes(m), facts, Allows(Nodes(m), facts)) && Reads(Nodes(m), facts) != {}
    ensures Accepted(m)
  {
  }

  // ----- What they answer -----

  lemma {:induction false} ScopeIsIn(ns: seq<Node>)
    ensures Scope(ns) <= NodesOf(ns)
  {
    if ns != [] {
      ScopeIsIn(ns[0].kids);
      ScopeIsIn(ns[1..]);
    }
  }

  lemma AnsweringFrame(e: Node)
    requires Bystander(e) && Individual(e)
    ensures Frame(Answering(e)) == {"facts"}
  {
    FirstIsRead();
    ReturnIsQuiet(e);
    var ret := Node(Return, [e]);
    ScopeIsIn([FIRST, ret]);
    assert [FIRST, ret][1..] == [ret];
    OneChild(ret);
    BindsNothing(Answering(e), "facts");
  }

  lemma BindsNothing(def: Node, param: string)
    requires def.kind.Def? && def.kind.params == [param]
    requires forall x <- Scope(def.kids) :: Binds(x) == {} && Declared(x) == {}
    ensures Frame(def) == {param}
  {
    assert [param][0] in [param];
    var all := Scope(def.kids);
    assert (set n <- all, x <- Binds(n) :: x) == {} && (set n <- all, x <- Declared(n) :: x) == {};
  }

  lemma RunOne(n: Node, s: State, w: World, fuel: nat)
    ensures
      var (o, t) := Run(n, s, w, fuel);
      RunAll([n], s, w, fuel) == (if o.Next? then Raised else o, t)
  {
    assert [n][1..] == [];
    var (o, t) := Run(n, s, w, fuel);
    if o.Values? {
      assert o.vs + [] == o.vs;
      assert RunAll([n][1..], t, w, fuel) == (Values([]), t);
    }
  }

  lemma RunTwo(m: Node, n: Node, s: State, w: World, fuel: nat)
    requires Run(m, s, w, fuel).0.Values? && Run(n, Run(m, s, w, fuel).1, w, fuel).0.Values?
    ensures
      var (o, t) := Run(m, s, w, fuel);
      var (p, u) := Run(n, t, w, fuel);
      RunAll([m, n], s, w, fuel) == (Values(o.vs + p.vs), u)
  {
    assert [m, n][1..] == [n];
    RunOne(n, Run(m, s, w, fuel).1, w, fuel);
  }

  lemma BlockOne(n: Node, s: State, w: World, fuel: nat)
    ensures RunBlock([n], s, w, fuel) == Run(n, s, w, fuel)
  {
    assert [n][1..] == [];
    assert RunBlock([n][1..], Run(n, s, w, fuel).1, w, fuel) == (Next, Run(n, s, w, fuel).1);
  }

  lemma BlockTwo(m: Node, n: Node, s: State, w: World, fuel: nat)
    requires Run(m, s, w, fuel).0.Next?
    ensures RunBlock([m, n], s, w, fuel) == Run(n, Run(m, s, w, fuel).1, w, fuel)
  {
    assert [m, n][1..] == [n];
    BlockOne(n, Run(m, s, w, fuel).1, w, fuel);
  }

  /** The state in which the expression is evaluated. */
  ghost function Within(imported: seq<Node>, e: Node, f: map<string, Data>, w: World): State {
    var s := if imported == [] then Start(f) else Run(imported[0], Start(f), w, 1).1;
    State(s.globals["resolve" := FunctionV(Answering(e))], {"facts"}, map["facts" := FactsV], Window(f))
  }

  lemma ImportRuns(n: Node, f: map<string, Data>, w: World, fuel: nat)
    requires n.kids == [] && (n.kind.Import? || n.kind.ImportFrom?) && fuel > 0
    ensures
      var (o, s) := Run(n, Start(f), w, fuel);
      && o == Next && s == Run(n, Start(f), w, 1).1 && s.frame == {} && s.locals == map[] && s.facts == Window(f)
  {
    match n.kind
    case Import(names) => ImportAllBinds(names, Start(f));
    case ImportFrom(from, _, names) => ImportMembersBinds(from, names, Start(f), w);
    case _ =>
  }

  lemma {:induction false} ImportAllBinds(names: seq<(string, Option<string>)>, s: State)
    requires s.frame == {}
    ensures
      var t := ImportAll(names, s);
      t.frame == {} && t.locals == s.locals && t.facts == s.facts
  {
    if names != [] {
      ImportAllBinds(names[1..], Bind(ImportedAs(names[0]), ModuleV(names[0].0), s));
    }
  }

  lemma {:induction false} ImportMembersBinds(from: string, names: seq<(string, Option<string>)>, s: State, w: World)
    requires s.frame == {}
    ensures
      var t := ImportMembers(from, names, s, w);
      t.frame == {} && t.locals == s.locals && t.facts == s.facts
  {
    if names != [] {
      var o := Member(ModuleV(from), names[0].0, w);
      var v := if o.Values? && |o.vs| == 1 then o.vs[0] else DataV(Null);
      ImportMembersBinds(from, names[1..], Bind(ImportedAs(names[0]), v, s), w);
    }
  }

  /** The module's own run: the import, then the definition. */
  lemma AskingRuns(imported: seq<Node>, e: Node, f: map<string, Data>, w: World, fuel: nat)
    requires Importing(imported, "facts") && fuel > 2
    ensures
      var (o, s) := Run(Asking(imported, e), Start(f), w, fuel);
      o == Next && s == Within(imported, e, f, w).(frame := {}, locals := map[])
  {
    var def := Answering(e);
    if imported != [] {
      ImportRuns(imported[0], f, w, fuel - 1);
    }
    ModuleRuns(imported, def, Start(f), w, fuel);
  }

  lemma ModuleRuns(imported: seq<Node>, def: Node, s: State, w: World, fuel: nat)
    requires |imported| <= 1 && def.kind.Def? && fuel > 2
    requires imported != [] ==> Run(imported[0], s, w, fuel - 1).0.Next?
    ensures
      var t := if imported == [] then s else Run(imported[0], s, w, fuel - 1).1;
      Run(Node(Module, imported + [def]), s, w, fuel) == (Next, Bind(def.kind.name, FunctionV(def), t))
  {
    if imported != [] {
      assert imported + [def] == [imported[0], def];
      BlockTwo(imported[0], def, s, w, fuel - 1);
    } else {
      assert imported + [def] == [def];
      BlockOne(def, s, w, fuel - 1);
    }
  }

  /** Reading the fact leaves the state as it is. */
  lemma FirstRuns(s: State, w: World, fuel: nat)
    requires s.frame == {"facts"} && s.locals == map["facts" := FactsV] && "ok" in s.facts && fuel > 3
    ensures Run(FIRST, s, w, fuel) == (Next, s)
  {
    ReadRuns(Node(Name(0, "facts"), []), Node(Const(Str("ok")), []), s, w, "ok", fuel - 1);
  }

  lemma ReadRuns(name: Node, key: Node, s: State, w: World, k: string, fuel: nat)
    requires name.kind.Name? && key.kind == Const(Str(k)) && fuel > 2 && k in s.facts
    requires Lookup(name.kind.id, s, w.names) == Values([FactsV])
    ensures Run(Node(ExprStmt, [Node(Subscript, [name, key])]), s, w, fuel + 1) == (Next, s)
  {
    var item := Node(Subscript, [name, key]);
    RunTwo(name, key, s, w, fuel - 1);
    assert [FactsV] + [DataV(Str(k))] == [FactsV, DataV(Str(k))];
    assert Run(item, s, w, fuel) == (Values([s.facts[k]]), s);
    RunOne(item, s, w, fuel);
  }

  lemma ReturnRuns(e: Node, s: State, w: World, fuel: nat)
    requires fuel > 1
    requires var o := Run(e, s, w, fuel - 1).0; o == Raised || (o.Values? && |o.vs| == 1)
    ensures
      var (o, t) := Run(e, s, w, fuel - 1);
      Run(Node(Return, [e]), s, w, fuel) == (if o.Values? then Returned(o.vs[0]) else Raised, t)
  {
    RunOne(e, s, w, fuel - 1);
  }

  /** The answer is the expression's. */
  lemma AskingAnswers(imported: seq<Node>, e: Node, f: map<string, Data>, w: World, fuel: nat)
    requires Importing(imported, "facts") && Bystander(e) && Individual(e) && "ok" in f && fuel > 5
    requires var o := Run(e, Within(imported, e, f, w), w, fuel - 2).0; o == Raised || (o.Values? && |o.vs| == 1)
    ensures Resolve(Asking(imported, e), f, w, fuel) == Run(e, Within(imported, e, f, w), w, fuel - 2).0
  {
    var def, ret, s := Answering(e), Node(Return, [e]), Within(imported, e, f, w);
    AskingRuns(imported, e, f, w, fuel);
    AnsweringFrame(e);
    FirstRuns(s, w, fuel - 1);
    ReturnRuns(e, s, w, fuel - 1);
    BlockTwo(FIRST, ret, s, w, fuel - 1);
    assert Zip(["facts"], [FactsV]) == map["facts" := FactsV];
  }

  // ----- Names off the list -----

  /** A name in each of the four places where an accepted predicate can meet one. */
  datatype Lead = OfMember(name: string) | OfImport(name: string) | OfBuiltin(name: string) | OfOperator(name: string)

  predicate OffList(lead: Lead, names: Names) {
    match lead
    case OfMember(x) => x !in names.members
    case OfImport(x) => x !in names.members
    case OfBuiltin(x) => x in names.others && x !in names.builtins
    case OfOperator(x) => x !in names.operators
  }

  /** The checker refuses some names outright; the rest can be written. */
  predicate LetThrough(lead: Lead) {
    match lead
    case OfMember(x) => !Hidden(x)
    case OfImport(x) => !Hidden(x) && x != "*"
    case OfBuiltin(x) => !Hidden(x) && x != "facts" && x != "resolve"
    case OfOperator(_) => true
  }

  const CALLEE := Node(Name(1, "n"), [])

  function ImportFor(lead: Lead): seq<Node> {
    match lead
    case OfMember(_) => [Node(Import([("math", Some("n"))]), [])]
    case OfImport(x) => [Node(ImportFrom("math", 0, [(x, Some("n"))]), [])]
    case _ => []
  }

  const ZERO := Node(Const(Int(0)), [])

  const ONE := Node(Const(Int(1)), [])

  /** n.x(), n() for x imported as n, x(), or the operator on 0 and 1. */
  function Using(lead: Lead): Node {
    match lead
    case OfMember(x) => Node(Call, [Node(Attribute(x, false), [CALLEE])])
    case OfImport(_) => Node(Call, [CALLEE])
    case OfBuiltin(x) => Node(Call, [Node(Name(1, x), [])])
    case OfOperator(x) => Node(Operator(x), [ZERO, ONE])
  }

  /** What the host is asked. */
  function Question(lead: Lead): (string, seq<Value>) {
    match lead
    case OfMember(x) => ("call", [MemberV(ModuleV("math"), x)])
    case OfImport(x) => ("call", [MemberV(ModuleV("math"), x)])
    case OfBuiltin(x) => ("call", [BuiltinV(x)])
    case OfOperator(x) => (x, [DataV(Int(0)), DataV(Int(1))])
  }

  function AskingFor(lead: Lead): Node {
    Asking(ImportFor(lead), Using(lead))
  }

  lemma LeadIsLetThrough(lead: Lead)
    requires LetThrough(lead)
    ensures Importing(ImportFor(lead), "facts") && Bystander(Using(lead)) && Individual(Using(lead))
  {
    PlainWords();
    match lead
    case OfMember(x) => MathIsImported(); MemberIsQuiet(x, CALLEE);
    case OfImport(x) => MemberIsImported(x); CallIsQuiet(CALLEE);
    case OfBuiltin(x) => CallIsQuiet(Node(Name(1, x), []));
    case OfOperator(x) => OperatorIsQuiet(x, ZERO, ONE);
  }

  lemma OperatorIsQuiet(x: string, a: Node, b: Node)
    requires a.kind.Const? && b.kind.Const? && a.kids == [] && b.kids == []
    ensures Bystander(Node(Operator(x), [a, b])) && Individual(Node(Operator(x), [a, b]))
  {
    assert [a, b][1..] == [b];
    OneChild(b);
    assert Bystander(a) && Bystander(b);
    assert Uids(a) == {} && Uids(b) == {} && Individual(a) && Individual(b);
  }

  lemma MathIsImported()
    ensures Importing([Node(Import([("math", Some("n"))]), [])], "facts")
  {
    var names := [("math", Some("n"))];
    assert names[0] == ("math", Some("n"));
    assert "math"[0] == 'm' && "n"[0] == 'n' && "resolve"[0] == 'r';
    assert !Hidden("math") && !Hidden("n");
    forall x | x in Identifiers(Node(Import(names), []))
      ensures x == "math" || x == "n"
    {
    }
  }

  lemma MemberIsImported(x: string)
    requires !Hidden(x) && x != "*"
    ensures Importing([Node(ImportFrom("math", 0, [(x, Some("n"))]), [])], "facts")
  {
    var names := [(x, Some("n"))];
    assert names[0] == (x, Some("n"));
    assert "n"[0] == 'n' && "resolve"[0] == 'r' && !Hidden("n");
    forall y | y in Identifiers(Node(ImportFrom("math", 0, names), []))
      ensures y == x || y == "n"
    {
    }
  }

  lemma CallIsQuiet(callee: Node)
    requires callee.kind.Name? && callee.kids == [] && callee.kind.uid == 1
    requires callee.kind.id != "facts" && !Hidden(callee.kind.id)
    ensures Bystander(Node(Call, [callee])) && Individual(Node(Call, [callee]))
  {
    OneChild(callee);
    assert Bystander(callee);
  }

  lemma MemberIsQuiet(x: string, base: Node)
    requires !Hidden(x) && base.kind.Name? && base.kids == [] && base.kind.uid == 1
    requires base.kind.id != "facts" && !Hidden(base.kind.id)
    ensures Bystander(Node(Call, [Node(Attribute(x, false), [base])]))
    ensures Individual(Node(Call, [Node(Attribute(x, false), [base])]))
  {
    var callee := Node(Attribute(x, false), [base]);
    OneChild(base);
    OneChild(callee);
    assert Bystander(base) && Bystander(callee);
  }

  // ----- The host's answer -----

  lemma LeadRuns(lead: Lead, s: State, w: World, fuel: nat)
    requires OffList(lead, w.names) && fuel > 3
    requires lead.OfMember? ==> Lookup("n", s, w.names) == Values([ModuleV("math")])
    requires lead.OfImport? ==> Lookup("n", s, w.names) == Values([MemberV(ModuleV("math"), lead.name)])
    requires lead.OfBuiltin? ==> lead.name !in s.frame && lead.name !in s.globals
    ensures
      var (name, args) := Question(lead);
      Run(Using(lead), s, w, fuel) == (Hosted(w.host(name, args, s.facts)), s)
  {
    match lead
    case OfMember(x) =>
      var callee := Node(Attribute(x, false), [CALLEE]);
      RunOne(CALLEE, s, w, fuel - 2);
      RunOne(callee, s, w, fuel - 1);
      ForeignCall(MemberV(ModuleV("math"), x), s, w, fuel - 1);
    case OfImport(x) =>
      RunOne(CALLEE, s, w, fuel - 1);
      ForeignCall(MemberV(ModuleV("math"), x), s, w, fuel - 1);
    case OfBuiltin(x) =>
      RunOne(Node(Name(1, x), []), s, w, fuel - 1);
      ForeignCall(BuiltinV(x), s, w, fuel - 1);
    case OfOperator(x) =>
      RunTwo(ZERO, ONE, s, w, fuel - 1);
      assert [DataV(Int(0))] + [DataV(Int(1))] == [DataV(Int(0)), DataV(Int(1))];
  }

  lemma ForeignCall(f: Value, s: State, w: World, fuel: nat)
    requires Foreign(f, w.names) && !f.FunctionV? && !(f.MemberV? && f.of.FactsV?)
    ensures Finish(Call, [f], s, w, fuel) == (Hosted(w.host("call", [f], s.facts)), s)
  {
    assert [f][1..] == [] && [f] + [] == [f] && f in [f];
  }

  lemma LeadIsBound(lead: Lead, f: map<string, Data>, w: World)
    requires OffList(lead, w.names) && LetThrough(lead)
    ensures
      var s := Within(ImportFor(lead), Using(lead), f, w);
      && (lead.OfMember? ==> Lookup("n", s, w.names) == Values([ModuleV("math")]))
      && (lead.OfImport? ==> Lookup("n", s, w.names) == Values([MemberV(ModuleV("math"), lead.name)]))
      && (lead.OfBuiltin? ==> lead.name !in s.frame && lead.name !in s.globals)
  {
    match lead
    case OfMember(_) =>
      OneImport("math", "n", Start(f));
      BoundBefore(ImportFor(lead), Using(lead), "n", ModuleV("math"), f, w);
    case OfImport(x) =>
      OneMember("math", x, "n", Start(f), w);
      BoundBefore(ImportFor(lead), Using(lead), "n", MemberV(ModuleV("math"), x), f, w);
    case _ =>
  }

  /** What an import bound is found where the expression is evaluated. */
  lemma BoundBefore(imported: seq<Node>, e: Node, id: string, v: Value, f: map<string, Data>, w: World)
    requires imported != [] && Run(imported[0], Start(f), w, 1).1 == Bind(id, v, Start(f))
    requires |id| == 1
    ensures Lookup(id, Within(imported, e, f, w), w.names) == Values([v])
  {
  }

  lemma OneImport(name: string, alias: string, s: State)
    ensures ImportAll([(name, Some(alias))], s) == Bind(alias, ModuleV(name), s)
  {
    assert [(name, Some(alias))][1..] == [];
  }

  lemma OneMember(from: string, name: string, alias: string, s: State, w: World)
    requires name !in w.names.members
    ensures ImportMembers(from, [(name, Some(alias))], s, w) == Bind(alias, MemberV(ModuleV(from), name), s)
  {
    assert [(name, Some(alias))][1..] == [];
  }

  lemma AskedIsIn(imported: seq<Node>, e: Node)
    ensures Nodes(e) <= Nodes(Asking(imported, e))
    ensures imported != [] ==> imported[0] in Nodes(Asking(imported, e))
  {
    var def, ret := Answering(e), Node(Return, [e]);
    OneChild(e);
    OneChild(ret);
    assert [FIRST, ret][1..] == [ret] && Nodes(ret) <= Nodes(def);
    AmongNodes(imported + [def], |imported|);
    if imported != [] {
      AmongNodes(imported + [def], 0);
    }
  }

  lemma {:induction false} AmongNodes(ns: seq<Node>, i: nat)
    requires i < |ns|
    ensures Nodes(ns[i]) <= NodesOf(ns) && ns[i] in Nodes(ns[i])
  {
    if i > 0 {
      AmongNodes(ns[1..], i - 1);
    }
  }

  lemma OffListIsSeen(lead: Lead, names: Names)
    requires OffList(lead, names)
    ensures !Arithmetic(AskingFor(lead), names)
  {
    AskedIsIn(ImportFor(lead), Using(lead));
    assert Using(lead) in Nodes(Using(lead));
    match lead
    case OfMember(x) =>
      OneChild(Node(Attribute(x, false), [CALLEE]));
      assert Node(Attribute(x, false), [CALLEE]) in Nodes(Using(lead));
    case OfImport(x) => assert ImportFor(lead)[0].kind.names[0].0 == x;
    case OfBuiltin(x) =>
      OneChild(Node(Name(1, x), []));
      assert Node(Name(1, x), []) in Nodes(Using(lead));
    case OfOperator(x) =>
  }

  // ----- A module that reaches the facts through the library -----

  const SYS := Node(Name(1, "sys"), [])

  const FRAME := Node(Call, [Node(Attribute("_getframe", false), [SYS])])

  const LOCALS := Node(Attribute("f_locals", false), [FRAME])

  const WHOLE := Node(Subscript, [LOCALS, Node(Const(Str("facts")), [])])

  /** sys, taken from statistics, hands over the frame and with it the facts. */
  function ThroughFrame(key: string): Node {
    Asking([Node(ImportFrom("statistics", 0, [("sys", None)]), [])],
           Node(Subscript, [WHOLE, Node(Const(Str(key)), [])]))
  }

  /** A host whose frames hold the facts. */
  ghost predicate HasFrames(w: World, facts: map<string, Value>) {
    && "sys" !in w.names.members
    && w.host("call", [MemberV(MemberV(ModuleV("statistics"), "sys"), "_getframe")], facts) == Some(HostV(0))
    && w.host("[]", [MemberV(HostV(0), "f_locals"), DataV(Str("facts"))], facts) == Some(FactsV)
  }

  lemma FrameWords()
    ensures !Hidden("sys") && !Hidden("_getframe") && !Hidden("f_locals") && "sys" != "*"
  {
    assert "sys"[1] == 'y' && "_getframe"[1] == 'g' && "f_locals"[0] == 'f' && "__"[1] == '_';
  }

  lemma SubscriptAside(base: Node, k: Node, facts: string)
    requires !base.kind.Name? && k.kind.Const?
    ensures Aside(Node(Subscript, [base, k]), facts) && Aside(k, facts)
  {
  }

  lemma SubscriptIsQuiet(base: Node, key: string)
    requires Bystander(base) && Individual(base) && !base.kind.Name?
    ensures
      var n := Node(Subscript, [base, Node(Const(Str(key)), [])]);
      Bystander(n) && Individual(n)
  {
    var k := Node(Const(Str(key)), []);
    SubscriptAside(base, k, "facts");
    assert Bystander(k);
    PairIsIndividual(base, k);
  }

  lemma PairIsIndividual(base: Node, k: Node)
    requires Individual(base) && k.kind.Const? && k.kids == []
    ensures Individual(Node(Subscript, [base, k]))
  {
    assert [base, k][1..] == [k];
    OneChild(k);
    assert Uids(k) == {};
  }

  lemma AttributeIsQuiet(base: Node, attr: string)
    requires Bystander(base) && Individual(base) && !Hidden(attr)
    ensures
      var n := Node(Attribute(attr, false), [base]);
      Bystander(n) && Individual(n)
  {
    OneChild(base);
  }

  lemma CallNoneIsQuiet(base: Node)
    requires Bystander(base) && Individual(base)
    ensures Bystander(Node(Call, [base])) && Individual(Node(Call, [base]))
  {
    OneChild(base);
  }

  lemma ThroughFrameIsAccepted(key: string)
    ensures
      var m := ThroughFrame(key);
      && m.kind.Module? && Accepted(m) && Individual(m) && SoleResolve(m)
      && FactsParam(m) == Some("facts") && Reads(Nodes(m), "facts") == {"ok"}
  {
    SysIsImported();
    ThroughFrameIsQuiet(key);
    AskingIsAccepted([Node(ImportFrom("statistics", 0, [("sys", None)]), [])],
                     Node(Subscript, [WHOLE, Node(Const(Str(key)), [])]));
  }

  lemma SysIsImported()
    ensures Importing([Node(ImportFrom("statistics", 0, [("sys", None)]), [])], "facts")
  {
    FrameWords();
    var names := [("sys", None)];
    assert names[0] == ("sys", None);
    forall y | y in Identifiers(Node(ImportFrom("statistics", 0, names), []))
      ensures y == "sys"
    {
    }
  }

  lemma MemberRuns(base: Node, v: Value, attr: string, s: State, w: World, fuel: nat)
    requires fuel > 0 && Run(base, s, w, fuel - 1) == (Values([v]), s) && Foreign(MemberV(v, attr), w.names)
    ensures Run(Node(Attribute(attr, false), [base]), s, w, fuel) == (Values([MemberV(v, attr)]), s)
  {
    RunOne(base, s, w, fuel - 1);
  }

  lemma ItemRuns(base: Node, v: Value, key: string, s: State, w: World, fuel: nat)
    requires fuel > 1 && Run(base, s, w, fuel - 1) == (Values([v]), s)
    ensures Run(Node(Subscript, [base, Node(Const(Str(key)), [])]), s, w, fuel) == (Index(v, DataV(Str(key)), s, w), s)
  {
    RunTwo(base, Node(Const(Str(key)), []), s, w, fuel - 1);
    assert [v] + [DataV(Str(key))] == [v, DataV(Str(key))];
  }

  lemma FrameRuns(s: State, w: World, fuel: nat)
    requires Lookup("sys", s, w.names) == Values([MemberV(ModuleV("statistics"), "sys")])
    requires HasFrames(w, s.facts) && fuel > 6
    ensures Run(WHOLE, s, w, fuel) == (Values([FactsV]), s)
  {
    var sys := MemberV(ModuleV("statistics"), "sys");
    MemberRuns(SYS, sys, "_getframe", s, w, fuel - 3);
    RunOne(Node(Attribute("_getframe", false), [SYS]), s, w, fuel - 3);
    ForeignCall(MemberV(sys, "_getframe"), s, w, fuel - 3);
    assert Run(FRAME, s, w, fuel - 2) == (Values([HostV(0)]), s);
    MemberRuns(FRAME, HostV(0), "f_locals", s, w, fuel - 1);
    ItemRuns(LOCALS, MemberV(HostV(0), "f_locals"), "facts", s, w, fuel);
  }

  lemma SysIsNoArithmetic()
    ensures "sys" !in ARITHMETIC.members
  {
    forall x | x in ARITHMETIC.members
      ensures |x| != |"sys"| || x[1] != 'y'
    {
    }
  }

  lemma ThroughFrameAnswers(key: string, f: map<string, Data>, w: World, fuel: nat)
    requires HasFrames(w, Window(f)) && "ok" in f && fuel > 10
    ensures Resolve(ThroughFrame(key), f, w, fuel) == if key in f then Values([DataV(f[key])]) else Raised
  {
    var imported := [Node(ImportFrom("statistics", 0, [("sys", None)]), [])];
    var e := Node(Subscript, [WHOLE, Node(Const(Str(key)), [])]);
    ThroughFrameIsQuiet(key);
    SysIsImported();
    SysIsBound(e, f, w);
    WholeRuns(key, Within(imported, e, f, w), w, fuel - 2);
    AskingAnswers(imported, e, f, w, fuel);
  }

  lemma WholeRuns(key: string, s: State, w: World, fuel: nat)
    requires Lookup("sys", s, w.names) == Values([MemberV(ModuleV("statistics"), "sys")])
    requires HasFrames(w, s.facts) && fuel > 7
    ensures Run(Node(Subscript, [WHOLE, Node(Const(Str(key)), [])]), s, w, fuel)
      == (if key in s.facts then Values([s.facts[key]]) else Raised, s)
  {
    FrameRuns(s, w, fuel - 1);
    ItemRuns(WHOLE, FactsV, key, s, w, fuel);
  }

  lemma ThroughFrameIsQuiet(key: string)
    ensures
      var e := Node(Subscript, [WHOLE, Node(Const(Str(key)), [])]);
      Bystander(e) && Individual(e)
  {
    PlainWords();
    FrameWords();
    assert Bystander(SYS) && Individual(SYS) by { assert Identifiers(SYS) == {"sys"}; }
    AttributeIsQuiet(SYS, "_getframe");
    CallNoneIsQuiet(Node(Attribute("_getframe", false), [SYS]));
    AttributeIsQuiet(FRAME, "f_locals");
    SubscriptIsQuiet(LOCALS, "facts");
    SubscriptIsQuiet(WHOLE, key);
  }

  lemma SysIsBound(e: Node, f: map<string, Data>, w: World)
    requires "sys" !in w.names.members
    ensures
      var s := Within([Node(ImportFrom("statistics", 0, [("sys", None)]), [])], e, f, w);
      Lookup("sys", s, w.names) == Values([MemberV(ModuleV("statistics"), "sys")])
  {
    assert "sys"[0] == 's' && "resolve"[0] == 'r' && "facts"[0] == 'f';
    OneMemberPlain("statistics", "sys", Start(f), w);
  }

  lemma OneMemberPlain(from: string, name: string, s: State, w: World)
    requires name !in w.names.members
    ensures ImportMembers(from, [(name, None)], s, w) == Bind(name, MemberV(ModuleV(from), name), s)
  {
    var names: seq<(string, Option<string>)> := [(name, None)];
    assert names[1..] == [];
  }
}
