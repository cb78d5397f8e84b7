/** Exactly what the checker accepts, said of the tree: which names it may state, what it may import, and
    that the facts are mentioned only to read a literal key. */
module HoldoutExact {
  import opened Options
  import opened Holdout
  import opened HoldoutSemantics
  import opened HoldoutIdentity

  // ----- Names and imports -----

  /** What shows an interpreter from within, or reaches outside it. */
  const INTROSPECTION: set<string> := {
    "__builtins__", "__import__", "breakpoint", "compile", "delattr", "eval", "exec", "getattr", "globals",
    "input", "locals", "open", "setattr", "vars"
  }

  predicate Speakable(name: string) {
    !(|name| >= 2 && name[0] == '_' && name[1] == '_') && name !in INTROSPECTION
  }

  /** A statement's names: a name, an attribute, a definition with its parameters, each module and member
      imported and what it is imported as, each name declared global. */
  predicate States(n: Node, name: string) {
    match n.kind
    case Name(_, id) => name == id
    case Attribute(attr, _) => name == attr
    case Def(def, params) => name == def || name in params
    case Import(names) => exists x <- names :: name == x.0 || x.1 == Some(name)
    case ImportFrom(_, _, names) => exists x <- names :: name == x.0 || x.1 == Some(name)
    case Global(names) => name in names
    case _ => false
  }

  /** Only arithmetic is imported, absolutely and by name; no attribute is written. */
  predicate Imports(n: Node) {
    match n.kind
    case Import(names) => forall x <- names :: x.0 == "math" || x.0 == "statistics"
    case ImportFrom(from, level, names) =>
      (from == "math" || from == "statistics") && level == 0 && forall x <- names :: x.0 != "*"
    case Attribute(_, store) => !store
    case _ => true
  }

  ghost predicate Plain(n: Node) {
    Imports(n) && forall name | States(n, name) :: Speakable(name)
  }

  lemma HiddenMeans(name: string)
    ensures !Hidden(name) <==> Speakable(name)
  {
    assert "__" <= name <==> |name| >= 2 && name[0] == '_' && name[1] == '_' by {
      if |name| >= 2 && name[0] == '_' && name[1] == '_' { assert name[..2] == "__"; }
    }
    assert FORBIDDEN_NAMES == INTROSPECTION;
  }

  lemma StatesMeans(n: Node, name: string)
    ensures name in Identifiers(n) <==> States(n, name)
  {
    match n.kind
    case Import(names) => AliasesMean(names, name);
    case ImportFrom(_, _, names) => AliasesMean(names, name);
    case _ =>
  }

  lemma AliasesMean(names: seq<(string, Option<string>)>, name: string)
    ensures name in AliasNames(names) <==> exists x <- names :: name == x.0 || x.1 == Some(name)
  {
  }

  lemma PlainMeans(n: Node)
    ensures Plain(n) <==>
      (forall x <- Identifiers(n) :: !Hidden(x)) && PureImport(n) && (n.kind.Attribute? ==> !n.kind.store)
  {
    forall name: string
      ensures name in Identifiers(n) <==> States(n, name)
      ensures !Hidden(name) <==> Speakable(name)
    {
      StatesMeans(n, name);
      HiddenMeans(name);
    }
    assert PURE_MODULES == {"math", "statistics"};
  }

  // ----- Mentions of the facts -----

  /** facts[...] */
  predicate Item(n: Node, facts: string) {
    n.kind == Subscript && |n.kids| > 0 && IsName(n.kids[0], facts)
  }

  /** facts.get(...), with an argument. */
  predicate Get(n: Node, facts: string) {
    && n.kind == Call && |n.kids| > 1 && n.kids[0].kind.Attribute? && n.kids[0].kind.attr == "get"
    && |n.kids[0].kids| > 0 && IsName(n.kids[0].kids[0], facts)
  }

  /** The literal that names a fact there, if it is one. */
  predicate Key(n: Node, key: string) {
    n.kind == Const(Str(key)) && key in BEHAVIOURAL_FACTS
  }

  /** Below this node the facts are mentioned only in items and gets whose key is a behavioural fact. */
  ghost predicate OnlyReads(n: Node, facts: string) {
    if Item(n, facts) then |n.kids| > 1 && (exists key :: Key(n.kids[1], key)) && OnlyReadsAll(n.kids[1..], facts)
    else if Get(n, facts) then
      && (exists key :: Key(n.kids[1], key)) && OnlyReadsAll(n.kids[0].kids[1..], facts)
      && OnlyReadsAll(n.kids[1..], facts)
    else !IsName(n, facts) && OnlyReadsAll(n.kids, facts)
  }

  ghost predicate OnlyReadsAll(ns: seq<Node>, facts: string) {
    ns != [] ==> OnlyReads(ns[0], facts) && OnlyReadsAll(ns[1..], facts)
  }

  /** A read of a key. */
  predicate ReadsKey(n: Node, facts: string, key: string) {
    (Item(n, facts) || Get(n, facts)) && |n.kids| > 1 && n.kids[1].kind == Const(Str(key))
  }

  lemma KeyMeans(n: Node)
    ensures IsFactKey(n) <==> exists key :: Key(n, key)
  {
    if IsFactKey(n) { assert Key(n, StrOf(n)); }
  }

  /** Every item and get has a good key. */
  ghost predicate GoodKeys(all: set<Node>, facts: string) {
    forall n <- all ::
      && (SubscriptsFacts(n, facts) ==> |n.kids| > 1 && IsFactKey(n.kids[1]))
      && (GetsFacts(n, facts) ==> IsFactKey(n.kids[1]))
  }

  /** A name is a leaf, as a parser builds it. */
  predicate Leaves(all: set<Node>) {
    forall n <- all :: n.kind.Name? ==> n.kids == []
  }

  lemma GoodKeysUnion(a: set<Node>, b: set<Node>, facts: string)
    ensures GoodKeys(a + b, facts) <==> GoodKeys(a, facts) && GoodKeys(b, facts)
  {
  }

  lemma FirstAndRest(ns: seq<Node>, facts: string)
    requires ns != [] && ns[0].kind.Name? && ns[0].kids == []
    ensures NodesOf(ns) == {ns[0]} + NodesOf(ns[1..])
    ensures GoodKeys(NodesOf(ns), facts) <==> GoodKeys(NodesOf(ns[1..]), facts)
  {
    assert Nodes(ns[0]) == {ns[0]};
  }

  lemma {:induction false} OnlyReadsMeans(n: Node, facts: string)
    requires Leaves(Nodes(n))
    ensures OnlyReads(n, facts) <==> Loose(n, facts) == {} && GoodKeys(Nodes(n), facts)
    decreases n, 1
  {
    assert n in Nodes(n) && NodesOf(n.kids) <= Nodes(n);
    GoodKeysUnion({n}, NodesOf(n.kids), facts);
    if |n.kids| > 1 { KeyMeans(n.kids[1]); }
    if Item(n, facts) {
      assert n.kids[0] in Nodes(n.kids[0]);
      FirstAndRest(n.kids, facts);
      OnlyReadsAllMean(n.kids[1..], facts);
    } else if Get(n, facts) {
      GetMeans(n, facts);
      OnlyReadsAllMean(n.kids[0].kids[1..], facts);
      OnlyReadsAllMean(n.kids[1..], facts);
    } else {
      OnlyReadsAllMean(n.kids, facts);
    }
  }

  lemma GetMeans(n: Node, facts: string)
    requires Get(n, facts) && Leaves(Nodes(n))
    ensures NodesOf(n.kids[0].kids[1..]) <= Nodes(n) && NodesOf(n.kids[1..]) <= Nodes(n)
    ensures GoodKeys(NodesOf(n.kids), facts)
       <==> GoodKeys(NodesOf(n.kids[0].kids[1..]), facts) && GoodKeys(NodesOf(n.kids[1..]), facts)
  {
    var callee := n.kids[0];
    assert callee in Nodes(callee) && callee.kids[0] in Nodes(callee.kids[0]);
    assert Nodes(callee.kids[0]) <= NodesOf(callee.kids) <= Nodes(callee) <= Nodes(n);
    FirstAndRest(callee.kids, facts);
    GoodKeysUnion(Nodes(callee), NodesOf(n.kids[1..]), facts);
    GoodKeysUnion({callee}, NodesOf(callee.kids), facts);
  }

  lemma {:induction false} OnlyReadsAllMean(ns: seq<Node>, facts: string)
    requires Leaves(NodesOf(ns))
    ensures OnlyReadsAll(ns, facts) <==> LooseIn(ns, facts) == {} && GoodKeys(NodesOf(ns), facts)
    decreases ns, 0
  {
    if ns != [] {
      GoodKeysUnion(Nodes(ns[0]), NodesOf(ns[1..]), facts);
      OnlyReadsMeans(ns[0], facts);
      OnlyReadsAllMean(ns[1..], facts);
    }
  }

  // ----- Every mention is loose or allowed -----

  lemma OwnAllows(n: Node, all: set<Node>, facts: string)
    requires n in all
    ensures NodeAllows(n, facts) <= Allows(all, facts)
  {
  }

  lemma {:induction false} MentionIs(n: Node, facts: string, x: Node)
    requires Leaves(Nodes(n)) && x in Nodes(n) && IsName(x, facts)
    ensures x.kind.uid in Loose(n, facts) || x.kind.uid in Allows(Nodes(n), facts)
    decreases n, 1
  {
    AllowsUnion({n}, NodesOf(n.kids), facts);
    OwnAllows(n, Nodes(n), facts);
    if Item(n, facts) {
      assert n.kids[0] in Nodes(n.kids[0]) && NodesOf(n.kids) <= Nodes(n);
      FirstAndRest(n.kids, facts);
      AllowsUnion({n.kids[0]}, NodesOf(n.kids[1..]), facts);
      if x != n.kids[0] { MentionIsIn(n.kids[1..], facts, x); }
    } else if Get(n, facts) {
      GetMention(n, facts, x);
    } else if x != n {
      MentionIsIn(n.kids, facts, x);
    }
  }

  lemma GetAllows(n: Node, facts: string)
    requires Get(n, facts)
    ensures Allows(NodesOf(n.kids[0].kids[1..]), facts) <= Allows(Nodes(n), facts)
    ensures Allows(NodesOf(n.kids[1..]), facts) <= Allows(Nodes(n), facts)
  {
    AllowsUnion({n}, NodesOf(n.kids), facts);
    AllowsUnion(Nodes(n.kids[0]), NodesOf(n.kids[1..]), facts);
    AllowsUnion({n.kids[0]}, NodesOf(n.kids[0].kids), facts);
    AllowsUnion(Nodes(n.kids[0].kids[0]), NodesOf(n.kids[0].kids[1..]), facts);
  }

  lemma {:induction false} GetMention(n: Node, facts: string, x: Node)
    requires Get(n, facts) && Leaves(Nodes(n)) && x in Nodes(n) && IsName(x, facts)
    ensures x.kind.uid in Loose(n, facts) || x.kind.uid in Allows(Nodes(n), facts)
    decreases n, 0
  {
    var callee := n.kids[0];
    GetMeans(n, facts);
    assert callee.kids[0] in Nodes(callee.kids[0]);
    assert NodesOf(callee.kids) <= Nodes(callee) <= NodesOf(n.kids) <= Nodes(n);
    FirstAndRest(callee.kids, facts);
    OwnAllows(n, Nodes(n), facts);
    GetAllows(n, facts);
    if x in NodesOf(callee.kids[1..]) {
      MentionIsIn(callee.kids[1..], facts, x);
    } else if x in NodesOf(n.kids[1..]) {
      MentionIsIn(n.kids[1..], facts, x);
    }
  }

  lemma {:induction false} MentionIsIn(ns: seq<Node>, facts: string, x: Node)
    requires Leaves(NodesOf(ns)) && x in NodesOf(ns) && IsName(x, facts)
    ensures x.kind.uid in LooseIn(ns, facts) || x.kind.uid in Allows(NodesOf(ns), facts)
    decreases ns, 0
  {
    AllowsUnion(Nodes(ns[0]), NodesOf(ns[1..]), facts);
    if x in Nodes(ns[0]) {
      MentionIs(ns[0], facts, x);
    } else {
      MentionIsIn(ns[1..], facts, x);
    }
  }

  lemma NothingLooseMeans(m: Node, facts: string)
    requires Individual(m) && Leaves(Nodes(m))
    ensures NamesAllowed(Nodes(m), facts, Allows(Nodes(m), facts)) <==> Loose(m, facts) == {}
  {
    AllowedAreNotLoose(m, facts);
    if NamesAllowed(Nodes(m), facts, Allows(Nodes(m), facts)) {
      forall u | u in Loose(m, facts) ensures false { LooseAreNames(m, facts, u); }
    }
    if Loose(m, facts) == {} {
      forall x <- Nodes(m) | IsName(x, facts) ensures x.kind.uid in Allows(Nodes(m), facts) { MentionIs(m, facts, x); }
    }
  }

  // ----- The module -----

  /** The first definition of resolve at the top has a parameter, which the facts are handed to. */
  ghost predicate Resolves(m: Node, facts: string) {
    exists k :: 0 <= k < |m.kids| && Defines(m.kids[k]) && (forall l | 0 <= l < k :: !Defines(m.kids[l]))
                && m.kids[k].kind.params != [] && m.kids[k].kind.params[0] == facts
  }

  predicate Defines(n: Node) {
    n.kind.Def? && n.kind.name == "resolve"
  }

  lemma {:induction false} FirstResolveMeans(items: seq<Node>) returns (k: nat)
    ensures FirstResolve(items).None? <==> forall n <- items :: !Defines(n)
    ensures FirstResolve(items).Some? ==>
      && k < |items| && FirstResolve(items) == Some(items[k]) && Defines(items[k])
      && forall l | 0 <= l < k :: !Defines(items[l])
  {
    k := 0;
    if items != [] && !Defines(items[0]) {
      k := FirstResolveMeans(items[1..]);
      assert forall n <- items :: n == items[0] || n in items[1..];
      assert forall l | 0 < l < |items| :: items[l] == items[1..][l - 1];
      k := k + 1;
    }
  }

  lemma ResolvesMeans(m: Node, facts: string)
    ensures Resolves(m, facts) <==> FactsParam(m) == Some(facts)
  {
    var k := FirstResolveMeans(m.kids);
    if Resolves(m, facts) {
      var l :| 0 <= l < |m.kids| && Defines(m.kids[l]) && (forall i | 0 <= i < l :: !Defines(m.kids[i]))
               && m.kids[l].kind.params != [] && m.kids[l].kind.params[0] == facts;
      assert m.kids[l] in m.kids;
    }
  }

  /** The keys returned are those that some item or get reads. */
  lemma KeysRead(m: Node, facts: string, key: string)
    requires GoodKeys(Nodes(m), facts)
    ensures key in Reads(Nodes(m), facts) <==> exists n <- Nodes(m) :: ReadsKey(n, facts, key)
  {
    forall n <- Nodes(m) ensures key in NodeReads(n, facts) <==> ReadsKey(n, facts, key) {
    }
  }

  /** Nothing is said twice with one identity, and no name has children: what a parser gives. */
  predicate Parsed(m: Node) {
    Individual(m) && Leaves(Nodes(m))
  }

  /** A module is accepted exactly if it defines resolve with a parameter, states no name with two leading
      underscores and none that shows the interpreter from within, imports only math and statistics,
      absolutely and by name, writes no attribute, mentions that parameter only to read behavioural facts
      by literal keys, and reads one. */
  lemma AcceptedExactly(m: Node)
    requires Parsed(m)
    ensures Accepted(m) <==> exists facts ::
      && Resolves(m, facts) && (forall n <- Nodes(m) :: Plain(n)) && OnlyReads(m, facts)
      && exists n, key :: n in Nodes(m) && ReadsKey(n, facts, key)
  {
    forall facts ensures Resolves(m, facts) <==> FactsParam(m) == Some(facts) { ResolvesMeans(m, facts); }
    if FactsParam(m).Some? { AcceptedFor(m, FactsParam(m).value); }
  }

  lemma AcceptedFor(m: Node, facts: string)
    requires Parsed(m) && FactsParam(m) == Some(facts)
    ensures Accepted(m) <==>
      && (forall n <- Nodes(m) :: Plain(n)) && OnlyReads(m, facts)
      && exists n, key :: n in Nodes(m) && ReadsKey(n, facts, key)
  {
    NothingLooseMeans(m, facts);
    OnlyReadsMeans(m, facts);
    NodesOkMean(m, facts);
    if GoodKeys(Nodes(m), facts) { SomeRead(m, facts); }
  }

  lemma NodesOkMean(m: Node, facts: string)
    ensures (forall n <- Nodes(m) :: NodeOk(n, facts))
       <==> (forall n <- Nodes(m) :: Plain(n)) && GoodKeys(Nodes(m), facts)
  {
    forall n
      ensures NodeOk(n, facts)
        <==> && Plain(n) && (SubscriptsFacts(n, facts) ==> |n.kids| > 1 && IsFactKey(n.kids[1]))
             && (GetsFacts(n, facts) ==> IsFactKey(n.kids[1]))
    {
      PlainMeans(n);
    }
  }

  lemma SomeRead(m: Node, facts: string)
    requires GoodKeys(Nodes(m), facts)
    ensures Reads(Nodes(m), facts) != {} <==> exists n, key :: n in Nodes(m) && ReadsKey(n, facts, key)
  {
    forall key ensures key in Reads(Nodes(m), facts) <==> exists n <- Nodes(m) :: ReadsKey(n, facts, key) {
      KeysRead(m, facts, key);
    }
    if Reads(Nodes(m), facts) != {} {
      var key :| key in Reads(Nodes(m), facts);
      var n :| n in Nodes(m) && ReadsKey(n, facts, key);
    }
    if n, key :| n in Nodes(m) && ReadsKey(n, facts, key) {
      assert key in Reads(Nodes(m), facts);
    }
  }

  /** And what the checker returns of an accepted module is the keys it reads. */
  lemma ReturnsExactly(m: Node, key: string)
    requires Accepted(m)
    ensures
      var facts := FactsParam(m).value;
      key in Reads(Nodes(m), facts) <==> exists n :: n in Nodes(m) && ReadsKey(n, facts, key)
  {
    NodesOkMean(m, FactsParam(m).value);
    KeysRead(m, FactsParam(m).value, key);
  }
}
