/** An accepted predicate that names only arithmetic answers by the keys it was found to read, and no more. */
module HoldoutSoundness {
  import opened Options
  import opened Holdout
  import opened HoldoutSemantics
  import opened HoldoutIdentity
  import opened HoldoutRuns

  /** The keys found are all behavioural facts. */
  lemma ReadsAreBehavioural(m: Node)
    requires Accepted(m)
    ensures Reads(Nodes(m), FactsParam(m).value) <= BEHAVIOURAL_FACTS
    ensures Reads(Nodes(m), FactsParam(m).value) != {}
  {
    var facts := FactsParam(m).value;
    forall n <- Nodes(m), r <- NodeReads(n, facts)
      ensures r in BEHAVIOURAL_FACTS
    {
      assert NodeOk(n, facts);
    }
  }

  lemma {:induction false} FirstResolveIsIn(items: seq<Node>)
    requires FirstResolve(items).Some?
    ensures FirstResolve(items).value in NodesOf(items) && FirstResolve(items).value.kind.Def?
    ensures FirstResolve(items).value in items
  {
    if !(items[0].kind.Def? && items[0].kind.name == "resolve") {
      FirstResolveIsIn(items[1..]);
    }
  }

  lemma CleanDefinition(items: seq<Node>, def: Node, c: Rules)
    requires CleanAll(items, c) && def in items
    ensures Clean(def, c)
  {
    var i :| 0 <= i < |items| && items[i] == def;
    CleanAllMeans(items, i, c);
  }

  /** The definition called on the facts. */
  lemma {:induction false} ResolveSame(s: State, t: State, w: World, h: World, c: Rules, fuel: nat)
    requires Alike(s, t, c) && Worlds(w, h, c) && "resolve" in s.globals
    requires c.def.kind.params != [] && c.def.kind.params[0] == c.facts
    ensures Apply(s.globals["resolve"], [FactsV], s, w, fuel).0 == Apply(t.globals["resolve"], [FactsV], t, h, fuel).0
  {
    if |c.def.kind.params| == 1 && fuel > 0 {
      assert Zip(c.def.kind.params, [FactsV]) == map[c.facts := FactsV];
      FunctionSame(c.def, [FactsV], s, t, w, h, c, fuel);
    }
  }

  lemma CheckedParameter(m: Node)
    requires FactsParam(m).Some?
    ensures
      var def := FirstResolve(m.kids).value;
      && def in m.kids && def in Nodes(m) && def.kind.Def? && def.kind.params != []
      && FactsParam(m).value == def.kind.params[0] && def.kind.params[0] in Identifiers(def)
  {
    FirstResolveIsIn(m.kids);
    ParameterIsIdentifier(FirstResolve(m.kids).value);
  }

  lemma ParameterIsIdentifier(def: Node)
    requires def.kind.Def? && def.kind.params != []
    ensures def.kind.params[0] in Identifiers(def)
  {
    assert def.kind.params[0] in def.kind.params;
  }

  lemma ModuleSame(m: Node, s: State, t: State, w: World, h: World, c: Rules, fuel: nat)
    requires Alike(s, t, c) && Worlds(w, h, c) && Clean(m, c)
    requires c.def.kind.params != [] && c.def.kind.params[0] == c.facts
    ensures Resolved(m, s, w, fuel) == Resolved(m, t, h, fuel)
  {
    RunSame(m, s, t, w, h, c, fuel);
    var a, b := Run(m, s, w, fuel), Run(m, t, h, fuel);
    if a.0.Next? && "resolve" in a.1.globals {
      ResolveSame(a.1, b.1, w, h, c, fuel);
    }
  }

  /** An accepted module that names only arithmetic answers the same on any two windows that agree on
      the keys it reads, whichever host each of them meets. */
  lemma ArithmeticDependsOnReadsOnly(m: Node, f: map<string, Data>, g: map<string, Data>, w: World, h: World, fuel: nat)
    requires m.kind.Module? && Accepted(m) && Individual(m) && SoleResolve(m) && Arithmetic(m, w.names)
    requires h == w.(host := h.host)
    requires Agree(Window(f), Window(g), Reads(Nodes(m), FactsParam(m).value))
    ensures Resolve(m, f, w, fuel) == Resolve(m, g, h, fuel)
  {
    var c := RulesFor(m, w.names);
    AcceptedIsClean(m, w.names);
    CheckedParameter(m);
    assert CleanAll(m.kids, c);
    CleanDefinition(m.kids, c.def, c);
    ModuleSame(m, Start(f), Start(g), w, h, c, fuel);
  }
}
