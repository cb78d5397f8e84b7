/** What the host can decide of an answer, and exactly when it does. */
module HoldoutHost {
  import opened Options
  import opened Holdout
  import opened HoldoutSemantics

  // A world whose host says nothing makes every computation of the host's raise, and nothing in the
  // language catches. So a run there either ends in that or never met the host.

  function Silent(w: World): World {
    w.(host := (name, vs, facts) => None)
  }

  /** The silent run raised, or it is the run of any host. */
  predicate Heard(a: (Outcome, State), b: (Outcome, State)) {
    a.0 == Raised || a == b
  }

  lemma ComputeHeard(name: string, vs: seq<Value>, s: State, w: World)
    ensures Heard((Compute(name, vs, s, Silent(w)), s), (Compute(name, vs, s, w), s))
  {
  }

  lemma FinishHeard(k: Kind, vs: seq<Value>, s: State, w: World, fuel: nat)
    ensures Heard(Finish(k, vs, s, Silent(w), fuel), Finish(k, vs, s, w, fuel))
    decreases fuel, 1
  {
    match k
    case Subscript => if |vs| == 2 { ComputeHeard("[]", [vs[0], vs[1]], s, w); }
    case Call => if vs != [] { ApplyHeard(vs[0], vs[1..], s, w, fuel); }
    case Operator(op) => ComputeHeard(op, vs, s, w);
    case _ =>
  }

  lemma {:induction false} ApplyHeard(f: Value, args: seq<Value>, s: State, w: World, fuel: nat)
    ensures Heard(Apply(f, args, s, Silent(w), fuel), Apply(f, args, s, w, fuel))
    decreases fuel, 0
  {
    ComputeHeard("call", [f] + args, s, w);
    if f.FunctionV? && f.def.kind.Def? && |f.def.kind.params| == |args| && fuel > 0 {
      BlockHeard(f.def.kids, s.(frame := Frame(f.def), locals := Zip(f.def.kind.params, args)), w, fuel - 1);
    }
  }

  lemma {:induction false} RunHeard(n: Node, s: State, w: World, fuel: nat)
    ensures Heard(Run(n, s, Silent(w), fuel), Run(n, s, w, fuel))
    decreases fuel, 0
  {
    if fuel > 0 {
      match n.kind
      case Conditional => BranchHeard(n.kids, s, w, fuel - 1);
      case If => BranchHeard(n.kids, s, w, fuel - 1);
      case Assign => AssignHeard(n.kids, s, w, fuel - 1);
      case For => ForHeard(n.kids, s, w, fuel - 1);
      case While => WhileHeard(n, s, w, fuel - 1);
      case Block => BlockHeard(n.kids, s, w, fuel - 1);
      case Module => BlockHeard(n.kids, s, w, fuel - 1);
      case ImportFrom(from, _, names) => ImportHeard(from, names, s, w);
      case _ => OperandsHeard(n, s, w, fuel - 1);
    }
  }

  lemma {:induction false} ImportHeard(from: string, names: seq<(string, Option<string>)>, s: State, w: World)
    ensures ImportMembers(from, names, s, Silent(w)) == ImportMembers(from, names, s, w)
  {
    if names != [] {
      var o := Member(ModuleV(from), names[0].0, w);
      var v := if o.Values? && |o.vs| == 1 then o.vs[0] else DataV(Null);
      ImportHeard(from, names[1..], Bind(ImportedAs(names[0]), v, s), w);
    }
  }

  lemma {:induction false} OperandsHeard(n: Node, s: State, w: World, fuel: nat)
    ensures
      var a, b := RunAll(n.kids, s, Silent(w), fuel), RunAll(n.kids, s, w, fuel);
      && Heard(a, b)
      && (a.0.Values? ==> Heard(Finish(n.kind, a.0.vs, a.1, Silent(w), fuel), Finish(n.kind, b.0.vs, b.1, w, fuel)))
    decreases fuel, |n.kids| + 2
  {
    AllHeard(n.kids, s, w, fuel);
    var a := RunAll(n.kids, s, Silent(w), fuel);
    if a.0.Values? {
      FinishHeard(n.kind, a.0.vs, a.1, w, fuel);
    }
  }

  lemma {:induction false} AllHeard(ns: seq<Node>, s: State, w: World, fuel: nat)
    ensures Heard(RunAll(ns, s, Silent(w), fuel), RunAll(ns, s, w, fuel))
    decreases fuel, |ns|
  {
    if ns != [] {
      RunHeard(ns[0], s, w, fuel);
      var a := Run(ns[0], s, Silent(w), fuel);
      if a.0.Values? {
        AllHeard(ns[1..], a.1, w, fuel);
      }
    }
  }

  lemma {:induction false} BlockHeard(ns: seq<Node>, s: State, w: World, fuel: nat)
    ensures Heard(RunBlock(ns, s, Silent(w), fuel), RunBlock(ns, s, w, fuel))
    decreases fuel, |ns|
  {
    if ns != [] {
      RunHeard(ns[0], s, w, fuel);
      var a := Run(ns[0], s, Silent(w), fuel);
      if a.0.Next? {
        BlockHeard(ns[1..], a.1, w, fuel);
      }
    }
  }

  lemma {:induction false} BranchHeard(kids: seq<Node>, s: State, w: World, fuel: nat)
    ensures Heard(RunBranch(kids, s, Silent(w), fuel), RunBranch(kids, s, w, fuel))
    decreases fuel, |kids|
  {
    if |kids| == 3 {
      AllHeard(kids[..1], s, w, fuel);
      var a := RunAll(kids[..1], s, Silent(w), fuel);
      if a.0.Values? && |a.0.vs| == 1 {
        RunHeard(if IsTrue(a.0.vs[0], a.1) then kids[1] else kids[2], a.1, w, fuel);
      }
    }
  }

  lemma {:induction false} AssignHeard(kids: seq<Node>, s: State, w: World, fuel: nat)
    ensures Heard(RunAssign(kids, s, Silent(w), fuel), RunAssign(kids, s, w, fuel))
    decreases fuel, |kids| + 1
  {
    if |kids| == 2 {
      AllHeard(kids[1..], s, w, fuel);
      var a := RunAll(kids[1..], s, Silent(w), fuel);
      if a.0.Values? && kids[0].kind.Subscript? && fuel > 0 {
        AllHeard(kids[0].kids, a.1, w, fuel - 1);
      }
    }
  }

  lemma {:induction false} ForHeard(kids: seq<Node>, s: State, w: World, fuel: nat)
    ensures Heard(RunFor(kids, s, Silent(w), fuel), RunFor(kids, s, w, fuel))
    decreases fuel, |kids| + 1
  {
    if |kids| == 3 && kids[0].kind.Name? {
      AllHeard(kids[1..2], s, w, fuel);
      var a := RunAll(kids[1..2], s, Silent(w), fuel);
      if a.0.Values? && |a.0.vs| == 1 {
        ComputeHeard("iter", [a.0.vs[0]], a.1, w);
        var p := Iterated(a.0.vs[0], a.1, Silent(w));
        if p.Values? && fuel > 0 {
          LoopHeard(kids[0].kind.id, p.vs, kids[2], a.1, w, fuel - 1);
        }
      }
    }
  }

  lemma {:induction false} LoopHeard(id: string, items: seq<Value>, body: Node, s: State, w: World, fuel: nat)
    ensures Heard(RunLoop(id, items, body, s, Silent(w), fuel), RunLoop(id, items, body, s, w, fuel))
    decreases fuel, |items|
  {
    if items != [] {
      RunHeard(body, Bind(id, items[0], s), w, fuel);
      var a := Run(body, Bind(id, items[0], s), Silent(w), fuel);
      if a.0.Next? {
        LoopHeard(id, items[1..], body, a.1, w, fuel);
      }
    }
  }

  lemma {:induction false} WhileHeard(n: Node, s: State, w: World, fuel: nat)
    ensures Heard(RunWhile(n, s, Silent(w), fuel), RunWhile(n, s, w, fuel))
    decreases fuel, |n.kids| + 1
  {
    if |n.kids| == 2 {
      AllHeard(n.kids[..1], s, w, fuel);
      var a := RunAll(n.kids[..1], s, Silent(w), fuel);
      if a.0.Values? && |a.0.vs| == 1 && IsTrue(a.0.vs[0], a.1) {
        RunHeard(n.kids[1], a.1, w, fuel);
        var p := Run(n.kids[1], a.1, Silent(w), fuel);
        if p.0.Next? {
          RunHeard(n, p.1, w, fuel);
        }
      }
    }
  }

  lemma ResolveHeard(m: Node, facts: map<string, Data>, w: World, fuel: nat)
    ensures Resolve(m, facts, Silent(w), fuel) == Raised
         || Resolve(m, facts, Silent(w), fuel) == Resolve(m, facts, w, fuel)
  {
    RunHeard(m, Start(facts), w, fuel);
    var a := Run(m, Start(facts), Silent(w), fuel);
    if a.0.Next? && "resolve" in a.1.globals {
      ApplyHeard(a.1.globals["resolve"], [FactsV], a.1, w, fuel);
    }
  }

  /** For any module, checked or not: an answer is every host's exactly when it is the silent one's. */
  lemma HostDecidesExactly(m: Node, facts: map<string, Data>, w: World, fuel: nat)
    requires Resolve(m, facts, w, fuel) != Raised
    ensures (forall h: World | h == w.(host := h.host) :: Resolve(m, facts, h, fuel) == Resolve(m, facts, w, fuel))
       <==> Resolve(m, facts, Silent(w), fuel) == Resolve(m, facts, w, fuel)
  {
    forall h: World | h == w.(host := h.host)
      ensures Resolve(m, facts, Silent(w), fuel) == Raised
           || Resolve(m, facts, Silent(w), fuel) == Resolve(m, facts, h, fuel)
    {
      assert Silent(h) == Silent(w);
      ResolveHeard(m, facts, h, fuel);
    }
    assert Silent(w) == w.(host := Silent(w).host);
  }
}
