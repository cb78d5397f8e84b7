/** From the checker's two passes over names to a shape of the tree: when every name occurrence has
    its own identity, an accepted module mentions the facts parameter only under a subscript or a
    get with a key it read. */
module HoldoutIdentity {
  import opened Options
  import opened Holdout
  import opened HoldoutSemantics

  /** The facts parameter's name, the keys read, the definition that was checked, and the names that
      are arithmetic. */
  datatype Rules = Rules(facts: string, keys: set<string>, def: Node, names: Names)

  predicate IsReadKey(n: Node, c: Rules) {
    n.kind.Const? && n.kind.data.Str? && n.kind.data.s in c.keys
  }

  ghost predicate LocallyClean(n: Node, c: Rules) {
    NodeOk(n, c.facts) && OnList(n, c.names) && ("resolve" in Binds(n) ==> n == c.def)
  }

  ghost predicate Clean(n: Node, c: Rules) {
    && LocallyClean(n, c)
    && if SubscriptsFacts(n, c.facts) then
         OnList(n.kids[0], c.names) && |n.kids| > 1 && IsReadKey(n.kids[1], c) && CleanAll(n.kids[1..], c)
       else if GetsFacts(n, c.facts) then
         && OnList(n.kids[0], c.names) && OnList(n.kids[0].kids[0], c.names) && IsReadKey(n.kids[1], c)
         && CleanAll(n.kids[0].kids[1..], c) && CleanAll(n.kids[1..], c)
       else !IsName(n, c.facts) && CleanAll(n.kids, c)
  }

  ghost predicate CleanAll(ns: seq<Node>, c: Rules) {
    ns != [] ==> Clean(ns[0], c) && CleanAll(ns[1..], c)
  }

  // ----- Identities -----

  function Uids(n: Node): set<nat> {
    (if n.kind.Name? then {n.kind.uid} else {}) + UidsOf(n.kids)
  }

  function UidsOf(ns: seq<Node>): set<nat> {
    if ns == [] then {} else Uids(ns[0]) + UidsOf(ns[1..])
  }

  /** No two name occurrences of the tree have the same identity. */
  predicate Individual(n: Node) {
    (n.kind.Name? ==> n.kind.uid !in UidsOf(n.kids)) && IndividualAll(n.kids)
  }

  predicate IndividualAll(ns: seq<Node>) {
    ns != [] ==> Individual(ns[0]) && Uids(ns[0]) !! UidsOf(ns[1..]) && IndividualAll(ns[1..])
  }

  /** The occurrences of the facts parameter in a position the checker does not allow. */
  function Loose(n: Node, facts: string): set<nat> {
    if SubscriptsFacts(n, facts) then LooseIn(n.kids[1..], facts)
    else if GetsFacts(n, facts) then LooseIn(n.kids[0].kids[1..], facts) + LooseIn(n.kids[1..], facts)
    else (if IsName(n, facts) then {n.kind.uid} else {}) + LooseIn(n.kids, facts)
  }

  function LooseIn(ns: seq<Node>, facts: string): set<nat> {
    if ns == [] then {} else Loose(ns[0], facts) + LooseIn(ns[1..], facts)
  }

  lemma AllowsUnion(a: set<Node>, b: set<Node>, facts: string)
    ensures Allows(a + b, facts) == Allows(a, facts) + Allows(b, facts)
  {
  }

  lemma {:induction false} AllowedHaveUids(n: Node, facts: string)
    ensures Allows(Nodes(n), facts) <= Uids(n)
    decreases n, 1
  {
    AllowsUnion({n}, NodesOf(n.kids), facts);
    AllowedHaveUidsIn(n.kids, facts);
    assert NodeAllows(n, facts) <= UidsOf(n.kids) by {
      if GetsFacts(n, facts) {
        assert n.kids[0].kids[0].kind.uid in Uids(n.kids[0].kids[0]);
        assert Uids(n.kids[0].kids[0]) <= Uids(n.kids[0]);
      }
    }
  }

  lemma {:induction false} AllowedHaveUidsIn(ns: seq<Node>, facts: string)
    ensures Allows(NodesOf(ns), facts) <= UidsOf(ns)
    decreases ns, 0
  {
    if ns != [] {
      AllowsUnion(Nodes(ns[0]), NodesOf(ns[1..]), facts);
      AllowedHaveUids(ns[0], facts);
      AllowedHaveUidsIn(ns[1..], facts);
    }
  }

  lemma {:induction false} LooseHaveUids(n: Node, facts: string)
    ensures Loose(n, facts) <= Uids(n)
    decreases n, 1
  {
    if SubscriptsFacts(n, facts) {
      LooseHaveUidsIn(n.kids[1..], facts);
    } else if GetsFacts(n, facts) {
      LooseHaveUidsIn(n.kids[0].kids[1..], facts);
      LooseHaveUidsIn(n.kids[1..], facts);
      assert UidsOf(n.kids[0].kids[1..]) <= Uids(n.kids[0]);
    } else {
      LooseHaveUidsIn(n.kids, facts);
    }
  }

  lemma {:induction false} LooseHaveUidsIn(ns: seq<Node>, facts: string)
    ensures LooseIn(ns, facts) <= UidsOf(ns)
    decreases ns, 0
  {
    if ns != [] {
      LooseHaveUids(ns[0], facts);
      LooseHaveUidsIn(ns[1..], facts);
    }
  }

  /** An occurrence in an allowed position is nowhere in a loose one. */
  lemma {:induction false} AllowedAreNotLoose(n: Node, facts: string)
    requires Individual(n)
    ensures Allows(Nodes(n), facts) !! Loose(n, facts)
    decreases n, 1
  {
    AllowsUnion({n}, NodesOf(n.kids), facts);
    if SubscriptsFacts(n, facts) {
      HeadAndTail(n.kids, facts);
      AllowedAreNotLooseIn(n.kids[1..], facts);
    } else if GetsFacts(n, facts) {
      HeadAndTail(n.kids, facts);
      AllowedAreNotLooseIn(n.kids[1..], facts);
      GetHead(n.kids[0], facts);
      LooseHaveUidsIn(n.kids[0].kids[1..], facts);
      AllowedHaveUidsIn(n.kids[1..], facts);
      assert UidsOf(n.kids[0].kids[1..]) <= Uids(n.kids[0]);
      assert NodeAllows(n, facts) <= Uids(n.kids[0].kids[0]);
      assert Uids(n.kids[0].kids[0]) <= Uids(n.kids[0]);
    } else {
      AllowedAreNotLooseIn(n.kids, facts);
      AllowedHaveUidsIn(n.kids, facts);
    }
  }

  /** What a first child allows is apart from what the others leave loose. */
  lemma HeadAndTail(ns: seq<Node>, facts: string)
    requires ns != [] && IndividualAll(ns)
    ensures Allows(NodesOf(ns), facts) == Allows(Nodes(ns[0]), facts) + Allows(NodesOf(ns[1..]), facts)
    ensures Uids(ns[0]) !! LooseIn(ns[1..], facts)
    ensures Allows(Nodes(ns[0]), facts) <= Uids(ns[0])
  {
    AllowsUnion(Nodes(ns[0]), NodesOf(ns[1..]), facts);
    LooseHaveUidsIn(ns[1..], facts);
    AllowedHaveUids(ns[0], facts);
  }

  lemma {:induction false} GetHead(n: Node, facts: string)
    requires Individual(n) && n.kind.Attribute? && |n.kids| > 0 && IsName(n.kids[0], facts)
    ensures Allows(Nodes(n), facts) !! LooseIn(n.kids[1..], facts)
    ensures Uids(n.kids[0]) !! LooseIn(n.kids[1..], facts)
    decreases n, 0
  {
    AllowsUnion({n}, NodesOf(n.kids), facts);
    HeadAndTail(n.kids, facts);
    AllowedAreNotLooseIn(n.kids[1..], facts);
  }

  lemma {:induction false} AllowedAreNotLooseIn(ns: seq<Node>, facts: string)
    requires IndividualAll(ns)
    ensures Allows(NodesOf(ns), facts) !! LooseIn(ns, facts)
    decreases ns, 0
  {
    if ns != [] {
      HeadAndTail(ns, facts);
      AllowedAreNotLoose(ns[0], facts);
      AllowedAreNotLooseIn(ns[1..], facts);
      LooseHaveUids(ns[0], facts);
      AllowedHaveUidsIn(ns[1..], facts);
    }
  }

  lemma {:induction false} LooseAreNames(n: Node, facts: string, u: nat)
    requires u in Loose(n, facts)
    ensures exists x <- Nodes(n) :: IsName(x, facts) && x.kind.uid == u
    decreases n, 1
  {
    if SubscriptsFacts(n, facts) {
      assert NodesOf(n.kids[1..]) <= NodesOf(n.kids) <= Nodes(n);
      LooseAreNamesIn(n.kids[1..], facts, u);
    } else if GetsFacts(n, facts) {
      if u in LooseIn(n.kids[1..], facts) {
        assert NodesOf(n.kids[1..]) <= NodesOf(n.kids) <= Nodes(n);
        LooseAreNamesIn(n.kids[1..], facts, u);
      } else {
        LooseAreNamesIn(n.kids[0].kids[1..], facts, u);
        assert NodesOf(n.kids[0].kids[1..]) <= Nodes(n.kids[0]) <= Nodes(n);
      }
    } else if IsName(n, facts) && u == n.kind.uid {
      assert n in Nodes(n);
    } else {
      LooseAreNamesIn(n.kids, facts, u);
    }
  }

  lemma {:induction false} LooseAreNamesIn(ns: seq<Node>, facts: string, u: nat)
    requires u in LooseIn(ns, facts)
    ensures exists x <- NodesOf(ns) :: IsName(x, facts) && x.kind.uid == u
    decreases ns, 0
  {
    if u in Loose(ns[0], facts) {
      LooseAreNames(ns[0], facts, u);
    } else {
      LooseAreNamesIn(ns[1..], facts, u);
    }
  }

  // ----- Acceptance is a shape -----

  ghost predicate RulesOn(all: set<Node>, c: Rules) {
    (forall n <- all :: LocallyClean(n, c)) && Reads(all, c.facts) <= c.keys
  }

  lemma RulesOnPart(part: set<Node>, all: set<Node>, c: Rules)
    requires RulesOn(all, c) && part <= all
    ensures RulesOn(part, c)
  {
  }

  lemma ReadKeyIsClean(n: Node, c: Rules)
    requires NodeOk(n, c.facts) && NodeReads(n, c.facts) <= c.keys
    requires SubscriptsFacts(n, c.facts) || GetsFacts(n, c.facts)
    ensures |n.kids| > 1 && IsReadKey(n.kids[1], c)
  {
    assert IsFactKey(n.kids[1]) && StrOf(n.kids[1]) in NodeReads(n, c.facts);
  }

  lemma {:induction false} NothingLooseIsClean(n: Node, c: Rules)
    requires RulesOn(Nodes(n), c) && Loose(n, c.facts) == {}
    ensures Clean(n, c)
    decreases n, 2
  {
    assert n in Nodes(n);
    assert NodeReads(n, c.facts) <= Reads(Nodes(n), c.facts);
    if SubscriptsFacts(n, c.facts) {
      ReadKeyIsClean(n, c);
      assert n.kids[0] in Nodes(n.kids[0]) && NodesOf(n.kids[1..]) <= NodesOf(n.kids) <= Nodes(n);
      RulesOnPart(NodesOf(n.kids[1..]), Nodes(n), c);
      NothingLooseIsCleanIn(n.kids[1..], c);
    } else if GetsFacts(n, c.facts) {
      ReadKeyIsClean(n, c);
      NothingLooseInGet(n, c);
    } else {
      NothingLooseIsCleanIn(n.kids, c);
    }
  }

  lemma {:induction false} NothingLooseInGet(n: Node, c: Rules)
    requires RulesOn(Nodes(n), c) && Loose(n, c.facts) == {} && GetsFacts(n, c.facts) && !SubscriptsFacts(n, c.facts)
    ensures OnList(n.kids[0], c.names) && OnList(n.kids[0].kids[0], c.names)
    ensures CleanAll(n.kids[0].kids[1..], c) && CleanAll(n.kids[1..], c)
    decreases n, 1
  {
    var callee := n.kids[0];
    assert callee in Nodes(callee) && callee.kids[0] in Nodes(callee.kids[0]);
    assert Nodes(callee.kids[0]) <= Nodes(callee) <= Nodes(n) && NodesOf(callee.kids[1..]) <= Nodes(callee);
    assert NodesOf(n.kids[1..]) <= NodesOf(n.kids) <= Nodes(n);
    RulesOnPart(NodesOf(n.kids[1..]), Nodes(n), c);
    RulesOnPart(NodesOf(callee.kids[1..]), Nodes(n), c);
    NothingLooseIsCleanIn(n.kids[1..], c);
    NothingLooseIsCleanIn(callee.kids[1..], c);
  }

  lemma {:induction false} NothingLooseIsCleanIn(ns: seq<Node>, c: Rules)
    requires RulesOn(NodesOf(ns), c) && LooseIn(ns, c.facts) == {}
    ensures CleanAll(ns, c)
    decreases ns, 0
  {
    if ns != [] {
      NothingLooseIsClean(ns[0], c);
      NothingLooseIsCleanIn(ns[1..], c);
    }
  }

  /** The definition checked is the only thing in the module that binds the name resolve. */
  predicate SoleResolve(m: Node) {
    var def := FirstResolve(m.kids);
    forall n <- Nodes(m) | "resolve" in Binds(n) :: def == Some(n)
  }

  function RulesFor(m: Node, names: Names): Rules
    requires FactsParam(m).Some?
  {
    Rules(FactsParam(m).value, Reads(Nodes(m), FactsParam(m).value), FirstResolve(m.kids).value, names)
  }

  lemma AcceptedIsClean(m: Node, names: Names)
    requires Accepted(m) && Individual(m) && SoleResolve(m) && Arithmetic(m, names)
    ensures Clean(m, RulesFor(m, names))
  {
    var c := RulesFor(m, names);
    AllowedAreNotLoose(m, c.facts);
    forall u | u in Loose(m, c.facts)
      ensures false
    {
      LooseAreNames(m, c.facts, u);
    }
    NothingLooseIsClean(m, c);
  }
}
