/** The holdout checker: which facts a predicate's code reads, and the refusal of code that could
    read anything else. */
module Holdout {
  import opened Options

  // Trees are generic, as the walk sees them: a node has a kind and its children in order. Each name
  // occurrence carries the identity the checker compares.

  /** What a literal states and a library returns. */
  datatype Data = Null | Bool(b: bool) | Int(i: int) | Real(r: real) | Str(s: string) | List(items: seq<Data>)

  datatype Kind =
    | Const(data: Data)
    | Name(uid: nat, id: string)
    | Subscript                                  // value, slice
    | Attribute(attr: string, store: bool)       // value
    | Call                                       // function, arguments
    | Operator(op: string)                       // operands
    | Conditional                                // test, body, otherwise
    | ListDisplay                                // items
    | Assign                                     // target, value
    | ExprStmt                                   // expression
    | Return                                     // expression
    | If                                         // test, body block, other block
    | While                                      // test, body block
    | For                                        // target, iterable, body block
    | Block                                      // statements
    | Def(name: string, params: seq<string>)     // body block
    | Import(names: seq<(string, Option<string>)>)
    | ImportFrom(from: string, level: nat, names: seq<(string, Option<string>)>)
    | Global(globals: seq<string>)
    | Module                                     // statements

  datatype Node = Node(kind: Kind, kids: seq<Node>)

  const BEHAVIOURAL_FACTS: set<string> := {
    "amendments_activated", "amendments_proposed", "censored", "compute_spend_micro",
    "consequences_paid_off", "consequences_settled", "costs", "exposures_settled",
    "exposures_won", "fills", "forecast_skills", "invocations", "market_purchases",
    "max_position_notional_micro", "meta_verdicts", "noop_returns", "notional_micro", "ok",
    "outcomes", "producer_returns", "realized_pnl_micro", "registration_rejections",
    "registrations", "resolved_verdicts", "revised_decisions", "revision_returns",
    "tool_calls", "verdicts"
  }

  const PURE_MODULES: set<string> := {"math", "statistics"}

  const FORBIDDEN_NAMES: set<string> := {
    "__import__", "eval", "exec", "compile", "getattr", "globals", "locals", "vars", "open", "input",
    "breakpoint", "setattr", "delattr", "__builtins__"
  }

  predicate Hidden(name: string) {
    "__" <= name || name in FORBIDDEN_NAMES
  }

  // ----- One node -----

  function AliasNames(names: seq<(string, Option<string>)>): set<string> {
    (set n <- names :: n.0) + (set n <- names | n.1.Some? :: n.1.value)
  }

  /** The identifiers a node states. */
  function Identifiers(n: Node): set<string> {
    match n.kind
    case Name(_, id) => {id}
    case Attribute(attr, _) => {attr}
    case Def(name, params) => {name} + set p <- params :: p
    case Import(names) => AliasNames(names)
    case ImportFrom(_, _, names) => AliasNames(names)
    case Global(globals) => set g <- globals :: g
    case _ => {}
  }

  predicate IsName(n: Node, id: string) {
    n.kind.Name? && n.kind.id == id
  }

  /** A subscript of the facts parameter. */
  predicate SubscriptsFacts(n: Node, facts: string) {
    n.kind.Subscript? && |n.kids| > 0 && IsName(n.kids[0], facts)
  }

  /** A call of the facts parameter's get, with an argument. */
  predicate GetsFacts(n: Node, facts: string) {
    && n.kind.Call? && |n.kids| > 1
    && n.kids[0].kind.Attribute? && n.kids[0].kind.attr == "get"
    && |n.kids[0].kids| > 0 && IsName(n.kids[0].kids[0], facts)
  }

  predicate IsFactKey(n: Node) {
    n.kind.Const? && n.kind.data.Str? && StrOf(n) in BEHAVIOURAL_FACTS
  }

  function StrOf(n: Node): string {
    match n.kind
    case Const(Str(s)) => s
    case _ => ""
  }

  predicate PureImport(n: Node) {
    match n.kind
    case Import(names) => forall x <- names :: x.0 in PURE_MODULES
    case ImportFrom(from, level, names) =>
      from in PURE_MODULES && level == 0 && forall x <- names :: x.0 != "*"
    case _ => true
  }

  /** What every node must meet on its own. */
  predicate NodeOk(n: Node, facts: string) {
    && (forall x <- Identifiers(n) :: !Hidden(x))
    && PureImport(n)
    && (n.kind.Attribute? ==> !n.kind.store)
    && (SubscriptsFacts(n, facts) ==> |n.kids| > 1 && IsFactKey(n.kids[1]))
    && (GetsFacts(n, facts) ==> IsFactKey(n.kids[1]))
  }

  function NodeReads(n: Node, facts: string): set<string> {
    if (SubscriptsFacts(n, facts) || GetsFacts(n, facts)) && |n.kids| > 1 then {StrOf(n.kids[1])} else {}
  }

  /** The occurrence of the facts parameter a node's form allows. */
  function NodeAllows(n: Node, facts: string): set<nat> {
    if SubscriptsFacts(n, facts) then {n.kids[0].kind.uid}
    else if GetsFacts(n, facts) then {n.kids[0].kids[0].kind.uid}
    else {}
  }

  // ----- The whole tree -----

  function Nodes(n: Node): set<Node> {
    {n} + NodesOf(n.kids)
  }

  function NodesOf(kids: seq<Node>): set<Node> {
    if kids == [] then {} else Nodes(kids[0]) + NodesOf(kids[1..])
  }

  function Reads(all: set<Node>, facts: string): set<string> {
    set n <- all, r <- NodeReads(n, facts) :: r
  }

  function Allows(all: set<Node>, facts: string): set<nat> {
    set n <- all, u <- NodeAllows(n, facts) :: u
  }

  predicate NamesAllowed(all: set<Node>, facts: string, allowed: set<nat>) {
    forall n <- all | IsName(n, facts) :: n.kind.uid in allowed
  }

  /** The first definition of resolve at the top of the module. */
  function FirstResolve(items: seq<Node>): Option<Node> {
    if items == [] then None
    else if items[0].kind.Def? && items[0].kind.name == "resolve" then Some(items[0])
    else FirstResolve(items[1..])
  }

  function FactsParam(m: Node): Option<string> {
    match FirstResolve(m.kids)
    case None => None
    case Some(def) => if def.kind.Def? && def.kind.params != [] then Some(def.kind.params[0]) else None
  }

  /** What the checker accepts. */
  ghost predicate Accepted(m: Node) {
    match FactsParam(m)
    case None => false
    case Some(facts) =>
      var all := Nodes(m);
      && (forall n <- all :: NodeOk(n, facts))
      && NamesAllowed(all, facts, Allows(all, facts))
      && Reads(all, facts) != {}
  }

  // ----- The checker -----

  function Size(nodes: seq<Node>): nat {
    if nodes == [] then 0 else 1 + Size(nodes[0].kids) + Size(nodes[1..])
  }

  lemma {:induction false} SizeConcat(a: seq<Node>, b: seq<Node>)
    ensures Size(a + b) == Size(a) + Size(b)
  {
    if a == [] {
      assert a + b == b;
    } else {
      assert (a + b)[0] == a[0] && (a + b)[1..] == a[1..] + b;
      SizeConcat(a[1..], b);
    }
  }

  lemma {:induction false} NodesConcat(a: seq<Node>, b: seq<Node>)
    ensures NodesOf(a + b) == NodesOf(a) + NodesOf(b)
  {
    if a == [] {
      assert a + b == b;
    } else {
      assert (a + b)[0] == a[0] && (a + b)[1..] == a[1..] + b;
      NodesConcat(a[1..], b);
    }
  }

  /** Taking the first of the nodes due and adding its children leaves the same nodes to see. */
  lemma WalkStep(todo: seq<Node>)
    requires todo != []
    ensures Size(todo[1..] + todo[0].kids) < Size(todo)
    ensures NodesOf(todo) == {todo[0]} + NodesOf(todo[1..] + todo[0].kids)
  {
    SizeConcat(todo[1..], todo[0].kids);
    NodesConcat(todo[1..], todo[0].kids);
  }

  datatype Verdict = Refused | Accepts(keys: set<string>)

  /** Two walks over the module: the first checks every node, gathering the keys read and the
      occurrences allowed; the second looks for an occurrence that is not. */
  method BehaviouralReads(m: Node) returns (r: Verdict)
    ensures r.Accepts? <==> Accepted(m)
    ensures r.Accepts? ==> FactsParam(m).Some? && r.keys == Reads(Nodes(m), FactsParam(m).value)
  {
    var param := FactsParam(m);
    if param.None? { return Refused; }
    var facts := param.value;
    var keys: set<string>, allowed: set<nat> := {}, {};
    ghost var seen: set<Node> := {};
    var todo := [m];
    assert NodesOf([m]) == Nodes(m);
    while todo != []
      invariant seen + NodesOf(todo) == Nodes(m)
      invariant forall n <- seen :: NodeOk(n, facts)
      invariant keys == Reads(seen, facts) && allowed == Allows(seen, facts)
      decreases Size(todo)
    {
      var n := todo[0];
      WalkStep(todo);
      assert n in Nodes(m);
      if !NodeOk(n, facts) { return Refused; }
      keys, allowed := keys + NodeReads(n, facts), allowed + NodeAllows(n, facts);
      seen := seen + {n};
      todo := todo[1..] + n.kids;
    }
    seen, todo := {}, [m];
    while todo != []
      invariant seen + NodesOf(todo) == Nodes(m)
      invariant NamesAllowed(seen, facts, allowed)
      decreases Size(todo)
    {
      var n := todo[0];
      WalkStep(todo);
      assert n in Nodes(m);
      if IsName(n, facts) && n.kind.uid !in allowed { return Refused; }
      seen := seen + {n};
      todo := todo[1..] + n.kids;
    }
    if keys == {} { return Refused; }
    return Accepts(keys);
  }
}
