/** The condition of soundness cannot be relaxed: a name off the list, of any kind the checker lets
    through, makes an accepted predicate whose answer is the host's. */
module HoldoutLimits {
  import opened Options
  import opened Holdout
  import opened HoldoutSemantics
  import opened HoldoutIdentity
  import opened HoldoutRuns
  import opened HoldoutProbes

  /** The condition fails exactly when the module states something off the list: an attribute, an imported
      member, an operator, or a builtin's name. */
  lemma ArithmeticMeans(m: Node, names: Names)
    ensures !Arithmetic(m, names) <==> exists n <- Nodes(m) ::
      || (n.kind.Attribute? && n.kind.attr !in names.members)
      || (n.kind.ImportFrom? && exists x <- n.kind.names :: x.0 !in names.members)
      || (n.kind.Operator? && n.kind.op !in names.operators)
      || (n.kind.Name? && n.kind.id in names.others && n.kind.id !in names.builtins)
  {
  }

  /** No name can be left out of the condition: for every name off the list that the checker lets
      through, there is an accepted predicate, otherwise as soundness asks, whose answer is the host's. */
  lemma OffListIsTheHosts(lead: Lead, f: map<string, Data>, w: World, fuel: nat)
    requires OffList(lead, w.names) && LetThrough(lead) && "ok" in f && fuel > 5
    ensures
      var m := AskingFor(lead);
      && m.kind.Module? && Accepted(m) && Individual(m) && SoleResolve(m) && !Arithmetic(m, w.names)
      && FactsParam(m) == Some("facts") && Reads(Nodes(m), "facts") == {"ok"}
    ensures Resolve(AskingFor(lead), f, w, fuel) == Hosted(w.host(Question(lead).0, Question(lead).1, Window(f)))
  {
    LeadIsLetThrough(lead);
    AskingIsAccepted(ImportFor(lead), Using(lead));
    LeadIsBound(lead, f, w);
    LeadRuns(lead, Within(ImportFor(lead), Using(lead), f, w), w, fuel - 2);
    AskingAnswers(ImportFor(lead), Using(lead), f, w, fuel);
    OffListIsSeen(lead, w.names);
  }

  function HostAnswering(w: World, key: string): World {
    w.(host := (name, vs, facts) => if key in facts then Some(facts[key]) else None)
  }

  function HostSaying(w: World, id: nat): World {
    w.(host := (name, vs, facts) => Some(HostV(id)))
  }

  /** So two windows that agree on everything read get different answers, */
  lemma OffListTellsWindowsApart(lead: Lead, w: World, fuel: nat)
    returns (f: map<string, Data>, g: map<string, Data>, h: World)
    requires OffList(lead, w.names) && LetThrough(lead) && fuel > 5
    ensures h == w.(host := h.host) && Agree(Window(f), Window(g), Reads(Nodes(AskingFor(lead)), "facts"))
    ensures Resolve(AskingFor(lead), f, h, fuel) != Resolve(AskingFor(lead), g, h, fuel)
  {
    f, g := OneFactMore("ok", "index", Bool(true), Int(1));
    h := HostAnswering(w, "index");
    OffListIsTheHosts(lead, f, h, fuel);
    OffListIsTheHosts(lead, g, h, fuel);
  }

  lemma OneFactMore(key: string, other: string, d: Data, e: Data) returns (f: map<string, Data>, g: map<string, Data>)
    requires |key| != |other|
    ensures f == map[key := d] && g == map[key := d][other := e] && key != other
    ensures Agree(Window(f), Window(g), {key}) && other !in Window(f) && other in Window(g) && key in f && key in g
  {
    f, g := map[key := d], map[key := d][other := e];
  }

  /** and so do two hosts. */
  lemma OffListTellsHostsApart(lead: Lead, f: map<string, Data>, w: World, fuel: nat)
    requires OffList(lead, w.names) && LetThrough(lead) && "ok" in f && fuel > 5
    ensures Resolve(AskingFor(lead), f, HostSaying(w, 0), fuel) != Resolve(AskingFor(lead), f, HostSaying(w, 1), fuel)
  {
    OffListIsTheHosts(lead, f, HostSaying(w, 0), fuel);
    OffListIsTheHosts(lead, f, HostSaying(w, 1), fuel);
  }

  /** A module that imports sys from statistics, and through it reaches the frame and the facts: the
      checker accepts it as reading one behavioural fact, and its answer is any other. */
  lemma ThroughFrameReadsAnything(key: string, f: map<string, Data>, w: World, fuel: nat)
    requires HasFrames(w, Window(f)) && "ok" in f && fuel > 10
    ensures
      var m := ThroughFrame(key);
      && m.kind.Module? && Accepted(m) && Individual(m) && SoleResolve(m)
      && FactsParam(m) == Some("facts") && Reads(Nodes(m), "facts") == {"ok"}
    ensures Resolve(ThroughFrame(key), f, w, fuel) == if key in f then Values([DataV(f[key])]) else Raised
  {
    ThroughFrameIsAccepted(key);
    ThroughFrameAnswers(key, f, w, fuel);
  }

  /** It is off the list of arithmetic. */
  lemma ThroughFrameIsOffTheList(key: string)
    ensures !Arithmetic(ThroughFrame(key), ARITHMETIC)
  {
    var imported := Node(ImportFrom("statistics", 0, [("sys", None)]), []);
    AskedIsIn([imported], Node(Subscript, [WHOLE, Node(Const(Str(key)), [])]));
    assert imported.kind.names[0].0 == "sys";
    SysIsNoArithmetic();
  }
}
