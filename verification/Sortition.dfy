/** Stratified sortition: every role is seated before any seat is filled freely, and every learner
    type after that, as far as the seats reach. */
module Sortition {
  import opened Options
  import opened Sequences
  import opened Text
  import opened Seats

  // The generator's choices are arbitrary, so what is proved holds for every seed.

  // ----- The generator -----

  /** The elements of a set in some order. The source sorts them, which fixes what a seed draws. */
  method Enumerate(s: set<string>) returns (q: seq<string>)
    ensures Distinct(q) && Elements(q) == s && |q| == |s|
  {
    q := [];
    var rest := s;
    while rest != {}
      invariant Distinct(q) && Elements(q) == s - rest && rest <= s
      decreases rest
    {
      var x :| x in rest;
      assert x !in Elements(q);
      ghost var before := q;
      q, rest := q + [x], rest - {x};
      assert Elements(q) == Elements(before) + {x};
    }
    DistinctCount(q);
  }

  method Choice(s: seq<string>) returns (x: string)
    requires s != []
    ensures x in s
  {
    var i :| 0 <= i < |s|;
    x := s[i];
  }

  method Sample(s: seq<string>, n: nat) returns (q: seq<string>)
    requires Distinct(s) && n <= |s|
    ensures Distinct(q) && |q| == n && Elements(q) <= Elements(s)
  {
    q := [];
    DistinctCount(s);
    while |q| < n
      invariant Distinct(q) && |q| <= n && Elements(q) <= Elements(s)
    {
      DistinctCount(q);
      assert Elements(q) != Elements(s);
      var i :| 0 <= i < |s| && s[i] !in q;
      q := q + [s[i]];
    }
  }

  predicate IsNumbering(q: seq<nat>, n: nat) {
    |q| == n && Distinct(q) && (forall i | 0 <= i < n :: 1 <= q[i] <= n)
    && forall k | 1 <= k <= n :: k in q
  }

  lemma NumberingInsert(q: seq<nat>, i: nat)
    requires IsNumbering(q, |q|) && i <= |q|
    ensures IsNumbering(q[..i] + [|q| + 1] + q[i..], |q| + 1)
  {
    var r := q[..i] + [|q| + 1] + q[i..];
    forall k | 1 <= k <= |q| + 1 ensures k in r {
      if k == |q| + 1 {
        assert r[i] == k;
      } else {
        assert k in q;
        var j :| 0 <= j < |q| && q[j] == k;
        assert r[if j < i then j else j + 1] == k;
      }
    }
    forall j | 0 <= j < |r| ensures r[j] == if j < i then q[j] else if j == i then |q| + 1 else q[j - 1] {}
  }

  /** 1..n in an arbitrary order. */
  method Shuffled(n: nat) returns (q: seq<nat>)
    ensures IsNumbering(q, n)
  {
    q := [];
    for k := 0 to n
      invariant IsNumbering(q, k)
    {
      var i: nat :| i <= |q|;
      NumberingInsert(q, i);
      q := q[..i] + [k + 1] + q[i..];
    }
  }

  // ----- Strata -----

  type Learners = map<string, set<string>>

  function Kinds(learners: Learners, a: string): set<string> {
    if a in learners then learners[a] else {}
  }

  function KindsOf(learners: Learners, selected: seq<string>): set<string> {
    set a <- selected, kind <- Kinds(learners, a) :: kind
  }

  function RolesOf(eligible: map<string, string>, selected: seq<string>): set<string>
    requires Elements(selected) <= eligible.Keys
  {
    set a <- selected :: eligible[a]
  }

  /** Distinct candidates. */
  predicate Selection(eligible: map<string, string>, selected: seq<string>) {
    Distinct(selected) && Elements(selected) <= eligible.Keys
  }

  // ----- The draw -----

  /** A candidate of the role, and one that brings a learner type not seated yet if any of the role
      does. */
  ghost predicate Preferred(eligible: map<string, string>, learners: Learners, before: seq<string>,
                            role: string, choice: string) {
    && choice in eligible && eligible[choice] == role
    && forall a | a in eligible && eligible[a] == role ::
         Kinds(learners, a) <= KindsOf(learners, before) || !(Kinds(learners, choice) <= KindsOf(learners, before))
  }

  ghost predicate PreferredInTurn(eligible: map<string, string>, learners: Learners, selected: seq<string>,
                                  roles: seq<string>) {
    && |selected| == |roles|
    && forall i | 0 <= i < |roles| :: Preferred(eligible, learners, selected[..i], roles[i], selected[i])
  }

  method SeatRole(eligible: map<string, string>, learners: Learners, candidates: seq<string>,
                  selected: seq<string>, covered: set<string>, role: string) returns (choice: string)
    requires Elements(candidates) == eligible.Keys && role in eligible.Values
    requires covered == KindsOf(learners, selected)
    ensures Preferred(eligible, learners, selected, role, choice)
  {
    var group := Filter(candidates, (a: string) => a in eligible && eligible[a] == role);
    var newcomers := Filter(group, (a: string) => !(Kinds(learners, a) <= covered));
    var member :| member in eligible && eligible[member] == role;
    assert member in candidates && member in group;
    choice := Choice(if newcomers != [] then newcomers else group);
    assert choice in group;
    forall a | a in eligible && eligible[a] == role
      ensures Kinds(learners, a) <= covered || !(Kinds(learners, choice) <= covered)
    {
      assert a in candidates && a in group;
      if !(Kinds(learners, a) <= covered) { assert a in newcomers; }
    }
  }

  lemma OneMoreInTurn(eligible: map<string, string>, learners: Learners, selected: seq<string>,
                      roles: seq<string>, choice: string, role: string)
    requires PreferredInTurn(eligible, learners, selected, roles) && Selection(eligible, selected)
    requires Preferred(eligible, learners, selected, role, choice) && role !in roles
    ensures PreferredInTurn(eligible, learners, selected + [choice], roles + [role])
    ensures Selection(eligible, selected + [choice])
  {
    var more := selected + [choice];
    forall i | 0 <= i < |more|
      ensures Preferred(eligible, learners, more[..i], (roles + [role])[i], more[i])
      ensures i < |selected| ==> more[i] != choice
    {
      assert more[..i] == selected[..i];
    }
  }

  /** One candidate for each role in turn. */
  method SeatRoles(eligible: map<string, string>, learners: Learners, candidates: seq<string>, roles: seq<string>)
    returns (selected: seq<string>)
    requires Distinct(candidates) && Elements(candidates) == eligible.Keys
    requires Distinct(roles) && Elements(roles) <= eligible.Values
    ensures Selection(eligible, selected) && PreferredInTurn(eligible, learners, selected, roles)
  {
    selected := [];
    var covered: set<string> := {};
    for i := 0 to |roles|
      invariant Selection(eligible, selected) && PreferredInTurn(eligible, learners, selected, roles[..i])
      invariant covered == KindsOf(learners, selected)
    {
      assert roles[i] in Elements(roles) && roles[i] !in roles[..i];
      var choice := SeatRole(eligible, learners, candidates, selected, covered, roles[i]);
      OneMoreInTurn(eligible, learners, selected, roles[..i], choice, roles[i]);
      assert roles[..i + 1] == roles[..i] + [roles[i]];
      selected := selected + [choice];
      covered := covered + Kinds(learners, choice);
    }
    assert roles[..|roles|] == roles;
  }

  /** A candidate with a learner type that none of those before it has. */
  ghost predicate Brings(learners: Learners, before: seq<string>, a: string) {
    !(Kinds(learners, a) <= KindsOf(learners, before))
  }

  /** From a seat on, each brings a learner type of its own. */
  ghost predicate AllBring(learners: Learners, selected: seq<string>, from: nat) {
    forall i | from <= i < |selected| :: Brings(learners, selected[..i], selected[i])
  }

  lemma OneMoreBrings(learners: Learners, selected: seq<string>, from: nat, a: string)
    requires AllBring(learners, selected, from) && Brings(learners, selected, a)
    ensures AllBring(learners, selected + [a], from)
  {
    var more := selected + [a];
    forall i | from <= i < |more| ensures Brings(learners, more[..i], more[i]) {
      assert more[..i] == selected[..i];
      assert selected[..|selected|] == selected;
    }
  }

  /** One candidate for each learner type not covered yet, while seats last. */
  method SeatKinds(eligible: map<string, string>, learners: Learners, candidates: seq<string>,
                   seated: seq<string>, count: nat)
    returns (selected: seq<string>)
    requires Distinct(candidates) && Elements(candidates) == eligible.Keys
    requires Selection(eligible, seated) && |seated| <= count
    ensures Selection(eligible, selected) && seated <= selected && |selected| <= count
    ensures AllBring(learners, selected, |seated|)
    ensures |selected| == count || KindsOf(learners, selected) == KindsOf(learners, candidates)
  {
    selected := seated;
    var covered := KindsOf(learners, seated);
    var kinds := Enumerate(KindsOf(learners, candidates));
    for i := 0 to |kinds|
      invariant Selection(eligible, selected) && seated <= selected && |selected| <= count
      invariant covered == KindsOf(learners, selected) && AllBring(learners, selected, |seated|)
      invariant |selected| == count || Elements(kinds[..i]) <= covered
    {
      assert kinds[i] in Elements(kinds) && Elements(kinds[..i + 1]) == Elements(kinds[..i]) + {kinds[i]};
      var choice := SeatKind(eligible, learners, candidates, selected, covered, kinds[i], count);
      if choice.Some? {
        OneMoreSeat(eligible, learners, selected, |seated|, choice.value);
        selected, covered := selected + [choice.value], covered + Kinds(learners, choice.value);
      }
    }
    assert kinds[..|kinds|] == kinds;
    KindsAtMost(learners, selected, candidates);
  }

  lemma OneMoreSeat(eligible: map<string, string>, learners: Learners, selected: seq<string>, from: nat, a: string)
    requires Selection(eligible, selected) && AllBring(learners, selected, from)
    requires a in eligible && a !in selected && Brings(learners, selected, a)
    ensures Selection(eligible, selected + [a]) && AllBring(learners, selected + [a], from)
    ensures KindsOf(learners, selected + [a]) == KindsOf(learners, selected) + Kinds(learners, a)
  {
    OneMoreBrings(learners, selected, from, a);
  }

  lemma KindsAtMost(learners: Learners, selected: seq<string>, candidates: seq<string>)
    requires Elements(selected) <= Elements(candidates)
    ensures KindsOf(learners, selected) <= KindsOf(learners, candidates)
  {
    forall a <- selected ensures a in candidates { assert a in Elements(candidates); }
  }

  /** A candidate for one learner type, unless it is covered or the seats are out. */
  method SeatKind(eligible: map<string, string>, learners: Learners, candidates: seq<string>,
                  seated: seq<string>, covered: set<string>, kind: string, count: nat)
    returns (choice: Option<string>)
    requires Elements(candidates) == eligible.Keys && kind in KindsOf(learners, candidates)
    requires covered == KindsOf(learners, seated)
    ensures choice.None? <==> kind in covered || |seated| >= count
    ensures choice.Some? ==> choice.value in eligible && choice.value !in seated
    ensures choice.Some? ==> kind in Kinds(learners, choice.value) && Brings(learners, seated, choice.value)
  {
    var group := Filter(candidates, (a: string) => a !in seated && kind in Kinds(learners, a));
    if kind in covered || |seated| >= count || group == [] {
      assert kind !in covered ==> group != [] by {
        var a :| a in candidates && kind in Kinds(learners, a);
        assert kind !in covered ==> a !in seated;
      }
      return None;
    }
    var a := Choice(group);
    assert a in Elements(candidates);
    return Some(a);
  }

  /** The first `count` seats under the stratification, when not everyone is seated. */
  method Select(eligible: map<string, string>, learners: Learners, candidates: seq<string>, count: nat)
    returns (selected: seq<string>, ghost roles: seq<string>)
    requires Distinct(candidates) && Elements(candidates) == eligible.Keys
    requires count < |candidates|
    ensures Selection(eligible, selected) && |selected| == count
    ensures InStages(eligible, learners, selected, roles)
  {
    var strata := Enumerate(eligible.Values);
    if |strata| > count {
      strata := Sample(strata, count);
    }
    roles := strata;
    selected := SeatRoles(eligible, learners, candidates, strata);
    ghost var byRole := selected;
    selected := SeatKinds(eligible, learners, candidates, selected, count);
    ghost var byKind := selected;
    selected := Fill(eligible, candidates, selected, count);
    StagesFollow(eligible, learners, candidates, roles, byRole, byKind, selected);
  }

  /** The seats the strata left free, from everyone not seated. */
  method Fill(eligible: map<string, string>, candidates: seq<string>, seated: seq<string>, count: nat)
    returns (selected: seq<string>)
    requires Distinct(candidates) && Elements(candidates) == eligible.Keys
    requires Selection(eligible, seated) && |seated| <= count < |candidates|
    ensures Selection(eligible, selected) && seated <= selected && |selected| == count
  {
    var remaining := Filter(candidates, (a: string) => a !in seated);
    RemainingSize(candidates, seated, remaining);
    var more := Sample(remaining, count - |seated|);
    forall a <- more ensures a !in seated && a in eligible {
      assert a in Elements(more);
      assert a in remaining;
      assert a in Elements(candidates);
    }
    selected := seated + more;
    forall i, j | 0 <= i < j < |selected| ensures selected[i] != selected[j] {
      if i < |seated| <= j { assert more[j - |seated|] in more && seated[i] in seated; }
    }
  }

  lemma RemainingSize(candidates: seq<string>, selected: seq<string>, remaining: seq<string>)
    requires Distinct(candidates) && Distinct(selected) && Elements(selected) <= Elements(candidates)
    requires remaining == Filter(candidates, (a: string) => a !in selected)
    ensures Distinct(remaining) && |remaining| == |candidates| - |selected|
  {
    FilterDistinct(candidates, (a: string) => a !in selected);
    DistinctCount(candidates);
    DistinctCount(selected);
    DistinctCount(remaining);
    assert Elements(candidates) == Elements(selected) + Elements(remaining);
  }

  /** Every learner type present is held by one of these. */
  ghost predicate CoversKinds(eligible: map<string, string>, learners: Learners, selected: seq<string>) {
    forall a <- eligible :: Kinds(learners, a) <= KindsOf(learners, selected)
  }

  /** An order of selection: first a candidate for each of `roles` in turn, as many as there are seats
      or roles, newcomers preferred; and after them a seat is filled freely only once those before it
      hold every learner type present, and otherwise brings one that none of them has. */
  ghost predicate InStages(eligible: map<string, string>, learners: Learners, order: seq<string>, roles: seq<string>) {
    && Distinct(roles) && Elements(roles) <= eligible.Values
    && |roles| == (if |order| <= |eligible.Values| then |order| else |eligible.Values|)
    && PreferredInTurn(eligible, learners, order[..|roles|], roles)
    && forall i | |roles| <= i < |order| ::
         CoversKinds(eligible, learners, order[..i]) || Brings(learners, order[..i], order[i])
  }

  /** Everyone, or a selection in stages. */
  ghost predicate Stratified(eligible: map<string, string>, learners: Learners, order: seq<string>,
                             roles: seq<string>)
  {
    Selection(eligible, order) && (|order| < |eligible| ==> InStages(eligible, learners, order, roles))
  }

  lemma StagesFollow(eligible: map<string, string>, learners: Learners, candidates: seq<string>,
                     roles: seq<string>, byRole: seq<string>, byKind: seq<string>, selected: seq<string>)
    requires Elements(candidates) == eligible.Keys && byRole <= byKind <= selected
    requires Distinct(roles) && Elements(roles) <= eligible.Values
    requires |roles| == (if |selected| <= |eligible.Values| then |selected| else |eligible.Values|)
    requires PreferredInTurn(eligible, learners, byRole, roles) && AllBring(learners, byKind, |roles|)
    requires |byKind| == |selected| || KindsOf(learners, byKind) == KindsOf(learners, candidates)
    ensures InStages(eligible, learners, selected, roles)
  {
    assert selected[..|roles|] == byRole;
    forall i | |roles| <= i < |selected|
      ensures CoversKinds(eligible, learners, selected[..i]) || Brings(learners, selected[..i], selected[i])
    {
      if i < |byKind| {
        assert selected[..i] == byKind[..i];
      } else {
        CoverageStays(eligible, learners, candidates, byKind, selected[..i]);
      }
    }
  }

  lemma CoverageStays(eligible: map<string, string>, learners: Learners, candidates: seq<string>,
                      some: seq<string>, more: seq<string>)
    requires Elements(candidates) == eligible.Keys && some <= more
    requires KindsOf(learners, some) == KindsOf(learners, candidates)
    ensures CoversKinds(eligible, learners, more)
  {
    KindsAtMost(learners, some, more);
    forall a <- eligible ensures Kinds(learners, a) <= KindsOf(learners, more) {
      assert a in Elements(candidates);
    }
  }

  /** What an order of selection comes to for those seated: as many roles as can be, and a learner type
      present is left out only when no seat was filled freely. */
  lemma StratifiedCovers(eligible: map<string, string>, learners: Learners, order: seq<string>, roles: seq<string>)
    requires Stratified(eligible, learners, order, roles)
    ensures |RolesOf(eligible, order)| == if |order| <= |eligible.Values| then |order| else |eligible.Values|
    ensures CoversKinds(eligible, learners, order)
         || (|roles| == |RolesOf(eligible, order)| && AllBring(learners, order, |roles|))
  {
    DistinctCount(order);
    SubsetSize(Elements(order), eligible.Keys);
    if |order| < |eligible| {
      StagesCoverRoles(eligible, learners, order, roles);
      forall i | |roles| <= i < |order|
        ensures CoversKinds(eligible, learners, order) || Brings(learners, order[..i], order[i])
      {
        assert forall a <- order[..i] :: a in order;
        assert KindsOf(learners, order[..i]) <= KindsOf(learners, order);
      }
    } else {
      SameSize(Elements(order), eligible.Keys);
      EveryoneCovers(eligible, learners, order);
    }
  }

  lemma SameSize(a: set<string>, b: set<string>)
    requires a <= b && |b| <= |a|
    ensures a == b
  {
    if b - a != {} {
      var x :| x in b - a;
      SubsetSize(a, b - {x});
    }
  }

  lemma StagesCoverRoles(eligible: map<string, string>, learners: Learners, order: seq<string>, roles: seq<string>)
    requires Selection(eligible, order) && InStages(eligible, learners, order, roles)
    ensures |RolesOf(eligible, order)| == |roles|
  {
    var seen := RolesOf(eligible, order);
    forall role <- roles ensures role in seen {
      var i :| 0 <= i < |roles| && roles[i] == role;
      assert Preferred(eligible, learners, order[..|roles|][..i], roles[i], order[i]) && order[i] in order;
    }
    DistinctCount(roles);
    SubsetSize(Elements(roles), seen);
    SubsetSize(seen, eligible.Values);
    RolesAtMostSeats(eligible, order);
  }

  lemma EveryoneCovers(eligible: map<string, string>, learners: Learners, order: seq<string>)
    requires Elements(order) == eligible.Keys
    ensures RolesOf(eligible, order) == eligible.Values && |eligible.Values| <= |order|
    ensures CoversKinds(eligible, learners, order)
  {
    forall role <- eligible.Values ensures role in RolesOf(eligible, order) {
      var a :| a in eligible && eligible[a] == role;
      assert a in Elements(order);
    }
    RolesAtMostSeats(eligible, order);
    forall a <- eligible ensures Kinds(learners, a) <= KindsOf(learners, order) {
      assert a in Elements(order);
    }
  }

  lemma {:induction false} RolesAtMostSeats(eligible: map<string, string>, selected: seq<string>)
    requires Elements(selected) <= eligible.Keys
    ensures |RolesOf(eligible, selected)| <= |selected|
  {
    if selected != [] {
      var init, last := selected[..|selected| - 1], selected[|selected| - 1];
      assert selected == init + [last];
      RolesAtMostSeats(eligible, init);
      assert RolesOf(eligible, selected) == RolesOf(eligible, init) + {eligible[last]};
    }
  }

  /** A draw can be made for at least one seat, when every assembly and every role says something. */
  lemma DrawableMeans(eligible: map<string, string>, size: int)
    ensures Drawable(eligible, size) <==>
      && size >= 1
      && forall a <- eligible :: (exists c <- a :: !Blank(c)) && exists c <- eligible[a] :: !Blank(c)
  {
    forall a <- eligible
      ensures Strip(a) != "" <==> exists c <- a :: !Blank(c)
      ensures Strip(eligible[a]) != "" <==> exists c <- eligible[a] :: !Blank(c)
    {
      StripEmpties(a);
      StripEmpties(eligible[a]);
    }
  }

  const AssemblyOf := (s: Seat) => s.assembly

  /** A committee as the draw returns it, for an order in which it was selected: seats in alias order,
      of exactly those selected. */
  ghost predicate DrawnInOrder(eligible: map<string, string>, learners: Learners, size: int, seats: seq<Seat>,
                               order: seq<string>, roles: seq<string>) {
    && |seats| == |order| == (if size <= |eligible| then size else |eligible|)
    && (forall i | 0 <= i < |seats| :: seats[i].alias == i + 1)
    && (forall s <- seats :: s.assembly in eligible && s.role == eligible[s.assembly])
    && DistinctSeats(seats) && Elements(Map(AssemblyOf, seats)) == Elements(order)
    && Stratified(eligible, learners, order, roles)
  }

  ghost predicate Drawn(eligible: map<string, string>, learners: Learners, size: int, seats: seq<Seat>) {
    exists order, roles :: DrawnInOrder(eligible, learners, size, seats, order, roles)
  }

  /** The draw, for every generator: no choice it makes is from nothing, and no sample is larger than
      what it is taken from. */
  method Draw(eligible: map<string, string>, size: int, learners: Learners)
    returns (r: Option<seq<Seat>>, ghost order: seq<string>, ghost roles: seq<string>)
    ensures r.None? <==> !Drawable(eligible, size)
    ensures r.Some? ==> DrawnInOrder(eligible, learners, size, r.value, order, roles)
  {
    order, roles := [], [];
    if !Drawable(eligible, size) { return None, order, roles; }
    var candidates := Enumerate(eligible.Keys);
    var count := if size <= |candidates| then size else |candidates|;
    var selected := candidates;
    if count < |candidates| {
      selected, roles := Select(eligible, learners, candidates, count);
    }
    order := selected;
    var aliases := Shuffled(count);
    DistinctCount(candidates);
    var seats := Arrange(eligible, selected, aliases);
    return Some(seats), order, roles;
  }

  method Find(aliases: seq<nat>, count: nat, alias: nat) returns (j: nat)
    requires IsNumbering(aliases, count) && 1 <= alias <= count
    ensures j < count && aliases[j] == alias
  {
    assert alias in aliases;
    j :| 0 <= j < count && aliases[j] == alias;
  }

  /** The seats in alias order. */
  method Arrange(eligible: map<string, string>, selected: seq<string>, aliases: seq<nat>) returns (seats: seq<Seat>)
    requires Selection(eligible, selected) && IsNumbering(aliases, |selected|)
    ensures |seats| == |selected| && forall i | 0 <= i < |seats| :: seats[i].alias == i + 1
    ensures forall s <- seats :: s.assembly in eligible && s.role == eligible[s.assembly]
    ensures DistinctSeats(seats) && Elements(Map(AssemblyOf, seats)) == Elements(selected)
  {
    seats := [];
    var count := |selected|;
    ghost var order: seq<nat> := [];
    for alias := 1 to count + 1
      invariant |seats| == |order| == alias - 1
      invariant forall i | 0 <= i < |seats| :: 0 <= order[i] < count && aliases[order[i]] == i + 1
      invariant forall i | 0 <= i < |seats| ::
                  seats[i] == Seat(i + 1, selected[order[i]], eligible[selected[order[i]]])
    {
      var j := Find(aliases, count, alias);
      assert selected[j] in Elements(selected);
      seats, order := seats + [Seat(alias, selected[j], eligible[selected[j]])], order + [j];
    }
    SeatedAll(eligible, selected, aliases, order, seats);
    SeatedRoles(eligible, selected, order, seats);
  }

  lemma SeatedRoles(eligible: map<string, string>, selected: seq<string>, order: seq<nat>, seats: seq<Seat>)
    requires Selection(eligible, selected) && |seats| == |order|
    requires forall i | 0 <= i < |seats| :: 0 <= order[i] < |selected|
    requires forall i | 0 <= i < |seats| ::
               seats[i].assembly == selected[order[i]] && seats[i].role == eligible[selected[order[i]]]
    ensures forall s <- seats :: s.assembly in eligible && s.role == eligible[s.assembly]
  {
    forall s <- seats ensures s.assembly in eligible && s.role == eligible[s.assembly] {
      var i :| 0 <= i < |seats| && seats[i] == s;
      assert selected[order[i]] in Elements(selected);
    }
  }

  /** Reordering by alias keeps who is seated. */
  lemma SeatedAll(eligible: map<string, string>, selected: seq<string>, aliases: seq<nat>,
                  order: seq<nat>, seats: seq<Seat>)
    requires Selection(eligible, selected)
    requires IsNumbering(aliases, |selected|) && |seats| == |order| == |selected|
    requires forall i | 0 <= i < |seats| :: 0 <= order[i] < |selected| && aliases[order[i]] == i + 1
    requires forall i | 0 <= i < |seats| ::
               seats[i] == Seat(i + 1, selected[order[i]], eligible[selected[order[i]]])
    ensures Elements(Map(AssemblyOf, seats)) == Elements(selected) && DistinctSeats(seats)
  {
    var names := Map(AssemblyOf, seats);
    forall a <- selected ensures a in names {
      var j :| 0 <= j < |selected| && selected[j] == a;
      var i := aliases[j] - 1;
      assert aliases[order[i]] == aliases[j];
      assert names[i] == a;
    }
  }
}
