/** What every run of the charter book keeps: well-formed editions, and evidence behind each activation. */
module BookProofs {
  import opened Options
  import opened Sequences
  import opened Charter
  import opened Seats
  import opened Books

  // ----- Majorities are final -----

  lemma YesIsCounted(ballots: Ballots)
    ensures Yes(ballots) <= |ballots|
  {
    SubsetSize(InFavour(ballots), ballots.Keys);
  }

  lemma BallotGrows(ballots: Ballots, alias: nat, vote: Option<bool>)
    requires alias !in ballots
    ensures Yes(Cast(ballots, alias, vote)) == Yes(ballots) + (if vote == Some(true) then 1 else 0)
    ensures |Cast(ballots, alias, vote)| == |ballots| + 1
  {
    assert InFavour(Cast(ballots, alias, vote)) ==
           InFavour(ballots) + (if vote == Some(true) then {alias} else {});
  }

  lemma BallotRoom(voters: seq<nat>, ballots: Ballots)
    requires Distinct(voters) && ballots.Keys <= Elements(voters)
    ensures |Elements(voters) - ballots.Keys| == |voters| - |ballots|
    ensures Yes(ballots) <= |ballots| <= |voters|
    ensures forall alias <- Elements(voters) - ballots.Keys :: |ballots| < |voters|
  {
    DistinctCount(voters);
    YesIsCounted(ballots);
    assert Elements(voters) == ballots.Keys + (Elements(voters) - ballots.Keys);
  }

  /** A motion passes exactly with a strict majority of its voters, and fails exactly when the voters
      still to come cannot make one. */
  lemma TallyIsMajority(voters: seq<nat>, ballots: Ballots)
    requires Distinct(voters) && ballots.Keys <= Elements(voters)
    ensures TallyOf(voters, ballots) == Passed <==> 2 * Yes(ballots) > |voters|
    ensures TallyOf(voters, ballots) == Failed <==>
              2 * (Yes(ballots) + |Elements(voters) - ballots.Keys|) <= |voters|
  {
    BallotRoom(voters, ballots);
  }

  /** A verdict once reached stays, whatever ballot follows; and the last ballot decides. */
  lemma TallyIsFinal(voters: seq<nat>, ballots: Ballots, alias: nat, vote: Option<bool>)
    requires Distinct(voters) && ballots.Keys <= Elements(voters)
    requires alias in voters && alias !in ballots
    ensures var t := TallyOf(voters, ballots);
      t == Passed || t == Failed ==> TallyOf(voters, Cast(ballots, alias, vote)) == t
    ensures |ballots| + 1 == |voters| ==> TallyOf(voters, Cast(ballots, alias, vote)) != Undecided
  {
    BallotGrows(ballots, alias, vote);
    BallotRoom(voters, ballots);
    assert |ballots| < |voters| by { assert alias in Elements(voters) - ballots.Keys; }
    OneMoreBallot(|voters|, Yes(ballots), |ballots|, if vote == Some(true) then 1 else 0);
  }

  lemma OneMoreBallot(voters: nat, yes: nat, cast: nat, more: nat)
    requires yes <= cast < voters && more <= 1
    ensures yes >= Threshold(voters) ==> yes + more >= Threshold(voters)
    ensures yes + voters - cast < Threshold(voters) ==>
              yes + more < Threshold(voters) && yes + more + voters - (cast + 1) < Threshold(voters)
    ensures cast + 1 == voters ==>
              yes + more >= Threshold(voters) || yes + more + voters - (cast + 1) < Threshold(voters)
  {
  }

  // ----- One motion's history, read off the ledger -----

  /** Where a motion stands: proposed once, seated once after that, voted on by each alias once
      after that and under that seating, and settled once. Anything else is Broken. */
  datatype Case = Absent | Waiting | Voting(seating: Entry, ballots: Ballots) | Settled | Broken

  function Next(c: Case, e: Entry, m: string): Case {
    match e
    case Proposed(a, _) => if a.id != m then c else if c.Absent? then Waiting else Broken
    case Seated(_, _, _, agenda, _, _, _) =>
      if m !in agenda then c else if c.Waiting? then Voting(e, map[]) else Broken
    case Voted(motion, round, alias, vote) =>
      if motion != m then c
      else if c.Voting? && c.seating.Seated? && round == c.seating.round && alias !in c.ballots then
        Voting(c.seating, c.ballots[alias := vote])
      else Broken
    case Refused(motion, _) =>
      if motion != m then c else if c.Waiting? || c.Voting? then Settled else Broken
    case Activated(motion, _, _) =>
      if motion != m then c else if c.Voting? then Settled else Broken
    case _ => c
  }

  function CaseOf(ledger: seq<Entry>, m: string): Case {
    if ledger == [] then Absent else Next(CaseOf(ledger[..|ledger| - 1], m), ledger[|ledger| - 1], m)
  }

  lemma CaseAppend(ledger: seq<Entry>, e: Entry, m: string)
    ensures CaseOf(ledger + [e], m) == Next(CaseOf(ledger, m), e, m)
  {
    assert (ledger + [e])[..|ledger|] == ledger;
  }

  /** The seats that cast these ballots are seats of the seating, and a quorum could vote. */
  predicate SeatingOk(e: Entry, m: string) {
    e.Seated? && m in e.agenda && m in e.voters && 1 <= e.quorum <= e.voters[m]
  }

  /** What the ledger holds before an activation: its motion proposed, then seated once with a
      quorum of voters, then voted on once per alias of that seating, a strict majority yes. */
  ghost predicate Evidence(before: seq<Entry>, e: Entry) {
    e.Activated? ==>
      var c := CaseOf(before, e.motion);
      && c.Voting? && SeatingOk(c.seating, e.motion) && e.round == c.seating.round
      && c.ballots.Keys <= Elements(Map(AliasOf, c.seating.seats))
      && 2 * Yes(c.ballots) > c.seating.voters[e.motion]
  }

  ghost predicate Evidenced(ledger: seq<Entry>) {
    forall i | 0 <= i < |ledger| :: Evidence(ledger[..i], ledger[i])
  }

  lemma EvidencedAppend(ledger: seq<Entry>, e: Entry)
    requires Evidenced(ledger) && Evidence(ledger, e)
    ensures Evidenced(ledger + [e])
  {
    var l := ledger + [e];
    forall i | 0 <= i < |l| ensures Evidence(l[..i], l[i]) {
      if i < |ledger| { assert l[..i] == ledger[..i]; } else { assert l[..i] == ledger; }
    }
  }

  lemma {:induction false} EvidencedMore(ledger: seq<Entry>, more: seq<Entry>)
    requires Evidenced(ledger) && forall e <- more :: !e.Activated?
    ensures Evidenced(ledger + more)
  {
    if more == [] {
      assert ledger + more == ledger;
    } else {
      var init, e := more[..|more| - 1], more[|more| - 1];
      EvidencedMore(ledger, init);
      EvidencedAppend(ledger + init, e);
      assert ledger + more == ledger + init + [e];
    }
  }

  // ----- The invariants -----

  predicate DistinctMotions(proposals: seq<Amendment>) {
    forall i, j | 0 <= i < j < |proposals| :: proposals[i].id != proposals[j].id
  }

  ghost predicate ElectorateOk(c: Committee, voters: seq<nat>, ballots: Ballots, sittings: nat) {
    && Distinct(voters) && ballots.Keys <= Elements(voters)
    && Elements(voters) <= Elements(Map(AliasOf, c.seats))
    && c.round <= sittings
  }

  ghost predicate Shape(b: Book) {
    && DistinctMotions(b.proposals)
    && b.seated.Keys == b.ballots.Keys == b.voters.Keys <= MotionIds(b.proposals)
    && b.bindings.Keys == MotionIds(b.proposals)
    && (forall m <- b.seated :: ElectorateOk(b.seated[m], b.voters[m], b.ballots[m], b.sittings))
  }

  ghost predicate EditionOk(b: Book) {
    WellFormed(b.edition) && forall n <- b.normEditions :: n <= b.edition.number
  }

  /** Where the book's state says a motion stands. */
  datatype Standing = Unknown | Forgotten | Closed | Open
                    | InSession(committee: Committee, voters: seq<nat>, ballots: Ballots)

  function StandingOf(b: Book, m: string): Standing {
    if m in MotionIds(b.proposals) then
      if m in b.decided then Closed
      else if m in b.seated && m in b.voters && m in b.ballots then
        InSession(b.seated[m], b.voters[m], b.ballots[m])
      else Open
    else if m in b.decided then Forgotten
    else Unknown
  }

  /** The ledger's story of a motion is the one the book's state tells. */
  ghost predicate Matches(c: Case, s: Standing, m: string) {
    match s
    case Unknown => c.Absent?
    case Forgotten => c.Settled? || c.Voting?
    case Closed => c.Settled?
    case Open => c.Waiting?
    case InSession(committee, voters, ballots) =>
      && c.Voting? && c.ballots == ballots && SeatingOk(c.seating, m)
      && c.seating.round == committee.round && c.seating.seats == committee.seats
      && c.seating.voters[m] == |voters|
  }

  ghost predicate Fits(b: Book) {
    forall m: string :: Matches(CaseOf(b.ledger, m), StandingOf(b, m), m)
  }

  ghost predicate Inv(b: Book) {
    EditionOk(b) && Shape(b) && Fits(b) && Evidenced(b.ledger)
  }

  // ----- Forgetting -----

  lemma {:induction false} KeptDistinct(proposals: seq<Amendment>, p: Amendment -> bool)
    requires DistinctMotions(proposals)
    ensures DistinctMotions(Filter(proposals, p))
    ensures Distinct(Map(MotionId, Filter(proposals, p)))
  {
    if proposals != [] {
      var rest, a := proposals[..|proposals| - 1], proposals[|proposals| - 1];
      KeptDistinct(rest, p);
      assert forall x <- rest :: x.id != a.id;
    }
  }

  lemma ClosedIds(b: Book)
    ensures MotionIds(Close(b).proposals) == MotionIds(b.proposals) - Gone(b)
  {
    var t := Close(b);
    forall m | m in MotionIds(b.proposals) - Gone(b) ensures m in MotionIds(t.proposals) {
      var a :| a in b.proposals && a.id == m;
      assert a in t.proposals;
    }
  }

  lemma CloseShape(b: Book)
    requires Shape(b)
    ensures Shape(Close(b))
  {
    ClosedIds(b);
    KeptDistinct(b.proposals, (a: Amendment) => !IsOver(b, a.id));
  }

  lemma CloseKeeps(b: Book)
    requires Inv(b)
    ensures Inv(Close(b)) && Close(b).ledger == b.ledger && Close(b).edition == b.edition
  {
    CloseShape(b);
    forall m: string ensures Matches(CaseOf(b.ledger, m), StandingOf(Close(b), m), m) {
      assert Matches(CaseOf(b.ledger, m), StandingOf(b, m), m);
      CloseMatches(b, CaseOf(b.ledger, m), m);
    }
  }

  lemma CloseMatches(b: Book, c: Case, m: string)
    requires Shape(b) && Matches(c, StandingOf(b, m), m)
    ensures Matches(c, StandingOf(Close(b), m), m)
  {
    CloseStanding(b, m);
    if m in Gone(b) { GoneStanding(b, m); }
  }

  lemma CloseStanding(b: Book, m: string)
    ensures StandingOf(Close(b), m) == if m in Gone(b) then Forgotten else StandingOf(b, m)
  {
    ClosedIds(b);
  }

  lemma GoneStanding(b: Book, m: string)
    requires Shape(b) && m in Gone(b)
    ensures StandingOf(b, m).Closed? || StandingOf(b, m).InSession?
  {
  }

  // ----- Propose and vote -----

  function Tabled(b: Book, a: Amendment, bindings: map<string, Observation>): Book {
    b.(ledger := b.ledger + [Proposed(a, bindings)], proposals := b.proposals + [a],
       bindings := b.bindings[a.id := bindings])
  }

  lemma TabledKeeps(b: Book, a: Amendment, bindings: map<string, Observation>)
    requires Inv(b) && a.id !in MotionIds(b.proposals) && a.id !in b.decided
    ensures Inv(Tabled(b, a, bindings))
  {
    var t := Tabled(b, a, bindings);
    EvidencedAppend(b.ledger, Proposed(a, bindings));
    forall m: string ensures Matches(CaseOf(t.ledger, m), StandingOf(t, m), m) {
      assert Matches(CaseOf(b.ledger, m), StandingOf(b, m), m);
      CaseAppend(b.ledger, Proposed(a, bindings), m);
      TabledStanding(b, a, bindings, m);
    }
  }

  lemma TabledStanding(b: Book, a: Amendment, bindings: map<string, Observation>, m: string)
    requires Shape(b) && a.id !in MotionIds(b.proposals) && a.id !in b.decided
    ensures StandingOf(b, a.id) == Unknown
    ensures StandingOf(Tabled(b, a, bindings), m) == if m == a.id then Open else StandingOf(b, m)
  {
  }

  function Balloted(b: Book, motion: string, alias: nat, vote: Option<bool>): Book
    requires motion in b.seated && motion in b.ballots
  {
    b.(ledger := b.ledger + [Voted(motion, b.seated[motion].round, alias, vote)],
       ballots := b.ballots[motion := Cast(b.ballots[motion], alias, vote)])
  }

  lemma BallotedStanding(b: Book, motion: string, alias: nat, vote: Option<bool>, m: string)
    requires Shape(b) && motion in b.seated && motion !in b.decided
    ensures StandingOf(b, motion) == InSession(b.seated[motion], b.voters[motion], b.ballots[motion])
    ensures StandingOf(Balloted(b, motion, alias, vote), m) ==
            if m == motion then InSession(b.seated[m], b.voters[m], Cast(b.ballots[m], alias, vote))
            else StandingOf(b, m)
  {
  }

  lemma BallotedShape(b: Book, motion: string, alias: nat, vote: Option<bool>)
    requires Shape(b) && motion in b.seated && alias in b.voters[motion]
    ensures Shape(Balloted(b, motion, alias, vote))
  {
  }

  lemma BallotedKeeps(b: Book, motion: string, alias: nat, vote: Option<bool>)
    requires Inv(b) && motion in b.seated && alias in b.voters[motion] && alias !in b.ballots[motion]
    requires motion !in b.decided
    ensures Inv(Balloted(b, motion, alias, vote))
  {
    var t, e := Balloted(b, motion, alias, vote), Voted(motion, b.seated[motion].round, alias, vote);
    EvidencedAppend(b.ledger, e);
    BallotedShape(b, motion, alias, vote);
    forall m: string ensures Matches(CaseOf(t.ledger, m), StandingOf(t, m), m) {
      assert Matches(CaseOf(b.ledger, m), StandingOf(b, m), m);
      CaseAppend(b.ledger, e, m);
      BallotedMatches(b, motion, alias, vote, CaseOf(b.ledger, m), m);
    }
  }

  lemma BallotedMatches(b: Book, motion: string, alias: nat, vote: Option<bool>, c: Case, m: string)
    requires Shape(b) && motion in b.seated && alias !in b.ballots[motion] && motion !in b.decided
    requires Matches(c, StandingOf(b, m), m)
    ensures Matches(Next(c, Voted(motion, b.seated[motion].round, alias, vote), m),
                    StandingOf(Balloted(b, motion, alias, vote), m), m)
  {
    BallotedStanding(b, motion, alias, vote, m);
  }

  // ----- Seat -----

  lemma AgendaIsOpen(b: Book, m: string)
    ensures m in Map(MotionId, Agenda(b)) <==> m in MotionIds(b.proposals) && IsOpen(b, m)
  {
    var agenda := Agenda(b);
    if m in MotionIds(b.proposals) && IsOpen(b, m) {
      var a :| a in b.proposals && a.id == m;
      assert a in agenda;
      var i :| 0 <= i < |agenda| && agenda[i] == a;
      assert Map(MotionId, agenda)[i] == m;
    }
    if m in Map(MotionId, agenda) {
      var i :| 0 <= i < |agenda| && agenda[i].id == m;
      assert agenda[i] in agenda;
    }
  }

  lemma {:induction false} FilteredSeatsDistinct(seats: seq<Seat>, p: Seat -> bool)
    requires DistinctSeats(seats)
    ensures DistinctSeats(Filter(seats, p))
  {
    if seats != [] {
      var rest, s := seats[..|seats| - 1], seats[|seats| - 1];
      FilteredSeatsDistinct(rest, p);
      assert forall x <- rest :: x.alias != s.alias && x.assembly != s.assembly;
    }
  }

  /** A motion's voters are the aliases of exactly the seats not recused from it, each once. */
  lemma ElectorateShape(seats: seq<Seat>, recusals: map<string, set<string>>, m: string)
    requires DistinctSeats(seats)
    ensures Distinct(Electorate(seats, recusals, m))
    ensures forall alias :: alias in Electorate(seats, recusals, m) <==>
              exists s <- seats :: s.alias == alias && s.assembly !in Recused(recusals, m)
    ensures Elements(Electorate(seats, recusals, m)) <= Elements(Map(AliasOf, seats))
  {
    var p := (s: Seat) => s.assembly !in Recused(recusals, m);
    FilteredSeatsDistinct(seats, p);
    var kept := Filter(seats, p);
    forall alias | alias in Electorate(seats, recusals, m)
      ensures exists s <- seats :: s.alias == alias && s.assembly !in Recused(recusals, m)
      ensures alias in Map(AliasOf, seats)
    {
      var i :| 0 <= i < |kept| && kept[i].alias == alias;
      assert kept[i] in kept;
      var j :| 0 <= j < |seats| && seats[j] == kept[i];
      assert Map(AliasOf, seats)[j] == alias;
    }
    forall s <- seats | s.assembly !in Recused(recusals, m) ensures s.alias in Electorate(seats, recusals, m) {
      var i :| 0 <= i < |kept| && kept[i] == s;
      assert Electorate(seats, recusals, m)[i] == s.alias;
    }
  }

  lemma SeatingsShape(b: Book, c: Committee, recusals: map<string, set<string>>, e: Entry)
    requires Shape(b) && DistinctSeats(c.seats) && c.round <= b.sittings + 1
    requires Elements(c.agenda) <= MotionIds(b.proposals)
    ensures Shape(Seatings(b, c, recusals, e))
  {
    var t := Seatings(b, c, recusals, e);
    forall m <- t.seated ensures ElectorateOk(t.seated[m], t.voters[m], t.ballots[m], t.sittings) {
      if m in c.agenda { ElectorateShape(c.seats, recusals, m); }
    }
  }

  lemma SeatingsStanding(b: Book, c: Committee, recusals: map<string, set<string>>, e: Entry, m: string)
    requires Shape(b) && (m in c.agenda ==> m in MotionIds(b.proposals) && IsOpen(b, m))
    ensures StandingOf(b, m).Open? || m !in c.agenda
    ensures StandingOf(Seatings(b, c, recusals, e), m) ==
            if m in c.agenda then InSession(c, Electorate(c.seats, recusals, m), map[]) else StandingOf(b, m)
  {
  }

  lemma SeatingsMatch(b: Book, c: Committee, motions: seq<string>, quorum: int,
                      recusals: map<string, set<string>>, m: string)
    requires Inv(b) && quorum >= 1
    requires c.round == b.sittings + 1
    requires m in c.agenda ==>
      m in motions && m in MotionIds(b.proposals) && IsOpen(b, m) && |Electorate(c.seats, recusals, m)| >= quorum
    ensures
      var e := SeatEntry(c, motions, quorum, recusals);
      var t := Seatings(b, c, recusals, e);
      Matches(CaseOf(t.ledger, m), StandingOf(t, m), m)
  {
    var e := SeatEntry(c, motions, quorum, recusals);
    assert Matches(CaseOf(b.ledger, m), StandingOf(b, m), m);
    CaseAppend(b.ledger, e, m);
    SeatingsStanding(b, c, recusals, e, m);
  }

  /** Seating a committee over the motions waiting. */
  lemma ConveneKeeps(b: Book, boundary: int, seats: seq<Seat>, quorum: int, recusals: map<string, set<string>>)
    requires Inv(b) && quorum >= 1 && DistinctSeats(seats)
    ensures Inv(Convene(b, boundary, seats, quorum, recusals).0)
  {
    var c := Convened(b, boundary, seats, quorum, recusals);
    var motions := Map(MotionId, Agenda(b));
    var e := SeatEntry(c, motions, quorum, recusals);
    var t := Seatings(b, c, recusals, e);
    EvidencedAppend(b.ledger, e);
    forall m: string
      ensures m in c.agenda ==> m in MotionIds(b.proposals)
      ensures Matches(CaseOf(t.ledger, m), StandingOf(t, m), m)
    {
      AgendaIsOpen(b, m);
      SeatingsMatch(b, c, motions, quorum, recusals, m);
    }
    SeatingsShape(b, c, recusals, e);
  }

  lemma PostponedKeeps(b: Book, boundary: int, eligible: nat, quorum: int)
    requires Inv(b)
    ensures Inv(Postponed(b, boundary, eligible, quorum))
  {
    var e := SeatDeferred(boundary, eligible, quorum, Map(MotionId, Agenda(b)));
    var t := Postponed(b, boundary, eligible, quorum);
    EvidencedAppend(b.ledger, e);
    forall m: string ensures Matches(CaseOf(t.ledger, m), StandingOf(t, m), m) {
      assert Matches(CaseOf(b.ledger, m), StandingOf(b, m), m);
      CaseAppend(b.ledger, e, m);
    }
  }

  lemma SeatKeeps(b: Book, boundary: int, eligible: map<string, string>, seats: seq<Seat>, size: int,
                  quorum: int, recusals: map<string, set<string>>, appends: nat)
    requires Inv(b)
    ensures Inv(SeatOn(b, boundary, eligible, seats, size, quorum, recusals, appends).0)
  {
    if quorum >= 1 && appends > 0 {
      if |eligible| < quorum {
        PostponedKeeps(b, boundary, |eligible|, quorum);
      } else if Drawable(eligible, size) && DistinctSeats(seats) {
        ConveneKeeps(b, boundary, seats, quorum, recusals);
      }
    }
  }

  // ----- Activation -----

  /** The edition an activation builds is one its constructor accepts, and no observation is bound
      twice in it; its norms are those of the edition before. */
  lemma AmendedWellFormed(e: Edition, a: Amendment, bindings: map<string, Observation>, live: map<string, Observation>)
    requires WellFormed(e) && Obstacle(e, a, bindings, live).None?
    ensures WellFormed(Amended(e, a)) && Amended(e, a).norms == e.norms
  {
    PatchedShape(e, a);
    var unknown := Filter(Changed(a), (c: Card) => c.norm !in e.norms);
    forall c <- Patched(e, a) ensures c.norm in e.norms {
      if c in Changed(a) { assert c !in unknown; }
    }
  }

  lemma SpentKeeps(b: Book, a: Amendment, reason: Reason)
    requires Inv(b) && a.id in MotionIds(b.proposals) && a.id !in b.decided
    ensures Inv(Spent(b, a, reason))
  {
    var t, e := Spent(b, a, reason), Refused(a.id, reason);
    EvidencedAppend(b.ledger, e);
    SettledFits(b, t, a.id, e);
  }

  /** A motion due has its evidence in the ledger. */
  lemma DueIsEvidence(b: Book, m: string, edition: int)
    requires Shape(b) && Fits(b) && m in MotionIds(b.proposals) && IsDue(b, m)
    ensures Evidence(b.ledger, Activated(m, b.seated[m].round, edition))
    ensures CaseOf(b.ledger, m).Voting?
  {
    assert Matches(CaseOf(b.ledger, m), StandingOf(b, m), m);
    assert ElectorateOk(b.seated[m], b.voters[m], b.ballots[m], b.sittings);
    TallyIsMajority(b.voters[m], b.ballots[m]);
  }

  /** An entry that settles a motion standing open or in session, and a book that marks it decided. */
  lemma SettledFits(b: Book, t: Book, m: string, e: Entry)
    requires Shape(b) && Fits(b) && m in MotionIds(b.proposals) && m !in b.decided
    requires (e.Refused? && e.motion == m) || (e.Activated? && e.motion == m && m in b.seated)
    requires t.ledger == b.ledger + [e] && t.decided == b.decided + {m}
    requires t.proposals == b.proposals && t.seated == b.seated && t.voters == b.voters && t.ballots == b.ballots
    ensures Fits(t)
  {
    forall k: string ensures Matches(CaseOf(t.ledger, k), StandingOf(t, k), k) {
      assert Matches(CaseOf(b.ledger, k), StandingOf(b, k), k);
      CaseAppend(b.ledger, e, k);
      SettledStanding(b, t, m, k);
    }
  }

  lemma SettledStanding(b: Book, t: Book, m: string, k: string)
    requires Shape(b) && m in MotionIds(b.proposals) && m !in b.decided
    requires t.decided == b.decided + {m} && t.proposals == b.proposals
    requires t.seated == b.seated && t.voters == b.voters && t.ballots == b.ballots
    ensures if m in b.seated then StandingOf(b, m).InSession? else StandingOf(b, m).Open?
    ensures StandingOf(t, k) == if k == m then Closed else StandingOf(b, k)
  {
  }

  lemma AdoptedKeeps(b: Book, a: Amendment, t: Book)
    requires Inv(b) && a.id in MotionIds(b.proposals) && IsDue(b, a.id)
    requires EditionOk(t)
    requires t == b.(ledger := b.ledger + [Activated(a.id, b.seated[a.id].round, t.edition.number)],
                     edition := t.edition, decided := b.decided + {a.id}, latest := t.latest)
    ensures Inv(t)
  {
    var e := Activated(a.id, b.seated[a.id].round, t.edition.number);
    DueIsEvidence(b, a.id, t.edition.number);
    EvidencedAppend(b.ledger, e);
    SettledFits(b, t, a.id, e);
  }

  lemma ActivateKeeps(b: Book, live: map<string, Observation>, appends: nat)
    requires Inv(b)
    ensures Inv(ActivateOn(b, live, appends).0)
  {
    if Due(b) != [] && appends > 0 {
      DueHead(b);
      var a := Due(b)[0];
      match Obstacle(b.edition, a, BindingsOf(b, a.id), live)
      case Some(reason) =>
        SpentKeeps(b, a, reason);
      case None =>
        AmendedWellFormed(b.edition, a, BindingsOf(b, a.id), live);
        AdoptedKeeps(b, a, Adopted(b, a));
    }
  }

  // ----- Norm editions -----

  lemma FilterBoundOnce(cards: seq<Card>, p: Card -> bool)
    requires BoundOnce(cards)
    ensures BoundOnce(Filter(cards, p))
  {
    if cards != [] {
      var rest, c := cards[..|cards| - 1], cards[|cards| - 1];
      FilterBoundOnce(rest, p);
      assert forall x <- rest :: !Clash(c, x);
    }
  }

  lemma RefusalsSplit(ledger: seq<Entry>, init: seq<string>, last: string)
    ensures ledger + MotionRefusals(init + [last])
            == ledger + MotionRefusals(init) + [Refused(last, NormRemoved)]
  {
    assert MotionRefusals(init + [last]) == MotionRefusals(init) + [Refused(last, NormRemoved)];
  }

  lemma RefuseOne(ledger: seq<Entry>, motion: string, m: string)
    requires m == motion ==> CaseOf(ledger, m).Waiting? || CaseOf(ledger, m).Voting?
    ensures CaseOf(ledger + [Refused(motion, NormRemoved)], m) == if m == motion then Settled else CaseOf(ledger, m)
  {
    CaseAppend(ledger, Refused(motion, NormRemoved), m);
  }

  lemma LastApart(motions: seq<string>, m: string)
    requires motions != [] && Distinct(motions)
    ensures
      var init, last := motions[..|motions| - 1], motions[|motions| - 1];
      motions == init + [last] && Distinct(init) && last !in init && (m in motions <==> m in init || m == last)
  {
    assert motions == motions[..|motions| - 1] + [motions[|motions| - 1]];
  }

  /** Refusing distinct motions settles each of them and no other. */
  lemma {:induction false} RefuseAll(ledger: seq<Entry>, motions: seq<string>, m: string)
    requires Distinct(motions)
    requires m in motions ==> CaseOf(ledger, m).Waiting? || CaseOf(ledger, m).Voting?
    ensures CaseOf(ledger + MotionRefusals(motions), m)
            == if m in motions then Settled else CaseOf(ledger, m)
  {
    if motions == [] {
      assert ledger + MotionRefusals(motions) == ledger;
    } else {
      var init, last := motions[..|motions| - 1], motions[|motions| - 1];
      LastApart(motions, m);
      RefuseAll(ledger, init, m);
      RefuseOne(ledger + MotionRefusals(init), last, m);
      RefusalsSplit(ledger, init, last);
    }
  }

  lemma {:induction false} IdleEntriesSkip(ledger: seq<Entry>, more: seq<Entry>, m: string)
    requires forall e <- more :: e.CardRefused? || e.NormsIssued?
    ensures CaseOf(ledger + more, m) == CaseOf(ledger, m)
  {
    if more == [] {
      assert ledger + more == ledger;
    } else {
      var init, last := more[..|more| - 1], more[|more| - 1];
      assert last in more;
      IdleEntriesSkip(ledger, init, m);
      assert ledger + more == ledger + init + [last];
      CaseAppend(ledger + init, last, m);
    }
  }

  /** The entries of a norm edition that the ledger took before failing, or all of them. */
  lemma NormEntriesKeep(b: Book, idle: seq<Entry>, motions: seq<string>, t: Book)
    requires Inv(b) && EditionOk(t)
    requires forall e <- idle :: e.CardRefused? || e.NormsIssued?
    requires Distinct(motions) && Elements(motions) <= MotionIds(b.proposals) - b.decided
    requires t == b.(ledger := b.ledger + idle + MotionRefusals(motions),
                     decided := b.decided + Elements(motions), edition := t.edition, normEditions := t.normEditions)
    ensures Inv(t)
  {
    var refusals := MotionRefusals(motions);
    EvidencedMore(b.ledger, idle);
    EvidencedMore(b.ledger + idle, refusals);
    forall m: string ensures Matches(CaseOf(t.ledger, m), StandingOf(t, m), m) {
      assert Matches(CaseOf(b.ledger, m), StandingOf(b, m), m);
      IdleEntriesSkip(b.ledger, idle, m);
      RefuseAll(b.ledger + idle, motions, m);
    }
  }

  lemma OffMotionsOpen(b: Book, norms: seq<string>)
    requires Shape(b)
    ensures Distinct(OffMotions(b, norms))
    ensures Elements(OffMotions(b, norms)) <= MotionIds(b.proposals) - b.decided
  {
    var open, off := (a: Amendment) => !IsOver(b, a.id), (a: Amendment) => OffNorms(a, norms);
    KeptDistinct(b.proposals, open);
    KeptDistinct(Pending(b), off);
    var kept := Filter(Pending(b), off);
    forall m | m in Map(MotionId, kept) ensures m in MotionIds(b.proposals) - b.decided {
      var i :| 0 <= i < |kept| && kept[i].id == m;
      assert kept[i] in kept && kept[i] in Pending(b);
    }
  }

  lemma ReissuedWellFormed(e: Edition, norms: seq<string>)
    requires WellFormed(e) && norms != [] && Distinct(norms)
    ensures WellFormed(Reissued(e, norms))
  {
    WithoutKeepsDistinctIds(e.cards, (c: Card) => c.norm in norms);
    FilterBoundOnce(e.cards, (c: Card) => c.norm in norms);
  }

  lemma SpentMotions(b: Book, norms: seq<string>, n: nat)
    requires Shape(b)
    ensures var spent := Take(OffMotions(b, norms), n);
      Distinct(spent) && Elements(spent) <= MotionIds(b.proposals) - b.decided
  {
    OffMotionsOpen(b, norms);
    var motions := OffMotions(b, norms);
    forall m | m in Take(motions, n) ensures m in Elements(motions) {}
  }

  lemma IssuedEdition(b: Book, norms: seq<string>, sequence: int, appends: nat)
    requires EditionOk(b)
    ensures EditionOk(IssueStep(b, norms, sequence, appends).0)
  {
    if norms != [] && Distinct(norms) { ReissuedWellFormed(b.edition, norms); }
  }

  lemma IssueKeeps(b: Book, norms: seq<string>, sequence: int, appends: nat)
    requires Inv(b)
    ensures Inv(IssueStep(b, norms, sequence, appends).0)
  {
    if sequence == |b.normEditions| + 1 && norms != [] && Distinct(norms) {
      var idle, spent := TakenEntries(b, norms, sequence, appends);
      IssuedEdition(b, norms, sequence, appends);
      NormEntriesKeep(b, idle, spent, IssueStep(b, norms, sequence, appends).0);
    }
  }

  /** What a norm edition's call takes into the ledger and changes. */
  lemma TakenEntries(b: Book, norms: seq<string>, sequence: int, appends: nat)
    returns (idle: seq<Entry>, spent: seq<string>)
    requires Shape(b) && sequence == |b.normEditions| + 1 && norms != [] && Distinct(norms)
    ensures forall e <- idle :: e.CardRefused? || e.NormsIssued?
    ensures Distinct(spent) && Elements(spent) <= MotionIds(b.proposals) - b.decided
    ensures
      var t := IssueStep(b, norms, sequence, appends).0;
      t == b.(ledger := b.ledger + idle + MotionRefusals(spent), decided := b.decided + Elements(spent),
              edition := t.edition, normEditions := t.normEditions)
  {
    idle, spent := Take(IdleEntries(b.edition, norms, sequence), appends), SpentBy(b, norms, sequence, appends);
    TakenAreIdle(b.edition, norms, sequence, appends);
    var n := |IdleEntries(b.edition, norms, sequence)|;
    SpentMotions(b, norms, if appends <= n then 0 else appends - n);
  }

  lemma TakenAreIdle(e: Edition, norms: seq<string>, sequence: int, appends: nat)
    ensures forall x <- Take(IdleEntries(e, norms, sequence), appends) :: x.CardRefused? || x.NormsIssued?
  {
  }

  // ----- Every run -----

  lemma StepKeeps(b: Book, call: Call, appends: nat, forget: bool)
    requires Inv(b)
    ensures Inv(Step(b, call, appends, forget).0)
  {
    if forget { CloseKeeps(b); }
    match call
    case Propose(a, observations, measurable) =>
      if Admissible(b, a, measurable) { TabledKeeps(b, a, Bind(b.edition.cards + Changed(a), observations)); }
    case Seat(boundary, eligible, seats, size, quorum, recusals) =>
      SeatKeeps(CloseIf(b, forget), boundary, eligible, seats, size, quorum, recusals, appends);
    case Vote(round, motion, alias, vote) =>
      if CanVote(b, round, motion, alias) { BallotedKeeps(b, motion, alias, vote); }
    case ActivateDue(live) => ActivateKeeps(CloseIf(b, forget), live, appends);
    case IssueNorms(norms, sequence) => IssueKeeps(b, norms, sequence, appends);
  }

  /** From a well-formed seed, over every run, whatever appends fail: every edition in force is well
      formed, so its constructor never raises, and every activation in the ledger has its evidence. */
  lemma {:induction false} EveryRun(seed: Edition, run: Run, forget: bool)
    requires WellFormed(seed)
    ensures Inv(After(seed, run, forget))
  {
    if run != [] {
      EveryRun(seed, run[..|run| - 1], forget);
      StepKeeps(After(seed, run[..|run| - 1], forget), run[|run| - 1].0, run[|run| - 1].1, forget);
    }
  }

  /** No motion is ever proposed twice, seated twice, voted on twice by one alias or settled twice. */
  lemma NoMotionTwice(seed: Edition, run: Run, forget: bool, m: string)
    requires WellFormed(seed)
    ensures !CaseOf(After(seed, run, forget).ledger, m).Broken?
  {
    EveryRun(seed, run, forget);
    var b := After(seed, run, forget);
    assert Matches(CaseOf(b.ledger, m), StandingOf(b, m), m);
  }
}
