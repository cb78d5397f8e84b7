/** Whole runs of the charter book: what its evidence means entry by entry, who may vote, and how
    editions are counted. */
module BookRuns {
  import opened Options
  import opened Sequences
  import opened Charter
  import opened Seats
  import opened Books
  import opened BookProofs

  // ----- The evidence, entry by entry -----

  predicate Proposes(e: Entry, m: string) { e.Proposed? && e.amendment.id == m }
  predicate Convenes(e: Entry, m: string) { e.Seated? && m in e.agenda }
  predicate Votes(e: Entry, m: string) { e.Voted? && e.motion == m }

  predicate VotesFor(e: Entry, m: string, alias: nat, vote: Option<bool>) {
    Votes(e, m) && e.alias == alias && e.vote == vote
  }

  lemma {:induction false} AbsentMeans(ledger: seq<Entry>, m: string)
    requires CaseOf(ledger, m).Absent?
    ensures forall e <- ledger :: !Proposes(e, m) && !Convenes(e, m) && !Votes(e, m)
  {
    if ledger != [] { AbsentMeans(ledger[..|ledger| - 1], m); }
  }

  lemma {:induction false} WaitingMeans(ledger: seq<Entry>, m: string) returns (p: nat)
    requires CaseOf(ledger, m).Waiting?
    ensures p < |ledger| && Proposes(ledger[p], m)
    ensures forall i | 0 <= i < |ledger| && Proposes(ledger[i], m) :: i == p
    ensures forall e <- ledger :: !Convenes(e, m) && !Votes(e, m)
  {
    var init := ledger[..|ledger| - 1];
    if CaseOf(init, m).Waiting? {
      p := WaitingMeans(init, m);
    } else {
      AbsentMeans(init, m);
      p := |ledger| - 1;
    }
  }

  /** A motion in session was proposed once, then seated once. */
  lemma {:induction false} SessionMeans(ledger: seq<Entry>, m: string) returns (p: nat, s: nat)
    requires CaseOf(ledger, m).Voting?
    ensures p < s < |ledger| && Proposes(ledger[p], m) && Convenes(ledger[s], m)
    ensures ledger[s] == CaseOf(ledger, m).seating
    ensures forall i | 0 <= i < |ledger| && Proposes(ledger[i], m) :: i == p
    ensures forall i | 0 <= i < |ledger| && Convenes(ledger[i], m) :: i == s
    ensures forall i | 0 <= i < |ledger| && Votes(ledger[i], m) :: s < i
  {
    var init := ledger[..|ledger| - 1];
    if CaseOf(init, m).Voting? {
      p, s := SessionMeans(init, m);
    } else {
      p := WaitingMeans(init, m);
      s := |ledger| - 1;
    }
  }

  /** The ballots of a motion in session are its votes, one per alias. */
  lemma {:induction false} BallotsMean(ledger: seq<Entry>, m: string)
    requires CaseOf(ledger, m).Voting?
    ensures var ballots := CaseOf(ledger, m).ballots;
      && (forall e <- ledger | Votes(e, m) :: e.alias in ballots && e.vote == ballots[e.alias])
      && (forall alias <- ballots :: exists e <- ledger :: VotesFor(e, m, alias, ballots[alias]))
  {
    var init, last := ledger[..|ledger| - 1], ledger[|ledger| - 1];
    assert ledger == init + [last];
    if CaseOf(init, m).Voting? {
      BallotsMean(init, m);
      var ballots, before := CaseOf(ledger, m).ballots, CaseOf(init, m).ballots;
      forall alias <- ballots ensures exists e <- ledger :: VotesFor(e, m, alias, ballots[alias]) {
        if alias in before {
          var e :| e in init && VotesFor(e, m, alias, before[alias]);
          assert e in ledger && VotesFor(e, m, alias, ballots[alias]);
        } else {
          assert last in ledger && VotesFor(last, m, alias, ballots[alias]);
        }
      }
    } else {
      var _ := WaitingMeans(init, m);
    }
  }

  lemma {:induction false} BallotsCastOnce(ledger: seq<Entry>, m: string)
    requires CaseOf(ledger, m).Voting?
    ensures forall i, j | 0 <= i < j < |ledger| && Votes(ledger[i], m) && Votes(ledger[j], m) ::
              ledger[i].alias != ledger[j].alias
  {
    var init, last := ledger[..|ledger| - 1], ledger[|ledger| - 1];
    if CaseOf(init, m).Voting? {
      BallotsCastOnce(init, m);
      BallotsMean(init, m);
      forall i | 0 <= i < |init| ensures ledger[i] == init[i] && ledger[i] in init {}
    } else {
      var _ := WaitingMeans(init, m);
      forall i | 0 <= i < |init| ensures ledger[i] == init[i] && ledger[i] in init {}
    }
  }

  // ----- A proposer never votes on its own motion -----

  /** Every seating call of the run recuses at least these assemblies from these motions. */
  predicate Recuses(run: Run, recused: map<string, set<string>>) {
    forall x <- run | x.0.Seat? :: forall m <- recused :: recused[m] <= Recused(x.0.recusals, m)
  }

  predicate ImpartialSeats(seats: seq<Seat>, voters: set<nat>, out: set<string>) {
    forall s <- seats | s.alias in voters :: s.assembly !in out
  }

  ghost predicate ImpartialState(b: Book, recused: map<string, set<string>>) {
    forall m <- b.seated | m in recused && m in b.voters ::
      ImpartialSeats(b.seated[m].seats, Elements(b.voters[m]), recused[m])
  }

  ghost predicate ImpartialEntry(before: seq<Entry>, e: Entry, recused: map<string, set<string>>) {
    e.Voted? && e.motion in recused ==>
      var c := CaseOf(before, e.motion);
      c.Voting? && c.seating.Seated? && ImpartialSeats(c.seating.seats, {e.alias}, recused[e.motion])
  }

  ghost predicate ImpartialLedger(ledger: seq<Entry>, recused: map<string, set<string>>) {
    forall i | 0 <= i < |ledger| :: ImpartialEntry(ledger[..i], ledger[i], recused)
  }

  lemma ImpartialMore(ledger: seq<Entry>, all: seq<Entry>, recused: map<string, set<string>>)
    requires ImpartialLedger(ledger, recused) && ledger <= all
    requires forall i | |ledger| <= i < |all| :: ImpartialEntry(all[..i], all[i], recused)
    ensures ImpartialLedger(all, recused)
  {
    forall i | 0 <= i < |all| ensures ImpartialEntry(all[..i], all[i], recused) {
      if i < |ledger| { assert all[..i] == ledger[..i]; }
    }
  }

  lemma SeatedImpartially(seats: seq<Seat>, recusals: map<string, set<string>>, m: string, out: set<string>)
    requires DistinctSeats(seats) && out <= Recused(recusals, m)
    ensures ImpartialSeats(seats, Elements(Electorate(seats, recusals, m)), out)
  {
    ElectorateShape(seats, recusals, m);
    forall s <- seats | s.alias in Electorate(seats, recusals, m) ensures s.assembly !in out {
      var w :| w in seats && w.alias == s.alias && w.assembly !in Recused(recusals, m);
      var i, j :| 0 <= i < |seats| && 0 <= j < |seats| && seats[i] == s && seats[j] == w;
    }
  }

  /** The entries a call appends that is no vote hold no vote. */
  ghost predicate Silent(b: Book, t: Book) {
    b.ledger <= t.ledger && forall i | |b.ledger| <= i < |t.ledger| :: !t.ledger[i].Voted?
  }

  lemma NotedIsSilent(b: Book, norms: seq<string>, sequence: int, appends: nat)
    ensures Silent(b, Noted(b, norms, sequence, appends))
  {
    var t := Noted(b, norms, sequence, appends);
    var idle := Take(IdleEntries(b.edition, norms, sequence), appends);
    forall i | |b.ledger| <= i < |t.ledger| ensures !t.ledger[i].Voted? {
      var k := i - |b.ledger|;
      if k < |idle| { assert t.ledger[i] == idle[k] && idle[k] in idle; }
    }
  }

  lemma IssueIsSilent(b: Book, norms: seq<string>, sequence: int, appends: nat)
    ensures Silent(b, IssueStep(b, norms, sequence, appends).0)
  {
    NotedIsSilent(b, norms, sequence, appends);
  }

  lemma SeatIsSilent(b: Book, boundary: int, eligible: map<string, string>, seats: seq<Seat>, size: int,
                     quorum: int, recusals: map<string, set<string>>, appends: nat)
    ensures Silent(b, SeatOn(b, boundary, eligible, seats, size, quorum, recusals, appends).0)
  {
    if 1 <= quorum <= |eligible| && Drawable(eligible, size) && DistinctSeats(seats) && appends > 0 {
      ConveneIsSilent(b, boundary, seats, quorum, recusals);
    }
  }

  lemma ConveneIsSilent(b: Book, boundary: int, seats: seq<Seat>, quorum: int, recusals: map<string, set<string>>)
    ensures Silent(b, Convene(b, boundary, seats, quorum, recusals).0)
  {
    var c := Convened(b, boundary, seats, quorum, recusals);
    SeatingsAreSilent(b, c, recusals, SeatEntry(c, Map(MotionId, Agenda(b)), quorum, recusals));
  }

  lemma SeatingsAreSilent(b: Book, c: Committee, recusals: map<string, set<string>>, e: Entry)
    requires !e.Voted?
    ensures Silent(b, Seatings(b, c, recusals, e))
  {
  }

  lemma SettleIsSilent(b: Book, a: Amendment, obstacle: Option<Reason>, appends: nat)
    requires a.id in b.seated
    ensures Silent(b, Settle(b, a, obstacle, appends).0)
  {
  }

  lemma ActivateIsSilent(b: Book, live: map<string, Observation>, appends: nat)
    ensures Silent(b, ActivateOn(b, live, appends).0)
  {
    if Due(b) != [] {
      DueHead(b);
      var a := Due(b)[0];
      SettleIsSilent(b, a, Obstacle(b.edition, a, BindingsOf(b, a.id), live), appends);
    }
  }

  lemma ProposeIsSilent(b: Book, a: Amendment, observations: map<string, Observation>, measurable: set<Card>,
                        appends: nat)
    ensures Silent(b, ProposeStep(b, a, observations, measurable, appends).0)
  {
  }

  lemma StepIsSilent(b: Book, call: Call, appends: nat, forget: bool)
    requires !call.Vote?
    ensures Silent(b, Step(b, call, appends, forget).0)
  {
    match call
    case Propose(a, observations, measurable) => ProposeIsSilent(b, a, observations, measurable, appends);
    case Seat(boundary, eligible, seats, size, quorum, recusals) =>
      SeatIsSilent(CloseIf(b, forget), boundary, eligible, seats, size, quorum, recusals, appends);
    case ActivateDue(live) => ActivateIsSilent(CloseIf(b, forget), live, appends);
    case IssueNorms(norms, sequence) => IssueIsSilent(b, norms, sequence, appends);
  }

  lemma SeatingImpartial(b: Book, c: Committee, recusals: map<string, set<string>>, e: Entry,
                         recused: map<string, set<string>>)
    requires ImpartialState(b, recused) && DistinctSeats(c.seats)
    requires forall m <- recused :: recused[m] <= Recused(recusals, m)
    ensures ImpartialState(Seatings(b, c, recusals, e), recused)
  {
    var t := Seatings(b, c, recusals, e);
    forall m <- t.seated | m in recused && m in t.voters
      ensures ImpartialSeats(t.seated[m].seats, Elements(t.voters[m]), recused[m])
    {
      if m in c.agenda { SeatedImpartially(c.seats, recusals, m, recused[m]); }
    }
  }

  lemma SeatImpartial(b: Book, boundary: int, eligible: map<string, string>, seats: seq<Seat>, size: int,
                      quorum: int, recusals: map<string, set<string>>, appends: nat,
                      recused: map<string, set<string>>)
    requires ImpartialState(b, recused)
    requires forall m <- recused :: recused[m] <= Recused(recusals, m)
    ensures ImpartialState(SeatOn(b, boundary, eligible, seats, size, quorum, recusals, appends).0, recused)
  {
    if quorum >= 1 && |eligible| >= quorum && Drawable(eligible, size) && DistinctSeats(seats) && appends > 0 {
      var c := Convened(b, boundary, seats, quorum, recusals);
      SeatingImpartial(b, c, recusals, SeatEntry(c, Map(MotionId, Agenda(b)), quorum, recusals), recused);
    }
  }

  /** Every call but a seating leaves committees and electorates alone, or forgets some. */
  ghost predicate NoNewVoters(b: Book, t: Book) {
    forall m <- t.seated | m in t.voters ::
      m in b.seated && m in b.voters && t.seated[m] == b.seated[m] && t.voters[m] == b.voters[m]
  }

  lemma ActivateSeatsNoOne(b: Book, live: map<string, Observation>, appends: nat)
    ensures NoNewVoters(b, ActivateOn(b, live, appends).0)
  {
    if Due(b) != [] {
      DueHead(b);
      var a := Due(b)[0];
      SettleSeatsNoOne(b, a, Obstacle(b.edition, a, BindingsOf(b, a.id), live), appends);
    }
  }

  lemma SettleSeatsNoOne(b: Book, a: Amendment, obstacle: Option<Reason>, appends: nat)
    requires a.id in b.seated
    ensures NoNewVoters(b, Settle(b, a, obstacle, appends).0)
  {
  }

  lemma ProposeSeatsNoOne(b: Book, a: Amendment, observations: map<string, Observation>,
                          measurable: set<Card>, appends: nat)
    ensures NoNewVoters(b, ProposeStep(b, a, observations, measurable, appends).0)
  {
  }

  lemma IssueSeatsNoOne(b: Book, norms: seq<string>, sequence: int, appends: nat)
    ensures NoNewVoters(b, IssueStep(b, norms, sequence, appends).0)
  {
  }

  lemma VoteSeatsNoOne(b: Book, round: nat, motion: string, alias: nat, vote: Option<bool>, appends: nat)
    ensures NoNewVoters(b, VoteStep(b, round, motion, alias, vote, appends).0)
  {
  }

  lemma StepImpartialState(b: Book, call: Call, appends: nat, forget: bool, recused: map<string, set<string>>)
    requires ImpartialState(b, recused)
    requires call.Seat? ==> forall m <- recused :: recused[m] <= Recused(call.recusals, m)
    ensures ImpartialState(Step(b, call, appends, forget).0, recused)
  {
    var closed := CloseIf(b, forget);
    match call
    case Seat(boundary, eligible, seats, size, quorum, recusals) =>
      SeatImpartial(closed, boundary, eligible, seats, size, quorum, recusals, appends, recused);
    case Propose(a, observations, measurable) =>
      ProposeSeatsNoOne(b, a, observations, measurable, appends);
    case Vote(round, motion, alias, vote) =>
      VoteSeatsNoOne(b, round, motion, alias, vote, appends);
    case ActivateDue(live) => ActivateSeatsNoOne(closed, live, appends);
    case IssueNorms(norms, sequence) =>
      IssueSeatsNoOne(b, norms, sequence, appends);
  }

  lemma StepImpartialLedger(b: Book, call: Call, appends: nat, forget: bool, recused: map<string, set<string>>)
    requires Inv(b) && ImpartialState(b, recused) && ImpartialLedger(b.ledger, recused)
    ensures ImpartialLedger(Step(b, call, appends, forget).0.ledger, recused)
  {
    var t := Step(b, call, appends, forget).0;
    if call.Vote? {
      if t != b {
        assert t.ledger[..|b.ledger|] == b.ledger;
        assert Matches(CaseOf(b.ledger, call.motion), StandingOf(b, call.motion), call.motion);
      }
    } else {
      StepIsSilent(b, call, appends, forget);
    }
    ImpartialMore(b.ledger, t.ledger, recused);
  }

  /** When every seating recuses a motion's proposer, no ballot on that motion, in any reachable ledger,
      is its proposer's. */
  lemma {:induction false} RecusedNeverVote(seed: Edition, run: Run, forget: bool, recused: map<string, set<string>>)
    requires WellFormed(seed) && Recuses(run, recused)
    ensures var b := After(seed, run, forget); ImpartialState(b, recused) && ImpartialLedger(b.ledger, recused)
  {
    if run != [] {
      var init := run[..|run| - 1];
      var (call, appends) := run[|run| - 1];
      RecusedNeverVote(seed, init, forget, recused);
      EveryRun(seed, init, forget);
      StepImpartialState(After(seed, init, forget), call, appends, forget, recused);
      StepImpartialLedger(After(seed, init, forget), call, appends, forget, recused);
    }
  }

  // ----- Counting editions -----

  function Activations(ledger: seq<Entry>): nat {
    if ledger == [] then 0
    else Activations(ledger[..|ledger| - 1]) + (if ledger[|ledger| - 1].Activated? then 1 else 0)
  }

  function NormEntries(ledger: seq<Entry>): nat {
    if ledger == [] then 0
    else NormEntries(ledger[..|ledger| - 1]) + (if ledger[|ledger| - 1].NormsIssued? then 1 else 0)
  }

  lemma {:induction false} CountsAppend(ledger: seq<Entry>, more: seq<Entry>)
    requires forall e <- more :: !e.Activated? && !e.NormsIssued?
    ensures Activations(ledger + more) == Activations(ledger)
    ensures NormEntries(ledger + more) == NormEntries(ledger)
  {
    if more == [] {
      assert ledger + more == ledger;
    } else {
      var init, last := more[..|more| - 1], more[|more| - 1];
      assert last in more;
      CountsAppend(ledger, init);
      assert ledger + more == ledger + init + [last];
      CountsOne(ledger + init, last);
    }
  }

  lemma CountsOne(ledger: seq<Entry>, e: Entry)
    ensures Activations(ledger + [e]) == Activations(ledger) + (if e.Activated? then 1 else 0)
    ensures NormEntries(ledger + [e]) == NormEntries(ledger) + (if e.NormsIssued? then 1 else 0)
  {
    assert (ledger + [e])[..|ledger|] == ledger;
  }

  /** What a call did to the edition in force and to its counts. */
  datatype Effect = Kept | Amending | Issuing | Interrupting

  ghost predicate HasEffect(b: Book, t: Book, effect: Effect) {
    && t.edition.number == b.edition.number + (if effect.Amending? || effect.Issuing? then 1 else 0)
    && (!effect.Issuing? ==> t.edition.norms == b.edition.norms)
    && (effect.Kept? || effect.Interrupting? ==> t.edition == b.edition)
    && |t.normEditions| == |b.normEditions| + (if effect.Issuing? then 1 else 0)
    && Activations(t.ledger) == Activations(b.ledger) + (if effect.Amending? then 1 else 0)
    && NormEntries(t.ledger) == NormEntries(b.ledger) + (if effect.Issuing? || effect.Interrupting? then 1 else 0)
  }

  function EffectOf(call: Call, appends: nat, outcome: Outcome): Effect {
    if outcome.NewEdition? then Amending
    else if outcome.NormEdition? then Issuing
    else if call.IssueNorms? && outcome == LedgerFailed && appends > 0 then Interrupting
    else Kept
  }

  lemma SettleEffect(b: Book, a: Amendment, obstacle: Option<Reason>, appends: nat)
    requires a.id in b.seated
    ensures var (t, o) := Settle(b, a, obstacle, appends);
      && HasEffect(b, t, if o.NewEdition? then Amending else Kept)
      && !o.NormEdition? && (o.NewEdition? ==> o.edition == t.edition)
  {
    if appends > 0 {
      match obstacle
      case Some(reason) => CountsOne(b.ledger, Refused(a.id, reason));
      case None => CountsOne(b.ledger, Activated(a.id, b.seated[a.id].round, b.edition.number + 1));
    }
  }

  lemma ActivateEffect(b: Book, live: map<string, Observation>, appends: nat)
    ensures var (t, o) := ActivateOn(b, live, appends);
      && HasEffect(b, t, if o.NewEdition? then Amending else Kept)
      && !o.NormEdition? && (o.NewEdition? ==> o.edition == t.edition)
  {
    if Due(b) != [] {
      DueHead(b);
      var a := Due(b)[0];
      SettleEffect(b, a, Obstacle(b.edition, a, BindingsOf(b, a.id), live), appends);
    }
  }

  lemma NormLedgerCounts(ledger: seq<Entry>, first: Entry, cards: seq<string>, motions: seq<string>)
    requires first.NormsIssued?
    ensures var l := ledger + ([first] + CardRefusals(cards)) + MotionRefusals(motions);
      Activations(l) == Activations(ledger) && NormEntries(l) == NormEntries(ledger) + 1
  {
    var more := CardRefusals(cards) + MotionRefusals(motions);
    assert ledger + ([first] + CardRefusals(cards)) + MotionRefusals(motions) == ledger + [first] + more;
    forall e <- more ensures !e.Activated? && !e.NormsIssued? {}
    CountsOne(ledger, first);
    CountsAppend(ledger + [first], more);
  }

  lemma NotedCounts(b: Book, norms: seq<string>, sequence: int, appends: nat)
    ensures var t := Noted(b, norms, sequence, appends);
      && Activations(t.ledger) == Activations(b.ledger)
      && NormEntries(t.ledger) == NormEntries(b.ledger) + (if appends > 0 then 1 else 0)
  {
    var e, spent := b.edition, SpentBy(b, norms, sequence, appends);
    if appends == 0 {
      assert Noted(b, norms, sequence, appends).ledger == b.ledger;
    } else {
      TakenIdle(e, norms, sequence, appends);
      NormLedgerCounts(b.ledger, NormsIssued(sequence, e.number + 1, e.number, norms),
                       Take(OffCards(e, norms), appends - 1), spent);
    }
  }

  lemma IssueEffect(b: Book, norms: seq<string>, sequence: int, appends: nat)
    requires EditionOk(b)
    ensures var (t, o) := IssueStep(b, norms, sequence, appends);
      && HasEffect(b, t, EffectOf(IssueNorms(norms, sequence), appends, o))
      && !o.NewEdition? && (o.NormEdition? ==> o.edition == t.edition)
  {
    if sequence == |b.normEditions| + 1 && norms != [] && Distinct(norms) {
      NotedCounts(b, norms, sequence, appends);
      assert b.edition.number + 1 !in b.normEditions;
    }
  }

  lemma SeatEffect(b: Book, boundary: int, eligible: map<string, string>, seats: seq<Seat>, size: int,
                   quorum: int, recusals: map<string, set<string>>, appends: nat)
    ensures var (t, o) := SeatOn(b, boundary, eligible, seats, size, quorum, recusals, appends);
      HasEffect(b, t, Kept) && !o.NewEdition? && !o.NormEdition?
  {
    if |eligible| < quorum {
      CountsOne(b.ledger, SeatDeferred(boundary, |eligible|, quorum, Map(MotionId, Agenda(b))));
    } else {
      CountsOne(b.ledger, SeatEntry(Convened(b, boundary, seats, quorum, recusals), Map(MotionId, Agenda(b)),
                                    quorum, recusals));
    }
  }

  lemma ProposeEffect(b: Book, a: Amendment, observations: map<string, Observation>,
                      measurable: set<Card>, appends: nat)
    ensures var (t, o) := ProposeStep(b, a, observations, measurable, appends);
      HasEffect(b, t, Kept) && !o.NewEdition? && !o.NormEdition?
  {
    CountsOne(b.ledger, Proposed(a, Bind(b.edition.cards + Changed(a), observations)));
  }

  lemma VoteEffect(b: Book, round: nat, motion: string, alias: nat, vote: Option<bool>, appends: nat)
    ensures var (t, o) := VoteStep(b, round, motion, alias, vote, appends);
      HasEffect(b, t, Kept) && !o.NewEdition? && !o.NormEdition?
  {
    CountsOne(b.ledger, Voted(motion, round, alias, vote));
  }

  lemma SeatStepEffect(b: Book, boundary: int, eligible: map<string, string>, seats: seq<Seat>, size: int,
                       quorum: int, recusals: map<string, set<string>>, appends: nat, forget: bool)
    ensures var (t, o) := SeatStep(b, boundary, eligible, seats, size, quorum, recusals, appends, forget);
      HasEffect(b, t, Kept) && !o.NewEdition? && !o.NormEdition?
  {
    SeatEffect(CloseIf(b, forget), boundary, eligible, seats, size, quorum, recusals, appends);
  }

  lemma ActivateStepEffect(b: Book, live: map<string, Observation>, appends: nat, forget: bool)
    ensures var (t, o) := ActivateStep(b, live, appends, forget);
      && HasEffect(b, t, if o.NewEdition? then Amending else Kept)
      && !o.NormEdition? && (o.NewEdition? ==> o.edition == t.edition)
  {
    ActivateEffect(CloseIf(b, forget), live, appends);
  }

  lemma StepEffect(b: Book, call: Call, appends: nat, forget: bool)
    requires EditionOk(b)
    ensures var (t, o) := Step(b, call, appends, forget);
      && HasEffect(b, t, EffectOf(call, appends, o))
      && (o.NewEdition? || o.NormEdition? ==> o.edition == t.edition)
  {
    match call
    case Propose(a, observations, measurable) => ProposeEffect(b, a, observations, measurable, appends);
    case Seat(boundary, eligible, seats, size, quorum, recusals) =>
      SeatStepEffect(b, boundary, eligible, seats, size, quorum, recusals, appends, forget);
    case Vote(round, motion, alias, vote) => VoteEffect(b, round, motion, alias, vote, appends);
    case ActivateDue(live) => ActivateStepEffect(b, live, appends, forget);
    case IssueNorms(norms, sequence) => IssueEffect(b, norms, sequence, appends);
  }

  /** How many norm editions of a run the ledger failed after their first entry. */
  function Interrupted(seed: Edition, run: Run, forget: bool): nat {
    if run == [] then 0
    else
      var i := |run| - 1;
      var last := EffectOf(run[i].0, run[i].1, OutcomeAt(seed, run, forget, i));
      Interrupted(seed, run[..i], forget) + (if last.Interrupting? then 1 else 0)
  }

  /** The edition number is the seed's plus the activations the ledger holds plus the norm editions
      issued; the ledger holds one entry for each norm edition issued and one more for each that the
      ledger failed midway, whose edition does not exist. */
  lemma {:induction false} EditionsCounted(seed: Edition, run: Run, forget: bool)
    requires WellFormed(seed)
    ensures var b := After(seed, run, forget);
      && b.edition.number == seed.number + Activations(b.ledger) + |b.normEditions|
      && NormEntries(b.ledger) == |b.normEditions| + Interrupted(seed, run, forget)
  {
    if run != [] {
      var init, last := run[..|run| - 1], run[|run| - 1];
      EditionsCounted(seed, init, forget);
      EveryRun(seed, init, forget);
      StepEffect(After(seed, init, forget), last.0, last.1, forget);
    }
  }

  /** Norms change only by a norm edition, and an amendment never changes them. */
  lemma NormsAreReadOnly(seed: Edition, run: Run, forget: bool, i: nat)
    requires WellFormed(seed) && i < |run|
    ensures var b, t := After(seed, run[..i], forget), After(seed, run[..i + 1], forget);
      && (t.edition.norms != b.edition.norms ==> OutcomeAt(seed, run, forget, i).NormEdition?)
      && (t.edition != b.edition ==>
            OutcomeAt(seed, run, forget, i).NewEdition? || OutcomeAt(seed, run, forget, i).NormEdition?)
  {
    EveryRun(seed, run[..i], forget);
    StepEffect(After(seed, run[..i], forget), run[i].0, run[i].1, forget);
    assert run[..i + 1][..i] == run[..i] && run[..i + 1][i] == run[i];
  }

  // ----- A norm edition the ledger cut short -----

  /** An append refused during a norm edition leaves the edition in force, but every motion whose
      refusal the ledger took is spent all the same; with any other call nothing is spent. */
  lemma InterruptedNormEditionSpends(b: Book, norms: seq<string>, sequence: int, appends: nat)
    requires Shape(b) && IssueStep(b, norms, sequence, appends).1 == LedgerFailed
    ensures var t := IssueStep(b, norms, sequence, appends).0;
      && t.edition == b.edition && t.normEditions == b.normEditions
      && (t.decided != b.decided <==>
            appends > |IdleEntries(b.edition, norms, sequence)| && OffMotions(b, norms) != [])
      && (appends > 0 <==> t.ledger != b.ledger)
  {
    OffMotionsOpen(b, norms);
    var idle, motions := IdleEntries(b.edition, norms, sequence), OffMotions(b, norms);
    if appends > |idle| && motions != [] {
      var spent := Take(motions, appends - |idle|);
      assert spent[0] == motions[0] && motions[0] in Elements(motions) && spent[0] in Elements(spent);
    }
  }

  lemma AfterAppend(seed: Edition, run: Run, x: (Call, nat), forget: bool)
    ensures After(seed, run + [x], forget) == Step(After(seed, run, forget), x.0, x.1, forget).0
    ensures OutcomeAt(seed, run + [x], forget, |run|) == Step(After(seed, run, forget), x.0, x.1, forget).1
  {
    assert (run + [x])[..|run|] == run;
  }

  lemma Tabling(b: Book, a: Amendment, observations: map<string, Observation>, measurable: set<Card>, forget: bool)
    requires Admissible(b, a, measurable)
    ensures
      var t := Step(b, Propose(a, observations, measurable), 1, forget).0;
      && t.proposals == b.proposals + [a]
      && t == b.(ledger := t.ledger, proposals := t.proposals, bindings := t.bindings)
  {
  }

  /** Two motions tabled on a new book are both pending. */
  lemma TwoTabled(seed: Edition, a: Amendment, b: Amendment, observations: map<string, Observation>,
                  measurable: set<Card>, forget: bool) returns (run: Run, t: Book)
    requires Amends(seed, a, measurable) && Amends(seed, b, measurable) && a.id != b.id
    ensures |run| == 2 && t == After(seed, run, forget)
    ensures run[0] == (Propose(a, observations, measurable), 1) && run[1] == (Propose(b, observations, measurable), 1)
    ensures t.edition == seed && t.proposals == [a, b] && t.decided == {}
    ensures t.normEditions == map[] && t.seated == map[]
  {
    var x, y := (Propose(a, observations, measurable), 1), (Propose(b, observations, measurable), 1);
    AfterAppend(seed, [], x, forget);
    AfterAppend(seed, [] + [x], y, forget);
    run := [] + [x] + [y];
    Tabling(Opened(seed), a, observations, measurable, forget);
    t := Step(Opened(seed), x.0, 1, forget).0;
    Tabling(t, b, observations, measurable, forget);
    t := Step(t, y.0, 1, forget).0;
  }

  lemma BothOff(b: Book, norms: seq<string>, first: Amendment, second: Amendment)
    requires b.proposals == [first, second] && b.decided == {} && b.seated == map[]
    requires OffNorms(first, norms) && OffNorms(second, norms)
    ensures OffMotions(b, norms) == [first.id, second.id]
  {
    FilterAll(b.proposals, (a: Amendment) => !IsOver(b, a.id));
    FilterAll(b.proposals, (a: Amendment) => OffNorms(a, norms));
  }

  /** The ledger takes the edition's own entries and the first motion's refusal, and fails. */
  lemma OneSpent(b: Book, norms: seq<string>, first: string, second: string, forget: bool)
    requires OffMotions(b, norms) == [first, second] && b.decided == {} && norms != [] && Distinct(norms)
    requires b.normEditions == map[]
    ensures
      var (t, o) := Step(b, IssueNorms(norms, 1), |IdleEntries(b.edition, norms, 1)| + 1, forget);
      o == LedgerFailed && t.edition == b.edition && t.decided == {first} && t.normEditions == map[]
  {
    assert [first, second][..1] == [first] && Elements([first]) == {first};
  }

  /** So in every charter two motions at odds with the norms to come are enough: proposed, and then a
      norm edition that the ledger stops at the second one's refusal. The first is spent for an edition
      that never came. */
  lemma NormEditionCutShort(seed: Edition, a: Amendment, b: Amendment, norms: seq<string>,
                            observations: map<string, Observation>, measurable: set<Card>, forget: bool)
    returns (run: Run)
    requires Amends(seed, a, measurable) && Amends(seed, b, measurable) && a.id != b.id
    requires OffNorms(a, norms) && OffNorms(b, norms) && norms != [] && Distinct(norms)
    ensures |run| == 3 && run[2].0 == IssueNorms(norms, 1)
    ensures run[0] == (Propose(a, observations, measurable), 1) && run[1] == (Propose(b, observations, measurable), 1)
    ensures OutcomeAt(seed, run, forget, 2) == LedgerFailed
    ensures After(seed, run, forget).edition == seed && After(seed, run, forget).decided == {a.id}
  {
    var t;
    run, t := TwoTabled(seed, a, b, observations, measurable, forget);
    var last := CutShortOn(seed, run, t, a, b, norms, forget);
    run := run + [last];
  }

  lemma CutShortOn(seed: Edition, run: Run, t: Book, a: Amendment, b: Amendment, norms: seq<string>, forget: bool)
    returns (last: (Call, nat))
    requires t == After(seed, run, forget) && t.edition == seed && t.proposals == [a, b] && t.decided == {}
    requires t.normEditions == map[] && t.seated == map[]
    requires OffNorms(a, norms) && OffNorms(b, norms) && norms != [] && Distinct(norms)
    ensures last.0 == IssueNorms(norms, 1) && OutcomeAt(seed, run + [last], forget, |run|) == LedgerFailed
    ensures var u := After(seed, run + [last], forget); u.edition == seed && u.decided == {a.id}
  {
    last := (IssueNorms(norms, 1), |IdleEntries(seed, norms, 1)| + 1);
    BothOff(t, norms, a, b);
    OneSpent(t, norms, a.id, b.id, forget);
    AfterAppend(seed, run, last, forget);
  }

  /** A motion to add a card to an edition that has none. */
  function Adding(id: string, card: Card): Amendment {
    Amendment(id, "assembly", 1, [card], [], [], None, [], None, None)
  }

  lemma AddingAmends(e: Edition, id: string, card: Card)
    requires e.number == 1 && e.cards == [] && card.norm in e.norms
    ensures Amends(e, Adding(id, card), {card}) && Changed(Adding(id, card)) == [card]
  {
    var a := Adding(id, card);
    assert Changed(a) == [card] && [card][1..] == [];
    assert WithoutAll(e.cards, a.remove) == [] && PutAll([], [card]) == PutAll(Put([], card), []) == [card];
    assert Patched(e, a) == [card];
  }

  /** One such charter, its two motions and its norms. */
  lemma NormEditionIsCutShort(forget: bool) returns (seed: Edition, run: Run)
    ensures WellFormed(seed) && |run| == 3 && OutcomeAt(seed, run, forget, 2) == LedgerFailed
    ensures After(seed, run, forget).edition == seed && After(seed, run, forget).decided == {"1"}
  {
    var card := Card("pnl", "old", "pnl", "trader", [], "");
    var a, b := Adding("1", card), Adding("2", card);
    seed := Edition(1, ["old"], []);
    AddingAmends(seed, "1", card);
    AddingAmends(seed, "2", card);
    assert card in Changed(a) && card in Changed(b) && "old"[0] != "new"[0];
    assert OffNorms(a, ["new"]) && OffNorms(b, ["new"]);
    assert a.id[0] != b.id[0];
    run := NormEditionCutShort(seed, a, b, ["new"], map[], {card}, forget);
  }
}
