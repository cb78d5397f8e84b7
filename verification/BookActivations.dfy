/** Which motion an activation takes, and whether it takes effect, judged by what its proposal named. */
module BookActivations {
  import opened Options
  import opened Sequences
  import opened Charter
  import opened Seats
  import opened Books
  import opened BookProofs
  import opened BookForgetting
  import opened BookAmendments

  // ----- The motion due -----

  /** Undecided, seated, and voted for by most of those who may vote. */
  ghost predicate HasMajority(b: Book, m: string) {
    && m !in b.decided && m in b.seated && m in b.voters && m in b.ballots
    && 2 * |set v | v in b.ballots[m] && b.ballots[m][v] == Some(true)| > |b.voters[m]|
  }

  lemma DueMeans(b: Book, m: string)
    requires Shape(b)
    ensures IsDue(b, m) <==> HasMajority(b, m)
  {
    if m in b.seated {
      assert ElectorateOk(b.seated[m], b.voters[m], b.ballots[m], b.sittings);
      TallyIsMajority(b.voters[m], b.ballots[m]);
      assert InFavour(b.ballots[m]) == set v | v in b.ballots[m] && b.ballots[m][v] == Some(true);
    }
  }

  /** The first with a majority, in the order they were proposed. */
  ghost predicate FirstDue(b: Book, a: Amendment) {
    exists k :: 0 <= k < |b.proposals| && b.proposals[k] == a && HasMajority(b, a.id)
                && forall l | 0 <= l < k :: !HasMajority(b, b.proposals[l].id)
  }

  lemma DueIsFirst(b: Book)
    requires Shape(b)
    ensures Due(b) == [] <==> forall a <- b.proposals :: !HasMajority(b, a.id)
    ensures Due(b) != [] ==> FirstDue(b, Due(b)[0])
  {
    forall m ensures IsDue(b, m) <==> HasMajority(b, m) { DueMeans(b, m); }
    var k := FilterFirst(b.proposals, (a: Amendment) => IsDue(b, a.id));
  }

  /** Closing a boundary changes neither what is due nor what it is bound to. */
  lemma ClosedDue(b: Book, forget: bool)
    requires Inv(b)
    ensures
      var closed := CloseIf(b, forget);
      && Due(closed) == Due(b) && closed.edition == b.edition && closed.ledger == b.ledger && Inv(closed)
      && (Due(b) != [] ==>
            var m := Due(b)[0].id;
            BindingsOf(closed, m) == BindingsOf(b, m) && m in closed.seated && closed.seated[m] == b.seated[m])
  {
    if Due(b) != [] { DueHead(b); }
    if forget {
      CloseKeeps(b);
      ClosedRelates(b);
      SameDue(Close(b), b, Gone(b));
      if Due(b) != [] { ClosedMotion(b, Due(b)[0].id); }
    }
  }

  lemma ClosedRelates(b: Book)
    ensures Related(Close(b), b, Gone(b))
  {
    SelfRelated(b, {});
    CloseRelates(b, b, {});
    assert {} + Gone(b) == Gone(b);
  }

  lemma ClosedMotion(b: Book, m: string)
    requires IsDue(b, m)
    ensures BindingsOf(Close(b), m) == BindingsOf(b, m) && m in Close(b).seated && Close(b).seated[m] == b.seated[m]
  {
    ClosedRelates(b);
    SameReadings(Close(b), b, Gone(b), m);
    SameMaps(Close(b), b, Gone(b), m);
  }

  lemma SelfRelated(b: Book, none: set<string>)
    requires none == {}
    ensures Related(b, b, none)
  {
    FilterAll(b.proposals, (a: Amendment) => a.id !in none);
  }

  // ----- The proposal behind a motion -----

  /** The j-th call proposed the motion, and its bindings are those of the cards it saw. */
  ghost predicate ProposedAt(seed: Edition, run: Run, forget: bool, j: nat, a: Amendment,
                             bound: map<string, Observation>)
  {
    && j < |run| && run[j].0.Propose? && run[j].0.amendment == a && OutcomeAt(seed, run, forget, j) == Done
    && bound == Bind(After(seed, run[..j], forget).edition.cards + Changed(a), run[j].0.observations)
  }

  lemma ProposedEarlier(seed: Edition, run: Run, forget: bool, j: nat, a: Amendment, bound: map<string, Observation>,
                        n: nat)
    requires n <= |run| && ProposedAt(seed, run[..n], forget, j, a, bound)
    ensures j < n && ProposedAt(seed, run, forget, j, a, bound)
  {
    assert run[..n][..j] == run[..j];
  }

  /** A motion on the table was there before, bound the same, or was proposed by this call. */
  ghost predicate Rooted(b: Book, t: Book, call: Call, o: Outcome, a: Amendment) {
    || (a in b.proposals && a.id in b.bindings && a.id in t.bindings && t.bindings[a.id] == b.bindings[a.id])
    || (&& call.Propose? && call.amendment == a && o == Done && a.id in t.bindings
        && t.bindings[a.id] == Bind(b.edition.cards + Changed(a), call.observations))
  }

  lemma ProposeBinds(b: Book, x: Amendment, observations: map<string, Observation>, measurable: set<Card>,
                     appends: nat, a: Amendment)
    requires Shape(b) && a in ProposeStep(b, x, observations, measurable, appends).0.proposals
    ensures
      var (t, o) := ProposeStep(b, x, observations, measurable, appends);
      Rooted(b, t, Propose(x, observations, measurable), o, a)
  {
    if a in b.proposals {
      assert a.id in MotionIds(b.proposals);
    }
  }

  lemma CloseBinds(b: Book, a: Amendment)
    requires Shape(b) && a in Close(b).proposals
    ensures a in b.proposals && a.id in b.bindings && a.id in Close(b).bindings
    ensures Close(b).bindings[a.id] == b.bindings[a.id]
  {
    assert a.id in MotionIds(b.proposals);
    CloseShape(b);
    assert a.id in MotionIds(Close(b).proposals);
  }

  lemma IssueTables(b: Book, norms: seq<string>, sequence: int, appends: nat)
    ensures var t := IssueStep(b, norms, sequence, appends).0; t.proposals == b.proposals && t.bindings == b.bindings
  {
  }

  /** A call that proposes nothing leaves the table as it was, or as closing the boundary leaves it. */
  lemma OtherTables(b: Book, call: Call, appends: nat, forget: bool)
    requires !call.Propose?
    ensures
      var t, closed := Step(b, call, appends, forget).0, CloseIf(b, forget);
      (t.proposals == b.proposals && t.bindings == b.bindings)
      || (t.proposals == closed.proposals && t.bindings == closed.bindings)
  {
    match call
    case Vote(round, motion, alias, vote) => VoteTables(b, round, motion, alias, vote, appends);
    case IssueNorms(norms, sequence) => IssueTables(b, norms, sequence, appends);
    case ActivateDue(live) => ActivateTables(CloseIf(b, forget), live, appends);
    case Seat(_, _, _, _, _, _) => SeatStepTables(b, call, appends, forget);
  }

  lemma VoteTables(b: Book, round: nat, motion: string, alias: nat, vote: Option<bool>, appends: nat)
    ensures
      var t := VoteStep(b, round, motion, alias, vote, appends).0;
      t.proposals == b.proposals && t.bindings == b.bindings
  {
  }

  lemma SeatStepTables(b: Book, call: Call, appends: nat, forget: bool)
    requires call.Seat?
    ensures
      var t, closed := Step(b, call, appends, forget).0, CloseIf(b, forget);
      (t.proposals == b.proposals && t.bindings == b.bindings)
      || (t.proposals == closed.proposals && t.bindings == closed.bindings)
  {
    var closed := CloseIf(b, forget);
    SeatTables(closed, call, appends);
    var t := SeatOn(closed, call.boundary, call.eligible, call.seats, call.size, call.quorum, call.recusals, appends).0;
    assert Step(b, call, appends, forget).0
      == if call.boundary < 0 || call.boundary != Boundaries(b) + 1 then b else t;
  }

  lemma ActivateTables(b: Book, live: map<string, Observation>, appends: nat)
    ensures var t := ActivateOn(b, live, appends).0; t.proposals == b.proposals && t.bindings == b.bindings
  {
    if Due(b) != [] {
      DueHead(b);
      var a := Due(b)[0];
      SettleTables(b, a, Obstacle(b.edition, a, BindingsOf(b, a.id), live), appends);
    }
  }

  lemma SettleTables(b: Book, a: Amendment, obstacle: Option<Reason>, appends: nat)
    requires a.id in b.seated
    ensures var t := Settle(b, a, obstacle, appends).0; t.proposals == b.proposals && t.bindings == b.bindings
  {
  }

  lemma SeatTables(b: Book, call: Call, appends: nat)
    requires call.Seat?
    ensures
      var t := SeatOn(b, call.boundary, call.eligible, call.seats, call.size, call.quorum, call.recusals, appends).0;
      t.proposals == b.proposals && t.bindings == b.bindings
  {
    if 1 <= call.quorum <= |call.eligible| && Drawable(call.eligible, call.size) && DistinctSeats(call.seats) {
      var c := Convened(b, call.boundary, call.seats, call.quorum, call.recusals);
      SeatingTables(b, c, call.recusals, SeatEntry(c, Map(MotionId, Agenda(b)), call.quorum, call.recusals));
    }
  }

  lemma SeatingTables(b: Book, c: Committee, recusals: map<string, set<string>>, e: Entry)
    ensures var t := Seatings(b, c, recusals, e); t.proposals == b.proposals && t.bindings == b.bindings
  {
  }

  lemma StepBinds(b: Book, call: Call, appends: nat, forget: bool, a: Amendment)
    requires Shape(b) && a in Step(b, call, appends, forget).0.proposals
    ensures var (t, o) := Step(b, call, appends, forget); Rooted(b, t, call, o, a)
  {
    if call.Propose? {
      ProposeBinds(b, call.amendment, call.observations, call.measurable, appends, a);
    } else {
      OtherTables(b, call, appends, forget);
      StaysBound(b, Step(b, call, appends, forget).0, forget, a);
    }
  }

  lemma StaysBound(b: Book, t: Book, forget: bool, a: Amendment)
    requires Shape(b) && a in t.proposals
    requires (t.proposals == b.proposals && t.bindings == b.bindings)
          || (t.proposals == CloseIf(b, forget).proposals && t.bindings == CloseIf(b, forget).bindings)
    ensures a in b.proposals && a.id in b.bindings && a.id in t.bindings && t.bindings[a.id] == b.bindings[a.id]
  {
    if a in b.proposals { assert a.id in MotionIds(b.proposals); }
    if forget && a in Close(b).proposals { CloseBinds(b, a); }
  }

  lemma {:induction false} ProposalOf(seed: Edition, run: Run, forget: bool, a: Amendment) returns (j: nat)
    requires WellFormed(seed) && a in After(seed, run, forget).proposals
    ensures a.id in After(seed, run, forget).bindings
    ensures ProposedAt(seed, run, forget, j, a, After(seed, run, forget).bindings[a.id])
  {
    var n := |run| - 1;
    var b := After(seed, run[..n], forget);
    EveryRun(seed, run[..n], forget);
    StepBinds(b, run[n].0, run[n].1, forget, a);
    if a in b.proposals && a.id in b.bindings && After(seed, run, forget).bindings[a.id] == b.bindings[a.id] {
      j := ProposalOf(seed, run[..n], forget, a);
      ProposedEarlier(seed, run, forget, j, a, b.bindings[a.id], n);
    } else {
      j := n;
    }
  }

  // ----- Activation -----

  /** What an activation does with the motion due, when the ledger takes an entry. */
  ghost predicate Decides(b: Book, t: Book, o: Outcome, a: Amendment)
    requires a.id in b.seated
  {
    && t.decided >= b.decided + {a.id}
    && match o
       case NewEdition(e) =>
         && e == t.edition && e == Edition(b.edition.number + 1, b.edition.norms, Patched(b.edition, a))
         && t.ledger == b.ledger + [Activated(a.id, b.seated[a.id].round, e.number)]
       case Refusal(m, reason) => m == a.id && t.edition == b.edition && t.ledger == b.ledger + [Refused(a.id, reason)]
       case _ => false
  }

  lemma SettleDecides(b: Book, a: Amendment, cards: seq<Card>, before: map<string, Observation>,
                      now: map<string, Observation>, appends: nat)
    requires Inv(b) && a.id in b.seated && appends > 0
    requires BindingsOf(b, a.id) == Bind(cards + Changed(a), before)
    ensures
      var (t, o) := Settle(b, a, Obstacle(b.edition, a, BindingsOf(b, a.id), now), appends);
      && Decides(b, t, o, a)
      && (OnePerId(a) ==> (o.NewEdition? <==> TakesEffect(b.edition, a, before, now)))
  {
    if OnePerId(a) { ObstacleMeans(b.edition, a, cards, before, now); }
  }

  /** An activation does nothing exactly when no motion on the table has a majority. Otherwise it takes the
      first that has, which some call of the run proposed: it makes the edition that the motion's patch of
      the edition in force is, exactly if nothing stands in its way, and among that every observation its
      cards name which was registered at the proposal is registered now, as it was then; or it spends the
      motion, and the edition stays. */
  lemma ActivatedExactly(seed: Edition, run: Run, forget: bool, i: nat) returns (j: nat)
    requires WellFormed(seed) && i < |run| && run[i].0.ActivateDue?
    ensures
      var b, t, o := After(seed, run[..i], forget), After(seed, run[..i + 1], forget), OutcomeAt(seed, run, forget, i);
      && (o == NothingDue <==> forall a <- b.proposals :: !HasMajority(b, a.id))
      && (o == LedgerFailed || o == NothingDue ==> t.edition == b.edition && t.ledger == b.ledger)
    ensures
      var b, t, o := After(seed, run[..i], forget), After(seed, run[..i + 1], forget), OutcomeAt(seed, run, forget, i);
      o != NothingDue ==>
        && j < i && run[j].0.Propose? && OutcomeAt(seed, run, forget, j) == Done
        && var a := run[j].0.amendment;
           && FirstDue(b, a) && a.id in b.seated && (o == LedgerFailed <==> run[i].1 == 0)
           && (run[i].1 > 0 ==> Decides(b, t, o, a))
           && (run[i].1 > 0 && OnePerId(a) ==>
                 (o.NewEdition? <==> TakesEffect(b.edition, a, run[j].0.observations, run[i].0.observations)))
  {
    var b := After(seed, run[..i], forget);
    EveryRun(seed, run[..i], forget);
    assert run[..i + 1][..i] == run[..i] && run[..i + 1][i] == run[i];
    ClosedDue(b, forget);
    DueIsFirst(b);
    j := 0;
    if Due(b) == [] {
      NothingTaken(b, forget, run[i].0.observations, run[i].1);
    } else {
      DueHead(b);
      j := ProposalOf(seed, run[..i], forget, Due(b)[0]);
      ProposedEarlier(seed, run, forget, j, Due(b)[0], b.bindings[Due(b)[0].id], i);
      TakesDue(b, forget, After(seed, run[..j], forget).edition.cards, run[j].0.observations,
               run[i].0.observations, run[i].1);
    }
  }

  lemma NothingTaken(b: Book, forget: bool, now: map<string, Observation>, appends: nat)
    requires Inv(b) && Due(b) == []
    ensures
      var (t, o) := ActivateStep(b, now, appends, forget);
      o == NothingDue && t.edition == b.edition && t.ledger == b.ledger
  {
    ClosedDue(b, forget);
  }

  lemma TakesDue(b: Book, forget: bool, cards: seq<Card>, before: map<string, Observation>,
                 now: map<string, Observation>, appends: nat)
    requires Inv(b) && Due(b) != [] && Due(b)[0].id in b.seated
    requires BindingsOf(b, Due(b)[0].id) == Bind(cards + Changed(Due(b)[0]), before)
    ensures
      var (t, o) := ActivateStep(b, now, appends, forget);
      var a := Due(b)[0];
      && (appends == 0 ==> o == LedgerFailed && t.edition == b.edition && t.ledger == b.ledger)
      && (appends > 0 ==> Decides(b, t, o, a))
      && (appends > 0 && OnePerId(a) ==> (o.NewEdition? <==> TakesEffect(b.edition, a, before, now)))
  {
    ClosedDue(b, forget);
    if appends > 0 {
      SettleDecides(CloseIf(b, forget), Due(b)[0], cards, before, now, appends);
    }
  }
}
