/** Forgetting decided motions is invisible: the book that drops them at each boundary and the book
    that keeps everything go through the same editions, the same agendas and the same outcomes.

    The proof relates the two books by the set of motions that only the keeping book still holds.
    Each of those is over (decided, or failed by its ballots), and a motion once over stays over, so
    none of them is pending, on the agenda, or due. Every step of the machine takes related books to
    related books and returns the same from both; only a ballot on a motion that has already failed
    is told apart, and that ballot changes nothing that shows. */
module BookForgetting {
  import opened Options
  import opened Sequences
  import opened Charter
  import opened Seats
  import opened Books
  import opened BookProofs

  ghost predicate SameFront(f: Book, k: Book) {
    && f.edition == k.edition && f.sittings == k.sittings && f.deferrals == k.deferrals
    && f.normEditions == k.normEditions && f.latest == k.latest
  }

  function Kept(proposals: seq<Amendment>, gone: set<string>): seq<Amendment> {
    Filter(proposals, (a: Amendment) => a.id !in gone)
  }

  function Drop<V>(m: map<string, V>, gone: set<string>): map<string, V> { m - gone }

  ghost predicate SameMotions(f: Book, k: Book, gone: set<string>) {
    && f.proposals == Kept(k.proposals, gone)
    && f.seated == Drop(k.seated, gone) && f.voters == Drop(k.voters, gone)
    && f.ballots == Drop(k.ballots, gone) && f.bindings == Drop(k.bindings, gone)
    && f.decided == k.decided + gone
  }

  ghost predicate AllOver(k: Book, gone: set<string>) {
    gone <= MotionIds(k.proposals) && forall g <- gone :: IsOver(k, g)
  }

  /** `f` has dropped exactly the motions `gone`, each of them over in `k`, and nothing else. */
  ghost predicate Related(f: Book, k: Book, gone: set<string>) {
    SameFront(f, k) && SameMotions(f, k, gone) && AllOver(k, gone)
  }

  /** What is over stays over when more motions are decided and no committee is touched. */
  lemma OverStays(k: Book, k': Book, gone: set<string>)
    requires AllOver(k, gone) && k.decided <= k'.decided && k'.proposals == k.proposals
    requires k'.seated == k.seated && k'.voters == k.voters && k'.ballots == k.ballots
    ensures AllOver(k', gone)
  {
    forall g <- gone ensures IsOver(k', g) { assert IsOver(k, g); }
  }

  /** Both books deciding the same motions, and touching no committee, stay related. */
  lemma DecideBoth(f: Book, k: Book, gone: set<string>, f': Book, k': Book, more: set<string>)
    requires Related(f, k, gone) && SameFront(f', k')
    requires f'.proposals == f.proposals && k'.proposals == k.proposals
    requires f'.decided == f.decided + more && k'.decided == k.decided + more
    requires f'.seated == f.seated && f'.voters == f.voters && f'.ballots == f.ballots && f'.bindings == f.bindings
    requires k'.seated == k.seated && k'.voters == k.voters && k'.ballots == k.ballots && k'.bindings == k.bindings
    ensures Related(f', k', gone)
  {
    OverStays(k, k', gone);
  }

  lemma SameMaps(f: Book, k: Book, gone: set<string>, m: string)
    requires Related(f, k, gone) && m !in gone
    ensures (m in f.seated <==> m in k.seated) && (m in f.decided <==> m in k.decided)
    ensures m in k.seated ==>
              f.seated[m] == k.seated[m] && VotersOf(f, m) == VotersOf(k, m) && BallotsOf(f, m) == BallotsOf(k, m)
    ensures BindingsOf(f, m) == BindingsOf(k, m)
  {
  }

  lemma SameReadings(f: Book, k: Book, gone: set<string>, m: string)
    requires Related(f, k, gone)
    ensures m !in gone ==> IsOver(f, m) == IsOver(k, m) && IsDue(f, m) == IsDue(k, m) && IsOpen(f, m) == IsOpen(k, m)
    ensures m in gone ==> IsOver(k, m) && !IsDue(k, m) && !IsOpen(k, m)
  {
    if m !in gone { SameMaps(f, k, gone, m); }
  }

  lemma SamePending(f: Book, k: Book, gone: set<string>)
    requires Related(f, k, gone)
    ensures Pending(f) == Pending(k)
  {
    forall a <- k.proposals ensures !IsOver(k, a.id) <==> a.id !in gone && !IsOver(f, a.id) {
      SameReadings(f, k, gone, a.id);
    }
    FilterTwice(k.proposals, (a: Amendment) => a.id !in gone, (a: Amendment) => !IsOver(f, a.id),
                (a: Amendment) => !IsOver(k, a.id));
  }

  lemma SameAgenda(f: Book, k: Book, gone: set<string>)
    requires Related(f, k, gone)
    ensures Agenda(f) == Agenda(k)
  {
    forall a <- k.proposals ensures IsOpen(k, a.id) <==> a.id !in gone && IsOpen(f, a.id) {
      SameReadings(f, k, gone, a.id);
    }
    FilterTwice(k.proposals, (a: Amendment) => a.id !in gone, (a: Amendment) => IsOpen(f, a.id),
                (a: Amendment) => IsOpen(k, a.id));
  }

  lemma SameDue(f: Book, k: Book, gone: set<string>)
    requires Related(f, k, gone)
    ensures Due(f) == Due(k)
  {
    forall a <- k.proposals ensures IsDue(k, a.id) <==> a.id !in gone && IsDue(f, a.id) {
      SameReadings(f, k, gone, a.id);
    }
    FilterTwice(k.proposals, (a: Amendment) => a.id !in gone, (a: Amendment) => IsDue(f, a.id),
                (a: Amendment) => IsDue(k, a.id));
  }

  lemma KeptIds(f: Book, k: Book, gone: set<string>)
    requires Related(f, k, gone)
    ensures MotionIds(f.proposals) == MotionIds(k.proposals) - gone
  {
    forall m | m in MotionIds(k.proposals) - gone ensures m in MotionIds(f.proposals) {
      var a :| a in k.proposals && a.id == m;
      assert a in f.proposals;
    }
  }

  // ----- Closing a boundary -----

  lemma CloseProposals(f: Book, k: Book, gone: set<string>, more: set<string>)
    requires Related(f, k, gone) && more == gone + Gone(f)
    ensures Close(f).proposals == Kept(k.proposals, more)
  {
    forall a <- k.proposals ensures a.id !in more <==> a.id !in gone && !IsOver(f, a.id) {
      if a.id !in gone && IsOver(f, a.id) { assert a in f.proposals; }
    }
    FilterTwice(k.proposals, (a: Amendment) => a.id !in gone, (a: Amendment) => !IsOver(f, a.id),
                (a: Amendment) => a.id !in more);
  }

  lemma CloseRelates(f: Book, k: Book, gone: set<string>)
    requires Related(f, k, gone)
    ensures Related(Close(f), k, gone + Gone(f))
  {
    var more := gone + Gone(f);
    KeptIds(f, k, gone);
    CloseMotions(f, k, gone, more);
    forall g <- more ensures IsOver(k, g) && g in MotionIds(k.proposals) { SameReadings(f, k, gone, g); }
  }

  lemma CloseMotions(f: Book, k: Book, gone: set<string>, more: set<string>)
    requires Related(f, k, gone) && more == gone + Gone(f)
    ensures SameMotions(Close(f), k, more)
  {
    CloseProposals(f, k, gone, more);
  }

  // ----- Propose -----

  lemma TabledRelates(f: Book, k: Book, gone: set<string>, a: Amendment, bindings: map<string, Observation>)
    requires Related(f, k, gone) && a.id !in gone
    ensures Related(Tabled(f, a, bindings), Tabled(k, a, bindings), gone)
  {
    FilterAppend(k.proposals, a, (x: Amendment) => x.id !in gone);
    DropUpdate(k.bindings, a.id, bindings, gone);
    TabledOver(k, gone, a, bindings);
  }

  lemma TabledOver(k: Book, gone: set<string>, a: Amendment, bindings: map<string, Observation>)
    requires AllOver(k, gone)
    ensures AllOver(Tabled(k, a, bindings), gone)
  {
    forall g <- gone ensures IsOver(Tabled(k, a, bindings), g) { assert IsOver(k, g); }
  }

  lemma ProposeRelates(f: Book, k: Book, gone: set<string>, a: Amendment, observations: map<string, Observation>,
                       measurable: set<Card>, appends: nat)
    requires Related(f, k, gone)
    ensures var (f', x) := ProposeStep(f, a, observations, measurable, appends);
      var (k', y) := ProposeStep(k, a, observations, measurable, appends);
      x == y && Related(f', k', gone)
  {
    KeptIds(f, k, gone);
    assert IsNew(f, a.id) <==> IsNew(k, a.id);
    if IsNew(k, a.id) {
      TabledRelates(f, k, gone, a, Bind(k.edition.cards + Changed(a), observations));
    }
  }

  // ----- Seat -----

  lemma SpreadMinus<V>(m: map<string, V>, keys: set<string>, v: string -> V, gone: set<string>)
    requires keys !! gone
    ensures Spread(m - gone, keys, v) == Spread(m, keys, v) - gone
  {
  }

  lemma ConvenedAgenda(b: Book, boundary: int, seats: seq<Seat>, quorum: int,
                       recusals: map<string, set<string>>, m: string)
    requires m in Convened(b, boundary, seats, quorum, recusals).agenda
    ensures m in MotionIds(b.proposals) && IsOpen(b, m)
  {
    AgendaIsOpen(b, m);
  }

  lemma SeatingsRelate(f: Book, k: Book, gone: set<string>, c: Committee, recusals: map<string, set<string>>,
                       e: Entry)
    requires Related(f, k, gone) && Elements(c.agenda) !! gone
    ensures Related(Seatings(f, c, recusals, e), Seatings(k, c, recusals, e), gone)
  {
    var agenda := Elements(c.agenda);
    SpreadMinus(k.seated, agenda, SameCommittee(c), gone);
    SpreadMinus(k.voters, agenda, VotersOn(c, recusals), gone);
    SpreadMinus(k.ballots, agenda, NoBallots(), gone);
    SeatingsOver(k, gone, c, recusals, e);
  }

  lemma SeatingsOver(k: Book, gone: set<string>, c: Committee, recusals: map<string, set<string>>, e: Entry)
    requires AllOver(k, gone) && Elements(c.agenda) !! gone
    ensures AllOver(Seatings(k, c, recusals, e), gone)
  {
    var k' := Seatings(k, c, recusals, e);
    forall g <- gone ensures IsOver(k', g) { assert IsOver(k, g); }
  }

  lemma ConveneRelates(f: Book, k: Book, gone: set<string>, boundary: int, seats: seq<Seat>, quorum: int,
                       recusals: map<string, set<string>>)
    requires Related(f, k, gone)
    ensures var (f', x) := Convene(f, boundary, seats, quorum, recusals);
      var (k', y) := Convene(k, boundary, seats, quorum, recusals);
      x == y && Related(f', k', gone)
  {
    SameAgenda(f, k, gone);
    SameConvened(f, k, gone, boundary, seats, quorum, recusals);
    var c := Convened(k, boundary, seats, quorum, recusals);
    SeatingsRelate(f, k, gone, c, recusals, SeatEntry(c, Map(MotionId, Agenda(k)), quorum, recusals));
  }

  lemma PostponedRelates(f: Book, k: Book, gone: set<string>, boundary: int, eligible: nat, quorum: int)
    requires Related(f, k, gone)
    ensures Related(Postponed(f, boundary, eligible, quorum), Postponed(k, boundary, eligible, quorum), gone)
  {
    DecideBoth(f, k, gone, Postponed(f, boundary, eligible, quorum), Postponed(k, boundary, eligible, quorum), {});
  }

  lemma SeatRelates(f: Book, k: Book, gone: set<string>, boundary: int, eligible: map<string, string>,
                    seats: seq<Seat>, size: int, quorum: int, recusals: map<string, set<string>>, appends: nat)
    requires Related(f, k, gone)
    ensures var (f', x) := SeatOn(f, boundary, eligible, seats, size, quorum, recusals, appends);
      var (k', y) := SeatOn(k, boundary, eligible, seats, size, quorum, recusals, appends);
      x == y && Related(f', k', gone)
  {
    if SitsOn(eligible, seats, size, quorum, appends) {
      ConveneRelates(f, k, gone, boundary, seats, quorum, recusals);
    } else {
      UnseatedRelates(f, k, gone, boundary, eligible, seats, size, quorum, recusals, appends);
    }
  }

  /** The seating goes ahead. */
  predicate SitsOn(eligible: map<string, string>, seats: seq<Seat>, size: int, quorum: int, appends: nat) {
    1 <= quorum <= |eligible| && Drawable(eligible, size) && DistinctSeats(seats) && appends > 0
  }

  lemma UnseatedRelates(f: Book, k: Book, gone: set<string>, boundary: int, eligible: map<string, string>,
                        seats: seq<Seat>, size: int, quorum: int, recusals: map<string, set<string>>, appends: nat)
    requires Related(f, k, gone) && !SitsOn(eligible, seats, size, quorum, appends)
    ensures var (f', x) := SeatOn(f, boundary, eligible, seats, size, quorum, recusals, appends);
      var (k', y) := SeatOn(k, boundary, eligible, seats, size, quorum, recusals, appends);
      x == y && Related(f', k', gone)
  {
    Unseated(f, boundary, eligible, seats, size, quorum, recusals, appends);
    Unseated(k, boundary, eligible, seats, size, quorum, recusals, appends);
    if 1 <= quorum && |eligible| < quorum && appends > 0 {
      PostponedRelates(f, k, gone, boundary, |eligible|, quorum);
    }
  }

  /** Otherwise the book postpones it, or stays as it is. */
  lemma Unseated(b: Book, boundary: int, eligible: map<string, string>, seats: seq<Seat>, size: int,
                 quorum: int, recusals: map<string, set<string>>, appends: nat)
    requires !SitsOn(eligible, seats, size, quorum, appends)
    ensures SeatOn(b, boundary, eligible, seats, size, quorum, recusals, appends)
      == if quorum < 1 then (b, Rejected)
         else if |eligible| < quorum then
           if appends == 0 then (b, LedgerFailed) else (Postponed(b, boundary, |eligible|, quorum), Deferral)
         else (b, if !Drawable(eligible, size) || !DistinctSeats(seats) then Rejected else LedgerFailed)
  {
  }

  lemma SameConvened(f: Book, k: Book, gone: set<string>, boundary: int, seats: seq<Seat>, quorum: int,
                     recusals: map<string, set<string>>)
    requires Related(f, k, gone) && Agenda(f) == Agenda(k)
    ensures var c := Convened(k, boundary, seats, quorum, recusals);
      c == Convened(f, boundary, seats, quorum, recusals) && Elements(c.agenda) !! gone
  {
    var c := Convened(k, boundary, seats, quorum, recusals);
    forall m <- c.agenda ensures m !in gone {
      ConvenedAgenda(k, boundary, seats, quorum, recusals, m);
      SameReadings(f, k, gone, m);
    }
  }

  // ----- Vote -----

  /** The book that keeps everything takes late ballots on a motion that has failed; they never
      change that it failed. */
  lemma LateBallot(k: Book, m: string, alias: nat, vote: Option<bool>)
    requires Shape(k) && m in k.seated && IsOver(k, m) && alias in k.voters[m] && alias !in k.ballots[m]
    ensures IsOver(Balloted(k, m, alias, vote), m)
  {
    assert ElectorateOk(k.seated[m], k.voters[m], k.ballots[m], k.sittings);
    TallyIsFinal(k.voters[m], k.ballots[m], alias, vote);
  }

  lemma BallotedOver(k: Book, gone: set<string>, m: string, alias: nat, vote: Option<bool>)
    requires Shape(k) && AllOver(k, gone) && m in k.seated
    requires alias in k.voters[m] && alias !in k.ballots[m]
    ensures AllOver(Balloted(k, m, alias, vote), gone)
  {
    forall g <- gone ensures IsOver(Balloted(k, m, alias, vote), g) {
      assert IsOver(k, g);
      if g == m { LateBallot(k, m, alias, vote); } else { OtherStaysOver(k, m, alias, vote, g); }
    }
  }

  lemma OtherStaysOver(k: Book, m: string, alias: nat, vote: Option<bool>, g: string)
    requires m in k.seated && m in k.ballots && g != m && IsOver(k, g)
    ensures IsOver(Balloted(k, m, alias, vote), g)
  {
  }

  lemma DropUpdate<V>(m: map<string, V>, key: string, v: V, gone: set<string>)
    ensures Drop(m[key := v], gone) == if key in gone then Drop(m, gone) else Drop(m, gone)[key := v]
  {
  }

  lemma LateBallotRelates(f: Book, k: Book, gone: set<string>, m: string, alias: nat, vote: Option<bool>)
    requires Related(f, k, gone) && Shape(k) && m in gone && m in k.seated
    requires alias in k.voters[m] && alias !in k.ballots[m]
    ensures Related(f, Balloted(k, m, alias, vote), gone)
  {
    BallotedOver(k, gone, m, alias, vote);
    DropUpdate(k.ballots, m, Cast(k.ballots[m], alias, vote), gone);
  }

  lemma BallotedRelates(f: Book, k: Book, gone: set<string>, m: string, alias: nat, vote: Option<bool>)
    requires Related(f, k, gone) && Shape(k) && m !in gone && m in k.seated && m in f.seated && m in f.ballots
    requires alias in k.voters[m] && alias !in k.ballots[m]
    ensures Related(Balloted(f, m, alias, vote), Balloted(k, m, alias, vote), gone)
  {
    BallotedOver(k, gone, m, alias, vote);
    DropUpdate(k.ballots, m, Cast(k.ballots[m], alias, vote), gone);
  }

  lemma VoteRelates(f: Book, k: Book, gone: set<string>, round: nat, m: string, alias: nat, vote: Option<bool>,
                    appends: nat)
    requires Related(f, k, gone) && Shape(k)
    ensures var (f', x) := VoteStep(f, round, m, alias, vote, appends);
      var (k', y) := VoteStep(k, round, m, alias, vote, appends);
      && Related(f', k', gone)
      && (x != y ==> x == Rejected && m in k.seated && Tally(k, m) == Failed)
  {
    SameVoters(f, k, gone, round, m, alias);
    if CanVote(k, round, m, alias) && appends > 0 {
      if m in gone {
        LateBallotRelates(f, k, gone, m, alias, vote);
      } else {
        BallotedRelates(f, k, gone, m, alias, vote);
      }
    }
  }

  lemma SameVoters(f: Book, k: Book, gone: set<string>, round: nat, m: string, alias: nat)
    requires Related(f, k, gone) && Shape(k)
    ensures m !in gone ==> CanVote(f, round, m, alias) == CanVote(k, round, m, alias)
    ensures m in gone ==> !CanVote(f, round, m, alias)
    ensures m in gone && CanVote(k, round, m, alias) ==> Tally(k, m) == Failed
    ensures CanVote(k, round, m, alias) ==> alias in k.voters[m] && alias !in k.ballots[m]
    ensures CanVote(k, round, m, alias) && m !in gone ==>
      m in f.seated && m in f.ballots && f.ballots[m] == k.ballots[m] && f.seated[m] == k.seated[m]
  {
    if m !in gone { SameMaps(f, k, gone, m); } else { assert IsOver(k, m); }
  }

  // ----- Activate -----

  lemma SettleRelates(f: Book, k: Book, gone: set<string>, a: Amendment, obstacle: Option<Reason>, appends: nat)
    requires Related(f, k, gone) && a.id in k.seated && a.id in f.seated
    ensures var (f', x) := Settle(f, a, obstacle, appends);
      var (k', y) := Settle(k, a, obstacle, appends);
      x == y && Related(f', k', gone)
  {
    if appends > 0 {
      match obstacle
      case Some(reason) => DecideBoth(f, k, gone, Spent(f, a, reason), Spent(k, a, reason), {a.id});
      case None => DecideBoth(f, k, gone, Adopted(f, a), Adopted(k, a), {a.id});
    }
  }

  lemma ActivateRelates(f: Book, k: Book, gone: set<string>, live: map<string, Observation>, appends: nat)
    requires Related(f, k, gone)
    ensures var (f', x) := ActivateOn(f, live, appends);
      var (k', y) := ActivateOn(k, live, appends);
      x == y && Related(f', k', gone)
  {
    SameDue(f, k, gone);
    if Due(k) != [] {
      DueHead(f);
      DueHead(k);
      var a := Due(k)[0];
      SameReadings(f, k, gone, a.id);
      SameMaps(f, k, gone, a.id);
      SettleRelates(f, k, gone, a, Obstacle(k.edition, a, BindingsOf(k, a.id), live), appends);
    }
  }

  // ----- Norm editions -----

  lemma NotedRelates(f: Book, k: Book, gone: set<string>, norms: seq<string>, sequence: int, appends: nat)
    requires Related(f, k, gone)
    ensures OffMotions(f, norms) == OffMotions(k, norms)
    ensures Related(Noted(f, norms, sequence, appends), Noted(k, norms, sequence, appends), gone)
  {
    SamePending(f, k, gone);
    assert OffMotions(f, norms) == OffMotions(k, norms);
    assert SpentBy(f, norms, sequence, appends) == SpentBy(k, norms, sequence, appends);
    DecideBoth(f, k, gone, Noted(f, norms, sequence, appends), Noted(k, norms, sequence, appends),
               Elements(SpentBy(k, norms, sequence, appends)));
  }

  lemma IssuedRelates(f: Book, k: Book, gone: set<string>, norms: seq<string>, sequence: int)
    requires Related(f, k, gone)
    ensures Related(Issued(f, norms, sequence), Issued(k, norms, sequence), gone)
  {
    DecideBoth(f, k, gone, Issued(f, norms, sequence), Issued(k, norms, sequence), {});
  }

  lemma IssueRelates(f: Book, k: Book, gone: set<string>, norms: seq<string>, sequence: int, appends: nat)
    requires Related(f, k, gone)
    ensures var (f', x) := IssueStep(f, norms, sequence, appends);
      var (k', y) := IssueStep(k, norms, sequence, appends);
      x == y && Related(f', k', gone)
  {
    NotedRelates(f, k, gone, norms, sequence, appends);
    IssuedRelates(Noted(f, norms, sequence, appends), Noted(k, norms, sequence, appends), gone, norms, sequence);
    SameIssue(f, k, norms, sequence, appends);
  }

  /** Both books refuse the edition, or are stopped in it, or issue it. */
  lemma SameIssue(f: Book, k: Book, norms: seq<string>, sequence: int, appends: nat)
    requires f.edition == k.edition && f.normEditions == k.normEditions && OffMotions(f, norms) == OffMotions(k, norms)
    ensures var (f', x) := IssueStep(f, norms, sequence, appends);
      var (k', y) := IssueStep(k, norms, sequence, appends);
      && x == y
      && (|| (f' == f && k' == k)
          || (f' == Noted(f, norms, sequence, appends) && k' == Noted(k, norms, sequence, appends))
          || (f' == Issued(Noted(f, norms, sequence, appends), norms, sequence)
              && k' == Issued(Noted(k, norms, sequence, appends), norms, sequence)))
  {
  }

  // ----- Whole runs -----

  predicate LateVote(k: Book, call: Call) {
    call.Vote? && call.motion in k.seated && Tally(k, call.motion) == Failed
  }

  lemma ActivateStepRelates(f: Book, k: Book, gone: set<string>, live: map<string, Observation>, appends: nat)
    requires Related(f, k, gone)
    ensures var (f', x) := ActivateStep(f, live, appends, true);
      var (k', y) := ActivateStep(k, live, appends, false);
      x == y && Related(f', k', gone + Gone(f))
  {
    CloseRelates(f, k, gone);
    ActivateRelates(Close(f), k, gone + Gone(f), live, appends);
  }

  lemma SeatStepRelates(f: Book, k: Book, gone: set<string>, boundary: int, eligible: map<string, string>,
                        seats: seq<Seat>, size: int, quorum: int, recusals: map<string, set<string>>, appends: nat)
    requires Related(f, k, gone) && boundary >= 0 && boundary == Boundaries(f) + 1
    ensures var (f', x) := SeatStep(f, boundary, eligible, seats, size, quorum, recusals, appends, true);
      var (k', y) := SeatStep(k, boundary, eligible, seats, size, quorum, recusals, appends, false);
      x == y && Related(f', k', gone + Gone(f))
  {
    CloseRelates(f, k, gone);
    SeatRelates(Close(f), k, gone + Gone(f), boundary, eligible, seats, size, quorum, recusals, appends);
    SeatStepIs(f, boundary, eligible, seats, size, quorum, recusals, appends, true);
    SeatStepIs(k, boundary, eligible, seats, size, quorum, recusals, appends, false);
  }

  lemma SeatStepIs(b: Book, boundary: int, eligible: map<string, string>, seats: seq<Seat>, size: int,
                   quorum: int, recusals: map<string, set<string>>, appends: nat, forget: bool)
    requires boundary >= 0 && boundary == Boundaries(b) + 1
    ensures SeatStep(b, boundary, eligible, seats, size, quorum, recusals, appends, forget)
      == SeatOn(if forget then Close(b) else b, boundary, eligible, seats, size, quorum, recusals, appends)
  {
  }

  lemma StepRelates(f: Book, k: Book, gone: set<string>, call: Call, appends: nat) returns (gone': set<string>)
    requires Related(f, k, gone) && Inv(k)
    ensures var (f', x) := Step(f, call, appends, true);
      var (k', y) := Step(k, call, appends, false);
      && Related(f', k', gone')
      && (x != y ==> x == Rejected && LateVote(k, call))
  {
    if call.Seat? {
      gone' := SeatCallRelates(f, k, gone, call, appends);
    } else if call.ActivateDue? {
      gone' := gone + Gone(f);
      ActivateStepRelates(f, k, gone, call.observations, appends);
    } else {
      gone' := gone;
      OtherRelates(f, k, gone, call, appends);
    }
  }

  lemma SeatCallRelates(f: Book, k: Book, gone: set<string>, call: Call, appends: nat) returns (gone': set<string>)
    requires Related(f, k, gone) && call.Seat?
    ensures var (f', x) := Step(f, call, appends, true);
      var (k', y) := Step(k, call, appends, false);
      x == y && Related(f', k', gone')
  {
    if call.boundary >= 0 && call.boundary == Boundaries(f) + 1 {
      gone' := gone + Gone(f);
      SeatStepRelates(f, k, gone, call.boundary, call.eligible, call.seats, call.size, call.quorum, call.recusals,
                      appends);
    } else {
      gone' := gone;
      OutOfTurn(f, call, appends, true);
      OutOfTurn(k, call, appends, false);
    }
  }

  lemma OutOfTurn(b: Book, call: Call, appends: nat, forget: bool)
    requires call.Seat? && (call.boundary < 0 || call.boundary != Boundaries(b) + 1)
    ensures Step(b, call, appends, forget) == (b, Rejected)
  {
  }

  lemma OtherRelates(f: Book, k: Book, gone: set<string>, call: Call, appends: nat)
    requires Related(f, k, gone) && Inv(k) && !call.Seat? && !call.ActivateDue?
    ensures var (f', x) := Step(f, call, appends, true);
      var (k', y) := Step(k, call, appends, false);
      && Related(f', k', gone)
      && (x != y ==> x == Rejected && LateVote(k, call))
  {
    match call
    case Propose(a, observations, measurable) => ProposeRelates(f, k, gone, a, observations, measurable, appends);
    case Vote(round, m, alias, vote) => VoteRelates(f, k, gone, round, m, alias, vote, appends);
    case IssueNorms(norms, sequence) => IssueRelates(f, k, gone, norms, sequence, appends);
  }

  lemma {:induction false} RunsRelate(seed: Edition, run: Run) returns (gone: set<string>)
    requires WellFormed(seed)
    ensures Related(After(seed, run, true), After(seed, run, false), gone)
  {
    if run == [] {
      gone := {};
    } else {
      var init, last := run[..|run| - 1], run[|run| - 1];
      gone := RunsRelate(seed, init);
      EveryRun(seed, init, false);
      gone := StepRelates(After(seed, init, true), After(seed, init, false), gone, last.0, last.1);
    }
  }

  /** After every run the book that forgets and the book that keeps everything show the same edition,
      the same pending motions and the same agenda. */
  lemma ForgettingIsInvisible(seed: Edition, run: Run)
    requires WellFormed(seed)
    ensures var f, k := After(seed, run, true), After(seed, run, false);
      && f.edition == k.edition && Pending(f) == Pending(k) && Agenda(f) == Agenda(k)
      && Boundaries(f) == Boundaries(k) && f.latest == k.latest && f.normEditions == k.normEditions
  {
    var gone := RunsRelate(seed, run);
    EveryRun(seed, run, false);
    SamePending(After(seed, run, true), After(seed, run, false), gone);
    SameAgenda(After(seed, run, true), After(seed, run, false), gone);
  }

  /** Every call of a run returns the same from both, activations and refusals among them; the one
      difference is a ballot on a motion that has already failed, which the forgetting book rejects. */
  lemma SameOutcomes(seed: Edition, run: Run, i: nat)
    requires WellFormed(seed) && i < |run|
    ensures var x, y := OutcomeAt(seed, run, true, i), OutcomeAt(seed, run, false, i);
      x == y || (x == Rejected && LateVote(After(seed, run[..i], false), run[i].0))
  {
    var gone := RunsRelate(seed, run[..i]);
    EveryRun(seed, run[..i], false);
    var _ := StepRelates(After(seed, run[..i], true), After(seed, run[..i], false), gone, run[i].0, run[i].1);
  }
}
