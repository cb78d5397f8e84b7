/** The evidence behind every edition: each activation goes back to one proposal, to the one seating
    call that convened its motion, and to votes of those that call let vote. */
module BookEvidence {
  import opened Options
  import opened Sequences
  import opened Charter
  import opened Seats
  import opened Books
  import opened BookProofs
  import opened BookRuns

  /** The aliases whose yes the ledger holds for a motion. */
  function YesVoters(ledger: seq<Entry>, m: string): set<nat> {
    set e <- ledger | Votes(e, m) && e.vote == Some(true) :: e.alias
  }

  lemma YesVotersAreBallots(ledger: seq<Entry>, m: string)
    requires CaseOf(ledger, m).Voting?
    ensures YesVoters(ledger, m) == InFavour(CaseOf(ledger, m).ballots)
  {
    BallotsMean(ledger, m);
    var ballots := CaseOf(ledger, m).ballots;
    forall alias | alias in InFavour(ballots) ensures alias in YesVoters(ledger, m) {
      var e :| e in ledger && VotesFor(e, m, alias, ballots[alias]);
    }
  }

  // ----- The seating call behind a seating entry -----

  /** This call convened the motion: it appended one seating entry, with its own seats and quorum, and
      counted as the motion's voters those seats it did not recuse from it. */
  ghost predicate SeatedBy(before: seq<Entry>, after: seq<Entry>, call: Call, m: string) {
    && call.Seat? && |after| == |before| + 1 && before <= after
    && var e := after[|before|];
       && Convenes(e, m) && e.seats == call.seats && e.quorum == call.quorum
       && m in e.voters && e.voters[m] == |Electorate(call.seats, call.recusals, m)|
  }

  /** The electorate of a motion that a call convened. */
  function Electors(call: Call, m: string): seq<nat> {
    if call.Seat? then Electorate(call.seats, call.recusals, m) else []
  }

  /** The call appended no seating but its own. */
  ghost predicate OwnSeating(before: seq<Entry>, after: seq<Entry>, call: Call) {
    && before <= after
    && forall i, m | |before| <= i < |after| && Convenes(after[i], m) ::
         i == |before| && SeatedBy(before, after, call, m)
  }

  ghost predicate Grown(b: Book, t: Book, call: Call) {
    && OwnSeating(b.ledger, t.ledger, call)
    && (forall m <- t.seated | m in t.voters ::
          || (m in b.seated && m in b.voters && t.voters[m] == b.voters[m])
          || (SeatedBy(b.ledger, t.ledger, call, m) && t.voters[m] == Electors(call, m)))
    && (forall i | |b.ledger| <= i < |t.ledger| && t.ledger[i].Voted? ::
          var m := t.ledger[i].motion; m in b.seated && m in b.voters && t.ledger[i].alias in b.voters[m])
  }

  lemma SeatingsAppend(b: Book, c: Committee, motions: seq<string>, call: Call, m: string)
    requires call.Seat? && c.seats == call.seats && (m in c.agenda ==> m in motions)
    ensures
      var e := SeatEntry(c, motions, call.quorum, call.recusals);
      var t := Seatings(b, c, call.recusals, e);
      && t.ledger == b.ledger + [e] && t.ledger[|b.ledger|] == e
      && (Convenes(e, m) ==> SeatedBy(b.ledger, t.ledger, call, m))
      && (m in c.agenda ==> t.voters[m] == Electors(call, m) && Convenes(e, m))
      && (m !in c.agenda && m in t.seated && m in t.voters ==>
            m in b.seated && m in b.voters && t.voters[m] == b.voters[m])
  {
  }

  lemma SeatingsGrow(b: Book, c: Committee, motions: seq<string>, call: Call)
    requires call.Seat? && c.seats == call.seats && (forall m <- c.agenda :: m in motions)
    ensures Grown(b, Seatings(b, c, call.recusals, SeatEntry(c, motions, call.quorum, call.recusals)), call)
  {
    forall m: string
      ensures
        var e := SeatEntry(c, motions, call.quorum, call.recusals);
        var t := Seatings(b, c, call.recusals, e);
        && t.ledger == b.ledger + [e]
        && (Convenes(e, m) ==> SeatedBy(b.ledger, t.ledger, call, m))
        && (m in t.seated && m in t.voters ==>
              || (m in b.seated && m in b.voters && t.voters[m] == b.voters[m])
              || (SeatedBy(b.ledger, t.ledger, call, m) && t.voters[m] == Electors(call, m)))
    {
      SeatingsAppend(b, c, motions, call, m);
    }
  }

  lemma SeatGrows(b: Book, boundary: int, eligible: map<string, string>, seats: seq<Seat>, size: int,
                  quorum: int, recusals: map<string, set<string>>, appends: nat)
    ensures Grown(b, SeatOn(b, boundary, eligible, seats, size, quorum, recusals, appends).0,
                  Call.Seat(boundary, eligible, seats, size, quorum, recusals))
  {
    var call := Call.Seat(boundary, eligible, seats, size, quorum, recusals);
    if quorum < 1 || appends == 0 {
      SilentGrows(b, b, call);
    } else if |eligible| < quorum {
      PostponedGrows(b, boundary, |eligible|, quorum, call);
    } else if !Drawable(eligible, size) || !DistinctSeats(seats) {
      SilentGrows(b, b, call);
    } else {
      SeatingsGrow(b, Convened(b, boundary, seats, quorum, recusals), Map(MotionId, Agenda(b)), call);
    }
  }

  lemma PostponedGrows(b: Book, boundary: int, eligible: nat, quorum: int, call: Call)
    ensures Grown(b, Postponed(b, boundary, eligible, quorum), call)
  {
    SilentGrows(b, Postponed(b, boundary, eligible, quorum), call);
  }

  /** A call that seats no one appends no seating either. */
  ghost predicate NoSeating(b: Book, t: Book) {
    b.ledger <= t.ledger && forall i | |b.ledger| <= i < |t.ledger| :: !t.ledger[i].Seated?
  }

  lemma NotedSeatsNoOne(b: Book, norms: seq<string>, sequence: int, appends: nat)
    ensures NoSeating(b, Noted(b, norms, sequence, appends))
  {
    var t := Noted(b, norms, sequence, appends);
    var idle := Take(IdleEntries(b.edition, norms, sequence), appends);
    forall i | |b.ledger| <= i < |t.ledger| ensures !t.ledger[i].Seated? {
      var k := i - |b.ledger|;
      if k < |idle| { assert t.ledger[i] == idle[k] && idle[k] in idle; }
    }
  }

  lemma ActivateAppends(b: Book, live: map<string, Observation>, appends: nat)
    ensures NoSeating(b, ActivateOn(b, live, appends).0)
  {
    if Due(b) != [] {
      DueHead(b);
      var a := Due(b)[0];
      SettleAppends(b, a, Obstacle(b.edition, a, BindingsOf(b, a.id), live), appends);
    }
  }

  lemma SettleAppends(b: Book, a: Amendment, obstacle: Option<Reason>, appends: nat)
    requires a.id in b.seated
    ensures NoSeating(b, Settle(b, a, obstacle, appends).0)
  {
  }

  lemma OtherSeatsNoOne(b: Book, call: Call, appends: nat, forget: bool)
    requires !call.Seat? && !call.Vote?
    ensures NoSeating(b, Step(b, call, appends, forget).0) && NoNewVoters(b, Step(b, call, appends, forget).0)
  {
    match call
    case Propose(a, observations, measurable) => ProposeSeatsNoOne(b, a, observations, measurable, appends);
    case ActivateDue(live) =>
      ActivateAppends(CloseIf(b, forget), live, appends);
      ActivateSeatsNoOne(CloseIf(b, forget), live, appends);
    case IssueNorms(norms, sequence) =>
      NotedSeatsNoOne(b, norms, sequence, appends);
      IssueSeatsNoOne(b, norms, sequence, appends);
  }

  lemma VoteGrows(b: Book, round: nat, motion: string, alias: nat, vote: Option<bool>, appends: nat)
    requires Shape(b)
    ensures Grown(b, VoteStep(b, round, motion, alias, vote, appends).0, Vote(round, motion, alias, vote))
  {
    VoteSeatsNoOne(b, round, motion, alias, vote, appends);
  }

  lemma StepGrows(b: Book, call: Call, appends: nat, forget: bool)
    requires Shape(b)
    ensures Grown(b, Step(b, call, appends, forget).0, call)
  {
    match call
    case Seat(boundary, eligible, seats, size, quorum, recusals) => SeatStepGrows(b, call, appends, forget);
    case Vote(round, motion, alias, vote) => VoteGrows(b, round, motion, alias, vote, appends);
    case _ => OtherGrows(b, call, appends, forget);
  }

  lemma SeatStepGrows(b: Book, call: Call, appends: nat, forget: bool)
    requires call.Seat?
    ensures Grown(b, Step(b, call, appends, forget).0, call)
  {
    var closed := CloseIf(b, forget);
    SeatGrows(closed, call.boundary, call.eligible, call.seats, call.size, call.quorum, call.recusals, appends);
    if call.boundary < 0 || call.boundary != Boundaries(b) + 1 {
      SilentGrows(b, b, call);
    } else {
      ClosedGrows(b, closed, SeatOn(closed, call.boundary, call.eligible, call.seats, call.size, call.quorum,
                                    call.recusals, appends).0, call);
    }
  }

  /** Closing first makes no difference. */
  lemma ClosedGrows(b: Book, closed: Book, t: Book, call: Call)
    requires closed.ledger == b.ledger && NoNewVoters(b, closed) && Grown(closed, t, call)
    ensures Grown(b, t, call)
  {
    forall m <- t.seated | m in t.voters
      ensures (m in b.seated && m in b.voters && t.voters[m] == b.voters[m])
           || (SeatedBy(b.ledger, t.ledger, call, m) && t.voters[m] == Electors(call, m))
    {
    }
    forall i | |b.ledger| <= i < |t.ledger| && t.ledger[i].Voted?
      ensures var m := t.ledger[i].motion; m in b.seated && m in b.voters && t.ledger[i].alias in b.voters[m]
    {
      assert t.ledger[i].motion in closed.seated;
    }
  }

  lemma OtherGrows(b: Book, call: Call, appends: nat, forget: bool)
    requires !call.Seat? && !call.Vote?
    ensures Grown(b, Step(b, call, appends, forget).0, call)
  {
    StepIsSilent(b, call, appends, forget);
    OtherSeatsNoOne(b, call, appends, forget);
    SilentGrows(b, Step(b, call, appends, forget).0, call);
  }

  lemma SilentGrows(b: Book, t: Book, call: Call)
    requires Silent(b, t) && NoSeating(b, t) && NoNewVoters(b, t)
    ensures Grown(b, t, call)
  {
    forall i, m | |b.ledger| <= i < |t.ledger|
      ensures !Convenes(t.ledger[i], m) && !t.ledger[i].Voted?
    {
    }
  }

  // ----- A run as its books and calls -----

  /** The books of a run, the first one empty, each grown from the one before by a call. */
  ghost predicate Chain(books: seq<Book>, calls: seq<Call>) {
    && |books| == |calls| + 1 && books[0].ledger == [] && books[0].seated == map[]
    && forall j | 0 <= j < |calls| :: Grown(books[j], books[j + 1], calls[j])
  }

  lemma {:induction false} ChainGrows(books: seq<Book>, calls: seq<Call>, i: nat, j: nat)
    requires Chain(books, calls) && i <= j < |books|
    ensures books[i].ledger <= books[j].ledger
  {
    if i < j {
      ChainGrows(books, calls, i, j - 1);
      assert Grown(books[j - 1], books[j], calls[j - 1]);
    }
  }

  /** The call that appended an entry. */
  lemma {:induction false} AppendedBy(books: seq<Book>, calls: seq<Call>, n: nat, s: nat) returns (j: nat)
    requires Chain(books, calls) && n < |books| && s < |books[n].ledger|
    ensures j < n && |books[j].ledger| <= s < |books[j + 1].ledger| && books[j + 1].ledger[s] == books[n].ledger[s]
  {
    j := n - 1;
    assert Grown(books[j], books[n], calls[j]);
    if s < |books[j].ledger| {
      j := AppendedBy(books, calls, n - 1, s);
    }
  }

  /** The j-th call convened the motion. */
  ghost predicate SeatedAt(books: seq<Book>, calls: seq<Call>, j: nat, m: string)
    requires Chain(books, calls)
  {
    j < |calls| && SeatedBy(books[j].ledger, books[j + 1].ledger, calls[j], m)
  }

  lemma SeatingCall(books: seq<Book>, calls: seq<Call>, s: nat, m: string) returns (j: nat)
    requires Chain(books, calls)
    requires var ledger := books[|calls|].ledger; s < |ledger| && Convenes(ledger[s], m)
    ensures SeatedAt(books, calls, j, m) && |books[j].ledger| == s && books[j + 1].ledger <= books[|calls|].ledger
  {
    j := AppendedBy(books, calls, |calls|, s);
    assert Grown(books[j], books[j + 1], calls[j]);
    ChainGrows(books, calls, j + 1, |calls|);
  }

  /** An electorate is that of the call that convened its motion. */
  lemma {:induction false} ElectorateCall(books: seq<Book>, calls: seq<Call>, n: nat, m: string) returns (j: nat)
    requires Chain(books, calls) && n < |books| && m in books[n].seated && m in books[n].voters
    ensures j < n && SeatedAt(books, calls, j, m) && books[n].voters[m] == Electors(calls[j], m)
  {
    j := n - 1;
    assert Grown(books[j], books[n], calls[j]);
    if m in books[j].seated && m in books[j].voters && books[n].voters[m] == books[j].voters[m] {
      j := ElectorateCall(books, calls, n - 1, m);
    }
  }

  /** One entry is one call's. */
  lemma SameCall(books: seq<Book>, calls: seq<Call>, i: nat, j: nat, m: string)
    requires Chain(books, calls) && SeatedAt(books, calls, i, m) && SeatedAt(books, calls, j, m)
    requires |books[i].ledger| == |books[j].ledger|
    ensures i == j
  {
    if i < j {
      ChainGrows(books, calls, i + 1, j);
    } else if j < i {
      ChainGrows(books, calls, j + 1, i);
    }
  }

  /** A vote is of an elector of the call that convened its motion, which came before. */
  lemma VoteCall(books: seq<Book>, calls: seq<Call>, k: nat, m: string) returns (j: nat)
    requires Chain(books, calls)
    requires var ledger := books[|calls|].ledger; k < |ledger| && Votes(ledger[k], m)
    ensures SeatedAt(books, calls, j, m) && books[|calls|].ledger[k].alias in Electors(calls[j], m)
    ensures books[j + 1].ledger <= books[|calls|].ledger[..k]
  {
    var i := AppendedBy(books, calls, |calls|, k);
    assert Grown(books[i], books[i + 1], calls[i]);
    j := ElectorateCall(books, calls, i, m);
    ChainGrows(books, calls, j + 1, i);
    ChainGrows(books, calls, i, |calls|);
  }

  /** Every vote on a motion seated once is of an elector of that seating. */
  lemma VotesAreElectors(books: seq<Book>, calls: seq<Call>, s: nat, j: nat, k: nat, m: string)
    requires Chain(books, calls) && SeatedAt(books, calls, j, m) && |books[j].ledger| == s
    requires
      var ledger := books[|calls|].ledger;
      k < |ledger| && Votes(ledger[k], m) && forall i | 0 <= i < k && Convenes(ledger[i], m) :: i == s
    ensures books[|calls|].ledger[k].alias in Electors(calls[j], m)
  {
    var i := VoteCall(books, calls, k, m);
    var at := |books[i].ledger|;
    assert books[|calls|].ledger[at] == books[i + 1].ledger[at];
    SameCall(books, calls, i, j, m);
  }

  ghost function BooksOf(seed: Edition, run: Run, forget: bool): seq<Book> {
    seq(|run| + 1, (j: int) => if 0 <= j <= |run| then After(seed, run[..j], forget) else Opened(seed))
  }

  function Calls(run: Run): seq<Call> {
    seq(|run|, j requires 0 <= j < |run| => run[j].0)
  }

  lemma RunIsChain(seed: Edition, run: Run, forget: bool)
    requires WellFormed(seed)
    ensures Chain(BooksOf(seed, run, forget), Calls(run))
  {
    forall j | 0 <= j < |run|
      ensures Grown(BooksOf(seed, run, forget)[j], BooksOf(seed, run, forget)[j + 1], Calls(run)[j])
    {
      EveryRun(seed, run[..j], forget);
      StepGrows(After(seed, run[..j], forget), run[j].0, run[j].1, forget);
      AfterOne(seed, run, forget, j);
    }
  }

  lemma AfterOne(seed: Edition, run: Run, forget: bool, j: nat)
    requires j < |run|
    ensures After(seed, run[..j + 1], forget) == Step(After(seed, run[..j], forget), run[j].0, run[j].1, forget).0
  {
    assert run[..j + 1][..j] == run[..j];
  }

  /** What the ledger shows of an activation: its motion's one proposal at p; after that its one
      seating at s, with at least a quorum of voters; and after that its votes, one per alias at most,
      with a strict majority of the voters in favour. */
  ghost predicate ShownBy(ledger: seq<Entry>, i: nat, p: nat, s: nat)
    requires i < |ledger| && ledger[i].Activated?
  {
    var m, before := ledger[i].motion, ledger[..i];
    && p < s < i && Proposes(ledger[p], m) && Convenes(ledger[s], m) && ledger[i].round == ledger[s].round
    && (forall k | 0 <= k < i && Proposes(ledger[k], m) :: k == p)
    && (forall k | 0 <= k < i && Convenes(ledger[k], m) :: k == s)
    && (forall k | 0 <= k < i && Votes(ledger[k], m) :: s < k)
    && (forall k, l | 0 <= k < l < i && Votes(ledger[k], m) && Votes(ledger[l], m) ::
          ledger[k].alias != ledger[l].alias)
    && m in ledger[s].voters && 1 <= ledger[s].quorum <= ledger[s].voters[m]
    && 2 * |YesVoters(before, m)| > ledger[s].voters[m]
  }

  lemma LedgerShows(ledger: seq<Entry>, i: nat) returns (p: nat, s: nat)
    requires i < |ledger| && ledger[i].Activated? && Evidence(ledger[..i], ledger[i])
    ensures ShownBy(ledger, i, p, s)
  {
    var m, before := ledger[i].motion, ledger[..i];
    p, s := SessionMeans(before, m);
    BallotsCastOnce(before, m);
    assert ledger[p] == before[p] && ledger[s] == before[s];
    forall k | 0 <= k < i ensures ledger[k] == before[k] {}
    YesVotersAreBallots(before, m);
  }

  /** Every activation in every reachable ledger has its evidence; and its seating entry was appended by
      one seating call of the run, which drew its seats and quorum: the voters counted are exactly the
      seats which that call did not recuse from the motion, and every ballot is one of theirs. */
  lemma EveryEditionHasEvidence(seed: Edition, run: Run, forget: bool, i: nat) returns (p: nat, s: nat, j: nat)
    requires WellFormed(seed)
    requires var ledger := After(seed, run, forget).ledger; i < |ledger| && ledger[i].Activated?
    ensures ShownBy(After(seed, run, forget).ledger, i, p, s)
    ensures j < |run| && run[j].0.Seat? && |After(seed, run[..j], forget).ledger| == s
    ensures
      var ledger, call := After(seed, run, forget).ledger, run[j].0;
      var m := ledger[i].motion;
      var electors := Electorate(call.seats, call.recusals, m);
      && ledger[s].seats == call.seats && ledger[s].quorum == call.quorum && ledger[s].voters[m] == |electors|
      && (forall k | 0 <= k < i && Votes(ledger[k], m) :: ledger[k].alias in electors)
      && YesVoters(ledger[..i], m) <= Elements(electors)
  {
    EveryRun(seed, run, forget);
    RunIsChain(seed, run, forget);
    var books, calls := BooksOf(seed, run, forget), Calls(run);
    var ledger := After(seed, run, forget).ledger;
    assert run[..|run|] == run && books[|run|].ledger == ledger;
    p, s := LedgerShows(ledger, i);
    j := EditionsCall(books, calls, i, p, s);
  }

  lemma EditionsCall(books: seq<Book>, calls: seq<Call>, i: nat, p: nat, s: nat) returns (j: nat)
    requires Chain(books, calls)
    requires var ledger := books[|calls|].ledger; i < |ledger| && ledger[i].Activated? && ShownBy(ledger, i, p, s)
    ensures SeatedAt(books, calls, j, books[|calls|].ledger[i].motion) && |books[j].ledger| == s
    ensures
      var ledger := books[|calls|].ledger;
      var m := ledger[i].motion;
      && ledger[s] == books[j + 1].ledger[s]
      && (forall k | 0 <= k < i && Votes(ledger[k], m) :: ledger[k].alias in Electors(calls[j], m))
      && YesVoters(ledger[..i], m) <= Elements(Electors(calls[j], m))
  {
    var ledger := books[|calls|].ledger;
    var m := ledger[i].motion;
    j := SeatingCall(books, calls, s, m);
    forall k | 0 <= k < i && Votes(ledger[k], m) ensures ledger[k].alias in Electors(calls[j], m) {
      VotesAreElectors(books, calls, s, j, k, m);
    }
    forall e <- ledger[..i] | Votes(e, m) ensures e.alias in Electors(calls[j], m) {
      var k :| 0 <= k < i && ledger[k] == e;
    }
  }
}
