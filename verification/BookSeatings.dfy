/** Which motions a committee hears, and who may vote on each: said of the motions on the table, the seats
    and the recusals. */
module BookSeatings {
  import opened Options
  import opened Sequences
  import opened Charter
  import opened Seats
  import opened Books
  import opened BookProofs

  /** The aliases of the seats not recused from a motion. */
  ghost function MayVote(seats: seq<Seat>, recusals: map<string, set<string>>, m: string): set<nat> {
    set s <- seats | !(m in recusals && s.assembly in recusals[m]) :: s.alias
  }

  /** A motion on the table that no committee has been given. */
  predicate Unheard(b: Book, m: string) {
    m !in b.decided && m !in b.seated
  }

  lemma ElectorateIs(seats: seq<Seat>, recusals: map<string, set<string>>, m: string)
    requires DistinctSeats(seats)
    ensures Elements(Electorate(seats, recusals, m)) == MayVote(seats, recusals, m)
    ensures |Electorate(seats, recusals, m)| == |MayVote(seats, recusals, m)|
    ensures Distinct(Electorate(seats, recusals, m))
  {
    ElectorateShape(seats, recusals, m);
    DistinctCount(Electorate(seats, recusals, m));
    forall alias ensures alias in Elements(Electorate(seats, recusals, m)) <==> alias in MayVote(seats, recusals, m) {
      if alias in MayVote(seats, recusals, m) {
        var s :| s in seats && !(m in recusals && s.assembly in recusals[m]) && s.alias == alias;
        assert s.assembly !in Recused(recusals, m);
      }
    }
  }

  /** A filter of the ids of the motions unheard. */
  lemma HeardAt(b: Book, keep: string -> bool) returns (at: seq<nat>)
    ensures Selects(Filter(Map(MotionId, Agenda(b)), keep), Map(MotionId, b.proposals), at)
    ensures forall i | 0 <= i < |b.proposals| ::
      i in at <==> Unheard(b, b.proposals[i].id) && keep(b.proposals[i].id)
  {
    var open := (a: Amendment) => IsOpen(b, a.id);
    MapFilter(Agenda(b), keep);
    var both := (a: Amendment) => IsOpen(b, a.id) && keep(a.id);
    FilterTwice(b.proposals, open, (a: Amendment) => keep(a.id), both);
    at := FilterSelects(b.proposals, both);
    MapSelects(MotionId, Filter(b.proposals, both), b.proposals, at);
  }

  lemma {:induction false} MapFilter(proposals: seq<Amendment>, keep: string -> bool)
    ensures Filter(Map(MotionId, proposals), keep) == Map(MotionId, Filter(proposals, (a: Amendment) => keep(a.id)))
  {
    if proposals != [] {
      var n := |proposals| - 1;
      MapFilter(proposals[..n], keep);
      assert Map(MotionId, proposals)[..n] == Map(MotionId, proposals[..n]);
    }
  }

  /** The committee hears, in the order they were proposed, the motions unheard on which at least a quorum
      of its seats may vote, and defers the others; each motion heard is open to just those voters. */
  lemma SeatedExactly(b: Book, boundary: int, seats: seq<Seat>, quorum: int, recusals: map<string, set<string>>)
    returns (heard: seq<nat>, deferred: seq<nat>)
    requires DistinctSeats(seats)
    ensures
      var (t, o) := Convene(b, boundary, seats, quorum, recusals);
      && o.Seating? && o.committee.seats == seats && o.committee.round == b.sittings + 1 == t.sittings
      && Selects(o.committee.agenda, Map(MotionId, b.proposals), heard)
      && Selects(o.committee.deferred, Map(MotionId, b.proposals), deferred)
    ensures forall i | 0 <= i < |b.proposals| ::
      var m := b.proposals[i].id;
      && (i in heard <==> Unheard(b, m) && |MayVote(seats, recusals, m)| >= quorum)
      && (i in deferred <==> Unheard(b, m) && |MayVote(seats, recusals, m)| < quorum)
    ensures
      var (t, o) := Convene(b, boundary, seats, quorum, recusals);
      forall m <- o.committee.agenda ::
        && m in t.seated && t.seated[m] == o.committee && m in t.ballots && t.ballots[m] == map[]
        && m in t.voters && Distinct(t.voters[m]) && Elements(t.voters[m]) == MayVote(seats, recusals, m)
    ensures
      var (t, o) := Convene(b, boundary, seats, quorum, recusals);
      forall m | m !in o.committee.agenda ::
        && (m in t.seated <==> m in b.seated) && (m in b.seated ==> t.seated[m] == b.seated[m])
        && (m in t.voters <==> m in b.voters) && (m in b.voters ==> t.voters[m] == b.voters[m])
        && (m in t.ballots <==> m in b.ballots) && (m in b.ballots ==> t.ballots[m] == b.ballots[m])
  {
    heard := HeardAt(b, (m: string) => |Electorate(seats, recusals, m)| >= quorum);
    deferred := HeardAt(b, (m: string) => |Electorate(seats, recusals, m)| < quorum);
    forall m: string ensures |Electorate(seats, recusals, m)| == |MayVote(seats, recusals, m)| {
      ElectorateIs(seats, recusals, m);
    }
    var c := Convened(b, boundary, seats, quorum, recusals);
    var e := SeatEntry(c, Map(MotionId, Agenda(b)), quorum, recusals);
    OpensHeard(b, c, recusals, e);
    LeavesOthers(b, c, recusals, e);
  }

  lemma OpensHeard(b: Book, c: Committee, recusals: map<string, set<string>>, e: Entry)
    requires DistinctSeats(c.seats)
    ensures
      var t := Seatings(b, c, recusals, e);
      forall m <- c.agenda ::
        && m in t.seated && t.seated[m] == c && m in t.ballots && t.ballots[m] == map[]
        && m in t.voters && Distinct(t.voters[m]) && Elements(t.voters[m]) == MayVote(c.seats, recusals, m)
  {
    forall m <- c.agenda
      ensures Distinct(Electorate(c.seats, recusals, m))
      ensures Elements(Electorate(c.seats, recusals, m)) == MayVote(c.seats, recusals, m)
    {
      ElectorateIs(c.seats, recusals, m);
    }
  }

  lemma LeavesOthers(b: Book, c: Committee, recusals: map<string, set<string>>, e: Entry)
    ensures
      var t := Seatings(b, c, recusals, e);
      forall m | m !in c.agenda ::
        && (m in t.seated <==> m in b.seated) && (m in b.seated ==> t.seated[m] == b.seated[m])
        && (m in t.voters <==> m in b.voters) && (m in b.voters ==> t.voters[m] == b.voters[m])
        && (m in t.ballots <==> m in b.ballots) && (m in b.ballots ==> t.ballots[m] == b.ballots[m])
  {
  }

  /** A boundary is held exactly when it is the next one and the ledger takes an entry: a committee is
      seated when the eligible reach the quorum and can be drawn from, and put off when they do not. */
  lemma BoundaryHeldExactly(b: Book, boundary: int, eligible: map<string, string>, seats: seq<Seat>, size: int,
                            quorum: int, recusals: map<string, set<string>>, appends: nat, forget: bool)
    ensures
      var (t, o) := SeatStep(b, boundary, eligible, seats, size, quorum, recusals, appends, forget);
      var next := boundary == b.sittings + b.deferrals + 1 && quorum >= 1 && appends > 0;
      && (o.Seating? <==> next && |eligible| >= quorum && Drawable(eligible, size) && DistinctSeats(seats))
      && (o == Deferral <==> next && |eligible| < quorum)
      && t.sittings == b.sittings + (if o.Seating? then 1 else 0)
      && t.deferrals == b.deferrals + (if o == Deferral then 1 else 0)
  {
    HeldExactly(CloseIf(b, forget), boundary, eligible, seats, size, quorum, recusals, appends);
    InTurn(b, boundary, eligible, seats, size, quorum, recusals, appends, forget);
  }

  lemma InTurn(b: Book, boundary: int, eligible: map<string, string>, seats: seq<Seat>, size: int, quorum: int,
               recusals: map<string, set<string>>, appends: nat, forget: bool)
    ensures SeatStep(b, boundary, eligible, seats, size, quorum, recusals, appends, forget)
      == if boundary != b.sittings + b.deferrals + 1 then (b, Rejected)
         else SeatOn(CloseIf(b, forget), boundary, eligible, seats, size, quorum, recusals, appends)
    ensures CloseIf(b, forget).sittings == b.sittings && CloseIf(b, forget).deferrals == b.deferrals
  {
  }

  lemma HeldExactly(b: Book, boundary: int, eligible: map<string, string>, seats: seq<Seat>, size: int, quorum: int,
                    recusals: map<string, set<string>>, appends: nat)
    ensures
      var (t, o) := SeatOn(b, boundary, eligible, seats, size, quorum, recusals, appends);
      && (o.Seating? <==> quorum >= 1 && appends > 0 && |eligible| >= quorum && Drawable(eligible, size)
                          && DistinctSeats(seats))
      && (o == Deferral <==> quorum >= 1 && appends > 0 && |eligible| < quorum)
      && t.sittings == b.sittings + (if o.Seating? then 1 else 0)
      && t.deferrals == b.deferrals + (if o == Deferral then 1 else 0)
  {
  }
}
