/** The charter book as the object its callers hold. Its methods work on the book's own fields, in
    the order the source does; each is proved to be one step of the forgetting book. `appends` is
    how many entries the ledger takes from the call. */
module CharterBookClass {
  import opened Options
  import opened Sequences
  import opened Charter
  import opened Seats
  import opened Books
  import Sortition

  /** The first element a filter keeps is the first that satisfies it. */
  lemma {:induction false} FilterHead<T(!new)>(s: seq<T>, p: T -> bool, i: nat)
    requires i < |s| && p(s[i]) && forall j | 0 <= j < i :: !p(s[j])
    ensures Filter(s, p) != [] && Filter(s, p)[0] == s[i]
  {
    var init := s[..|s| - 1];
    if i < |init| {
      FilterHead(init, p, i);
    } else {
      forall x <- init ensures !p(x) {}
      FilterNone(init, p);
    }
  }

  lemma {:induction false} FilterNone<T(!new)>(s: seq<T>, p: T -> bool)
    requires forall x <- s :: !p(x)
    ensures Filter(s, p) == []
  {
    if s != [] { FilterNone(s[..|s| - 1], p); }
  }

  class CharterBook {
    var ledger: seq<Entry>
    var edition: Edition
    var proposals: seq<Amendment>
    var committees: map<string, Committee>
    var ballots: map<string, Ballots>
    var decided: set<string>
    var bindings: map<string, map<string, Observation>>
    var voters: map<string, seq<nat>>
    var sittings: nat
    var deferrals: nat
    var normEditions: map<int, int>
    var latest: Option<(int, Amendment)>

    function State(): Book
      reads this
    {
      Book(edition, proposals, committees, ballots, decided, bindings, voters, sittings, deferrals,
                normEditions, latest, ledger)
    }

    constructor (seed: Edition)
      ensures State() == Opened(seed)
    {
      edition, proposals, committees, ballots, decided := seed, [], map[], map[], {};
      bindings, voters, sittings, deferrals := map[], map[], 0, 0;
      normEditions, latest, ledger := map[], None, [];
    }

    method Propose(a: Amendment, observations: map<string, Observation>, measurable: set<Card>, appends: nat)
      returns (r: Outcome)
      modifies this
      ensures (State(), r) == ProposeStep(old(State()), a, observations, measurable, appends)
    {
      if !IsNew(State(), a.id) || !Amends(edition, a, measurable) { return Rejected; }
      var bound := Bind(edition.cards + Changed(a), observations);
      if appends == 0 { return LedgerFailed; }
      ledger := ledger + [Proposed(a, bound)];
      proposals := proposals + [a];
      bindings := bindings[a.id := bound];
      return Done;
    }

    static method Over(b: Book, id: string) returns (over: bool)
      ensures over == IsOver(b, id)
    {
      over := id in b.decided || (id in b.seated && Tally(b, id) == Failed);
    }

    /** The motions over, and the proposals without them. */
    static method Decided(b: Book) returns (gone: set<string>, kept: seq<Amendment>)
      ensures gone == Gone(b) && kept == Pending(b)
    {
      gone, kept := {}, [];
      for i := 0 to |b.proposals|
        invariant gone == set a <- b.proposals[..i] | IsOver(b, a.id) :: a.id
        invariant kept == Filter(b.proposals[..i], (a: Amendment) => !IsOver(b, a.id))
      {
        var a := b.proposals[i];
        OneMore(b, i);
        var over := Over(b, a.id);
        if over {
          gone := gone + {a.id};
        } else {
          kept := kept + [a];
        }
      }
      assert b.proposals[..|b.proposals|] == b.proposals;
    }

    static lemma OneMore(b: Book, i: nat)
      requires i < |b.proposals|
      ensures
        var a := b.proposals[i];
        var open := (a: Amendment) => !IsOver(b, a.id);
        && (set x <- b.proposals[..i + 1] | IsOver(b, x.id) :: x.id)
           == (set x <- b.proposals[..i] | IsOver(b, x.id) :: x.id) + (if IsOver(b, a.id) then {a.id} else {})
        && Filter(b.proposals[..i + 1], open)
           == Filter(b.proposals[..i], open) + (if IsOver(b, a.id) then [] else [a])
    {
      assert b.proposals[..i + 1] == b.proposals[..i] + [b.proposals[i]];
      FilterAppend(b.proposals[..i], b.proposals[i], (a: Amendment) => !IsOver(b, a.id));
    }

    method CloseDecided()
      modifies this
      ensures State() == Close(old(State()))
    {
      ghost var b := State();
      var gone, kept := Decided(State());
      proposals, decided := kept, decided + gone;
      committees, ballots, bindings, voters := committees - gone, ballots - gone, bindings - gone, voters - gone;
      ClosedAs(b, State(), gone);
    }

    static lemma ClosedAs(b: Book, t: Book, gone: set<string>)
      requires gone == Gone(b) && t.proposals == Pending(b)
      requires t.seated == b.seated - gone && t.ballots == b.ballots - gone && t.bindings == b.bindings - gone
      requires t.voters == b.voters - gone && t.decided == b.decided + gone
      requires t == b.(proposals := t.proposals, seated := t.seated, ballots := t.ballots, bindings := t.bindings,
                       voters := t.voters, decided := t.decided)
      ensures t == Close(b)
    {
    }

    /** The seats are the draw's, whatever its generator; `seats` names them for the step. */
    method Seat(boundary: int, eligible: map<string, string>, size: int, quorum: int,
                learners: Sortition.Learners, recusals: map<string, set<string>>, appends: nat)
      returns (r: Outcome, ghost seats: seq<Seat>)
      modifies this
      ensures (State(), r) == SeatStep(old(State()), boundary, eligible, seats, size, quorum, recusals, appends, true)
      ensures r.Seating? ==> r.committee.seats == seats && Sortition.Drawn(eligible, learners, size, seats)
    {
      seats := [];
      if boundary < 0 || boundary != sittings + deferrals + 1 { return Rejected, seats; }
      CloseDecided();
      r, seats := SeatClosed(boundary, eligible, size, quorum, learners, recusals, appends);
    }

    /** Seating on a book that has closed its decided motions. */
    method SeatClosed(boundary: int, eligible: map<string, string>, size: int, quorum: int,
                      learners: Sortition.Learners, recusals: map<string, set<string>>, appends: nat)
      returns (r: Outcome, ghost seats: seq<Seat>)
      modifies this
      ensures (State(), r) == SeatOn(old(State()), boundary, eligible, seats, size, quorum, recusals, appends)
      ensures r.Seating? ==> r.committee.seats == seats && Sortition.Drawn(eligible, learners, size, seats)
    {
      seats := [];
      if quorum < 1 { return Rejected, seats; }
      if |eligible| < quorum {
        if appends == 0 { return LedgerFailed, seats; }
        ledger := ledger + [SeatDeferred(boundary, |eligible|, quorum, Map(MotionId, Agenda(State())))];
        deferrals := deferrals + 1;
        return Deferral, seats;
      }
      var drawn, _, _ := Sortition.Draw(eligible, size, learners);
      if drawn.None? { return Rejected, seats; }
      seats := drawn.value;
      if appends == 0 { return LedgerFailed, seats; }
      r := Issue(boundary, drawn.value, quorum, recusals);
    }

    /** The committee over the motions waiting, ledgered before the book seats it. */
    method Issue(boundary: int, seats: seq<Seat>, quorum: int, recusals: map<string, set<string>>)
      returns (r: Outcome)
      modifies this
      ensures (State(), r) == Convene(old(State()), boundary, seats, quorum, recusals)
      ensures r.Seating? && r.committee.seats == seats
    {
      var b := State();
      var committee := Convened(b, boundary, seats, quorum, recusals);
      Install(committee, recusals, SeatEntry(committee, Map(MotionId, Agenda(b)), quorum, recusals));
      return Seating(committee);
    }

    method Install(committee: Committee, recusals: map<string, set<string>>, entry: Entry)
      modifies this
      ensures State() == Seatings(old(State()), committee, recusals, entry)
    {
      var agenda := Elements(committee.agenda);
      var seats := Spread(committees, agenda, SameCommittee(committee));
      var electorates := Spread(voters, agenda, VotersOn(committee, recusals));
      var boxes := Spread(ballots, agenda, NoBallots());
      ledger := ledger + [entry];
      sittings, committees, voters, ballots := sittings + 1, seats, electorates, boxes;
    }

    method Vote(round: nat, motion: string, alias: nat, vote: bool, appends: nat) returns (r: Outcome)
      modifies this
      ensures (State(), r) == VoteStep(old(State()), round, motion, alias, Some(vote), appends)
    {
      r := Record(round, motion, alias, Some(vote), appends);
    }

    method Abstain(round: nat, motion: string, alias: nat, appends: nat) returns (r: Outcome)
      modifies this
      ensures (State(), r) == VoteStep(old(State()), round, motion, alias, None, appends)
    {
      r := Record(round, motion, alias, None, appends);
    }

    method Record(round: nat, motion: string, alias: nat, vote: Option<bool>, appends: nat) returns (r: Outcome)
      modifies this
      ensures (State(), r) == VoteStep(old(State()), round, motion, alias, vote, appends)
    {
      if motion !in committees || committees[motion].round != round { return Rejected; }
      if alias !in VotersOf(State(), motion) { return Rejected; }
      var cast := BallotsOf(State(), motion);
      if alias in cast { return Rejected; }
      if motion in decided { return Rejected; }
      if appends == 0 { return LedgerFailed; }
      ledger := ledger + [Voted(motion, round, alias, vote)];
      ballots := ballots[motion := Cast(cast, alias, vote)];
      return Done;
    }

    /** The earliest passed motion still undecided, or none. */
    method FirstDue() returns (i: nat)
      ensures i <= |proposals|
      ensures i < |proposals| ==> Due(State()) != [] && Due(State())[0] == proposals[i]
      ensures i == |proposals| ==> Due(State()) == []
    {
      var b := State();
      i := 0;
      while i < |proposals|
        invariant i <= |proposals|
        invariant forall j | 0 <= j < i :: !IsDue(b, proposals[j].id)
      {
        var id := proposals[i].id;
        if id !in decided && id in committees && Tally(b, id) == Passed {
          FilterHead(proposals, (a: Amendment) => IsDue(b, a.id), i);
          return;
        }
        i := i + 1;
      }
      FilterNone(proposals, (a: Amendment) => IsDue(b, a.id));
    }

    method ActivateDue(live: map<string, Observation>, appends: nat) returns (r: Outcome)
      modifies this
      ensures (State(), r) == ActivateStep(old(State()), live, appends, true)
    {
      CloseDecided();
      var i := FirstDue();
      if i == |proposals| { return NothingDue; }
      DueHead(State());
      var a := proposals[i];
      r := Decide(a, Obstacle(edition, a, BindingsOf(State(), a.id), live), appends);
    }

    /** The motion refused for its obstacle, or the edition it makes put in force. */
    method Decide(a: Amendment, obstacle: Option<Reason>, appends: nat) returns (r: Outcome)
      requires a.id in committees
      modifies this
      ensures (State(), r) == Settle(old(State()), a, obstacle, appends)
    {
      if appends == 0 { return LedgerFailed; }
      if obstacle.Some? {
        ledger := ledger + [Refused(a.id, obstacle.value)];
        decided := decided + {a.id};
        return Refusal(a.id, obstacle.value);
      }
      var next := Amended(edition, a);
      ledger := ledger + [Activated(a.id, committees[a.id].round, next.number)];
      edition := next;
      decided := decided + {a.id};
      latest := Some((next.number, a));
      return NewEdition(next);
    }

    method ApplyNormEdition(norms: seq<string>, sequence: int, appends: nat) returns (r: Outcome)
      modifies this
      ensures (State(), r) == IssueStep(old(State()), norms, sequence, appends)
    {
      if sequence != |normEditions| + 1 || norms == [] || !Distinct(norms) { return Rejected; }
      var next := Reissued(edition, norms);
      var cards, motions := NoteNorms(norms, sequence, appends);
      if appends < 1 + |cards| + |motions| { return LedgerFailed; }
      edition := next;
      normEditions := normEditions[next.number := sequence];
      return NormEdition(next, cards, motions);
    }

    /** What a norm edition puts on the ledger, and the motions it spends. */
    method NoteNorms(norms: seq<string>, sequence: int, appends: nat) returns (cards: seq<string>, motions: seq<string>)
      modifies this`ledger, this`decided
      ensures cards == OffCards(old(edition), norms) && motions == OffMotions(old(State()), norms)
      ensures State() == Noted(old(State()), norms, sequence, appends)
    {
      cards, motions := OffCards(edition, norms), OffMotions(State(), norms);
      Note(NormsIssued(sequence, edition.number + 1, edition.number, norms), cards, motions, appends);
    }

    /** The edition's own entry, its refused cards' and its refused motions', until the ledger fails. */
    method Note(first: Entry, cards: seq<string>, motions: seq<string>, appends: nat)
      modifies this`ledger, this`decided
      ensures ledger == old(ledger) + Take([first] + CardRefusals(cards), appends)
                        + MotionRefusals(Take(motions, Room(cards, appends)))
      ensures decided == old(decided) + Elements(Take(motions, Room(cards, appends)))
    {
      if appends == 0 {
        assert Take(motions, 0) == [] && Take([first] + CardRefusals(cards), 0) == [];
        return;
      }
      ghost var before, taken := ledger, CardRefusals(Take(cards, appends - 1));
      ledger := ledger + [first];
      RefuseCards(cards, appends - 1);
      TakeFirst(first, cards, appends);
      assert ledger == before + Take([first] + CardRefusals(cards), appends) by {
        assert before + [first] + taken == before + ([first] + taken);
      }
      if appends - 1 < |cards| {
        assert Take(motions, 0) == [];
        return;
      }
      RefuseMotions(motions, appends - 1 - |cards|);
    }

    static lemma TakeFirst(first: Entry, cards: seq<string>, appends: nat)
      requires appends > 0
      ensures [first] + CardRefusals(Take(cards, appends - 1)) == Take([first] + CardRefusals(cards), appends)
    {
    }

    /** What is left of the ledger's appends after the edition's entry and its refused cards'. */
    static function Room(cards: seq<string>, appends: nat): nat {
      if appends <= 1 + |cards| then 0 else appends - 1 - |cards|
    }

    /** One entry per card, until the ledger fails. */
    method RefuseCards(cards: seq<string>, appends: nat)
      modifies this`ledger
      ensures ledger == old(ledger) + CardRefusals(Take(cards, appends))
    {
      var i := 0;
      while i < |cards| && i < appends
        invariant i <= |cards| && i <= appends
        invariant ledger == old(ledger) + CardRefusals(cards[..i])
      {
        ledger := ledger + [CardRefused(cards[i])];
        assert CardRefusals(cards[..i + 1]) == CardRefusals(cards[..i]) + [CardRefused(cards[i])];
        i := i + 1;
      }
      assert cards[..i] == Take(cards, appends);
    }

    /** One entry per motion, which it spends, until the ledger fails. */
    method RefuseMotions(motions: seq<string>, appends: nat)
      modifies this`ledger, this`decided
      ensures ledger == old(ledger) + MotionRefusals(Take(motions, appends))
      ensures decided == old(decided) + Elements(Take(motions, appends))
    {
      var i := 0;
      while i < |motions| && i < appends
        invariant i <= |motions| && i <= appends
        invariant ledger == old(ledger) + MotionRefusals(motions[..i])
        invariant decided == old(decided) + Elements(motions[..i])
      {
        ledger := ledger + [Refused(motions[i], NormRemoved)];
        decided := decided + {motions[i]};
        assert MotionRefusals(motions[..i + 1]) == MotionRefusals(motions[..i]) + [Refused(motions[i], NormRemoved)];
        assert Elements(motions[..i + 1]) == Elements(motions[..i]) + {motions[i]};
        i := i + 1;
      }
      assert motions[..i] == Take(motions, appends);
    }
  }
}
