/** The drafting session: a sortition votes on each proposed card, and the cards that pass make a
    charter. */
module Drafting {
  import opened Options
  import opened Sequences
  import opened Charter
  import opened Seats

  /** A proposal that met the preflight: its key on the ballot and its card. */
  datatype Proposal = Proposal(key: string, card: Card)

  /** One vote as a seat's reply states it: no boolean is no vote, and no reason counts for nothing. */
  datatype Vote = Vote(proposal: string, vote: Option<bool>, reasoned: bool)

  datatype Fate = Lost | Refused | Passed(id: string)

  // ----- Ballots -----

  /** The last reasoned vote of a reply that names the proposal. */
  function BallotOf(reply: seq<Vote>, key: string): Option<bool> {
    if reply == [] then None
    else
      var v := reply[|reply| - 1];
      if v.reasoned && v.proposal == key then v.vote else BallotOf(reply[..|reply| - 1], key)
  }

  /** It is the vote of the last such entry, and none when there is no such entry. */
  lemma {:induction false} BallotIsLast(reply: seq<Vote>, key: string, i: nat)
    requires i < |reply| && reply[i].reasoned && reply[i].proposal == key
    requires forall j | i < j < |reply| :: !(reply[j].reasoned && reply[j].proposal == key)
    ensures BallotOf(reply, key) == reply[i].vote
  {
    if i < |reply| - 1 {
      BallotIsLast(reply[..|reply| - 1], key, i);
    }
  }

  lemma {:induction false} NoBallot(reply: seq<Vote>, key: string)
    requires forall v <- reply :: v.reasoned ==> v.proposal != key
    ensures BallotOf(reply, key) == None
  {
    if reply != [] {
      assert reply[|reply| - 1] in reply;
      NoBallot(reply[..|reply| - 1], key);
    }
  }

  /** The reply's votes by proposal, a later one in an earlier one's place. */
  method VotesIn(reply: seq<Vote>) returns (votes: map<string, Option<bool>>)
    ensures forall key :: BallotOf(reply, key) == if key in votes then votes[key] else None
  {
    votes := map[];
    for k := 0 to |reply|
      invariant forall key :: BallotOf(reply[..k], key) == if key in votes then votes[key] else None
    {
      assert reply[..k + 1][..k] == reply[..k];
      if reply[k].reasoned { votes := votes[reply[k].proposal := reply[k].vote]; }
    }
    assert reply[..|reply|] == reply;
  }

  /** The aliases of the seats that said yes. */
  function Yes(seats: seq<Seat>, replies: seq<seq<Vote>>, key: string): set<nat>
    requires |replies| == |seats|
  {
    set i | 0 <= i < |seats| && BallotOf(replies[i], key) == Some(true) :: seats[i].alias
  }

  predicate DistinctAliases(seats: seq<Seat>) {
    forall i, j | 0 <= i < j < |seats| :: seats[i].alias != seats[j].alias
  }

  method Ballots(seats: seq<Seat>, replies: seq<seq<Vote>>, key: string) returns (ballots: map<nat, Option<bool>>)
    requires |replies| == |seats| && DistinctAliases(seats)
    ensures ballots.Keys == set s <- seats :: s.alias
    ensures forall i | 0 <= i < |seats| :: ballots[seats[i].alias] == BallotOf(replies[i], key)
  {
    ballots := map[];
    for i := 0 to |seats|
      invariant ballots.Keys == set s <- seats[..i] :: s.alias
      invariant forall k | 0 <= k < i ::
        seats[k].alias in ballots && ballots[seats[k].alias] == BallotOf(replies[k], key)
    {
      assert seats[..i + 1] == seats[..i] + [seats[i]];
      var votes := VotesIn(replies[i]);
      ballots := ballots[seats[i].alias := if key in votes then votes[key] else None];
    }
    assert seats[..|seats|] == seats;
  }

  /** How many seats said yes. */
  method CountYes(seats: seq<Seat>, replies: seq<seq<Vote>>, key: string) returns (n: nat)
    requires |replies| == |seats| && DistinctAliases(seats)
    ensures n == |Yes(seats, replies, key)|
  {
    var ballots := Ballots(seats, replies, key);
    ghost var counted: set<nat> := {};
    n := 0;
    for i := 0 to |seats|
      invariant counted == set k | 0 <= k < i && BallotOf(replies[k], key) == Some(true) :: seats[k].alias
      invariant n == |counted|
    {
      if ballots[seats[i].alias] == Some(true) {
        assert seats[i].alias !in counted;
        counted := counted + {seats[i].alias};
        n := n + 1;
      }
    }
    assert counted == Yes(seats, replies, key);
  }

  /** More than half of the drawn seats said yes. */
  predicate Majority(seats: seq<Seat>, replies: seq<seq<Vote>>, key: string)
    requires |replies| == |seats|
  {
    2 * |Yes(seats, replies, key)| > |seats|
  }

  // ----- A free id -----

  const DIGITS := "0123456789"

  function Decimal(n: nat): (s: string)
    ensures s != ""
  {
    (if n < 10 then "" else Decimal(n / 10)) + [DIGITS[n % 10]]
  }

  function Digit(c: char): nat {
    if '0' <= c <= '9' then (c - '0') as nat else 0
  }

  function Number(s: string): nat {
    if s == "" then 0 else 10 * Number(s[..|s| - 1]) + Digit(s[|s| - 1])
  }

  lemma {:induction false} DecimalReads(n: nat)
    ensures Number(Decimal(n)) == n
  {
    var s := Decimal(n);
    assert s[..|s| - 1] == if n < 10 then "" else Decimal(n / 10);
    assert Digit(DIGITS[n % 10]) == n % 10;
    if n >= 10 {
      DecimalReads(n / 10);
    }
  }

  function Tagged(id: string, n: nat): string {
    id + "-" + Decimal(n)
  }

  lemma TagsDiffer(id: string, m: nat, n: nat)
    requires m != n
    ensures Tagged(id, m) != Tagged(id, n) && Tagged(id, m) != id
  {
    DecimalReads(m);
    DecimalReads(n);
    assert Tagged(id, m)[|id| + 1..] == Decimal(m) && Tagged(id, n)[|id| + 1..] == Decimal(n);
  }

  /** The id a name gives among those taken: itself, or with the smallest number from 2 that is free. */
  ghost predicate IsFreeId(id: string, name: string, taken: set<string>) {
    && id !in taken
    && (name !in taken ==> id == name)
    && (name in taken ==>
          exists n: nat :: n >= 2 && id == Tagged(name, n) && forall m | 2 <= m < n :: Tagged(name, m) in taken)
  }

  /** The names tried, in order: the plain one, then -2, -3 and on. */
  function Candidate(name: string, k: nat): string {
    if k == 0 then name else Tagged(name, k + 1)
  }

  lemma CandidatesDiffer(name: string, j: nat, k: nat)
    requires j < k
    ensures Candidate(name, j) != Candidate(name, k)
  {
    TagsDiffer(name, k + 1, if j == 0 then 0 else j + 1);
  }

  function FirstCandidates(name: string, k: nat): set<string> {
    if k == 0 then {} else FirstCandidates(name, k - 1) + {Candidate(name, k - 1)}
  }

  lemma {:induction false} FirstCandidatesSize(name: string, k: nat, j: nat)
    requires k <= j
    ensures |FirstCandidates(name, k)| == k && Candidate(name, j) !in FirstCandidates(name, k)
  {
    if k > 0 {
      FirstCandidatesSize(name, k - 1, k - 1);
      FirstCandidatesSize(name, k - 1, j);
      CandidatesDiffer(name, k - 1, j);
      OneMoreCandidate(FirstCandidates(name, k - 1), Candidate(name, k - 1));
    }
  }

  lemma OneMoreCandidate(names: set<string>, name: string)
    requires name !in names
    ensures |names + {name}| == |names| + 1
  {
  }

  /** Every name before this one is taken. */
  ghost predicate TriedBefore(name: string, k: nat, taken: set<string>) {
    forall j: nat | j < k :: Candidate(name, j) in taken
  }

  lemma {:induction false} TriedAreFirst(name: string, k: nat, taken: set<string>)
    requires TriedBefore(name, k, taken)
    ensures FirstCandidates(name, k) <= taken && k <= |taken|
  {
    if k > 0 {
      TriedAreFirst(name, k - 1, taken);
    }
    FirstCandidatesSize(name, k, k);
    SubsetSize(FirstCandidates(name, k), taken);
  }

  lemma FirstFreeIsIt(name: string, k: nat, taken: set<string>)
    requires TriedBefore(name, k, taken) && Candidate(name, k) !in taken
    ensures IsFreeId(Candidate(name, k), name, taken)
  {
    if k > 0 {
      assert Candidate(name, 0) in taken;
      forall m | 2 <= m < k + 1
        ensures Tagged(name, m) in taken
      {
        assert Candidate(name, m - 1) in taken;
      }
    }
  }

  /** The renaming loop ends: the names tried are all different, and only so many are taken. */
  method FreeId(name: string, taken: set<string>) returns (id: string)
    ensures IsFreeId(id, name, taken)
  {
    id := name;
    var n := 2;
    while id in taken
      invariant n >= 2 && id == Candidate(name, n - 2) && TriedBefore(name, n - 2, taken)
      decreases |taken| + 2 - n
    {
      TriedAreFirst(name, n - 1, taken);
      id, n := Tagged(name, n), n + 1;
    }
    FirstFreeIsIt(name, n - 2, taken);
  }

  // ----- The session -----

  /** What becomes of each proposal, and the cards that pass. */
  ghost predicate Decided(proposals: seq<Proposal>, seats: seq<Seat>, replies: seq<seq<Vote>>,
                          fates: seq<Fate>, passing: seq<Card>)
    requires |replies| == |seats|
    decreases |proposals|
  {
    if proposals == [] then fates == [] && passing == []
    else
      var n := |proposals| - 1;
      var p := proposals[n];
      && |fates| == |proposals|
      && match fates[n]
         case Lost => !Majority(seats, replies, p.key) && Decided(proposals[..n], seats, replies, fates[..n], passing)
         case Refused =>
           && Majority(seats, replies, p.key) && !BoundOnce(passing + [p.card])
           && Decided(proposals[..n], seats, replies, fates[..n], passing)
         case Passed(id) =>
           && passing != [] && passing[|passing| - 1] == p.card.(id := id)
           && var before := passing[..|passing| - 1];
              && Majority(seats, replies, p.key) && BoundOnce(before + [p.card])
              && IsFreeId(id, p.card.id, Ids(before))
              && Decided(proposals[..n], seats, replies, fates[..n], before)
  }

  method Draft(proposals: seq<Proposal>, seats: seq<Seat>, replies: seq<seq<Vote>>)
    returns (fates: seq<Fate>, passing: seq<Card>)
    requires |replies| == |seats| && DistinctAliases(seats)
    ensures Decided(proposals, seats, replies, fates, passing)
  {
    var threshold := |seats| / 2 + 1;
    fates, passing := [], [];
    for k := 0 to |proposals|
      invariant |fates| == k && Decided(proposals[..k], seats, replies, fates, passing)
    {
      var p := proposals[k];
      ghost var fates0, passing0 := fates, passing;
      assert proposals[..k + 1][..k] == proposals[..k];
      var yes := CountYes(seats, replies, p.key);
      if yes < threshold {
        fates := fates + [Lost];
      } else {
        var ok := ValidateBindings(passing + [p.card]);
        if !ok {
          fates := fates + [Refused];
        } else {
          var id := FreeId(p.card.id, Ids(passing));
          fates, passing := fates + [Passed(id)], passing + [p.card.(id := id)];
          assert passing[..|passing| - 1] == passing0;
        }
      }
      assert fates[..k] == fates0;
    }
    assert proposals[..|proposals|] == proposals;
  }

  // ----- A valid charter -----

  lemma RenamedBindsTheSame(before: seq<Card>, card: Card, id: string)
    requires BoundOnce(before + [card])
    ensures BoundOnce(before + [card.(id := id)])
  {
    var old_, renamed := before + [card], before + [card.(id := id)];
    forall i, j | 0 <= i < j < |renamed|
      ensures !Clash(renamed[j], renamed[i])
    {
      assert !Clash(old_[j], old_[i]);
    }
  }

  /** The card is a proposal's, under the id it passed with, and the proposal won its majority. */
  ghost predicate Won(c: Card, proposals: seq<Proposal>, seats: seq<Seat>, replies: seq<seq<Vote>>)
    requires |replies| == |seats|
  {
    exists p <- proposals :: c == p.card.(id := c.id) && Majority(seats, replies, p.key)
  }

  /** The passing cards have distinct ids, bind no observation twice for one role, and each won a
      strict majority of the drawn seats. */
  lemma {:induction false} PassingIsSound(proposals: seq<Proposal>, seats: seq<Seat>, replies: seq<seq<Vote>>,
                                          fates: seq<Fate>, passing: seq<Card>)
    requires |replies| == |seats| && Decided(proposals, seats, replies, fates, passing)
    ensures DistinctIds(passing) && BoundOnce(passing)
    ensures forall c <- passing :: Won(c, proposals, seats, replies)
  {
    if proposals != [] {
      var n := |proposals| - 1;
      var p := proposals[n];
      var before := if fates[n].Passed? then passing[..|passing| - 1] else passing;
      PassingIsSound(proposals[..n], seats, replies, fates[..n], before);
      forall c <- before
        ensures Won(c, proposals, seats, replies)
      {
        var q :| q in proposals[..n] && c == q.card.(id := c.id) && Majority(seats, replies, q.key);
        assert q in proposals;
      }
      if fates[n].Passed? {
        var card := p.card.(id := fates[n].id);
        assert passing == before + [card];
        RenamedBindsTheSame(before, p.card, card.id);
        assert p in proposals && Won(card, proposals, seats, replies);
      }
    }
  }

  /** So the charter's constructor accepts them, whatever was proposed under the charter's norms. */
  lemma DraftIsWellFormed(norms: seq<string>, proposals: seq<Proposal>, seats: seq<Seat>,
                          replies: seq<seq<Vote>>, fates: seq<Fate>, passing: seq<Card>, number: int)
    requires |replies| == |seats| && Decided(proposals, seats, replies, fates, passing)
    requires norms != [] && Distinct(norms) && number >= 1
    requires forall p <- proposals :: p.card.norm in norms
    ensures WellFormed(Edition(number, norms, passing))
  {
    PassingIsSound(proposals, seats, replies, fates, passing);
    forall c <- passing
      ensures c.norm in norms
    {
      assert Won(c, proposals, seats, replies);
    }
  }

  /** A majority is at least half the seats and one more. */
  lemma MajorityIsThreshold(seats: seq<Seat>, replies: seq<seq<Vote>>, key: string)
    requires |replies| == |seats| && DistinctAliases(seats)
    ensures Majority(seats, replies, key) <==> |Yes(seats, replies, key)| >= |seats| / 2 + 1
    ensures |Yes(seats, replies, key)| <= |seats|
  {
    var aliases := Map((s: Seat) => s.alias, seats);
    DistinctCount(aliases);
    SubsetSize(Yes(seats, replies, key), Elements(aliases));
  }

  // ----- Adoption -----

  /** An adoption ballot as recorded: whose it was, whether it was valid, what it said. */
  datatype Row = Row(assembly: string, valid: bool, adopt: bool)

  predicate CoversOnce(rows: seq<Row>, seats: seq<Seat>) {
    && Distinct(Map((r: Row) => r.assembly, rows))
    && (set r <- rows :: r.assembly) == set s <- seats :: s.assembly
  }

  function Approving(rows: seq<Row>): set<string> {
    set r <- rows | r.valid && r.adopt :: r.assembly
  }

  /** No assembly twice, and those drawn. */
  method Covered(rows: seq<Row>, seats: seq<Seat>) returns (ok: bool)
    ensures ok <==> CoversOnce(rows, seats)
  {
    ghost var names := Map((r: Row) => r.assembly, rows);
    var actual: set<string> := {};
    for i := 0 to |rows|
      invariant actual == (set r <- rows[..i] :: r.assembly) == Elements(names[..i]) && Distinct(names[..i])
    {
      assert rows[..i + 1] == rows[..i] + [rows[i]] && names[..i + 1] == names[..i] + [names[i]];
      if rows[i].assembly in actual {
        ghost var j :| 0 <= j < i && names[j] == names[i];
        return false;
      }
      actual := actual + {rows[i].assembly};
    }
    assert rows[..|rows|] == rows && names[..|rows|] == names;
    return actual == set s <- seats :: s.assembly;
  }

  /** None when the ballots do not cover each drawn seat exactly once. */
  method Approved(rows: seq<Row>, seats: seq<Seat>) returns (r: Option<bool>)
    ensures r.None? <==> !CoversOnce(rows, seats)
    ensures r.Some? ==> (r.value <==> 2 * |Approving(rows)| > |seats|)
  {
    var covered := Covered(rows, seats);
    if !covered { return None; }
    var n := 0;
    for i := 0 to |rows|
      invariant n == |Approving(rows[..i])|
    {
      assert rows[..i + 1] == rows[..i] + [rows[i]];
      if rows[i].valid && rows[i].adopt {
        assert rows[i].assembly !in Approving(rows[..i]);
        assert Approving(rows[..i + 1]) == Approving(rows[..i]) + {rows[i].assembly};
        n := n + 1;
      } else {
        assert Approving(rows[..i + 1]) == Approving(rows[..i]);
      }
    }
    assert rows[..|rows|] == rows;
    return Some(n > |seats| / 2);
  }
}
