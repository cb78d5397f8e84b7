/** The charter book as a state machine: propose, seat, vote, activate, norm edition. */
module Books {
  import opened Options
  import opened Sequences
  import opened Charter
  import opened Seats

  // A call is given how many appends the ledger takes from it before failing. With `forget` the book
  // drops decided motions at each boundary, as it does; without, it is the book that keeps everything.

  /** One committee is issued per seated boundary; its round identifies it. */
  datatype Committee = Committee(boundary: int, round: nat, seats: seq<Seat>, agenda: seq<string>,
                                 deferred: seq<string>)

  /** A vote, or None for an abstention, per alias. */
  type Ballots = map<nat, Option<bool>>

  datatype Verdict = Passed | Failed | Undecided

  datatype Entry =
    | Proposed(amendment: Amendment, bindings: map<string, Observation>)
    | SeatDeferred(boundary: int, eligible: nat, quorum: int, agenda: seq<string>)
    | Seated(boundary: int, round: nat, seats: seq<Seat>, agenda: seq<string>, deferred: seq<string>,
             voters: map<string, nat>, quorum: int)
    | Voted(motion: string, round: nat, alias: nat, vote: Option<bool>)
    | Refused(motion: string, reason: Reason)
    | CardRefused(card: string)
    | Activated(motion: string, round: nat, edition: int)
    | NormsIssued(sequence: int, edition: int, base: int, norms: seq<string>)

  datatype Book = Book(
    edition: Edition,
    proposals: seq<Amendment>,
    seated: map<string, Committee>,
    ballots: map<string, Ballots>,
    decided: set<string>,
    bindings: map<string, map<string, Observation>>,
    voters: map<string, seq<nat>>,
    sittings: nat,
    deferrals: nat,
    normEditions: map<int, int>,        // edition number -> sequence
    latest: Option<(int, Amendment)>,   // the latest activation
    ledger: seq<Entry>)

  function Opened(seed: Edition): Book {
    Book(seed, [], map[], map[], {}, map[], map[], 0, 0, map[], None, [])
  }

  datatype Call =
    | Propose(amendment: Amendment, observations: map<string, Observation>, measurable: set<Card>)
    | Seat(boundary: int, eligible: map<string, string>, seats: seq<Seat>, size: int, quorum: int,
           recusals: map<string, set<string>>)
    | Vote(round: nat, motion: string, alias: nat, vote: Option<bool>)
    | ActivateDue(observations: map<string, Observation>)
    | IssueNorms(norms: seq<string>, sequence: int)

  datatype Outcome =
    | Done                                 // proposed, or voted
    | Rejected                             // a ValueError, before the ledger
    | LedgerFailed
    | Deferral
    | Seating(committee: Committee)
    | NothingDue
    | NewEdition(edition: Edition)
    | Refusal(motion: string, reason: Reason)
    | NormEdition(edition: Edition, cards: seq<string>, motions: seq<string>)

  const MotionId := (a: Amendment) => a.id

  function MotionIds(proposals: seq<Amendment>): set<string> {
    set a <- proposals :: a.id
  }

  // ----- Tally -----

  function InFavour(ballots: Ballots): set<nat> {
    set alias <- ballots | ballots[alias] == Some(true)
  }

  function Yes(ballots: Ballots): nat { |InFavour(ballots)| }

  function Threshold(voters: nat): nat { voters / 2 + 1 }

  function TallyOf(voters: seq<nat>, ballots: Ballots): Verdict {
    if Yes(ballots) >= Threshold(|voters|) then Passed
    else if Yes(ballots) + |voters| - |ballots| < Threshold(|voters|) then Failed
    else Undecided
  }

  const AliasOf := (s: Seat) => s.alias

  function VotersOf(b: Book, motion: string): seq<nat>
    requires motion in b.seated
  {
    if motion in b.voters then b.voters[motion] else Map(AliasOf, b.seated[motion].seats)
  }

  function BallotsOf(b: Book, motion: string): Ballots {
    if motion in b.ballots then b.ballots[motion] else map[]
  }

  function Tally(b: Book, motion: string): Verdict
    requires motion in b.seated
  {
    TallyOf(VotersOf(b, motion), BallotsOf(b, motion))
  }

  // ----- Readings -----

  /** Activated, refused or failed. */
  predicate IsOver(b: Book, motion: string) {
    motion in b.decided || (motion in b.seated && Tally(b, motion) == Failed)
  }

  predicate IsDue(b: Book, motion: string) {
    motion !in b.decided && motion in b.seated && Tally(b, motion) == Passed
  }

  predicate IsOpen(b: Book, motion: string) {
    motion !in b.decided && motion !in b.seated
  }

  function Pending(b: Book): seq<Amendment> {
    Filter(b.proposals, (a: Amendment) => !IsOver(b, a.id))
  }

  function Agenda(b: Book): seq<Amendment> {
    Filter(b.proposals, (a: Amendment) => IsOpen(b, a.id))
  }

  function Due(b: Book): seq<Amendment> {
    Filter(b.proposals, (a: Amendment) => IsDue(b, a.id))
  }

  function Boundaries(b: Book): nat { b.sittings + b.deferrals }

  // ----- Forgetting -----

  function Gone(b: Book): set<string> {
    set a <- b.proposals | IsOver(b, a.id) :: a.id
  }

  function Close(b: Book): Book {
    var gone := Gone(b);
    b.(proposals := Pending(b), seated := b.seated - gone, ballots := b.ballots - gone,
       bindings := b.bindings - gone, voters := b.voters - gone, decided := b.decided + gone)
  }

  function CloseIf(b: Book, forget: bool): Book { if forget then Close(b) else b }

  // ----- Propose -----

  function Bind(cards: seq<Card>, observations: map<string, Observation>): map<string, Observation> {
    if cards == [] then map[]
    else
      var c, rest := cards[|cards| - 1], Bind(cards[..|cards| - 1], observations);
      if c.observation in observations then rest[c.id := observations[c.observation]] else rest - {c.id}
  }

  predicate IsNew(b: Book, motion: string) {
    motion !in MotionIds(b.proposals) && motion !in b.decided
  }

  /** What an amendment must meet against the edition in force. */
  predicate Amends(e: Edition, a: Amendment, measurable: set<Card>) {
    var ids, resulting := Ids(e.cards), Patched(e, a);
    && a.base == e.number
    && (forall c <- Changed(a) :: c.norm in e.norms && c in measurable)
    && (forall id <- a.remove :: id in ids)
    && (forall c <- a.replace :: c.id in ids)
    && (forall c <- a.add :: c.id !in ids)
    && (forall p <- a.prices :: p.0 in ids)
    && (a.holdout.Some? ==> HoldoutOf(e, a).value.Appended?)
    && (a.effect.Some? ==> a.effect.value in ids + Ids(resulting))
    && !ChangesNothing(e, a)
    && BoundOnce(resulting)
  }

  predicate Admissible(b: Book, a: Amendment, measurable: set<Card>) {
    IsNew(b, a.id) && Amends(b.edition, a, measurable)
  }

  function ProposeStep(b: Book, a: Amendment, observations: map<string, Observation>, measurable: set<Card>,
                       appends: nat): (Book, Outcome)
  {
    if !Admissible(b, a, measurable) then (b, Rejected)
    else if appends == 0 then (b, LedgerFailed)
    else
      var bindings := Bind(b.edition.cards + Changed(a), observations);
      (b.(ledger := b.ledger + [Proposed(a, bindings)], proposals := b.proposals + [a],
          bindings := b.bindings[a.id := bindings]), Done)
  }

  // ----- Seat -----

  function Recused(recusals: map<string, set<string>>, motion: string): set<string> {
    if motion in recusals then recusals[motion] else {}
  }

  function Electorate(seats: seq<Seat>, recusals: map<string, set<string>>, motion: string): seq<nat> {
    Map(AliasOf, Filter(seats, (s: Seat) => s.assembly !in Recused(recusals, motion)))
  }

  function Spread<V>(m: map<string, V>, keys: set<string>, v: string -> V): map<string, V> {
    map k <- m.Keys + keys :: if k in keys then v(k) else m[k]
  }

  /** The committee a boundary issues over the motions waiting, with each motion's electorate. */
  function Convened(b: Book, boundary: int, seats: seq<Seat>, quorum: int,
                    recusals: map<string, set<string>>): Committee
  {
    var motions := Map(MotionId, Agenda(b));
    Committee(boundary, b.sittings + 1, seats,
              Filter(motions, (m: string) => |Electorate(seats, recusals, m)| >= quorum),
              Filter(motions, (m: string) => |Electorate(seats, recusals, m)| < quorum))
  }

  function SeatEntry(c: Committee, motions: seq<string>, quorum: int, recusals: map<string, set<string>>): Entry {
    Seated(c.boundary, c.round, c.seats, c.agenda, c.deferred,
           map m <- motions :: |Electorate(c.seats, recusals, m)|, quorum)
  }

  function SameCommittee(c: Committee): string -> Committee { m => c }

  function VotersOn(c: Committee, recusals: map<string, set<string>>): string -> seq<nat> {
    m => Electorate(c.seats, recusals, m)
  }

  function NoBallots(): string -> Ballots { m => map[] }

  /** The book with the committee seated: its motions open for votes, each with its electorate. */
  function Seatings(b: Book, c: Committee, recusals: map<string, set<string>>, e: Entry): Book {
    var agenda := Elements(c.agenda);
    b.(ledger := b.ledger + [e],
       sittings := b.sittings + 1,
       seated := Spread(b.seated, agenda, SameCommittee(c)),
       voters := Spread(b.voters, agenda, VotersOn(c, recusals)),
       ballots := Spread(b.ballots, agenda, NoBallots()))
  }

  function Convene(b: Book, boundary: int, seats: seq<Seat>, quorum: int,
                   recusals: map<string, set<string>>): (Book, Outcome)
  {
    var c := Convened(b, boundary, seats, quorum, recusals);
    (Seatings(b, c, recusals, SeatEntry(c, Map(MotionId, Agenda(b)), quorum, recusals)), Seating(c))
  }

  function Postponed(b: Book, boundary: int, eligible: nat, quorum: int): Book {
    b.(ledger := b.ledger + [SeatDeferred(boundary, eligible, quorum, Map(MotionId, Agenda(b)))],
       deferrals := b.deferrals + 1)
  }

  function SeatOn(b: Book, boundary: int, eligible: map<string, string>, seats: seq<Seat>, size: int,
                  quorum: int, recusals: map<string, set<string>>, appends: nat): (Book, Outcome)
  {
    if quorum < 1 then (b, Rejected)
    else if |eligible| < quorum then
      if appends == 0 then (b, LedgerFailed) else (Postponed(b, boundary, |eligible|, quorum), Deferral)
    else if !Drawable(eligible, size) || !DistinctSeats(seats) then (b, Rejected)
    else if appends == 0 then (b, LedgerFailed)
    else Convene(b, boundary, seats, quorum, recusals)
  }

  function SeatStep(b: Book, boundary: int, eligible: map<string, string>, seats: seq<Seat>, size: int,
                    quorum: int, recusals: map<string, set<string>>, appends: nat, forget: bool): (Book, Outcome)
  {
    if boundary < 0 || boundary != Boundaries(b) + 1 then (b, Rejected)
    else SeatOn(CloseIf(b, forget), boundary, eligible, seats, size, quorum, recusals, appends)
  }

  // ----- Vote -----

  predicate CanVote(b: Book, round: nat, motion: string, alias: nat) {
    && motion in b.seated && b.seated[motion].round == round
    && alias in VotersOf(b, motion) && alias !in BallotsOf(b, motion)
    && motion !in b.decided
  }

  function Cast(ballots: Ballots, alias: nat, vote: Option<bool>): Ballots { ballots[alias := vote] }

  function VoteStep(b: Book, round: nat, motion: string, alias: nat, vote: Option<bool>,
                    appends: nat): (Book, Outcome)
  {
    if !CanVote(b, round, motion, alias) then (b, Rejected)
    else if appends == 0 then (b, LedgerFailed)
    else (b.(ledger := b.ledger + [Voted(motion, round, alias, vote)],
             ballots := b.ballots[motion := Cast(BallotsOf(b, motion), alias, vote)]), Done)
  }

  // ----- Activate -----

  function Drifted(a: Amendment, bindings: map<string, Observation>, live: map<string, Observation>): seq<Card> {
    Filter(Changed(a), (c: Card) =>
      c.id in bindings && !(c.observation in live && live[c.observation] == bindings[c.id]))
  }

  /** Why a passed amendment cannot take effect on an edition, in the order the checks are made. */
  function Obstacle(e: Edition, a: Amendment, bindings: map<string, Observation>,
                    live: map<string, Observation>): Option<Reason>
  {
    if a.holdout.Some? && HoldoutOf(e, a).value.NotAppended? then Some(HoldoutOf(e, a).value.reason)
    else
      var cards := Patched(e, a);
      var unknown := Filter(Changed(a), (c: Card) => c.norm !in e.norms);
      var unpriced := Filter(a.prices, (p: (string, real)) => p.0 !in Ids(cards));
      if unknown != [] then Some(UnknownNorm(unknown[0].id))
      else if unpriced != [] then Some(Unpriced(unpriced[0].0))
      else if ChangesNothing(e, a) then Some(Unchanged)
      else if !BoundOnce(cards) then Some(BoundTwice)
      else if Drifted(a, bindings, live) != [] then Some(Reason.Drifted(Drifted(a, bindings, live)[0].id))
      else None
  }

  function BindingsOf(b: Book, motion: string): map<string, Observation> {
    if motion in b.bindings then b.bindings[motion] else map[]
  }

  function Amended(e: Edition, a: Amendment): Edition {
    Edition(e.number + 1, e.norms, Patched(e, a))
  }

  function Spent(b: Book, a: Amendment, reason: Reason): Book {
    b.(ledger := b.ledger + [Refused(a.id, reason)], decided := b.decided + {a.id})
  }

  function Adopted(b: Book, a: Amendment): Book
    requires a.id in b.seated
  {
    var e := Amended(b.edition, a);
    b.(ledger := b.ledger + [Activated(a.id, b.seated[a.id].round, e.number)], edition := e,
       decided := b.decided + {a.id}, latest := Some((e.number, a)))
  }

  /** The motion due, and what stands in its way if anything does. */
  function Settle(b: Book, a: Amendment, obstacle: Option<Reason>, appends: nat): (Book, Outcome)
    requires a.id in b.seated
  {
    if appends == 0 then (b, LedgerFailed)
    else
      match obstacle
      case Some(reason) => (Spent(b, a, reason), Refusal(a.id, reason))
      case None => (Adopted(b, a), NewEdition(Amended(b.edition, a)))
  }

  function ActivateOn(b: Book, live: map<string, Observation>, appends: nat): (Book, Outcome) {
    if Due(b) == [] then (b, NothingDue)
    else
      var a := Due(b)[0];
      DueHead(b);
      Settle(b, a, Obstacle(b.edition, a, BindingsOf(b, a.id), live), appends)
  }

  function ActivateStep(b: Book, live: map<string, Observation>, appends: nat, forget: bool): (Book, Outcome) {
    ActivateOn(CloseIf(b, forget), live, appends)
  }

  lemma DueHead(b: Book)
    requires Due(b) != []
    ensures Due(b)[0] in b.proposals && IsDue(b, Due(b)[0].id)
  {
    assert Due(b)[0] in Due(b);
  }

  // ----- Norm editions -----

  predicate OffNorms(a: Amendment, norms: seq<string>) {
    exists c <- Changed(a) :: c.norm !in norms
  }

  function CardRefusals(cards: seq<string>): seq<Entry> {
    Map((id: string) => CardRefused(id), cards)
  }

  function MotionRefusals(motions: seq<string>): seq<Entry> {
    Map((id: string) => Refused(id, NormRemoved), motions)
  }

  function Reissued(e: Edition, norms: seq<string>): Edition {
    Edition(e.number + 1, norms, Filter(e.cards, (c: Card) => c.norm in norms))
  }

  function OffCards(e: Edition, norms: seq<string>): seq<string> {
    Map(CardId, Filter(e.cards, (c: Card) => c.norm !in norms))
  }

  function OffMotions(b: Book, norms: seq<string>): seq<string> {
    Map(MotionId, Filter(Pending(b), (a: Amendment) => OffNorms(a, norms)))
  }

  function Take<T>(s: seq<T>, n: nat): seq<T> { if n <= |s| then s[..n] else s }

  function IdleEntries(e: Edition, norms: seq<string>, sequence: int): seq<Entry> {
    [NormsIssued(sequence, e.number + 1, e.number, norms)] + CardRefusals(OffCards(e, norms))
  }

  /** The motions whose refusal the ledger took. */
  function SpentBy(b: Book, norms: seq<string>, sequence: int, appends: nat): seq<string> {
    var idle := IdleEntries(b.edition, norms, sequence);
    Take(OffMotions(b, norms), if appends <= |idle| then 0 else appends - |idle|)
  }

  /** The edition's own entry and its refused cards' come first, then one entry per refused motion,
      which is spent as soon as its entry is in: a ledger failing on the way leaves those spent. */
  function Noted(b: Book, norms: seq<string>, sequence: int, appends: nat): Book {
    b.(ledger := b.ledger + Take(IdleEntries(b.edition, norms, sequence), appends)
                 + MotionRefusals(SpentBy(b, norms, sequence, appends)),
       decided := b.decided + Elements(SpentBy(b, norms, sequence, appends)))
  }

  lemma TakenIdle(e: Edition, norms: seq<string>, sequence: int, appends: nat)
    requires appends > 0
    ensures Take(IdleEntries(e, norms, sequence), appends)
            == [NormsIssued(sequence, e.number + 1, e.number, norms)]
               + CardRefusals(Take(OffCards(e, norms), appends - 1))
  {
  }

  function Issued(b: Book, norms: seq<string>, sequence: int): Book {
    var e := Reissued(b.edition, norms);
    b.(edition := e, normEditions := b.normEditions[e.number := sequence])
  }

  function IssueStep(b: Book, norms: seq<string>, sequence: int, appends: nat): (Book, Outcome) {
    if sequence != |b.normEditions| + 1 || norms == [] || !Distinct(norms) then (b, Rejected)
    else
      var t := Noted(b, norms, sequence, appends);
      if appends < |IdleEntries(b.edition, norms, sequence)| + |OffMotions(b, norms)| then (t, LedgerFailed)
      else (Issued(t, norms, sequence),
            NormEdition(Reissued(b.edition, norms), OffCards(b.edition, norms), OffMotions(b, norms)))
  }

  function Step(b: Book, call: Call, appends: nat, forget: bool): (Book, Outcome) {
    match call
    case Propose(a, observations, measurable) => ProposeStep(b, a, observations, measurable, appends)
    case Seat(boundary, eligible, seats, size, quorum, recusals) =>
      SeatStep(b, boundary, eligible, seats, size, quorum, recusals, appends, forget)
    case Vote(round, motion, alias, vote) => VoteStep(b, round, motion, alias, vote, appends)
    case ActivateDue(live) => ActivateStep(b, live, appends, forget)
    case IssueNorms(norms, sequence) => IssueStep(b, norms, sequence, appends)
  }

  /** Calls in order, each with the appends the ledger takes from it. */
  type Run = seq<(Call, nat)>

  function After(seed: Edition, run: Run, forget: bool): Book {
    if run == [] then Opened(seed)
    else Step(After(seed, run[..|run| - 1], forget), run[|run| - 1].0, run[|run| - 1].1, forget).0
  }

  /** What the i-th call of a run returned. */
  function OutcomeAt(seed: Edition, run: Run, forget: bool, i: nat): Outcome
    requires i < |run|
  {
    Step(After(seed, run[..i], forget), run[i].0, run[i].1, forget).1
  }
}
