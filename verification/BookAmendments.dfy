/** What a motion must meet to be proposed, and to take effect: said of the cards, the edition and the
    observations, whatever the book remembers of them. */
module BookAmendments {
  import opened Options
  import opened Sequences
  import opened Text
  import opened Charter
  import opened Books
  import opened BookProofs

  // ----- One observation, one role -----

  /** The role answers for the card. */
  predicate Answers(c: Card, role: string) {
    c.answersFor == role || c.answersFor == "all"
  }

  /** Some role answers for both cards, and both name one observation, blanks and case aside. */
  ghost predicate ChargedTwice(c: Card, d: Card) {
    && Lower(Strip(c.observation)) == Lower(Strip(d.observation))
    && exists role: string :: Answers(c, role) && Answers(d, role)
  }

  ghost predicate NoneChargedTwice(cards: seq<Card>) {
    forall i, j | 0 <= i < j < |cards| :: !ChargedTwice(cards[i], cards[j])
  }

  lemma ClashMeans(c: Card, d: Card)
    ensures Clash(d, c) <==> ChargedTwice(c, d)
  {
    if c.answersFor == d.answersFor || d.answersFor == "all" {
      assert Answers(c, c.answersFor) && Answers(d, c.answersFor);
    } else if c.answersFor == "all" {
      assert Answers(c, d.answersFor) && Answers(d, d.answersFor);
    }
  }

  lemma BoundOnceMeans(cards: seq<Card>)
    ensures BoundOnce(cards) <==> NoneChargedTwice(cards)
  {
    forall i, j | 0 <= i < j < |cards|
      ensures Clash(cards[j], cards[i]) <==> ChargedTwice(cards[i], cards[j])
    {
      ClashMeans(cards[i], cards[j]);
    }
  }

  // ----- Holdouts -----

  /** The edition has the card a holdout names, without a holdout of that predicate. */
  ghost predicate Appendable(e: Edition, a: Amendment) {
    a.holdout.Some? ==>
      exists c :: c in e.cards && c.id == a.holdout.value.0 && forall h <- c.holdout :: h.test != a.holdout.value.1.test
  }

  lemma AppendableMeans(e: Edition, a: Amendment)
    requires DistinctIds(e.cards)
    ensures Appendable(e, a) <==> (a.holdout.Some? ==> HoldoutOf(e, a).value.Appended?)
  {
    if a.holdout.Some? {
      FoundCard(e.cards, a.holdout.value.0);
      OneById(e.cards, a.holdout.value.0);
    }
  }

  lemma OneById(cards: seq<Card>, id: string)
    requires DistinctIds(cards)
    ensures forall c, d :: c in cards && d in cards && c.id == id && d.id == id ==> c == d
  {
    forall c, d | c in cards && d in cards && c.id == id && d.id == id ensures c == d {
      var i, j :| 0 <= i < |cards| && 0 <= j < |cards| && cards[i] == c && cards[j] == d;
    }
  }

  // ----- Observations -----

  /** The cards a motion adds or replaces. */
  ghost predicate Touches(a: Amendment, c: Card) {
    c in a.replace || c in a.add
  }

  /** What its constructor checks of the cards: one id, one card. */
  predicate OnePerId(a: Amendment) {
    DistinctIds(a.replace + a.add)
  }

  /** Every observation the motion's cards name that was registered then is registered now, as it was. */
  ghost predicate Unmoved(a: Amendment, before: map<string, Observation>, now: map<string, Observation>) {
    forall c | Touches(a, c) && c.observation in before ::
      c.observation in now && now[c.observation] == before[c.observation]
  }

  lemma {:induction false} LastBinds(cards: seq<Card>, observations: map<string, Observation>, k: nat)
    requires k < |cards| && forall j | k < j < |cards| :: cards[j].id != cards[k].id
    ensures
      var id, name, bound := cards[k].id, cards[k].observation, Bind(cards, observations);
      (id in bound <==> name in observations) && (id in bound ==> bound[id] == observations[name])
  {
    var n := |cards| - 1;
    if k < n {
      assert cards[..n][k] == cards[k];
      LastBinds(cards[..n], observations, k);
    }
  }

  lemma TouchedBinds(cards: seq<Card>, a: Amendment, observations: map<string, Observation>, c: Card)
    requires OnePerId(a) && Touches(a, c)
    ensures
      var bound := Bind(cards + Changed(a), observations);
      && (c.id in bound <==> c.observation in observations)
      && (c.id in bound ==> bound[c.id] == observations[c.observation])
  {
    assert c in a.replace + a.add;
    var i :| 0 <= i < |a.replace + a.add| && (a.replace + a.add)[i] == c;
    assert (cards + Changed(a))[|cards| + i] == c;
    forall j | |cards| + i < j < |cards + Changed(a)| ensures (cards + Changed(a))[j].id != c.id {
      assert (cards + Changed(a))[j] == (a.replace + a.add)[j - |cards|];
    }
    LastBinds(cards + Changed(a), observations, |cards| + i);
  }

  lemma DriftMeans(cards: seq<Card>, a: Amendment, before: map<string, Observation>, now: map<string, Observation>)
    requires OnePerId(a)
    ensures Books.Drifted(a, Bind(cards + Changed(a), before), now) == [] <==> Unmoved(a, before, now)
  {
    var bound := Bind(cards + Changed(a), before);
    forall c | Touches(a, c)
      ensures c in Changed(a)
      ensures c in Books.Drifted(a, bound, now) <==>
        c.observation in before && !(c.observation in now && now[c.observation] == before[c.observation])
    {
      TouchedBinds(cards, a, before, c);
    }
    if Books.Drifted(a, bound, now) != [] {
      var c := Books.Drifted(a, bound, now)[0];
      assert c in Books.Drifted(a, bound, now) && Touches(a, c);
    }
  }

  // ----- Taking effect -----

  /** Nothing stands in the motion's way. */
  ghost predicate TakesEffect(e: Edition, a: Amendment, before: map<string, Observation>,
                              now: map<string, Observation>)
  {
    var cards := Patched(e, a);
    && (forall c | Touches(a, c) :: c.norm in e.norms)
    && (forall p <- a.prices :: exists c <- cards :: c.id == p.0)
    && Appendable(e, a)
    && (cards != e.cards || a.prices != [] || a.tick.Some? || a.holdout.Some?)
    && NoneChargedTwice(cards)
    && Unmoved(a, before, now)
  }

  lemma ObstacleMeans(e: Edition, a: Amendment, cards: seq<Card>, before: map<string, Observation>,
                      now: map<string, Observation>)
    requires DistinctIds(e.cards) && OnePerId(a)
    ensures Obstacle(e, a, Bind(cards + Changed(a), before), now).None? <==> TakesEffect(e, a, before, now)
  {
    AppendableMeans(e, a);
    BoundOnceMeans(Patched(e, a));
    DriftMeans(cards, a, before, now);
    NormsMean(e, a);
    PricesMean(a, Patched(e, a));
  }

  lemma NormsMean(e: Edition, a: Amendment)
    ensures Filter(Changed(a), (c: Card) => c.norm !in e.norms) == []
       <==> forall c | Touches(a, c) :: c.norm in e.norms
  {
    var _ := FilterFirst(Changed(a), (c: Card) => c.norm !in e.norms);
    forall c ensures c in Changed(a) <==> Touches(a, c) {}
  }

  lemma PricesMean(a: Amendment, cards: seq<Card>)
    ensures Filter(a.prices, (p: (string, real)) => p.0 !in Ids(cards)) == []
       <==> forall p <- a.prices :: exists c <- cards :: c.id == p.0
  {
    var _ := FilterFirst(a.prices, (p: (string, real)) => p.0 !in Ids(cards));
    forall p <- a.prices ensures p.0 in Ids(cards) <==> exists c <- cards :: c.id == p.0 {}
  }

  // ----- Proposing -----

  /** What the source asks of a proposal. */
  ghost predicate Proposable(e: Edition, a: Amendment, measurable: set<Card>) {
    var cards := Patched(e, a);
    && a.base == e.number
    && (forall c | Touches(a, c) :: c.norm in e.norms && c in measurable)
    && (forall id <- a.remove :: exists d <- e.cards :: d.id == id)
    && (forall c <- a.replace :: exists d <- e.cards :: d.id == c.id)
    && (forall c <- a.add :: forall d <- e.cards :: d.id != c.id)
    && (forall p <- a.prices :: exists d <- e.cards :: d.id == p.0)
    && Appendable(e, a)
    && (a.effect.Some? ==> exists d :: (d in e.cards || d in cards) && d.id == a.effect.value)
    && (cards != e.cards || a.prices != [] || a.tick.Some? || a.holdout.Some?)
    && NoneChargedTwice(cards)
  }

  lemma AmendsMeans(e: Edition, a: Amendment, measurable: set<Card>)
    requires DistinctIds(e.cards)
    ensures Amends(e, a, measurable) <==> Proposable(e, a, measurable)
  {
    var cards := Patched(e, a);
    AppendableMeans(e, a);
    BoundOnceMeans(cards);
    forall c ensures c in Changed(a) <==> Touches(a, c) {}
    forall id: string
      ensures id in Ids(e.cards) <==> exists d <- e.cards :: d.id == id
      ensures id in Ids(e.cards) + Ids(cards) <==> exists d :: (d in e.cards || d in cards) && d.id == id
    {
      if id in Ids(e.cards) {
        var d :| d in e.cards && d.id == id;
        assert d in e.cards || d in cards;
      } else if id in Ids(cards) {
        var d :| d in cards && d.id == id;
        assert d in e.cards || d in cards;
      }
    }
  }

  /** A proposal goes through exactly when its id is new to the book, it is made on the edition in force
      and meets all the source asks of it, and the ledger takes it; and then it is the last pending. */
  lemma ProposedExactly(b: Book, a: Amendment, observations: map<string, Observation>, measurable: set<Card>,
                        appends: nat)
    requires DistinctIds(b.edition.cards)
    ensures
      var (t, o) := ProposeStep(b, a, observations, measurable, appends);
      && (o == Done <==> appends > 0 && Proposable(b.edition, a, measurable) && a.id !in b.decided
                         && forall p <- b.proposals :: p.id != a.id)
      && (o == Done ==> t.proposals == b.proposals + [a] && t.edition == b.edition && t.decided == b.decided)
      && (o != Done ==> t == b)
  {
    AmendsMeans(b.edition, a, measurable);
  }
}
