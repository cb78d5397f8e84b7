/** Charter editions, their cards and the amendments that change them. A card keeps the fields the
    book reads; its description, units, window and region travel together in `terms`. */
module Charter {
  import opened Options
  import opened Sequences
  import opened Text

  /** `predicate@version`, the two parts apart. */
  datatype Holdout = Holdout(test: string, version: nat)

  datatype Card = Card(id: string, norm: string, observation: string, answersFor: string,
                       holdout: seq<Holdout>, terms: string)

  datatype Edition = Edition(number: int, norms: seq<string>, cards: seq<Card>)

  /** What a committee votes on behind a card: a registered observation at one version. */
  datatype Observation = Observation(id: string, version: int)

  datatype Amendment = Amendment(
    id: string, proposer: string, base: int,
    add: seq<Card>, replace: seq<Card>, remove: seq<string>,
    effect: Option<string>,            // the card a prediction names; None for an observation
    prices: seq<(string, real)>, tick: Option<string>, holdout: Option<(string, Holdout)>)

  function Changed(a: Amendment): seq<Card> { a.replace + a.add }

  const CardId := (c: Card) => c.id

  function Ids(cards: seq<Card>): set<string> {
    set c <- cards :: c.id
  }

  // ----- Cards as an ordered dictionary by id -----

  function Without(cards: seq<Card>, id: string): seq<Card> {
    Filter(cards, (c: Card) => c.id != id)
  }

  function WithoutAll(cards: seq<Card>, ids: seq<string>): seq<Card>
    decreases |ids|
  {
    if ids == [] then cards else WithoutAll(Without(cards, ids[0]), ids[1..])
  }

  /** A present id keeps its position; an absent one is appended. */
  function Put(cards: seq<Card>, card: Card): seq<Card> {
    if card.id in Ids(cards) then Map((c: Card) => if c.id == card.id then card else c, cards)
    else cards + [card]
  }

  function PutAll(cards: seq<Card>, more: seq<Card>): seq<Card>
    decreases |more|
  {
    if more == [] then cards else PutAll(Put(cards, more[0]), more[1..])
  }

  function Find(cards: seq<Card>, id: string): Option<Card> {
    var found := Filter(cards, (c: Card) => c.id == id);
    if found == [] then None else Some(found[0])
  }

  predicate DistinctIds(cards: seq<Card>) {
    forall i, j | 0 <= i < j < |cards| :: cards[i].id != cards[j].id
  }

  lemma WithoutKeepsDistinctIds(cards: seq<Card>, p: Card -> bool)
    requires DistinctIds(cards)
    ensures DistinctIds(Filter(cards, p))
  {
    if cards != [] {
      var rest, x := cards[..|cards| - 1], cards[|cards| - 1];
      WithoutKeepsDistinctIds(rest, p);
      assert forall c <- rest :: c.id != x.id;
    }
  }

  lemma {:induction false} WithoutAllShape(cards: seq<Card>, ids: seq<string>)
    requires DistinctIds(cards)
    ensures DistinctIds(WithoutAll(cards, ids))
    ensures forall c :: c in WithoutAll(cards, ids) <==> c in cards && c.id !in ids
    decreases |ids|
  {
    if ids != [] {
      WithoutKeepsDistinctIds(cards, (c: Card) => c.id != ids[0]);
      WithoutAllShape(Without(cards, ids[0]), ids[1..]);
      assert ids == [ids[0]] + ids[1..];
    }
  }

  lemma PutShape(cards: seq<Card>, card: Card)
    requires DistinctIds(cards)
    ensures DistinctIds(Put(cards, card))
    ensures forall c :: c in Put(cards, card) <==> c == card || (c in cards && c.id != card.id)
  {
    var put := Put(cards, card);
    if card.id in Ids(cards) {
      forall i | 0 <= i < |cards| ensures put[i] == if cards[i].id == card.id then card else cards[i] {}
      forall c | c in cards && c.id != card.id ensures c in put {
        var i :| 0 <= i < |cards| && cards[i] == c;
        assert put[i] == c;
      }
      var c :| c in cards && c.id == card.id;
      var i :| 0 <= i < |cards| && cards[i] == c;
      assert put[i] == card;
    } else {
      forall i | 0 <= i < |cards| ensures cards[i].id != card.id { assert cards[i] in cards; }
    }
  }

  /** A replacement keeps every position; an addition goes last. */
  lemma PutKeepsPositions(cards: seq<Card>, card: Card)
    ensures Map(CardId, Put(cards, card)) ==
            Map(CardId, cards) + (if card.id in Ids(cards) then [] else [card.id])
  {
  }

  lemma {:induction false} PutAllShape(cards: seq<Card>, more: seq<Card>)
    requires DistinctIds(cards)
    ensures DistinctIds(PutAll(cards, more))
    ensures forall c :: c in PutAll(cards, more) ==> c in cards || c in more
    ensures forall c <- cards | c.id !in Ids(more) :: c in PutAll(cards, more)
    ensures forall c <- PutAll(cards, more) | c.id in Ids(more) :: c in more
    ensures Ids(PutAll(cards, more)) == Ids(cards) + Ids(more)
    decreases |more|
  {
    if more != [] {
      PutShape(cards, more[0]);
      PutAllShape(Put(cards, more[0]), more[1..]);
      FirstAndRest(more);
      PutIds(cards, more[0]);
    }
  }

  lemma FirstAndRest(cards: seq<Card>)
    requires cards != []
    ensures forall c :: c in cards <==> c == cards[0] || c in cards[1..]
    ensures Ids(cards) == {cards[0].id} + Ids(cards[1..])
  {
    assert cards == [cards[0]] + cards[1..];
  }

  lemma PutIds(cards: seq<Card>, card: Card)
    requires DistinctIds(cards)
    ensures Ids(Put(cards, card)) == Ids(cards) + {card.id}
  {
    PutShape(cards, card);
    forall id | id in Ids(cards) ensures id in Ids(Put(cards, card)) {
      var c :| c in cards && c.id == id;
      assert c in Put(cards, card) || card.id == id;
    }
  }

  // ----- No observation is charged twice to one role -----

  /** An observation's name without surrounding blanks or case (of ASCII letters). */
  function Named(s: string): string {
    Lower(Strip(s))
  }

  predicate Clash(c: Card, d: Card) {
    && Named(c.observation) == Named(d.observation)
    && (c.answersFor == d.answersFor || c.answersFor == "all" || d.answersFor == "all")
  }

  predicate BoundOnce(cards: seq<Card>) {
    forall i, j | 0 <= i < j < |cards| :: !Clash(cards[j], cards[i])
  }

  /** validate_observation_bindings: every card against every card before it. */
  method ValidateBindings(cards: seq<Card>) returns (ok: bool)
    ensures ok <==> BoundOnce(cards)
  {
    for index := 0 to |cards|
      invariant BoundOnce(cards[..index])
    {
      for previous := 0 to index
        invariant forall i | 0 <= i < previous :: !Clash(cards[index], cards[i])
      {
        if Clash(cards[index], cards[previous]) { return false; }
      }
    }
    assert cards[..|cards|] == cards;
    return true;
  }

  /** What the constructor of an edition checks. */
  ghost predicate Constructible(e: Edition) {
    && e.number >= 1 && e.norms != [] && Distinct(e.norms)
    && DistinctIds(e.cards) && forall c <- e.cards :: c.norm in e.norms
  }

  ghost predicate WellFormed(e: Edition) {
    Constructible(e) && BoundOnce(e.cards)
  }

  /** The constructor of an edition: it starts at 1, has norms, and repeats no norm and no card id; every
      card's norm is one of them. */
  method Construct(e: Edition) returns (ok: bool)
    ensures ok <==> Constructible(e)
  {
    if e.number < 1 || |e.norms| == 0 { return false; }
    var names := {};
    for i := 0 to |e.norms|
      invariant names == Elements(e.norms[..i]) && Distinct(e.norms[..i])
    {
      if e.norms[i] in names { return false; }
      names := names + {e.norms[i]};
      assert e.norms[..i + 1] == e.norms[..i] + [e.norms[i]];
    }
    assert e.norms[..|e.norms|] == e.norms;
    var ids := {};
    for i := 0 to |e.cards|
      invariant ids == Ids(e.cards[..i]) && DistinctIds(e.cards[..i])
      invariant forall c <- e.cards[..i] :: c.norm in e.norms
    {
      if e.cards[i].id in ids || e.cards[i].norm !in e.norms { return false; }
      ids := ids + {e.cards[i].id};
      assert e.cards[..i + 1] == e.cards[..i] + [e.cards[i]];
    }
    assert e.cards[..|e.cards|] == e.cards;
    return true;
  }

  // ----- Amending an edition -----

  datatype Reason = HoldoutWithoutCard | HoldoutHeldAlready | UnknownNorm(card: string)
                  | Unpriced(card: string) | Unchanged | BoundTwice | Drifted(card: string) | NormRemoved

  datatype Appended = Appended(card: Card) | NotAppended(reason: Reason)

  /** The card with one more holdout as the edition carries it, or why not. */
  function AppendHoldout(e: Edition, id: string, entry: Holdout): Appended {
    match Find(e.cards, id)
    case None => NotAppended(HoldoutWithoutCard)
    case Some(card) =>
      if exists h <- card.holdout :: h.test == entry.test then NotAppended(HoldoutHeldAlready)
      else Appended(card.(holdout := card.holdout + [entry]))
  }

  function HoldoutOf(e: Edition, a: Amendment): Option<Appended> {
    if a.holdout.Some? then Some(AppendHoldout(e, a.holdout.value.0, a.holdout.value.1)) else None
  }

  /** The edition's cards under a frozen patch: remove, replace, add, then the holdout. */
  function Patched(e: Edition, a: Amendment): seq<Card> {
    var cards := PutAll(WithoutAll(e.cards, a.remove), Changed(a));
    match HoldoutOf(e, a)
    case Some(Appended(card)) => Put(cards, card)
    case _ => cards
  }

  predicate ChangesNothing(e: Edition, a: Amendment) {
    Patched(e, a) == e.cards && a.prices == [] && a.tick.None? && a.holdout.None?
  }

  /** A holdout appended to a card leaves its norm, its observation and its role alone. */
  lemma FoundCard(cards: seq<Card>, id: string)
    ensures Find(cards, id).Some? ==> Find(cards, id).value in cards && Find(cards, id).value.id == id
    ensures Find(cards, id).None? <==> id !in Ids(cards)
  {
    var found := Filter(cards, (c: Card) => c.id == id);
    if found != [] { assert found[0] in found; }
    if id in Ids(cards) {
      var c :| c in cards && c.id == id;
      assert c in found;
    }
  }

  /** A patch of distinct cards is a set of distinct cards, each from the edition, from the
      amendment, or the edition's own with one more holdout. */
  lemma PatchedShape(e: Edition, a: Amendment)
    requires DistinctIds(e.cards)
    ensures DistinctIds(Patched(e, a))
    ensures forall c <- Patched(e, a) ::
              || c in Changed(a)
              || exists d <- e.cards :: d.id == c.id && d.norm == c.norm
  {
    var kept := WithoutAll(e.cards, a.remove);
    WithoutAllShape(e.cards, a.remove);
    PutAllShape(kept, Changed(a));
    var cards := PutAll(kept, Changed(a));
    forall c <- cards ensures c in Changed(a) || c in e.cards {}
    if a.holdout.Some? {
      FoundCard(e.cards, a.holdout.value.0);
      match HoldoutOf(e, a)
      case Some(Appended(card)) => PutShape(cards, card);
      case _ =>
    }
  }

  lemma FirstIdApart(cards: seq<Card>)
    requires DistinctIds(cards) && cards != []
    ensures DistinctIds(cards[1..]) && cards[0].id !in Ids(cards[1..])
    ensures forall c <- cards :: c == cards[0] || c in cards[1..]
  {
    assert cards == [cards[0]] + cards[1..];
  }

  lemma {:induction false} PutAllLatestWins(cards: seq<Card>, more: seq<Card>)
    requires DistinctIds(cards) && DistinctIds(more)
    ensures forall c <- more :: c in PutAll(cards, more)
    decreases |more|
  {
    if more != [] {
      var rest := more[1..];
      PutShape(cards, more[0]);
      PutAllShape(Put(cards, more[0]), rest);
      PutAllLatestWins(Put(cards, more[0]), rest);
      FirstIdApart(more);
      forall c <- more ensures c in PutAll(cards, more) {
        if c != more[0] { assert c in rest; }
      }
    }
  }

  /** A cards motion whose ids occur once across its operations leaves exactly its own cards and the
      edition's cards that it neither removes nor replaces. */
  lemma PatchedContents(e: Edition, a: Amendment, c: Card)
    requires DistinctIds(e.cards) && DistinctIds(Changed(a)) && a.holdout.None?
    ensures c in Patched(e, a) <==>
            c in Changed(a) || (c in e.cards && c.id !in a.remove && c.id !in Ids(Changed(a)))
  {
    var kept := WithoutAll(e.cards, a.remove);
    WithoutAllShape(e.cards, a.remove);
    PutAllShape(kept, Changed(a));
    PutAllLatestWins(kept, Changed(a));
  }

  /** A holdout motion changes one card, by one more holdout, and no other. */
  lemma HoldoutContents(e: Edition, a: Amendment, c: Card)
    requires DistinctIds(e.cards) && a.holdout.Some? && Changed(a) == [] && a.remove == []
    requires HoldoutOf(e, a).value.Appended?
    ensures var id, entry := a.holdout.value.0, a.holdout.value.1;
      c in Patched(e, a) <==>
        || (c in e.cards && c.id != id)
        || exists d <- e.cards :: d.id == id && c == d.(holdout := d.holdout + [entry])
  {
    var id, entry := a.holdout.value.0, a.holdout.value.1;
    FoundCard(e.cards, id);
    var found := Find(e.cards, id).value;
    var card := HoldoutOf(e, a).value.card;
    PutShape(e.cards, card);
    assert card == found.(holdout := found.holdout + [entry]) && found in e.cards;
    forall d | d in e.cards && d.id == id ensures d == found {
      var i, j :| 0 <= i < |e.cards| && 0 <= j < |e.cards| && e.cards[i] == d && e.cards[j] == found;
    }
  }
}
