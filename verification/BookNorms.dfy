/** What a norm edition carries over, refuses and writes, said of the edition and the motions it found. */
module BookNorms {
  import opened Options
  import opened Sequences
  import opened Charter
  import opened Books
  import opened BookProofs

  /** A motion one of whose cards names a norm that is not among these. */
  ghost predicate Strays(a: Amendment, norms: seq<string>) {
    exists c :: (c in a.replace || c in a.add) && c.norm !in norms
  }

  lemma StraysMeans(a: Amendment, norms: seq<string>)
    ensures Strays(a, norms) <==> OffNorms(a, norms)
  {
    forall c ensures c in Changed(a) <==> c in a.replace || c in a.add {}
  }

  /** The cards on norms that stay, unchanged and in the old order. */
  lemma CarriedCards(b: Book, norms: seq<string>) returns (at: seq<nat>)
    ensures
      var was, now := b.edition.cards, Reissued(b.edition, norms).cards;
      Selects(now, was, at) && forall i | 0 <= i < |was| :: i in at <==> was[i].norm in norms
  {
    at := FilterSelects(b.edition.cards, (c: Card) => c.norm in norms);
  }

  /** The ids of the others. */
  lemma RefusedCards(b: Book, norms: seq<string>) returns (at: seq<nat>)
    ensures
      var was := b.edition.cards;
      && Selects(OffCards(b.edition, norms), Map(CardId, was), at)
      && forall i | 0 <= i < |was| :: i in at <==> was[i].norm !in norms
  {
    var off := (c: Card) => c.norm !in norms;
    at := FilterSelects(b.edition.cards, off);
    MapSelects(CardId, Filter(b.edition.cards, off), b.edition.cards, at);
  }

  /** The ids of the motions still pending whose cards name a norm that goes. */
  lemma RefusedMotions(b: Book, norms: seq<string>) returns (at: seq<nat>)
    ensures
      var was := b.proposals;
      && Selects(OffMotions(b, norms), Map(MotionId, was), at)
      && forall i | 0 <= i < |was| :: i in at <==> !IsOver(b, was[i].id) && Strays(was[i], norms)
  {
    var open, off := (a: Amendment) => !IsOver(b, a.id), (a: Amendment) => OffNorms(a, norms);
    var both := (a: Amendment) => !IsOver(b, a.id) && OffNorms(a, norms);
    FilterTwice(b.proposals, open, off, both);
    at := FilterSelects(b.proposals, both);
    MapSelects(MotionId, Filter(b.proposals, both), b.proposals, at);
    forall i | 0 <= i < |b.proposals|
      ensures both(b.proposals[i]) <==> !IsOver(b, b.proposals[i].id) && Strays(b.proposals[i], norms)
    {
      StraysMeans(b.proposals[i], norms);
    }
  }

  /** The ledger's new entries: the norm edition, then each card refused, then each motion refused. */
  ghost predicate Wrote(before: seq<Entry>, after: seq<Entry>, first: Entry, cards: seq<string>, motions: seq<string>) {
    && |after| == |before| + 1 + |cards| + |motions| && before <= after && after[|before|] == first
    && (forall k | 0 <= k < |cards| :: after[|before| + 1 + k] == CardRefused(cards[k]))
    && forall k | 0 <= k < |motions| :: after[|before| + 1 + |cards| + k] == Refused(motions[k], NormRemoved)
  }

  lemma IssuedWrites(b: Book, norms: seq<string>, sequence: int, appends: nat)
    requires IssueStep(b, norms, sequence, appends).1.NormEdition?
    ensures
      var e := b.edition;
      && Wrote(b.ledger, IssueStep(b, norms, sequence, appends).0.ledger,
               NormsIssued(sequence, e.number + 1, e.number, norms), OffCards(e, norms), OffMotions(b, norms))
      && SpentBy(b, norms, sequence, appends) == OffMotions(b, norms)
  {
    IssuedTakesAll(b, norms, sequence, appends);
    EntriesFollow(b.ledger, IdleEntries(b.edition, norms, sequence),
                  NormsIssued(sequence, b.edition.number + 1, b.edition.number, norms),
                  OffCards(b.edition, norms), OffMotions(b, norms));
  }

  lemma TakeAll<T>(s: seq<T>, n: nat)
    requires n >= |s|
    ensures Take(s, n) == s
  {
    assert s[..|s|] == s;
  }

  lemma IssuedTakesAll(b: Book, norms: seq<string>, sequence: int, appends: nat)
    requires IssueStep(b, norms, sequence, appends).1.NormEdition?
    ensures SpentBy(b, norms, sequence, appends) == OffMotions(b, norms)
    ensures IssueStep(b, norms, sequence, appends).0.ledger
      == b.ledger + IdleEntries(b.edition, norms, sequence) + MotionRefusals(OffMotions(b, norms))
  {
    var idle, off := IdleEntries(b.edition, norms, sequence), OffMotions(b, norms);
    TakeAll(idle, appends);
    TakeAll(off, appends - |idle|);
  }

  lemma EntriesFollow(before: seq<Entry>, idle: seq<Entry>, first: Entry, cards: seq<string>, motions: seq<string>)
    requires idle == [first] + CardRefusals(cards)
    ensures Wrote(before, before + idle + MotionRefusals(motions), first, cards, motions)
  {
  }

  /** When a norm edition is issued: its norms are the ones given; a card is carried over, unchanged and
      in its place, exactly if its norm stays; the card ids returned are those of the others; the motions
      returned are those still pending of which some card names no norm that stays, and they are spent;
      and each refusal is in the ledger, after the edition's own entry. */
  lemma NormEditionCarries(b: Book, norms: seq<string>, sequence: int, appends: nat)
    returns (kept: seq<nat>, dropped: seq<nat>, refused: seq<nat>)
    requires IssueStep(b, norms, sequence, appends).1.NormEdition?
    ensures
      var (t, o) := IssueStep(b, norms, sequence, appends);
      var was := b.edition.cards;
      && o.edition == t.edition && t.edition.norms == norms && t.edition.number == b.edition.number + 1
      && Selects(t.edition.cards, was, kept) && (forall i | 0 <= i < |was| :: i in kept <==> was[i].norm in norms)
      && Selects(o.cards, Map(CardId, was), dropped)
      && (forall i | 0 <= i < |was| :: i in dropped <==> was[i].norm !in norms)
    ensures
      var (t, o) := IssueStep(b, norms, sequence, appends);
      && Selects(o.motions, Map(MotionId, b.proposals), refused)
      && (forall i | 0 <= i < |b.proposals| ::
            i in refused <==> !IsOver(b, b.proposals[i].id) && Strays(b.proposals[i], norms))
      && t.decided == b.decided + Elements(o.motions)
      && Wrote(b.ledger, t.ledger, NormsIssued(sequence, b.edition.number + 1, b.edition.number, norms),
               o.cards, o.motions)
  {
    kept := CarriedCards(b, norms);
    dropped := RefusedCards(b, norms);
    refused := RefusedMotions(b, norms);
    IssuedWrites(b, norms, sequence, appends);
  }

  /** And it is issued exactly when it is next in sequence, with norms and no norm twice, and the ledger
      takes an entry for it, each card refused and each motion refused. */
  lemma NormEditionIssuedExactly(b: Book, norms: seq<string>, sequence: int, appends: nat)
    returns (dropped: seq<nat>, refused: seq<nat>)
    ensures |dropped| <= |b.edition.cards|
    ensures forall i | 0 <= i < |b.edition.cards| :: i in dropped <==> b.edition.cards[i].norm !in norms
    ensures forall i | 0 <= i < |b.proposals| ::
      i in refused <==> !IsOver(b, b.proposals[i].id) && Strays(b.proposals[i], norms)
    ensures Distinct(dropped) && Distinct(refused)
    ensures IssueStep(b, norms, sequence, appends).1.NormEdition? <==>
      sequence == |b.normEditions| + 1 && norms != [] && Distinct(norms) && appends >= 1 + |dropped| + |refused|
  {
    dropped := RefusedCards(b, norms);
    refused := RefusedMotions(b, norms);
  }
}
