/** What every run of the controller keeps, and that its ledger alone replays every price and count. */
module ControllerProofs {
  import opened Options
  import opened PriceLaw
  import opened PriceProofs
  import opened Controller

  // ----- Runs -----

  type Run = seq<(Call, bool)>

  function After(c: State, run: Run): State {
    if run == [] then c
    else Step(After(c, run[..|run| - 1]), run[|run| - 1].0, run[|run| - 1].1).0
  }

  // ----- The ledger, read on its own -----

  /** The price an entry leaves its card at, when the entry moves it. */
  function PriceLeft(e: Entry): Option<real> {
    match e
    case Registered(_) => Some(0.0)
    case Proposed(_, _, after) => Some(after)
    case RatchetRaised(_, _, _, _, _, after) => Some(after)
    case Restarted(_, _, _, _, _, after) => Some(after)
    case Removed(_, _) => Some(0.0)
    case Updated(_, _, _, _, _, after, _, _, _, _, _, _, _, _, _, _) => Some(after)
    case _ => None
  }

  /** The price an entry says its card had. */
  function PriceFound(e: Entry): Option<real> {
    match e
    case Proposed(_, before, _) => Some(before)
    case RatchetSaturated(_, _, _, price, _, _, _, _) => Some(price)
    case RatchetRaised(_, _, _, _, before, _) => Some(before)
    case Restarted(_, _, _, before, _, _) => Some(before)
    case Removed(_, before) => Some(before)
    case Updated(_, _, _, _, before, _, _, _, _, _, _, _, _, _, _, _) => Some(before)
    case _ => None
  }

  function Replay(ledger: seq<Entry>, card: string): real {
    if ledger == [] then 0.0
    else
      var e := ledger[|ledger| - 1];
      if e.card == card && PriceLeft(e).Some? then PriceLeft(e).value
      else Replay(ledger[..|ledger| - 1], card)
  }

  /** A card's updates since it was last removed. */
  function Updates(ledger: seq<Entry>, card: string): seq<Entry> {
    if ledger == [] then []
    else
      var e, before := ledger[|ledger| - 1], Updates(ledger[..|ledger| - 1], card);
      if e.card != card then before
      else if e.Removed? then []
      else if e.Updated? then before + [e]
      else before
  }

  /** A card's updates since it was last removed or redefined. */
  function Recent(ledger: seq<Entry>, card: string): seq<Entry> {
    if ledger == [] then []
    else
      var e, before := ledger[|ledger| - 1], Recent(ledger[..|ledger| - 1], card);
      if e.card != card then before
      else if e.Removed? || e.Restarted? then []
      else if e.Updated? then before + [e]
      else before
  }

  function Count(es: seq<Entry>, p: Entry -> bool): nat {
    if es == [] then 0
    else Count(es[..|es| - 1], p) + (if p(es[|es| - 1]) then 1 else 0)
  }

  /** How many entries at the end of the list satisfy p without a gap. */
  function TrailingRun(es: seq<Entry>, p: Entry -> bool): nat {
    if es == [] || !p(es[|es| - 1]) then 0 else TrailingRun(es[..|es| - 1], p) + 1
  }

  const IsSaturated := (e: Entry) => e.Updated? && e.saturated
  const IsAtCap := (e: Entry) => e.Updated? && e.atCap
  const IsViolating := (e: Entry) => e.Updated? && e.violation > 0.0

  function Move(e: Entry): real {
    if e.Updated? then AbsR(e.after - e.before) else 0.0
  }

  predicate IsLargestMove(es: seq<Entry>, m: real) {
    (forall e <- es :: Move(e) <= m) && (m == 0.0 || exists e <- es :: Move(e) == m)
  }

  /** Neighbouring updates are at least `separation` events apart. */
  predicate Spaced(es: seq<Entry>, separation: int) {
    if |es| < 2 then true
    else
      var e, f := es[|es| - 2], es[|es| - 1];
      Spaced(es[..|es| - 1], separation) && e.Updated? && f.Updated? && e.window + separation <= f.window
  }

  // ----- The two invariants -----

  /** What one update entry says of the law, whatever feed-forward it took: the price it leaves is
      between its integral (or its bound) and its bound, and every flag follows from its numbers. */
  predicate EntryOk(cap: real, e: Entry) {
    e.Updated? ==>
      && e.before >= 0.0 && e.after >= 0.0 && e.violation >= 0.0
      && e.bound == Bound(cap, e.violation)
      && (if e.violation > 0.0 then MinR(cap / e.violation, e.terms.i) <= e.after <= cap / e.violation
          else e.after == e.terms.i)
      && e.frozen == OwnBound(cap, e.before, e.violation)
      && e.atCap == Presses(cap, e.after, e.violation, if e.pressure.Some? then e.pressure.value else 0.0)
      && (e.terms.f.Some? ==> e.violation > 0.0 && e.terms.p + e.terms.f.value >= 0.0)
  }

  ghost predicate Sound(c: State) {
    && c.par.Valid()
    && (forall card <- c.cards :: CardOk(c.par.cap, c.cards[card]))
    && (forall e <- c.ledger :: EntryOk(c.par.cap, e))
  }

  /** Between a redefinition or removal and the next, accepted windows are the declared number of
      events apart; the card's clock stands at the last of them. */
  ghost predicate CadenceOk(s: CardState, ledger: seq<Entry>, card: string, separation: int) {
    var recent := Recent(ledger, card);
    && Spaced(recent, separation)
    && (recent != [] ==> recent[|recent| - 1].Updated? && s.lastWindow == Some(recent[|recent| - 1].window))
  }

  ghost predicate CardReplays(s: CardState, ledger: seq<Entry>, card: string) {
    var all, recent := Updates(ledger, card), Recent(ledger, card);
    && s.price == Replay(ledger, card)
    && s.updates == |all|
    && s.saturations == Count(all, IsSaturated)
    && IsLargestMove(all, s.maxStep)
    && s.atBound == Count(all, IsAtCap)
    && s.saturatedRun == TrailingRun(recent, IsAtCap)
    && s.violationRun == TrailingRun(recent, IsViolating)
  }

  ghost predicate Replays(c: State) {
    && (forall card <- c.cards :: CardReplays(c.cards[card], c.ledger, card))
    && (forall card: string | card !in c.cards ::
          Replay(c.ledger, card) == 0.0 && Updates(c.ledger, card) == [] && Recent(c.ledger, card) == [])
  }

  ghost predicate Paced(c: State) {
    forall card <- c.cards :: CadenceOk(c.cards[card], c.ledger, card, c.par.separation)
  }

  /** Every price an entry says it found is the price the entries before it replay to. */
  ghost predicate Chains(ledger: seq<Entry>) {
    forall i | 0 <= i < |ledger| && PriceFound(ledger[i]).Some? ::
      PriceFound(ledger[i]).value == Replay(ledger[..i], ledger[i].card)
  }

  // ----- Steps keep them -----

  lemma UpdateEntryOk(par: Params, card: string, s: CardState, r: Reading)
    requires par.Valid() && CardOk(par.cap, s) && r.holdout >= 0.0
    ensures EntryOk(par.cap, UpdateEntry(par, card, s, r))
  {
    var t, e := Observed(par, s, r), UpdateEntry(par, card, s, r);
    ObservedOk(par, s, r);
    assert e.after == t.price && e.terms.i == t.integral && e.violation == t.violation;
    ForecastTerm(par, s, r);
  }

  lemma ForecastTerm(par: Params, s: CardState, r: Reading)
    requires par.Valid() && r.holdout >= 0.0
    ensures var t := LawOf(par, s, r); t.f.Some? ==> Violated(s, r) > 0.0 && t.p + t.f.value >= 0.0
  {
    FeedForwardKeepsFloor(par, Violated(s, r), if r.anticipated.Some? then r.anticipated.value else 0.0);
  }

  lemma StepSound(c: State, call: Call, accepts: bool)
    requires Sound(c)
    ensures Sound(Step(c, call, accepts).0)
  {
    match call
    case SetPrice(card, price) =>
      if card in c.cards && price >= 0.0 { AdoptedOk(c.par, c.cards[card], price); }
    case Ratchet(card, window, step) =>
      if card in c.cards && step > 0.0 { RatchetedOk(c.par, c.cards[card], step); }
    case Redefine(card, windowEnd) =>
      if card in c.cards { RedefinedOk(c.par, c.cards[card], windowEnd); }
    case Observe(card, r) => ObserveSound(c, card, r, accepts);
    case _ =>
  }

  lemma ObserveSound(c: State, card: string, r: Reading, accepts: bool)
    requires Sound(c)
    ensures Sound(ObserveStep(c, card, r, accepts).0)
  {
    if GoodReading(r) && card in c.cards {
      ObservedOk(c.par, c.cards[card], r);
      UpdateEntryOk(c.par, card, c.cards[card], r);
    }
  }

  lemma Appended(ledger: seq<Entry>, e: Entry)
    ensures (ledger + [e])[..|ledger + [e]| - 1] == ledger
    ensures (ledger + [e])[|ledger + [e]| - 1] == e
  {
  }

  /** An entry about one card leaves what the ledger says of every other card alone. */
  lemma OtherCardsUntouched(ledger: seq<Entry>, e: Entry, card: string)
    requires e.card != card
    ensures Replay(ledger + [e], card) == Replay(ledger, card)
    ensures Updates(ledger + [e], card) == Updates(ledger, card)
    ensures Recent(ledger + [e], card) == Recent(ledger, card)
  {
    Appended(ledger, e);
  }

  /** An entry that is no update moves the price as it says and the counts not at all, but that a
      redefinition ends the runs. */
  lemma QuietEntryReplays(s: CardState, t: CardState, ledger: seq<Entry>, e: Entry)
    requires CardReplays(s, ledger, e.card) && !e.Updated? && !e.Removed?
    requires t.price == if PriceLeft(e).Some? then PriceLeft(e).value else s.price
    requires t.updates == s.updates && t.saturations == s.saturations
    requires t.maxStep == s.maxStep && t.atBound == s.atBound
    requires t.saturatedRun == if e.Restarted? then 0 else s.saturatedRun
    requires t.violationRun == if e.Restarted? then 0 else s.violationRun
    ensures CardReplays(t, ledger + [e], e.card)
  {
    Appended(ledger, e);
  }

  lemma UpdateAppends(ledger: seq<Entry>, e: Entry)
    requires e.Updated?
    ensures Replay(ledger + [e], e.card) == e.after
    ensures Updates(ledger + [e], e.card) == Updates(ledger, e.card) + [e]
    ensures Recent(ledger + [e], e.card) == Recent(ledger, e.card) + [e]
  {
    Appended(ledger, e);
  }

  lemma UpdateReplays(s: CardState, t: CardState, ledger: seq<Entry>, e: Entry)
    requires CardReplays(s, ledger, e.card) && e.Updated?
    requires t.price == e.after
    requires t.updates == s.updates + 1
    requires t.saturations == s.saturations + (if e.saturated then 1 else 0)
    requires t.maxStep == MaxR(s.maxStep, AbsR(e.after - e.before))
    requires t.atBound == s.atBound + (if e.atCap then 1 else 0)
    requires t.saturatedRun == if e.atCap then s.saturatedRun + 1 else 0
    requires t.violationRun == if e.violation > 0.0 then s.violationRun + 1 else 0
    ensures CardReplays(t, ledger + [e], e.card)
  {
    UpdateAppends(ledger, e);
    LargestMoveGrows(Updates(ledger, e.card), e, s.maxStep);
  }

  lemma FreshReplays(ledger: seq<Entry>, card: string, region: Option<CardRegion>)
    requires Replay(ledger, card) == 0.0 && Updates(ledger, card) == [] && Recent(ledger, card) == []
    ensures CardReplays(Fresh(region), ledger, card)
  {
  }

  lemma OwnCardReplays(c: State, call: Call)
    requires Replays(c) && c.par.Valid() && !call.SetDecay?
    ensures var t := Step(c, call, true).0;
      call.card in t.cards ==> CardReplays(t.cards[call.card], t.ledger, call.card)
  {
    if call.Observe? {
      ObservedReplays(c, call.card, call.reading);
    } else {
      QuietCallReplays(c, call);
    }
  }

  lemma ObservedReplays(c: State, card: string, r: Reading)
    requires Replays(c) && c.par.Valid()
    ensures var t := ObserveStep(c, card, r, true).0;
      card in t.cards ==> CardReplays(t.cards[card], t.ledger, card)
  {
    if GoodReading(r) && card in c.cards {
      var s := c.cards[card];
      if TooSoon(c.par, s, r.window) {
        QuietEntryReplays(s, s, c.ledger, Skipped(card, r.value, r.window, s.lastWindow.value, c.par.separation));
      } else {
        UpdateReplays(s, Observed(c.par, s, r), c.ledger, UpdateEntry(c.par, card, s, r));
      }
    }
  }

  lemma QuietCallReplays(c: State, call: Call)
    requires Replays(c) && c.par.Valid() && !call.SetDecay? && !call.Observe?
    ensures var t := Step(c, call, true).0;
      call.card in t.cards ==> CardReplays(t.cards[call.card], t.ledger, call.card)
  {
    var t, card := Step(c, call, true).0, call.card;
    if t.ledger == c.ledger {
      if card !in c.cards && card in t.cards { FreshReplays(c.ledger, card, t.cards[card].region); }
    } else if card in t.cards {
      var e := t.ledger[|t.ledger| - 1];
      assert t.ledger == c.ledger + [e] && e.card == card;
      if card in c.cards {
        QuietEntryReplays(c.cards[card], t.cards[card], c.ledger, e);
      } else {
        FreshReplays(c.ledger, card, None);
        QuietEntryReplays(Fresh(None), t.cards[card], c.ledger, e);
      }
    }
  }

  lemma LargestMoveGrows(es: seq<Entry>, e: Entry, m: real)
    requires IsLargestMove(es, m)
    ensures IsLargestMove(es + [e], MaxR(m, Move(e)))
  {
    var all := es + [e];
    assert e in all;
    if m >= Move(e) && m != 0.0 {
      var w :| w in es && Move(w) == m;
      assert w in all;
    }
  }

  /** A call appends at most one entry, about its own card; without an accepted append it changes
      nothing but an unledgered region, a fresh registration or the decay. */
  lemma StepFrame(c: State, call: Call, accepts: bool)
    ensures var (t, r) := Step(c, call, accepts);
      && (t.ledger == c.ledger || (|t.ledger| == |c.ledger| + 1 && t.ledger == c.ledger + [t.ledger[|c.ledger|]]
                                   && !call.SetDecay? && t.ledger[|c.ledger|].card == call.card))
      && (call.SetDecay? ==> t.cards == c.cards)
      && (!call.SetDecay? ==> t.par == c.par)
      && (!call.SetDecay? ==> forall card | card != call.card ::
            (card in t.cards <==> card in c.cards) && (card in c.cards ==> t.cards[card] == c.cards[card]))
  {
  }

  lemma StepReplaysCard(c: State, call: Call, accepts: bool, t: State, card: string)
    requires Sound(c) && Replays(c) && !call.SetDecay?
    requires t == Step(c, call, accepts).0 && (accepts || t != c)
    ensures card in t.cards ==> CardReplays(t.cards[card], t.ledger, card)
    ensures card !in t.cards ==>
      Replay(t.ledger, card) == 0.0 && Updates(t.ledger, card) == [] && Recent(t.ledger, card) == []
  {
    if card == call.card {
      TakenStep(c, call, accepts);
      OwnCardReplays(c, call);
      if card !in t.cards { OwnCardGone(c, call); }
    } else {
      OtherCardReplays(c, call, accepts, t, card);
    }
  }

  /** A call that changed something went as if its append were accepted. */
  lemma TakenStep(c: State, call: Call, accepts: bool)
    requires accepts || Step(c, call, accepts).0 != c
    ensures Step(c, call, accepts).0 == Step(c, call, true).0
  {
  }

  /** A card not registered after its own call replays to nothing. */
  lemma OwnCardGone(c: State, call: Call)
    requires Replays(c) && !call.SetDecay? && call.card !in Step(c, call, true).0.cards
    ensures
      var ledger := Step(c, call, true).0.ledger;
      && Replay(ledger, call.card) == 0.0 && Updates(ledger, call.card) == [] && Recent(ledger, call.card) == []
  {
    GoneByRemoval(c, call);
    if call.card in c.cards { RemovalClears(c.ledger, Removed(call.card, c.cards[call.card].price)); }
  }

  lemma GoneByRemoval(c: State, call: Call)
    requires !call.SetDecay? && call.card !in Step(c, call, true).0.cards
    ensures Step(c, call, true).0.ledger
      == if call.card in c.cards then c.ledger + [Removed(call.card, c.cards[call.card].price)] else c.ledger
  {
  }

  lemma RemovalClears(ledger: seq<Entry>, e: Entry)
    requires e.Removed?
    ensures Replay(ledger + [e], e.card) == 0.0
    ensures Updates(ledger + [e], e.card) == [] && Recent(ledger + [e], e.card) == []
  {
    Appended(ledger, e);
  }

  lemma OtherCardReplays(c: State, call: Call, accepts: bool, t: State, card: string)
    requires Replays(c) && !call.SetDecay? && t == Step(c, call, accepts).0 && card != call.card
    ensures card in t.cards ==> CardReplays(t.cards[card], t.ledger, card)
    ensures card !in t.cards ==>
      Replay(t.ledger, card) == 0.0 && Updates(t.ledger, card) == [] && Recent(t.ledger, card) == []
  {
    StepFrame(c, call, accepts);
    if t.ledger != c.ledger {
      OtherCardsUntouched(c.ledger, t.ledger[|c.ledger|], card);
    }
  }

  lemma StepReplays(c: State, call: Call, accepts: bool)
    requires Sound(c) && Replays(c)
    ensures Replays(Step(c, call, accepts).0)
  {
    var t := Step(c, call, accepts).0;
    StepFrame(c, call, accepts);
    if !call.SetDecay? && (accepts || t != c) {
      forall card: string
        ensures card in t.cards ==> CardReplays(t.cards[card], t.ledger, card)
        ensures card !in t.cards ==>
          Replay(t.ledger, card) == 0.0 && Updates(t.ledger, card) == [] && Recent(t.ledger, card) == []
      {
        StepReplaysCard(c, call, accepts, t, card);
      }
    }
  }

  lemma EntryPaced(s: CardState, t: CardState, ledger: seq<Entry>, e: Entry, separation: int)
    requires CadenceOk(s, ledger, e.card, separation)
    requires if e.Updated? then t.lastWindow == Some(e.window)
                                && (s.lastWindow.Some? ==> s.lastWindow.value + separation <= e.window)
             else e.Restarted? || e.Removed? || t.lastWindow == s.lastWindow
    ensures CadenceOk(t, ledger + [e], e.card, separation)
  {
    Appended(ledger, e);
    Appended(Recent(ledger, e.card), e);
  }

  lemma OwnCardPaced(c: State, call: Call)
    requires Replays(c) && Paced(c) && !call.SetDecay?
    ensures var t := Step(c, call, true).0;
      call.card in t.cards ==> CadenceOk(t.cards[call.card], t.ledger, call.card, c.par.separation)
  {
    var t, card := Step(c, call, true).0, call.card;
    if t.ledger != c.ledger && card in t.cards {
      var e := t.ledger[|c.ledger|];
      StepFrame(c, call, true);
      if card in c.cards {
        EntryPaced(c.cards[card], t.cards[card], c.ledger, e, c.par.separation);
      } else {
        EntryPaced(Fresh(None), t.cards[card], c.ledger, e, c.par.separation);
      }
    }
  }

  lemma StepPaced(c: State, call: Call, accepts: bool)
    requires Replays(c) && Paced(c)
    ensures Paced(Step(c, call, accepts).0)
  {
    var t := Step(c, call, accepts).0;
    StepFrame(c, call, accepts);
    if !call.SetDecay? && (accepts || t != c) {
      forall card <- t.cards ensures CadenceOk(t.cards[card], t.ledger, card, c.par.separation) {
        if card == call.card {
          assert t == Step(c, call, true).0;
          OwnCardPaced(c, call);
        } else {
          OtherCardPaced(c, call, accepts, card);
        }
      }
    }
  }

  lemma OtherCardPaced(c: State, call: Call, accepts: bool, card: string)
    requires Paced(c) && !call.SetDecay? && card != call.card && card in Step(c, call, accepts).0.cards
    ensures var t := Step(c, call, accepts).0; CadenceOk(t.cards[card], t.ledger, card, c.par.separation)
  {
    var t := Step(c, call, accepts).0;
    StepFrame(c, call, accepts);
    if t.ledger != c.ledger {
      OtherCardsUntouched(c.ledger, t.ledger[|c.ledger|], card);
    }
  }

  lemma AppendChains(ledger: seq<Entry>, e: Entry)
    requires Chains(ledger)
    requires PriceFound(e).Some? ==> PriceFound(e).value == Replay(ledger, e.card)
    ensures Chains(ledger + [e])
  {
    var more := ledger + [e];
    forall i | 0 <= i < |ledger| ensures more[..i] == ledger[..i] && more[i] == ledger[i] {}
    assert more[..|ledger|] == ledger;
  }

  lemma StepChains(c: State, call: Call, accepts: bool)
    requires Replays(c) && Chains(c.ledger)
    ensures Chains(Step(c, call, accepts).0.ledger)
  {
    var t := Step(c, call, accepts).0;
    StepFrame(c, call, accepts);
    if t.ledger != c.ledger {
      var e := t.ledger[|c.ledger|];
      StepFinds(c, call, accepts);
      AppendChains(c.ledger, e);
    }
  }

  /** The price an entry says it found is the card's. */
  lemma StepFinds(c: State, call: Call, accepts: bool)
    requires Replays(c) && Step(c, call, accepts).0.ledger != c.ledger
    ensures
      var t := Step(c, call, accepts).0;
      && |t.ledger| > |c.ledger|
      && var e := t.ledger[|c.ledger|];
         PriceFound(e).Some? ==> PriceFound(e).value == Replay(c.ledger, e.card)
  {
  }

  // ----- Main results -----

  /** Over every run: every price keeps its floor, every update entry its ceiling; the ledger alone
      replays every card's price and counts; and consecutive price entries chain. */
  lemma {:induction false} EveryRun(par: Params, run: Run)
    requires par.Valid()
    ensures var c := After(Start0(par), run); Sound(c) && Replays(c) && Paced(c) && Chains(c.ledger)
  {
    if run != [] {
      var c := After(Start0(par), run[..|run| - 1]);
      var (call, accepts) := run[|run| - 1];
      EveryRun(par, run[..|run| - 1]);
      StepSound(c, call, accepts);
      StepReplays(c, call, accepts);
      StepPaced(c, call, accepts);
      StepChains(c, call, accepts);
    }
  }

  /** Two runs with the same ledger give every card the same price and the same counts, whatever
      calls were refused or stopped on the way. */
  lemma LedgerDeterminesCards(par: Params, run: Run, par': Params, run': Run, card: string)
    requires par.Valid() && par'.Valid()
    requires After(Start0(par), run).ledger == After(Start0(par'), run').ledger
    requires card in After(Start0(par), run).cards && card in After(Start0(par'), run').cards
    ensures var s, t := After(Start0(par), run).cards[card], After(Start0(par'), run').cards[card];
      && s.price == t.price && s.updates == t.updates && s.saturations == t.saturations
      && s.maxStep == t.maxStep && s.atBound == t.atBound
      && s.saturatedRun == t.saturatedRun && s.violationRun == t.violationRun
  {
    EveryRun(par, run);
    EveryRun(par', run');
  }

  /** Exactly which calls that raise leave a trace: a decay that is refused stays in force. Nothing
      else that is refused, and nothing whose append fails, changes anything. */
  lemma RaisingCallsChangeNothingBut(c: State, call: Call, accepts: bool)
    requires Step(c, call, accepts).1 != Done
    ensures Step(c, call, accepts).0 != c <==> call.SetDecay? && call.decay != c.par.decay
    ensures call.SetDecay? ==> call.decay <= 0.0 && Step(c, call, accepts).0.par.decay == call.decay
  {
  }

  /** Under a decay so left in force, a card inside its region is priced higher every window. */
  lemma RefusedDecayRaisesPrices(par: Params, s: CardState, decay: real, r: Reading)
    requires par.Valid() && CardOk(par.cap, s) && decay < 0.0 && Compliant(s, r) && s.violation == 0.0
    ensures Observed(par.(decay := decay), s, r).price > s.price
  {
    CompliantWindow(par.(decay := decay), s, r);
  }
}
