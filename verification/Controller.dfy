/** The controller over all cards: every mutation is ledgered before it happens, and an append
    the ledger refuses stops the call with nothing changed. The ledger is the controller's own
    entries, oldest first. */
module Controller {
  import opened Options
  import opened PriceLaw

  datatype Entry =
    | Registered(card: string)
    | RegionCleared(card: string)
    | Proposed(card: string, before: real, after: real)
    | RatchetSaturated(card: string, window: int, duration: nat, price: real, bound: Option<real>,
                       lastPressure: real, cap: real, saturatedRun: nat)
    | RatchetRaised(card: string, window: int, duration: nat, step: real, before: real, after: real)
    | RatchetEnded(card: string, window: int, duration: nat)
    | Restarted(card: string, failing: nat, episode: real, before: real, integral: real, after: real)
    | Removed(card: string, before: real)
    | Skipped(card: string, value: real, window: int, lastWindow: int, separation: int)
    | Updated(card: string, value: real, violation: real, previous: real, before: real, after: real,
              saturated: bool, window: int, bound: Option<real>, atCap: bool, frozen: bool,
              charged: Option<real>, pressure: Option<real>, terms: Terms,
              anticipated: Option<real>, holdout: real)

  datatype Call =
    | Register(card: string, region: CardRegion)
    | RegisterPending(card: string)
    | ClearRegion(card: string)
    | UpdateRegion(card: string, region: CardRegion)
    | SetPrice(card: string, price: real)
    | Ratchet(card: string, window: int, step: real)
    | Redefine(card: string, windowEnd: Option<int>)
    | EndFailure(card: string, window: int)
    | Remove(card: string)
    | Observe(card: string, reading: Reading)
    | SetDecay(decay: real)

  datatype Outcome = Done | Refused | LedgerFailed

  datatype State = State(par: Params, cards: map<string, CardState>, ledger: seq<Entry>)

  function Start0(par: Params): State { State(par, map[], []) }

  /** A change that is ledgered first: it happens exactly when the ledger takes the entry. */
  function Ledgered(c: State, accepts: bool, e: Entry, cards: map<string, CardState>): (State, Outcome) {
    if accepts then (c.(cards := cards, ledger := c.ledger + [e]), Done) else (c, LedgerFailed)
  }

  function UpdateEntry(par: Params, card: string, s: CardState, r: Reading): Entry {
    var v := Violated(s, r);
    var terms := LawOf(par, s, r);
    var price := PriceOf(par, s, r);
    Updated(card, r.value, v, s.violation, s.price, price,
            Outside(Bound(par.cap, v), Requested(terms)), r.window, Bound(par.cap, v),
            AtBoundOf(par, s, r), OwnBound(par.cap, s.price, v),
            if r.charged.Some? then Some(Pressure(price, r.charged.value, par.cap)) else None,
            r.total, terms, if terms.f.Some? then r.anticipated else None, r.holdout)
  }

  function RatchetEntry(par: Params, card: string, s: CardState, window: int, step: real): Entry {
    var duration := s.failing + 1;
    if Saturated(par, s) then
      RatchetSaturated(card, window, duration, s.price, Bound(par.cap, s.violation), s.pressure,
                       par.cap, s.saturatedRun)
    else
      RatchetRaised(card, window, duration, step * duration as real, s.price,
                    Ratcheted(par, s, step).price)
  }

  predicate GoodReading(r: Reading) {
    (r.charged.Some? ==> r.charged.value >= 0.0) && r.holdout >= 0.0 && r.window >= 0
  }

  predicate TooSoon(par: Params, s: CardState, window: int) {
    s.lastWindow.Some? && window < s.lastWindow.value + par.separation
  }

  function ObserveStep(c: State, card: string, r: Reading, accepts: bool): (State, Outcome) {
    if !GoodReading(r) || card !in c.cards then (c, Refused)
    else
      var s := c.cards[card];
      if TooSoon(c.par, s, r.window) then
        Ledgered(c, accepts, Skipped(card, r.value, r.window, s.lastWindow.value, c.par.separation), c.cards)
      else
        Ledgered(c, accepts, UpdateEntry(c.par, card, s, r), c.cards[card := Observed(c.par, s, r)])
  }

  function Step(c: State, call: Call, accepts: bool): (State, Outcome) {
    match call
    case Register(card, region) =>
      if card in c.cards then (c, Refused) else (c.(cards := c.cards[card := Fresh(Some(region))]), Done)
    case RegisterPending(card) =>
      if card in c.cards then (c, Refused)
      else Ledgered(c, accepts, Registered(card), c.cards[card := Fresh(None)])
    case ClearRegion(card) =>
      if card !in c.cards then (c, Refused)
      else Ledgered(c, accepts, RegionCleared(card), c.cards[card := c.cards[card].(region := None)])
    case UpdateRegion(card, region) =>
      if card !in c.cards then (c, Refused)
      else (c.(cards := c.cards[card := c.cards[card].(region := Some(region))]), Done)
    case SetPrice(card, price) =>
      if card !in c.cards || price < 0.0 then (c, Refused)
      else
        var s := c.cards[card];
        Ledgered(c, accepts, Proposed(card, s.price, price), c.cards[card := Adopted(c.par, s, price)])
    case Ratchet(card, window, step) =>
      if step <= 0.0 || card !in c.cards then (c, Refused)
      else
        var s := c.cards[card];
        Ledgered(c, accepts, RatchetEntry(c.par, card, s, window, step),
                 c.cards[card := Ratcheted(c.par, s, step)])
    case Redefine(card, windowEnd) =>
      if card !in c.cards then (c, Refused)
      else
        var s := c.cards[card];
        Ledgered(c, accepts, Restarted(card, s.failing, s.episode, s.price, s.integral, PriceLaw.Start(s)),
                 c.cards[card := Redefined(s, windowEnd)])
    case EndFailure(card, window) =>
      if card !in c.cards then (c, Refused)
      else if c.cards[card].failing == 0 then (c, Done)
      else Ledgered(c, accepts, RatchetEnded(card, window, c.cards[card].failing),
                    c.cards[card := c.cards[card].(failing := 0)])
    case Remove(card) =>
      if card !in c.cards then (c, Refused)
      else Ledgered(c, accepts, Removed(card, c.cards[card].price), c.cards - {card})
    case Observe(card, reading) => ObserveStep(c, card, reading, accepts)
    case SetDecay(decay) =>
      // The setter assigns before it checks: a decay it refuses is in force all the same.
      (c.(par := c.par.(decay := decay)), if decay > 0.0 then Done else Refused)
  }
}
