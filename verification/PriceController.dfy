/** The controller as the object its callers hold. Each method appends to the ledger before it
    replaces the card's state; `accepts` says whether the ledger takes the append. */
module PriceControllerClass {
  import opened Options
  import opened PriceLaw
  import opened Controller

  class PriceController {
    const eta: real
    const cap: real
    const separation: int
    const kp: real
    const kd: real
    var decay: real
    var cards: map<string, CardState>
    var ledger: seq<Entry>

    ghost function State(): Controller.State
      reads this
    {
      Controller.State(Parameters(), cards, ledger)
    }

    function Parameters(): Params
      reads this
    {
      Params(eta, decay, cap, separation, kp, kd)
    }

    /** What the constructor refuses: a negative gain, a rate that is not positive, a cap outside (0, 1), no
        separation. */
    static method Acceptable(par: Params) returns (ok: bool)
      ensures ok <==> par.Valid() && par.decay > 0.0
    {
      if par.kp < 0.0 || par.kd < 0.0 { return false; }
      if par.eta <= 0.0 || par.decay <= 0.0 { return false; }
      if par.cap <= 0.0 || par.cap >= 1.0 { return false; }
      return par.separation >= 1;
    }

    constructor (par: Params)
      requires par.Valid() && par.decay > 0.0
      ensures State() == Start0(par)
    {
      eta, cap, separation, kp, kd := par.eta, par.cap, par.separation, par.kp, par.kd;
      decay, cards, ledger := par.decay, map[], [];
    }

    method Append(e: Entry, accepts: bool) returns (ok: bool)
      modifies this`ledger
      ensures ok == accepts
      ensures ledger == if accepts then old(ledger) + [e] else old(ledger)
    {
      ok := accepts;
      if accepts { ledger := ledger + [e]; }
    }

    method Register(card: string, region: CardRegion, ghost accepts: bool) returns (r: Outcome)
      modifies this
      ensures (State(), r) == Step(old(State()), Call.Register(card, region), accepts)
    {
      if card in cards { return Refused; }
      cards := cards[card := Fresh(Some(region))];
      return Done;
    }

    method RegisterPending(card: string, accepts: bool) returns (r: Outcome)
      modifies this
      ensures (State(), r) == Step(old(State()), Call.RegisterPending(card), accepts)
    {
      if card in cards { return Refused; }
      var ok := Append(Registered(card), accepts);
      if !ok { return LedgerFailed; }
      cards := cards[card := Fresh(None)];
      return Done;
    }

    method ClearRegion(card: string, accepts: bool) returns (r: Outcome)
      modifies this
      ensures (State(), r) == Step(old(State()), Call.ClearRegion(card), accepts)
    {
      if card !in cards { return Refused; }
      var ok := Append(RegionCleared(card), accepts);
      if !ok { return LedgerFailed; }
      cards := cards[card := cards[card].(region := None)];
      return Done;
    }

    method UpdateRegion(card: string, region: CardRegion, ghost accepts: bool) returns (r: Outcome)
      modifies this
      ensures (State(), r) == Step(old(State()), Call.UpdateRegion(card, region), accepts)
    {
      if card !in cards { return Refused; }
      cards := cards[card := cards[card].(region := Some(region))];
      return Done;
    }

    method SetPrice(card: string, value: real, accepts: bool) returns (r: Outcome)
      modifies this
      ensures (State(), r) == Step(old(State()), Call.SetPrice(card, value), accepts)
    {
      if card !in cards || value < 0.0 { return Refused; }
      var s := cards[card];
      var ok := Append(Proposed(card, s.price, value), accepts);
      if !ok { return LedgerFailed; }
      cards := cards[card := s.(price := value, integral := value, declared := Some(value),
                                pressure := Repriced(s, value, cap))];
      return Done;
    }

    method Ratchet(card: string, window: int, step: real, accepts: bool) returns (r: Outcome)
      modifies this
      ensures (State(), r) == Step(old(State()), Call.Ratchet(card, window, step), accepts)
    {
      if step <= 0.0 || card !in cards { return Refused; }
      var s := cards[card];
      var duration := s.failing + 1;
      var bound := Bound(cap, s.violation);
      if OwnBound(cap, s.price, s.violation) {
        var ok := Append(RatchetSaturated(card, window, duration, s.price, bound, s.pressure, cap,
                                          s.saturatedRun), accepts);
        if !ok { return LedgerFailed; }
        assert s.(failing := duration) == Ratcheted(Parameters(), s, step);
        cards := cards[card := s.(failing := duration)];
        return Done;
      }
      var raised := step * duration as real;
      var price, integral := s.price + raised, s.integral + raised;
      if bound.Some? {
        price, integral := MinR(bound.value, price), MinR(bound.value, integral);
      }
      var ok := Append(RatchetRaised(card, window, duration, raised, s.price, price), accepts);
      if !ok { return LedgerFailed; }
      var raisedState := s.(price := price, integral := integral, failing := duration,
                            pressure := Repriced(s, price, cap));
      assert raisedState == Ratcheted(Parameters(), s, step);
      cards := cards[card := raisedState];
      return Done;
    }

    method Redefine(card: string, windowEnd: Option<int>, accepts: bool) returns (r: Outcome)
      modifies this
      ensures (State(), r) == Step(old(State()), Call.Redefine(card, windowEnd), accepts)
    {
      if card !in cards { return Refused; }
      var s := cards[card];
      var start := if s.declared.None? then s.price else s.declared.value;
      var ok := Append(Restarted(card, s.failing, s.episode, s.price, s.integral, start), accepts);
      if !ok { return LedgerFailed; }
      if windowEnd.Some? { s := s.(lastWindow := windowEnd); }
      cards := cards[card := s.(price := start, integral := start, failing := 0, episode := 0.0,
                                violationRun := 0, saturatedRun := 0, lastValue := None,
                                violation := 0.0)];
      return Done;
    }

    method EndFailure(card: string, window: int, accepts: bool) returns (r: Outcome)
      modifies this
      ensures (State(), r) == Step(old(State()), Call.EndFailure(card, window), accepts)
    {
      if card !in cards { return Refused; }
      var s := cards[card];
      if s.failing == 0 { return Done; }
      var ok := Append(RatchetEnded(card, window, s.failing), accepts);
      if !ok { return LedgerFailed; }
      cards := cards[card := s.(failing := 0)];
      return Done;
    }

    method Remove(card: string, accepts: bool) returns (r: Outcome)
      modifies this
      ensures (State(), r) == Step(old(State()), Call.Remove(card), accepts)
    {
      if card !in cards { return Refused; }
      var ok := Append(Removed(card, cards[card].price), accepts);
      if !ok { return LedgerFailed; }
      cards := cards - {card};
      return Done;
    }

    method SetDecay(value: real, ghost accepts: bool) returns (r: Outcome)
      modifies this
      ensures (State(), r) == Step(old(State()), Call.SetDecay(value), accepts)
    {
      decay := value;
      if decay <= 0.0 { return Refused; }
      return Done;
    }

    method Observe(card: string, reading: Reading, accepts: bool) returns (r: Outcome)
      modifies this
      ensures (State(), r) == Step(old(State()), Call.Observe(card, reading), accepts)
    {
      if reading.charged.Some? && reading.charged.value < 0.0 { return Refused; }
      if reading.holdout < 0.0 || card !in cards || reading.window < 0 { return Refused; }
      var s := cards[card];
      if s.lastWindow.Some? && reading.window < s.lastWindow.value + separation {
        var ok := Append(Skipped(card, reading.value, reading.window, s.lastWindow.value, separation), accepts);
        return if ok then Done else LedgerFailed;
      }
      r := Accept(card, reading, accepts);
    }

    /** The backward law: the output unclipped, and its terms. */
    method Pid(s: CardState, value: real, v: real, frozen: bool, episode: real) returns (requested: real, terms: Terms)
      requires frozen == OwnBound(cap, s.price, v) && episode == Episode(Parameters(), s, v)
      ensures terms == Law(Parameters(), s, value, v, None) && requested == Requested(terms)
    {
      var derivative := 0.0;
      if v > 0.0 && s.lastValue.Some? && s.region.Some? {
        var sign := -1.0;
        if s.region.value.AtMost? || (s.region.value.Band? && value > s.region.value.hi) {
          sign := 1.0;
        }
        derivative := MaxR(0.0, kd * sign * ((value - s.lastValue.value) / s.region.value.scale));
      }
      var proportional := kp * v;
      var kept, integral := s.integral, 0.0;
      if v <= 0.0 {
        if s.episode > 0.0 { kept := MinR(kept, s.episode); }
        integral := MaxR(0.0, kept - decay);
      } else {
        kept := MinR(episode, kept);
        if frozen || (proportional + kept >= cap / v && v > s.violation) {
          integral := kept;
        } else {
          integral := MinR(cap / v, kept + eta * v);
        }
      }
      terms := Terms(proportional, integral, derivative, None);
      requested := proportional + integral + derivative;
    }

    static lemma LawFeeds(par: Params, s: CardState, value: real, v: real, anticipated: Option<real>)
      ensures
        var fed, law := Law(par, s, value, v, anticipated), Law(par, s, value, v, None);
        && fed.p == law.p && fed.i == law.i && fed.d == law.d && law.f == None
        && fed.f == if anticipated.Some? && v > 0.0 then Some(par.kp * MaxR(anticipated.value, -v)) else None
    {
      if anticipated.Some? && v > 0.0 {
        assert Law(par, s, value, v, anticipated).f.value == par.kp * MaxR(anticipated.value, -v);
      }
    }

    /** The law with what a market anticipates. */
    method FedForward(s: CardState, value: real, v: real, frozen: bool, episode: real, anticipated: Option<real>)
      returns (requested: real, terms: Terms)
      requires frozen == OwnBound(cap, s.price, v) && episode == Episode(Parameters(), s, v)
      ensures terms == Law(Parameters(), s, value, v, anticipated) && requested == Requested(terms)
    {
      requested, terms := Pid(s, value, v, frozen, episode);
      var par := Parameters();
      LawFeeds(par, s, value, v, anticipated);
      if anticipated.Some? && v > 0.0 {
        var forward := par.kp * MaxR(anticipated.value, -v);
        requested, terms := requested + forward, terms.(f := Some(forward));
      }
    }

    /** An observation whose window is accepted. */
    method Accept(card: string, reading: Reading, accepts: bool) returns (r: Outcome)
      requires card in cards
      modifies this
      ensures decay == old(decay)
      ensures var s := old(cards)[card];
        if accepts then
          && r == Done
          && cards == old(cards)[card := Observed(Parameters(), s, reading)]
          && ledger == old(ledger) + [UpdateEntry(Parameters(), card, s, reading)]
        else r == LedgerFailed && cards == old(cards) && ledger == old(ledger)
    {
      var s, par := cards[card], Parameters();
      var v := (if s.region.Some? then Violation(s.region.value, reading.value) else 0.0) + reading.holdout;
      var frozen := OwnBound(cap, s.price, v);
      var episode := if v > 0.0 then MaxR(s.episode, cap / v) else 0.0;
      var requested, terms := FedForward(s, reading.value, v, frozen, episode, reading.anticipated);
      var bound := Bound(cap, v);
      var price := if bound.None? then MaxR(0.0, requested) else MinR(bound.value, MaxR(0.0, requested));
      var saturated := requested < 0.0 || (bound.Some? && requested > bound.value);
      var atBound := Presses(cap, price, v, if reading.total.Some? then reading.total.value else 0.0);
      var before, after := Pressure(s.price, v, cap), Pressure(price, v, cap);
      var updated := s.(
        price := price,
        updates := s.updates + 1,
        saturations := if saturated then s.saturations + 1 else s.saturations,
        maxStep := MaxR(s.maxStep, AbsR(price - s.price)),
        lastWindow := Some(reading.window),
        violation := v,
        integral := terms.i,
        episode := episode,
        lastValue := Some(reading.value),
        atBound := if atBound then s.atBound + 1 else s.atBound,
        saturatedRun := if atBound then s.saturatedRun + 1 else 0,
        violationRun := if v > 0.0 then s.violationRun + 1 else 0,
        pressure := MaxR(0.0, (if reading.total.Some? then reading.total.value else before) - before + after));
      assert price == PriceOf(par, s, reading) && atBound == AtBoundOf(par, s, reading);
      assert updated == Observed(par, s, reading);
      var entry := Updated(
        card, reading.value, v, s.violation, s.price, price, saturated, reading.window, bound, atBound, frozen,
        if reading.charged.Some? then Some(Pressure(price, reading.charged.value, cap)) else None,
        reading.total, terms, if terms.f.Some? then reading.anticipated else None, reading.holdout);
      var ok := Append(entry, accepts);
      if !ok { return LedgerFailed; }
      cards := cards[card := updated];
      return Done;
    }

    /** The price in force, or zero for a card not registered: what the ledger replays to. */
    function Price(card: string): real
      reads this
    {
      if card in cards then cards[card].price else 0.0
    }
  }
}
