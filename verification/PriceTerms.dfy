/** What each term of the law is, said of the readings: what a move costs, what is expected, what is held. */
module PriceTerms {
  import opened Options
  import opened PriceLaw
  import opened PriceProofs

  // ----- The measured move -----

  predicate Above(r: CardRegion, x: real) {
    !r.AtLeast? && x > r.hi
  }

  predicate Below(r: CardRegion, x: real) {
    !r.AtMost? && x < r.lo
  }

  function Ratio(x: real, scale: real): real
    requires scale > 0.0
  {
    x / scale
  }

  lemma RatioGap(a: real, b: real, scale: real)
    requires scale > 0.0
    ensures Ratio(a, scale) - Ratio(b, scale) == Ratio(a - b, scale)
    ensures a >= b <==> Ratio(a, scale) >= Ratio(b, scale)
    ensures Ratio(-a, scale) == -Ratio(a, scale)
  {
    var x, y := a / scale, b / scale;
    assert (x - y) * scale == a - b;
    assert (a - b) / scale == x - y;
  }

  lemma Gained(k: real, x: real)
    requires k >= 0.0
    ensures MaxR(0.0, k * 1.0 * x) == k * MaxR(0.0, x)
    ensures MaxR(0.0, k * -1.0 * x) == k * MaxR(0.0, -x)
  {
    if x >= 0.0 { assert k * x >= 0.0; } else { assert k * -x >= 0.0; }
    assert k * -1.0 * x == k * -x;
  }

  /** What the move from the last value costs while the card violates: the gain times the way up, for a
      maximum, or above a band; and times the way down, for a minimum, or anywhere else in a band. */
  lemma MoveIsPriced(par: Params, s: CardState, r: Reading)
    requires par.Valid() && Violated(s, r) > 0.0 && s.region.Some? && s.lastValue.Some?
    ensures
      var region, move := s.region.value, r.value - s.lastValue.value;
      LawOf(par, s, r).d == par.kd * MaxR(0.0, Ratio(if region.AtMost? || Above(region, r.value) then move else -move,
                                                    region.scale))
  {
    var region, move := s.region.value, r.value - s.lastValue.value;
    RatioGap(move, 0.0, region.scale);
    Gained(par.kd, Ratio(move, region.scale));
  }

  /** A window outside the region, on the side its last value was: the gain times the growth of the
      violation, and nothing if it shrank. */
  lemma WorseningIsPriced(par: Params, s: CardState, r: Reading)
    requires par.Valid() && r.holdout >= 0.0 && s.region.Some? && s.lastValue.Some?
    requires
      var region, last := s.region.value, s.lastValue.value;
      (Above(region, r.value) && Above(region, last)) || (Below(region, r.value) && Below(region, last))
    ensures
      var region, last := s.region.value, s.lastValue.value;
      LawOf(par, s, r).d == par.kd * MaxR(0.0, Violation(region, r.value) - Violation(region, last))
  {
    var region, last := s.region.value, s.lastValue.value;
    MoveIsPriced(par, s, r);
    if Above(region, r.value) {
      GrowthAbove(region, r.value, last);
    } else {
      GrowthBelow(region, r.value, last);
    }
  }

  lemma GrowthAbove(region: CardRegion, x: real, last: real)
    requires Above(region, x) && Above(region, last)
    ensures Violation(region, x) - Violation(region, last) == Ratio(x - last, region.scale)
  {
    RatioGap(x - region.hi, last - region.hi, region.scale);
  }

  lemma GrowthBelow(region: CardRegion, x: real, last: real)
    requires Below(region, x) && Below(region, last)
    ensures Violation(region, x) - Violation(region, last) == Ratio(-(x - last), region.scale)
    ensures !Above(region, x)
  {
    RatioGap(region.lo - x, region.lo - last, region.scale);
  }

  /** A window that has left the region, or crossed it: the gain times the whole move, which is at least
      the gain times its violation. */
  lemma LeavingIsPriced(par: Params, s: CardState, r: Reading)
    requires par.Valid() && r.holdout >= 0.0 && s.region.Some? && s.lastValue.Some?
    requires
      var region, last := s.region.value, s.lastValue.value;
      (Above(region, r.value) && !Above(region, last)) || (Below(region, r.value) && !Below(region, last))
    ensures
      var region, last := s.region.value, s.lastValue.value;
      && LawOf(par, s, r).d == par.kd * Ratio(AbsR(r.value - last), region.scale)
      && LawOf(par, s, r).d >= par.kd * Violation(region, r.value)
  {
    var region, last := s.region.value, s.lastValue.value;
    MoveIsPriced(par, s, r);
    var gap := if Above(region, r.value) then r.value - region.hi else region.lo - r.value;
    RatioGap(AbsR(r.value - last), gap, region.scale);
    RatioGap(AbsR(r.value - last), 0.0, region.scale);
    assert par.kd * (Ratio(AbsR(r.value - last), region.scale) - Violation(region, r.value)) >= 0.0;
  }

  /** A move that is not deeper into violation costs nothing, nor does one from nothing, or while nothing
      is violated. */
  lemma RecoveryIsFree(par: Params, s: CardState, r: Reading)
    requires par.Valid() && r.holdout >= 0.0
    requires
      || Violated(s, r) == 0.0 || s.region.None? || s.lastValue.None?
      || (var region, last := s.region.value, s.lastValue.value;
          if region.AtMost? || Above(region, r.value) then r.value <= last else r.value >= last)
    ensures LawOf(par, s, r).d == 0.0
  {
    if Violated(s, r) > 0.0 && s.region.Some? && s.lastValue.Some? {
      MoveIsPriced(par, s, r);
      RatioGap(r.value - s.lastValue.value, 0.0, s.region.value.scale);
    }
  }

  // ----- The price -----

  /** The violation a market leads the law to expect: the window's own, moved as anticipated, and never
      less than none. */
  function Expected(v: real, anticipated: Option<real>): real {
    MaxR(0.0, v + if anticipated.Some? then anticipated.value else 0.0)
  }

  lemma MoveNonnegative(par: Params, s: CardState, r: Reading)
    requires par.Valid()
    ensures LawOf(par, s, r).d >= 0.0
  {
  }

  lemma Gains(k: real, v: real, anticipated: Option<real>)
    requires k >= 0.0 && v >= 0.0
    ensures k * v + (if anticipated.Some? then k * MaxR(anticipated.value, -v) else 0.0) == k * Expected(v, anticipated)
    ensures k * Expected(v, anticipated) >= 0.0
  {
    if anticipated.Some? {
      assert v + MaxR(anticipated.value, -v) == Expected(v, anticipated);
      assert k * (v + MaxR(anticipated.value, -v)) == k * v + k * MaxR(anticipated.value, -v);
    }
    assert k * Expected(v, anticipated) >= 0.0;
  }

  /** The proportional part on the violation expected, the integral, and the cost of the move. */
  function Sum(par: Params, s: CardState, r: Reading): real {
    par.kp * Expected(Violated(s, r), r.anticipated) + NextIntegral(par, s, Violated(s, r)) + LawOf(par, s, r).d
  }

  lemma ExpectedTerms(par: Params, s: CardState, value: real, v: real, anticipated: Option<real>)
    requires par.kp >= 0.0 && v > 0.0
    ensures
      var t := Law(par, s, value, v, anticipated);
      && t.p + (if t.f.Some? then t.f.value else 0.0) == par.kp * Expected(v, anticipated)
      && t.i == NextIntegral(par, s, v)
  {
    Gains(par.kp, v, anticipated);
  }

  lemma TermsAdd(t: Terms, e: real)
    requires t.p + (if t.f.Some? then t.f.value else 0.0) == e
    ensures Requested(t) == e + t.i + t.d
  {
  }

  lemma RequestedIsSum(par: Params, s: CardState, r: Reading)
    requires par.Valid() && CardOk(par.cap, s) && r.holdout >= 0.0 && Violated(s, r) > 0.0
    ensures Requested(LawOf(par, s, r)) == Sum(par, s, r) >= 0.0
  {
    var v := Violated(s, r);
    ExpectedTerms(par, s, r.value, v, r.anticipated);
    Gains(par.kp, v, r.anticipated);
    TermsAdd(LawOf(par, s, r), par.kp * Expected(v, r.anticipated));
    MoveNonnegative(par, s, r);
    IntegralNonnegative(par, s, v);
  }

  lemma RequestedInside(par: Params, s: CardState, r: Reading)
    requires par.Valid() && CardOk(par.cap, s) && r.holdout >= 0.0 && Violated(s, r) == 0.0
    ensures Requested(LawOf(par, s, r)) == NextIntegral(par, s, 0.0) >= 0.0
  {
    RecoveryIsFree(par, s, r);
    IntegralNonnegative(par, s, 0.0);
    assert par.kp * Violated(s, r) == 0.0;
  }

  /** After a window the price is the integral, if nothing is violated. Otherwise it is the gain on the
      violation expected, plus the integral, plus the cost of the move, up to the bound at which the
      penalty takes the cap; and the window counts as saturated exactly when the sum is beyond it. */
  lemma PriceIsSum(par: Params, s: CardState, r: Reading)
    requires par.Valid() && CardOk(par.cap, s) && r.holdout >= 0.0
    ensures
      var t, v := Observed(par, s, r), Violated(s, r);
      && v == (if s.region.Some? then Violation(s.region.value, r.value) else 0.0) + r.holdout
      && t.violation == v && t.integral == NextIntegral(par, s, v)
      && t.lastValue == Some(r.value) && t.lastWindow == Some(r.window)
      && (v == 0.0 ==> t.price == t.integral && t.saturations == s.saturations)
      && (v > 0.0 ==> t.price == MinR(par.cap / v, Sum(par, s, r))
                      && t.saturations == s.saturations + if Sum(par, s, r) > par.cap / v then 1 else 0)
  {
    if Violated(s, r) > 0.0 { RequestedIsSum(par, s, r); } else { RequestedInside(par, s, r); }
    Clipped(Bound(par.cap, Violated(s, r)), Requested(LawOf(par, s, r)));
  }

  lemma Clipped(bound: Option<real>, x: real)
    requires x >= 0.0 && (bound.Some? ==> bound.value > 0.0)
    ensures Clip(bound, x) == if bound.Some? then MinR(bound.value, x) else x
    ensures Outside(bound, x) <==> bound.Some? && x > bound.value
  {
  }

  /** A window presses the cap exactly when it violates and the penalty at its new price, or the pressure
      read for its roles, reaches it. */
  lemma PressesExactly(par: Params, s: CardState, r: Reading)
    requires par.Valid() && r.holdout >= 0.0
    ensures
      var t := Observed(par, s, r);
      var full := t.price * t.violation >= par.cap || (r.total.Some? && r.total.value >= par.cap);
      var pressed := t.violation > 0.0 && full;
      && t.atBound == s.atBound + (if pressed then 1 else 0)
      && t.saturatedRun == (if pressed then s.saturatedRun + 1 else 0)
  {
    PressMeans(par.cap, PriceOf(par, s, r), Violated(s, r), r.total);
  }

  lemma PressMeans(cap: real, price: real, v: real, total: Option<real>)
    requires cap > 0.0
    ensures Presses(cap, price, v, if total.Some? then total.value else 0.0)
       <==> v > 0.0 && (price * v >= cap || (total.Some? && total.value >= cap))
  {
    if v > 0.0 { BoundTimes(cap, v, price); }
  }

  /** What the integral keeps through a window that violates: what it was, up to the largest bound of the
      failure episode. */
  function Memory(par: Params, s: CardState, v: real): real
    requires v > 0.0
  {
    MinR(s.integral, MaxR(s.episode, par.cap / v))
  }

  /** A price takes the cap of a penalty exactly at its bound. */
  predicate TakesCap(cap: real, price: real, v: real) {
    price * v >= cap
  }

  lemma TakesCapAtBound(cap: real, price: real, v: real)
    requires cap > 0.0 && v > 0.0
    ensures TakesCap(cap, price, v) <==> price >= cap / v
  {
    BoundTimes(cap, v, price);
  }

  /** In prices: at the bound, or wound up to it by a climb. */
  lemma HeldAt(par: Params, s: CardState, v: real, bound: real, memory: real, wound: real)
    requires v > 0.0 && bound == par.cap / v && memory == Memory(par, s, v) && wound == par.kp * v + memory
    ensures NextIntegral(par, s, v)
      == if s.price >= bound || (wound >= bound && v > s.violation) then memory
         else MinR(bound, memory + par.eta * v)
  {
  }

  lemma HeldBy(cap: real, price: real, wound: real, v: real, climbs: bool, bound: real)
    requires cap > 0.0 && v > 0.0 && bound == cap / v
    ensures price >= bound || (wound >= bound && climbs)
       <==> TakesCap(cap, price, v) || (climbs && TakesCap(cap, wound, v))
  {
    TakesCapAtBound(cap, price, v);
    TakesCapAtBound(cap, wound, v);
  }

  /** The integral is held exactly when the penalty at the price in force takes the cap, or the violation
      climbs and the penalty of the proportional part and the memory alone takes it; otherwise it grows by
      the rate times the violation, up to the bound. */
  lemma HeldExactly(par: Params, s: CardState, v: real)
    requires par.Valid() && CardOk(par.cap, s) && v > 0.0
    ensures
      var memory := Memory(par, s, v);
      var held := TakesCap(par.cap, s.price, v)
               || (v > s.violation && TakesCap(par.cap, par.kp * v + memory, v));
      NextIntegral(par, s, v) == if held then memory else MinR(par.cap / v, memory + par.eta * v)
  {
    var memory := Memory(par, s, v);
    var wound, bound := par.kp * v + memory, par.cap / v;
    HeldAt(par, s, v, bound, memory, wound);
    HeldBy(par.cap, s.price, wound, v, v > s.violation, bound);
  }

  /** While nothing is violated it leaks the decay, from at most the bound of the episode that ended. */
  lemma LeaksExactly(par: Params, s: CardState)
    requires par.Valid() && CardOk(par.cap, s)
    ensures
      var kept := if s.episode > 0.0 then MinR(s.integral, s.episode) else s.integral;
      NextIntegral(par, s, 0.0) == if kept > par.decay then kept - par.decay else 0.0
  {
  }

  /** A card registered, with a region or without, starts with nothing. */
  lemma RegisteredIsBlank(region: Option<CardRegion>)
    ensures
      var s := Fresh(region);
      && s.region == region && s.price == 0.0 == s.integral && s.pressure == 0.0 == s.violation && s.episode == 0.0
      && s.updates == 0 == s.saturations && s.atBound == 0 == s.saturatedRun && s.violationRun == 0 == s.failing
      && s.maxStep == 0.0 && s.lastWindow == None && s.lastValue == None && s.declared == None
  {
  }
}
