/** What the price law promises of one card, for every reading and every run of windows. */
module PriceProofs {
  import opened Options
  import opened PriceLaw

  // A violating card is priced at its accumulated integral, or at its bound where the integral is
  // beyond that, and right after any window never above its bound. The integral stays within the
  // largest bound of the failure episode and keeps its memory while the violation climbs; where it
  // does not is stated exactly. Ratchets and compliant windows have closed forms, so every failure is
  // priced by its duration and every price comes back to zero.

  /** A violating card is priced at its accumulated integral, or at its bound where the integral
      exceeds that; a card inside its region is priced at its integral exactly. */
  predicate Floored(cap: real, s: CardState) {
    if s.violation > 0.0 then s.price >= MinR(cap / s.violation, s.integral)
    else s.price == s.integral
  }

  /** A failure episode is open exactly while the card violates, and holds the card's own bound. */
  predicate EpisodeOk(cap: real, s: CardState) {
    && s.violation >= 0.0 && s.episode >= 0.0
    && (s.violation == 0.0 <==> s.episode == 0.0)
    && (s.violation > 0.0 ==> s.episode >= cap / s.violation)
  }

  predicate CardOk(cap: real, s: CardState) {
    && s.price >= 0.0 && s.integral >= 0.0 && s.pressure >= 0.0
    && (s.declared.Some? ==> s.declared.value >= 0.0)
    && EpisodeOk(cap, s) && Floored(cap, s)
  }

  // ----- Observations -----

  /** The proportional part prices the expected violation and is never negative, so feed-forward
      cannot bring a price below the integral. */
  lemma FeedForwardKeepsFloor(par: Params, v: real, anticipated: real)
    requires par.Valid() && v >= 0.0
    ensures par.kp * v + par.kp * MaxR(anticipated, -v) == par.kp * MaxR(0.0, v + anticipated)
    ensures par.kp * v + par.kp * MaxR(anticipated, -v) >= 0.0
    ensures par.kp * v >= 0.0
  {
    var e := MaxR(0.0, v + anticipated);
    assert v + MaxR(anticipated, -v) == e;
    assert par.kp * v + par.kp * MaxR(anticipated, -v) == par.kp * (v + MaxR(anticipated, -v));
    assert par.kp * e >= 0.0 && par.kp * v >= 0.0;
  }

  lemma RequestedAboveIntegral(par: Params, s: CardState, value: real, v: real, anticipated: Option<real>)
    requires par.Valid() && v >= 0.0
    ensures Requested(Law(par, s, value, v, anticipated)) >= NextIntegral(par, s, v)
    ensures v == 0.0 ==> Requested(Law(par, s, value, v, anticipated)) == NextIntegral(par, s, v)
  {
    FeedForwardKeepsFloor(par, v, if anticipated.Some? then anticipated.value else 0.0);
  }

  lemma IntegralNonnegative(par: Params, s: CardState, v: real)
    requires par.Valid() && v >= 0.0 && s.integral >= 0.0 && s.episode >= 0.0
    ensures NextIntegral(par, s, v) >= 0.0
    ensures v > 0.0 ==> NextIntegral(par, s, v) <= Episode(par, s, v)
  {
    if v > 0.0 {
      BoundTimes(par.cap, v, 0.0);
      assert par.eta * v > 0.0;
    }
  }

  /** Right after any accepted observation, with or without feed-forward: the price is within its
      bound, at or above its integral or its bound, and the integral is within its episode. */
  lemma ObservedOk(par: Params, s: CardState, r: Reading)
    requires par.Valid() && CardOk(par.cap, s) && r.holdout >= 0.0
    ensures var t := Observed(par, s, r);
      && CardOk(par.cap, t)
      && (t.violation > 0.0 ==> t.price <= par.cap / t.violation && t.integral <= t.episode)
  {
    var v := Violated(s, r);
    if v > 0.0 { BoundTimes(par.cap, v, 0.0); }
    RequestedAboveIntegral(par, s, r.value, v, r.anticipated);
    IntegralNonnegative(par, s, v);
  }

  // ----- Memory -----

  /** While a violation climbs or holds, a window never takes the integral below what the episode
      allows: a spike erases nothing. A holding violation needs the floor of the card's price. */
  lemma ClimbingKeepsMemory(par: Params, s: CardState, v: real)
    requires par.Valid() && CardOk(par.cap, s) && v > 0.0 && v >= s.violation
    ensures NextIntegral(par, s, v) >= MinR(Episode(par, s, v), s.integral)
  {
    BoundTimes(par.cap, v, s.price);
    assert par.kp * v >= 0.0 && par.eta * v > 0.0;
  }

  /** Exactly when a violating window cuts the integral below what its episode allows: the card's
      price is below the window's bound, and so is that bound below the integral. */
  lemma MemoryCutExactly(par: Params, s: CardState, v: real)
    requires par.Valid() && CardOk(par.cap, s) && v > 0.0
    ensures NextIntegral(par, s, v) < Kept(par, s, v) <==>
            v < s.violation && s.price < par.cap / v < Kept(par, s, v)
  {
    assert par.kp * v >= 0.0 && par.eta * v > 0.0;
    if v >= s.violation { ClimbingKeepsMemory(par, s, v); }
  }

  /** A window that reports only the metric's value. */
  function Plain(value: real, window: int): Reading {
    Reading(value, window, 0.0, None, None, None)
  }

  lemma WindowsMore(par: Params, s: CardState, rs: seq<Reading>, r: Reading)
    ensures Windows(par, s, rs + [r]) == Observed(par, Windows(par, s, rs), r)
  {
    assert (rs + [r])[..|rs|] == rs;
  }

  /** A window that reports `v` on a card whose region is at most 0. */
  lemma WindowMoves(par: Params, s: CardState, v: real, window: int)
    requires s.region == Some(AtMost(0.0, 1.0)) && v > 0.0 && par.kp == 0.0 && par.kd == 0.0 && par.cap > 0.0
    ensures
      var t := Observed(par, s, Plain(v, window));
      && t.region == s.region && t.violation == v && t.integral == NextIntegral(par, s, v)
      && t.episode == Episode(par, s, v) && t.price == MinR(par.cap / v, MaxR(0.0, NextIntegral(par, s, v)))
  {
    assert Violated(s, Plain(v, window)) == v;
    BoundTimes(par.cap, v, 0.0);
    assert par.kp * v == 0.0;
  }

  const CUT: Params := Params(1.0, 1.0, 0.5, 1, 0.0, 0.0)

  const NEW: CardState := Fresh(Some(AtMost(0.0, 1.0)))

  const QUARTERS: seq<Reading> := [Plain(0.25, 0), Plain(0.25, 1), Plain(0.25, 2), Plain(0.25, 3)]

  /** One window at a violation of a quarter adds it to an integral of `i`. */
  lemma QuarterMoves(par: Params, s: CardState, i: real, window: int)
    requires par.eta == 1.0 && par.cap == 0.5 && par.kp == 0.0 && par.kd == 0.0
    requires s.region == Some(AtMost(0.0, 1.0)) && s.price == s.integral == i && 0.0 <= i <= 1.0
    requires s.episode == 2.0 || (s.episode == 0.0 && i == 0.0)
    ensures
      var t := Observed(par, s, Plain(0.25, window));
      && t.region == s.region && t.price == t.integral == i + 0.25 && t.episode == 2.0 && t.violation == 0.25
  {
    WindowMoves(par, s, 0.25, window);
    assert par.cap / 0.25 == 2.0;
  }

  /** Four such windows accumulate an integral of 1. */
  lemma MemoryBuilds() returns (s: CardState)
    ensures s == Windows(CUT, NEW, QUARTERS)
    ensures s.region == NEW.region && s.price == s.integral == 1.0 && s.episode == 2.0 && s.violation == 0.25
  {
    s := FourWindows(CUT, NEW, Plain(0.25, 0), Plain(0.25, 1), Plain(0.25, 2), Plain(0.25, 3));
    QuarterMoves(CUT, NEW, 0.0, 0);
    var one := Observed(CUT, NEW, Plain(0.25, 0));
    QuarterMoves(CUT, one, 0.25, 1);
    var two := Observed(CUT, one, Plain(0.25, 1));
    QuarterMoves(CUT, two, 0.5, 2);
    QuarterMoves(CUT, Observed(CUT, two, Plain(0.25, 2)), 0.75, 3);
  }

  lemma FourWindows(par: Params, o: CardState, a: Reading, b: Reading, c: Reading, d: Reading) returns (s: CardState)
    ensures s == Windows(par, o, [a, b, c, d])
    ensures s == Observed(par, Observed(par, Observed(par, Observed(par, o, a), b), c), d)
  {
    WindowsMore(par, o, [], a);
    WindowsMore(par, o, [a], b);
    WindowsMore(par, o, [a, b], c);
    WindowsMore(par, o, [a, b, c], d);
    assert [] + [a] == [a] && [a] + [b] == [a, b] && [a, b] + [c] == [a, b, c] && [a, b, c] + [d] == [a, b, c, d];
    s := Windows(par, o, [a, b, c, d]);
  }

  /** The law's text says a violating window never cuts the integral. From registration on, four windows
      at a violation of 0.25, then one at 1.0, then one at 0.8: the last one's violation falls, and it
      cuts an integral of 1 to 0.625, though the episode allows 2. */
  lemma MemoryCanBeCut()
    ensures CUT.Valid()
    ensures
      var s := Windows(CUT, NEW, QUARTERS + [Plain(1.0, 4)]);
      var t := Windows(CUT, NEW, QUARTERS + [Plain(1.0, 4)] + [Plain(0.8, 5)]);
      s.integral == 1.0 && 0.0 < t.violation < s.violation && t.integral == 0.625 && t.episode == 2.0
  {
    var s := MemoryBuilds();
    WindowsMore(CUT, NEW, QUARTERS, Plain(1.0, 4));
    WindowMoves(CUT, s, 1.0, 4);
    WindowsMore(CUT, NEW, QUARTERS + [Plain(1.0, 4)], Plain(0.8, 5));
    WindowMoves(CUT, Observed(CUT, s, Plain(1.0, 4)), 0.8, 5);
  }

  // ----- Feed-forward and memory -----

  /** Two cards alike but for the price a market moved: their next integrals differ exactly when
      one price is at the window's bound and the other is not, and the window would integrate. So
      a forecast does reach the memory, through the hold at the cap. */
  lemma MarketReachesMemory(par: Params, s: CardState, price: real, v: real)
    requires par.Valid() && CardOk(par.cap, s) && v > 0.0
    ensures NextIntegral(par, s, v) != NextIntegral(par, s.(price := price), v) <==>
            && OwnBound(par.cap, s.price, v) != OwnBound(par.cap, price, v)
            && !WindingUp(par, s, v) && Kept(par, s, v) != par.cap / v
  {
    assert par.eta * v > 0.0;
  }

  /** One forecast that has settled by the second window leaves a different integral behind. */
  lemma SettledForecastLeavesTrace()
    ensures exists par: Params, s: CardState, hot: Reading, cold: Reading, last: Reading ::
              && par.Valid() && CardOk(par.cap, s) && hot == cold.(anticipated := Some(1.0))
              && last.anticipated.None?
              && Observed(par, Observed(par, s, hot), last).integral
                 != Observed(par, Observed(par, s, cold), last).integral
  {
    var par := Params(0.125, 1.0, 0.5, 1, 0.25, 0.0);
    var cold, last := Plain(1.0, 0), Plain(1.0, 1);
    var hot := cold.(anticipated := Some(1.0));
    OneForecast(par, NEW, hot);
    OneForecast(par, NEW, cold);
    HeldOrGrown(par, Observed(par, NEW, hot), last);
    HeldOrGrown(par, Observed(par, NEW, cold), last);
  }

  /** A first window at a violation of 1: a forecast that it doubles takes the price to its bound. */
  lemma OneForecast(par: Params, s: CardState, r: Reading)
    requires par == Params(0.125, 1.0, 0.5, 1, 0.25, 0.0) && s == NEW
    requires r == Plain(1.0, 0) || r == Plain(1.0, 0).(anticipated := Some(1.0))
    ensures
      var t := Observed(par, s, r);
      && t.region == s.region && t.violation == 1.0 && t.integral == 0.125 && t.episode == 0.5
      && t.price == if r.anticipated.Some? then 0.5 else 0.375
  {
    assert Violated(s, r) == 1.0;
    assert NextIntegral(par, s, 1.0) == 0.125;
    assert LawOf(par, s, r).p == 0.25 && LawOf(par, s, r).d == 0.0;
  }

  /** A second such window holds the integral exactly at the bound. */
  lemma HeldOrGrown(par: Params, s: CardState, last: Reading)
    requires par == Params(0.125, 1.0, 0.5, 1, 0.25, 0.0) && last == Plain(1.0, 1)
    requires s.region == Some(AtMost(0.0, 1.0)) && s.violation == 1.0 && s.integral == 0.125 && s.episode == 0.5
    ensures Observed(par, s, last).integral == if s.price >= 0.5 then 0.125 else 0.25
  {
    assert Violated(s, last) == 1.0;
  }

  // ----- Moves between windows -----

  lemma AdoptedOk(par: Params, s: CardState, price: real)
    requires par.Valid() && CardOk(par.cap, s) && price >= 0.0
    ensures CardOk(par.cap, Adopted(par, s, price))
  {
  }

  lemma RatchetedOk(par: Params, s: CardState, step: real)
    requires par.Valid() && CardOk(par.cap, s) && step > 0.0
    ensures CardOk(par.cap, Ratcheted(par, s, step))
    ensures Ratcheted(par, s, step).price >= s.price
  {
    assert step * (s.failing + 1) as real > 0.0;
    if s.violation > 0.0 { BoundTimes(par.cap, s.violation, 0.0); }
  }

  lemma RedefinedOk(par: Params, s: CardState, window: Option<int>)
    requires par.Valid() && CardOk(par.cap, s)
    ensures CardOk(par.cap, Redefined(s, window))
  {
  }

  /** The reading of the pressure on the card's roles is the card's own pressure. */
  predicate OwnReading(cap: real, s: CardState) {
    s.pressure == Pressure(s.price, s.violation, cap)
  }

  /** With no reading of other cards, the published pressure stays the card's own through windows,
      adoptions and ratchets. A redefinition leaves the old metric's reading standing: the pressure
      is the card's own after it exactly when it was zero. */
  lemma OwnReadingKept(par: Params, s: CardState, r: Reading, price: real, step: real, window: Option<int>)
    requires par.Valid() && CardOk(par.cap, s) && price >= 0.0 && step > 0.0 && r.holdout >= 0.0
    ensures r.total.None? ==> OwnReading(par.cap, Observed(par, s, r))
    ensures OwnReading(par.cap, s) ==>
              OwnReading(par.cap, Adopted(par, s, price)) && OwnReading(par.cap, Ratcheted(par, s, step))
    ensures OwnReading(par.cap, Redefined(s, window)) <==> s.pressure == 0.0
  {
    ObservedOk(par, s, r);
    RatchetedOk(par, s, step);
    PressureIsCappedProduct(PriceOf(par, s, r), Violated(s, r), par.cap);
    PressureIsCappedProduct(price, s.violation, par.cap);
    PressureIsCappedProduct(Ratcheted(par, s, step).price, s.violation, par.cap);
  }

  // ----- Closed forms -----

  /** What n ratchets from duration d add: step times d+1, d+2, ..., d+n. */
  function Raises(step: real, d: nat, n: nat): real {
    if n == 0 then 0.0 else Raises(step, d, n - 1) + step * (d + n) as real
  }

  lemma {:induction false} RaisesClosed(step: real, d: nat, n: nat)
    requires step > 0.0
    ensures 2.0 * Raises(step, d, n) == step * (2 * n * d + n * (n + 1)) as real
    ensures Raises(step, d, n) >= 0.0
  {
    if n > 0 {
      RaisesClosed(step, d, n - 1);
      var a, b := (2 * (n - 1) * d + (n - 1) * n) as real, (d + n) as real;
      assert 2 * n * d + n * (n + 1) == 2 * (n - 1) * d + (n - 1) * n + 2 * (d + n);
      assert (2 * n * d + n * (n + 1)) as real == a + 2.0 * b;
      assert step * (a + 2.0 * b) == step * a + 2.0 * (step * b);
      assert step * b >= 0.0;
    }
  }

  function Ratchets(par: Params, s: CardState, step: real, n: nat): CardState {
    if n == 0 then s else Ratcheted(par, Ratchets(par, s, step, n - 1), step)
  }

  predicate Reaches(bound: Option<real>, price: real) {
    bound.Some? && price >= bound.value
  }

  /** Where a ratchet of the given duration takes a price, under a bound. */
  function RatchetPrice(bound: Option<real>, price: real, step: real, duration: nat): real {
    if Reaches(bound, price) then price else Capped(bound, price + step * duration as real)
  }

  lemma RatchetMove(par: Params, s: CardState, step: real)
    ensures var t := Ratcheted(par, s, step);
      && t.failing == s.failing + 1 && t.violation == s.violation
      && t.price == RatchetPrice(Bound(par.cap, s.violation), s.price, step, s.failing + 1)
  {
  }

  /** The prices alone of n ratchets under a fixed bound. */
  function RatchetPrices(bound: Option<real>, price: real, step: real, d: nat, n: nat): real {
    if n == 0 then price
    else
      RatchetPrice(bound, RatchetPrices(bound, price, step, d, n - 1), step, d + n)
  }

  lemma {:induction false} RatchetPricesClosed(bound: Option<real>, price: real, step: real, d: nat, n: nat)
    requires step > 0.0 && !Reaches(bound, price)
    ensures RatchetPrices(bound, price, step, d, n) == Capped(bound, price + Raises(step, d, n))
  {
    if n > 0 {
      RatchetPricesClosed(bound, price, step, d, n - 1);
      assert step * (d + n) as real > 0.0;
    }
  }

  lemma {:induction false} RatchetsFollowPrices(par: Params, s: CardState, step: real, n: nat)
    requires par.Valid()
    ensures var t := Ratchets(par, s, step, n);
      && t.failing == s.failing + n && t.violation == s.violation
      && t.price == RatchetPrices(Bound(par.cap, s.violation), s.price, step, s.failing, n)
  {
    if n > 0 {
      RatchetsFollowPrices(par, s, step, n - 1);
      RatchetMove(par, Ratchets(par, s, step, n - 1), step);
    }
  }

  /** The ratchet prices the duration of failure: n ratchets from duration d raise a price below its
      bound by what RaisesClosed states, up to the bound. */
  lemma RatchetClosedForm(par: Params, s: CardState, step: real, n: nat)
    requires par.Valid() && step > 0.0 && !Saturated(par, s)
    ensures var t := Ratchets(par, s, step, n);
      && t.failing == s.failing + n && t.violation == s.violation
      && t.price == Capped(Bound(par.cap, s.violation), s.price + Raises(step, s.failing, n))
  {
    RatchetsFollowPrices(par, s, step, n);
    RatchetPricesClosed(Bound(par.cap, s.violation), s.price, step, s.failing, n);
  }

  /** The integrals alone. */
  function RatchetIntegrals(bound: Option<real>, price: real, integral: real, step: real, d: nat, n: nat): real {
    if n == 0 then integral
    else
      RatchetIntegral(bound, RatchetPrices(bound, price, step, d, n - 1),
                      RatchetIntegrals(bound, price, integral, step, d, n - 1), step, d + n)
  }

  /** Where a ratchet of the given duration takes an integral, under a bound on the price. */
  function RatchetIntegral(bound: Option<real>, price: real, integral: real, step: real, duration: nat): real {
    if Reaches(bound, price) then integral else Capped(bound, integral + step * duration as real)
  }

  lemma {:induction false} RatchetIntegralsClosed(bound: Option<real>, price: real, integral: real, step: real,
                                                  d: nat, n: nat)
    requires step > 0.0 && !Reaches(bound, price) && (bound.Some? ==> integral <= price)
    ensures RatchetIntegrals(bound, price, integral, step, d, n)
      == if n == 0 || !Reaches(bound, RatchetPrices(bound, price, step, d, n - 1))
         then Capped(bound, integral + Raises(step, d, n))
         else RatchetIntegrals(bound, price, integral, step, d, n - 1)
  {
    if n > 0 && !Reaches(bound, RatchetPrices(bound, price, step, d, n - 1)) {
      RatchetPricesClosed(bound, price, step, d, n - 1);
      RatchetIntegralsClosed(bound, price, integral, step, d, n - 1);
      CappedOnce(bound, price, integral, Raises(step, d, n - 1), step * (d + n) as real);
    }
  }

  lemma CappedOnce(bound: Option<real>, price: real, integral: real, raises: real, raise: real)
    requires bound.Some? ==> integral <= price && Capped(bound, price + raises) < bound.value
    ensures Capped(bound, Capped(bound, integral + raises) + raise) == Capped(bound, integral + (raises + raise))
  {
  }

  lemma RatchetKeeps(par: Params, s: CardState, step: real)
    ensures Ratcheted(par, s, step).integral
      == RatchetIntegral(Bound(par.cap, s.violation), s.price, s.integral, step, s.failing + 1)
  {
  }

  lemma {:induction false} RatchetsFollowIntegrals(par: Params, s: CardState, step: real, n: nat)
    requires par.Valid()
    ensures Ratchets(par, s, step, n).integral
      == RatchetIntegrals(Bound(par.cap, s.violation), s.price, s.integral, step, s.failing, n)
  {
    if n > 0 {
      RatchetsFollowIntegrals(par, s, step, n - 1);
      RatchetsFollowPrices(par, s, step, n - 1);
      RatchetKeeps(par, Ratchets(par, s, step, n - 1), step);
    }
  }

  lemma SaturatedMeans(par: Params, s: CardState)
    ensures Saturated(par, s) <==> Reaches(Bound(par.cap, s.violation), s.price)
  {
  }

  lemma UnsaturatedFloor(par: Params, s: CardState)
    requires CardOk(par.cap, s) && !Saturated(par, s)
    ensures Bound(par.cap, s.violation).Some? ==> s.integral <= s.price
  {
  }

  /** The memory follows the price: the ratchet that first reaches the bound, and each before it, leaves
      the integral at what it was plus all the raises, up to the bound; from there on it stays. */
  lemma RatchetMemory(par: Params, s: CardState, step: real, n: nat)
    requires par.Valid() && CardOk(par.cap, s) && step > 0.0 && !Saturated(par, s)
    ensures
      var t := Ratchets(par, s, step, n);
      if n == 0 || !Saturated(par, Ratchets(par, s, step, n - 1))
      then t.integral == Capped(Bound(par.cap, s.violation), s.integral + Raises(step, s.failing, n))
      else t.integral == Ratchets(par, s, step, n - 1).integral
  {
    SaturatedMeans(par, s);
    UnsaturatedFloor(par, s);
    RatchetsFollowIntegrals(par, s, step, n);
    RatchetIntegralsClosed(Bound(par.cap, s.violation), s.price, s.integral, step, s.failing, n);
    if n > 0 {
      RatchetsFollowIntegrals(par, s, step, n - 1);
      RatchetsFollowPrices(par, s, step, n - 1);
      SaturatedMeans(par, Ratchets(par, s, step, n - 1));
    }
  }

  /** From saturation on nothing but the duration moves. */
  lemma {:induction false} SaturatedRatchetOnlyCounts(par: Params, s: CardState, step: real, n: nat)
    requires par.Valid() && Saturated(par, s)
    ensures Ratchets(par, s, step, n) == s.(failing := s.failing + n)
  {
    if n > 0 { SaturatedRatchetOnlyCounts(par, s, step, n - 1); }
  }

  function Windows(par: Params, s: CardState, rs: seq<Reading>): CardState {
    if rs == [] then s else Observed(par, Windows(par, s, rs[..|rs| - 1]), rs[|rs| - 1])
  }

  predicate Compliant(s: CardState, r: Reading) {
    Violated(s, r) == 0.0
  }

  function Clamped(s: CardState): real {
    if s.episode > 0.0 then MinR(s.integral, s.episode) else s.integral
  }

  /** One compliant window leaks one decay from the clamped integral, and prices the card at it. */
  lemma CompliantWindow(par: Params, s: CardState, r: Reading)
    requires par.Valid() && CardOk(par.cap, s) && Compliant(s, r)
    ensures var t := Observed(par, s, r);
      && t.region == s.region && t.violation == 0.0 && t.episode == 0.0
      && t.price == t.integral == MaxR(0.0, Clamped(s) - par.decay)
  {
    RequestedAboveIntegral(par, s, r.value, 0.0, r.anticipated);
  }

  function Leaked(x: real, decay: real, k: nat): real {
    if k == 0 then x else MaxR(0.0, Leaked(x, decay, k - 1) - decay)
  }

  /** k decays take x to zero. */
  predicate LeakCovers(x: real, decay: real, k: nat) {
    k as real * decay >= x
  }

  lemma {:induction false} LeakedClosed(x: real, decay: real, k: nat)
    requires decay > 0.0 && x >= 0.0
    ensures Leaked(x, decay, k) == MaxR(0.0, x - k as real * decay)
    ensures Leaked(x, decay, k) == 0.0 <==> LeakCovers(x, decay, k)
  {
    if k > 0 {
      LeakedClosed(x, decay, k - 1);
      assert k as real * decay == (k - 1) as real * decay + decay;
    }
  }

  /** k compliant windows leak k decays from the integral, which the first of them clamps to the
      largest bound of the episode it ends; the price is the integral throughout. */
  lemma {:induction false} ComplianceClosedForm(par: Params, s: CardState, rs: seq<Reading>)
    requires par.Valid() && CardOk(par.cap, s) && rs != []
    requires forall r <- rs :: Compliant(s, r) && r.holdout >= 0.0
    ensures var t := Windows(par, s, rs);
      && CardOk(par.cap, t) && t.region == s.region && t.violation == 0.0 && t.episode == 0.0
      && t.price == t.integral == Leaked(Clamped(s), par.decay, |rs|)
  {
    var before, last := rs[..|rs| - 1], rs[|rs| - 1];
    var p := Windows(par, s, before);
    if before != [] {
      ComplianceClosedForm(par, s, before);
    }
    assert Compliant(s, last);
    ObservedOk(par, p, last);
    CompliantWindow(par, p, last);
  }

  /** So with a positive decay every price reaches zero, exactly once the leak has covered the
      clamped integral. */
  lemma PricesReachZero(par: Params, s: CardState, rs: seq<Reading>)
    requires par.Valid() && par.decay > 0.0 && CardOk(par.cap, s) && rs != []
    requires forall r <- rs :: Compliant(s, r) && r.holdout >= 0.0
    ensures Windows(par, s, rs).price == 0.0 <==> LeakCovers(Clamped(s), par.decay, |rs|)
  {
    ComplianceClosedForm(par, s, rs);
    LeakedClosed(Clamped(s), par.decay, |rs|);
  }

  // ----- Units -----

  lemma ScaledOrder(a: real, b: real, k: real)
    requires k > 0.0
    ensures a * k < b * k <==> a < b
    ensures (a - b) * k == a * k - b * k
  {
    if a < b { LessScales(a, b, k); } else if b < a { LessScales(b, a, k); }
  }

  lemma SameQuotient(v: real, a: real, b: real, w: real, c: real, d: real, k: real)
    requires k > 0.0 && b > 0.0 && c == a * k && d == b * k && v * b == a && w * d == c
    ensures v == w
  {
    assert (w - v) * d == 0.0 by {
      assert v * d == v * b * k == a * k;
    }
    assert d > 0.0;
  }

  lemma ScaledAbs(a: real, k: real)
    requires k > 0.0
    ensures AbsR(a * k) == AbsR(a) * k
    ensures a != 0.0 ==> a * k != 0.0
  {
    ScaledOrder(a, 0.0, k);
    ScaledOrder(0.0, a, k);
    assert (-a) * k == -(a * k);
  }

  lemma ScaledScale(r: CardRegion, k: real)
    requires k > 0.0
    requires (r.AtMost? ==> r.hi != 0.0) && (r.AtLeast? ==> r.lo != 0.0)
    ensures Relative(InUnits(r, k)).scale == Relative(r).scale * k
  {
    match r
    case AtMost(hi, _) => ScaledAbs(hi, k);
    case AtLeast(lo, _) => ScaledAbs(lo, k);
    case Band(lo, hi, _) => ScaledOrder(hi, lo, k);
  }

  lemma ScaledDistance(r: CardRegion, value: real, k: real)
    requires k > 0.0
    ensures Distance(InUnits(r, k), value * k) == Distance(r, value) * k
  {
    if r.AtMost? {
      ScaledAbove(r, value, k);
    } else if r.AtLeast? {
      ScaledBelow(r, value, k);
    } else {
      ScaledOutside(r, value, k);
    }
  }

  lemma ScaledAbove(r: CardRegion, value: real, k: real)
    requires k > 0.0 && r.AtMost?
    ensures Distance(InUnits(r, k), value * k) == Distance(r, value) * k
  {
    ScaledOver(r.hi, value, k);
  }

  lemma ScaledBelow(r: CardRegion, value: real, k: real)
    requires k > 0.0 && r.AtLeast?
    ensures Distance(InUnits(r, k), value * k) == Distance(r, value) * k
  {
    ScaledOver(value, r.lo, k);
  }

  lemma ScaledOutside(r: CardRegion, value: real, k: real)
    requires k > 0.0 && r.Band?
    ensures Distance(InUnits(r, k), value * k) == Distance(r, value) * k
  {
    ScaledOver(value, r.lo, k);
    ScaledOver(r.hi, value, k);
    ScaledOrder(value, r.lo, k);
    ScaledOrder(r.hi, value, k);
  }

  /** How far one value is over another. */
  function Over(a: real, b: real): real {
    if b > a then b - a else 0.0
  }

  lemma ScaledOver(a: real, b: real, k: real)
    requires k > 0.0
    ensures Over(a * k, b * k) == Over(a, b) * k
  {
    ScaledOrder(a, b, k);
    ScaledOrder(b, a, k);
  }

  lemma RelativeViolation(r: CardRegion, value: real)
    ensures Violation(Relative(r), value) * Relative(r).scale == Distance(r, value)
  {
    assert Distance(Relative(r), value) == Distance(r, value);
  }

  /** Normalized by its own bounds, a region with a nonzero bound prices a breach alike in any units. */
  lemma RelativeRegionHasNoUnits(r: CardRegion, value: real, k: real)
    requires k > 0.0
    requires (r.AtMost? ==> r.hi != 0.0) && (r.AtLeast? ==> r.lo != 0.0)
    ensures Violation(Relative(InUnits(r, k)), value * k) == Violation(Relative(r), value)
  {
    ScaledScale(r, k);
    ScaledDistance(r, value, k);
    SameViolation(r, InUnits(r, k), value, value * k, k);
  }

  lemma SameViolation(r: CardRegion, q: CardRegion, x: real, y: real, k: real)
    requires k > 0.0 && Distance(q, y) == Distance(r, x) * k && Relative(q).scale == Relative(r).scale * k
    ensures Violation(Relative(q), y) == Violation(Relative(r), x)
  {
    RelativeViolation(r, x);
    RelativeViolation(q, y);
    SameQuotient(Violation(Relative(r), x), Distance(r, x), Relative(r).scale,
                 Violation(Relative(q), y), Distance(q, y), Relative(q).scale, k);
  }
}
