/** The price law of one metric card: regions, violations, the clipped PID step, the ratchet
    and the restart of a redefined card, as functions over an immutable card state.
    Numbers are exact reals; the holding of overflowing floats is left out. */
module PriceLaw {
  import opened Options

  function MinR(a: real, b: real): real { if a <= b then a else b }
  function MaxR(a: real, b: real): real { if a >= b then a else b }
  function AbsR(a: real): real { if a < 0.0 then -a else a }

  // ----- Regions -----

  /** The bounds a region ignores (the lower one of a maximum, the upper one of a minimum) are
      not kept. */
  datatype Region =
    | AtMost(hi: real, scale: real)
    | AtLeast(lo: real, scale: real)
    | Band(lo: real, hi: real, scale: real)

  type CardRegion = r: Region | r.scale > 0.0 && (r.Band? ==> r.lo < r.hi) witness AtMost(0.0, 1.0)

  predicate Inside(r: Region, value: real) {
    match r
    case AtMost(hi, _) => value <= hi
    case AtLeast(lo, _) => lo <= value
    case Band(lo, hi, _) => lo <= value <= hi
  }

  function Distance(r: Region, value: real): real {
    match r
    case AtMost(hi, _) => if value > hi then value - hi else 0.0
    case AtLeast(lo, _) => if value < lo then lo - value else 0.0
    case Band(lo, hi, _) => if value < lo then lo - value else if value > hi then value - hi else 0.0
  }

  function Violation(r: CardRegion, value: real): (v: real)
    ensures v >= 0.0
    ensures v == 0.0 <==> Inside(r, value)
  {
    Distance(r, value) / r.scale
  }

  function Relative(r: CardRegion): (s: CardRegion) {
    match r
    case AtMost(hi, scale) => AtMost(hi, if hi != 0.0 then AbsR(hi) else scale)
    case AtLeast(lo, scale) => AtLeast(lo, if lo != 0.0 then AbsR(lo) else scale)
    case Band(lo, hi, scale) => Band(lo, hi, hi - lo)
  }

  /** A region stated in units `k` times smaller. */
  function InUnits(r: CardRegion, k: real): CardRegion
    requires k > 0.0
  {
    match r
    case AtMost(hi, scale) => AtMost(hi * k, scale)
    case AtLeast(lo, scale) => AtLeast(lo * k, scale)
    case Band(lo, hi, scale) => LessScales(lo, hi, k); Band(lo * k, hi * k, scale)
  }

  lemma LessScales(a: real, b: real, k: real)
    requires a < b && k > 0.0
    ensures a * k < b * k
  {
    assert (b - a) * k > 0.0;
  }

  // ----- Parameters and card state -----

  datatype Params = Params(eta: real, decay: real, cap: real, separation: int, kp: real, kd: real) {
    /** What the constructor checks, but for the decay, which can later be assigned any value. */
    predicate Valid() {
      eta > 0.0 && 0.0 < cap < 1.0 && separation >= 1 && kp >= 0.0 && kd >= 0.0
    }
  }

  datatype CardState = CardState(
    region: Option<CardRegion>,
    price: real,
    updates: nat,
    saturations: nat,
    maxStep: real,
    lastWindow: Option<int>,
    violation: real,
    integral: real,
    episode: real,
    lastValue: Option<real>,
    failing: nat,
    atBound: nat,
    saturatedRun: nat,
    violationRun: nat,
    pressure: real,
    declared: Option<real>)

  function Fresh(region: Option<CardRegion>): CardState {
    CardState(region, 0.0, 0, 0, 0.0, None, 0.0, 0.0, 0.0, None, 0, 0, 0, 0, 0.0, None)
  }

  // ----- Bounds and pressure -----

  function Bound(cap: real, v: real): Option<real> {
    if v > 0.0 then Some(cap / v) else None
  }

  predicate OwnBound(cap: real, price: real, v: real) {
    v > 0.0 && price >= cap / v
  }

  predicate Presses(cap: real, price: real, v: real, total: real) {
    v > 0.0 && (price >= cap / v || total >= cap)
  }

  function Pressure(price: real, v: real, cap: real): real {
    if v <= 0.0 then 0.0 else if price >= cap / v then cap else price * v
  }

  /** What a card presses on the reward is its price times its violation, and never more than the
      cap, however large an adopted price is. */
  lemma PressureIsCappedProduct(price: real, v: real, cap: real)
    requires cap > 0.0
    ensures v > 0.0 ==> Pressure(price, v, cap) == MinR(price * v, cap)
    ensures v <= 0.0 ==> Pressure(price, v, cap) == 0.0
    ensures price >= 0.0 ==> 0.0 <= Pressure(price, v, cap) <= cap
  {
    if v > 0.0 { BoundTimes(cap, v, price); }
  }

  lemma BoundTimes(cap: real, v: real, price: real)
    requires cap > 0.0 && v > 0.0
    ensures cap / v > 0.0 && (cap / v) * v == cap
    ensures price >= cap / v <==> price * v >= cap
    ensures price >= 0.0 ==> price * v >= 0.0
  {
    var b := cap / v;
    assert b * v == cap;
    if price >= b {
      assert (price - b) * v >= 0.0;
    } else {
      assert (b - price) * v > 0.0;
    }
  }

  function Repriced(s: CardState, price: real, cap: real): real {
    MaxR(0.0, s.pressure - Pressure(s.price, s.violation, cap) + Pressure(price, s.violation, cap))
  }

  // ----- The PID step -----

  datatype Terms = Terms(p: real, i: real, d: real, f: Option<real>)

  function Derivative(par: Params, s: CardState, value: real, v: real): real {
    if v > 0.0 && s.lastValue.Some? && s.region.Some? then
      var r := s.region.value;
      var sign := match r
                  case Band(lo, hi, _) => if value > hi then 1.0 else -1.0
                  case AtMost(_, _) => 1.0
                  case AtLeast(_, _) => -1.0;
      MaxR(0.0, par.kd * sign * ((value - s.lastValue.value) / r.scale))
    else 0.0
  }

  /** The largest own bound of the failure episode a window of violation `v` falls in. */
  function Episode(par: Params, s: CardState, v: real): real {
    if v > 0.0 then MaxR(s.episode, par.cap / v) else 0.0
  }

  /** The integral a violating window starts from: never above its episode's largest bound. */
  function Kept(par: Params, s: CardState, v: real): real {
    MinR(Episode(par, s, v), s.integral)
  }

  /** Saturated high before any new integration, and still climbing. */
  predicate WindingUp(par: Params, s: CardState, v: real)
    requires v > 0.0
  {
    par.kp * v + Kept(par, s, v) >= par.cap / v && v > s.violation
  }

  function NextIntegral(par: Params, s: CardState, v: real): real {
    if v <= 0.0 then
      var kept := if s.episode > 0.0 then MinR(s.integral, s.episode) else s.integral;
      MaxR(0.0, kept - par.decay)
    else if OwnBound(par.cap, s.price, v) || WindingUp(par, s, v) then Kept(par, s, v)
    else MinR(par.cap / v, Kept(par, s, v) + par.eta * v)
  }

  function Law(par: Params, s: CardState, value: real, v: real, anticipated: Option<real>): Terms {
    Terms(par.kp * v, NextIntegral(par, s, v), Derivative(par, s, value, v),
          if anticipated.Some? && v > 0.0 then Some(par.kp * MaxR(anticipated.value, -v)) else None)
  }

  function Requested(t: Terms): real {
    t.p + t.i + t.d + (if t.f.Some? then t.f.value else 0.0)
  }

  function Clip(bound: Option<real>, requested: real): real {
    if bound.None? then MaxR(0.0, requested) else MinR(bound.value, MaxR(0.0, requested))
  }

  function Outside(bound: Option<real>, requested: real): bool {
    requested < 0.0 || (bound.Some? && requested > bound.value)
  }

  /** One settled window, as the caller reports it. */
  datatype Reading = Reading(value: real, window: int, holdout: real, anticipated: Option<real>,
                             total: Option<real>, charged: Option<real>)

  function Violated(s: CardState, r: Reading): real {
    (if s.region.Some? then Violation(s.region.value, r.value) else 0.0) + r.holdout
  }

  function LawOf(par: Params, s: CardState, r: Reading): Terms {
    Law(par, s, r.value, Violated(s, r), r.anticipated)
  }

  function PriceOf(par: Params, s: CardState, r: Reading): real {
    Clip(Bound(par.cap, Violated(s, r)), Requested(LawOf(par, s, r)))
  }

  predicate AtBoundOf(par: Params, s: CardState, r: Reading) {
    Presses(par.cap, PriceOf(par, s, r), Violated(s, r),
            if r.total.Some? then r.total.value else 0.0)
  }

  function Observed(par: Params, s: CardState, r: Reading): CardState {
    var v := Violated(s, r);
    var price := PriceOf(par, s, r);
    var before := Pressure(s.price, v, par.cap);
    var atBound := AtBoundOf(par, s, r);
    s.(price := price,
       updates := s.updates + 1,
       saturations := s.saturations
         + (if Outside(Bound(par.cap, v), Requested(LawOf(par, s, r))) then 1 else 0),
       maxStep := MaxR(s.maxStep, AbsR(price - s.price)),
       lastWindow := Some(r.window),
       violation := v,
       integral := NextIntegral(par, s, v),
       episode := Episode(par, s, v),
       lastValue := Some(r.value),
       atBound := s.atBound + (if atBound then 1 else 0),
       saturatedRun := if atBound then s.saturatedRun + 1 else 0,
       violationRun := if v > 0.0 then s.violationRun + 1 else 0,
       pressure := MaxR(0.0, (if r.total.Some? then r.total.value else before)
                             - before + Pressure(price, v, par.cap)))
  }

  // ----- Moves between windows -----

  function Adopted(par: Params, s: CardState, price: real): CardState {
    s.(price := price, integral := price, declared := Some(price),
       pressure := Repriced(s, price, par.cap))
  }

  function Capped(bound: Option<real>, x: real): real {
    if bound.Some? then MinR(bound.value, x) else x
  }

  predicate Saturated(par: Params, s: CardState) {
    OwnBound(par.cap, s.price, s.violation)
  }

  function Ratcheted(par: Params, s: CardState, step: real): CardState {
    var duration := s.failing + 1;
    if Saturated(par, s) then s.(failing := duration)
    else
      var bound := Bound(par.cap, s.violation);
      var raised := step * duration as real;
      var price := Capped(bound, s.price + raised);
      s.(price := price, integral := Capped(bound, s.integral + raised), failing := duration,
         pressure := Repriced(s, price, par.cap))
  }

  function Start(s: CardState): real {
    if s.declared.None? then s.price else s.declared.value
  }

  function Redefined(s: CardState, window: Option<int>): CardState {
    s.(lastWindow := if window.Some? then window else s.lastWindow,
       price := Start(s), integral := Start(s), failing := 0, episode := 0.0,
       violationRun := 0, saturatedRun := 0, lastValue := None, violation := 0.0)
  }
}
