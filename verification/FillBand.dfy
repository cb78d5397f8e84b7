/** The profit and loss of a tape's fills: a position per coin at average cost, and the sums. */
module FillBand {
  import opened Options

  datatype Event =
    | Mid(coin: string, mid: real)
    | Funding(amount: int)
    | Fill(coin: string, isBuy: bool, size: real, px: real, realized: int, fee: int, notional: int)
    | Other

  /** A signed size and the price it was entered at. */
  datatype Position = Position(held: real, entry: real)

  datatype Band = Band(
    fills: nat, notional: int, realized: int, fees: int, funding: int, unrealized: int,
    pnl: int, pessimistic: int, extra: int)

  const FLAT := Position(0.0, 0.0)

  const MICRO := 1000000.0

  function Abs(x: real): real {
    if x < 0.0 then -x else x
  }

  function Signed(e: Event): real
    requires e.Fill?
  {
    if e.isBuy then e.size else -e.size
  }

  /** The position after a fill: an increase averages, a reduction keeps the entry, a fill through
      zero opens at its own price, and an exact close is flat. */
  function Filled(p: Position, signed: real, size: real, px: real): Position {
    var after := p.held + signed;
    var entry :=
      if p.held == 0.0 || (p.held > 0.0) == (signed > 0.0) then
        if after != 0.0 then (p.entry * Abs(p.held) + px * size) / Abs(after) else 0.0
      else if (after > 0.0) != (p.held > 0.0) && after != 0.0 then px
      else p.entry;
    Position(after, if after != 0.0 then entry else 0.0)
  }

  function Floor(x: real): int {
    x.Floor
  }

  /** Half to even. */
  function Nearest(x: real): int {
    var f := Floor(x);
    var rest := x - f as real;
    if rest < 0.5 then f else if rest > 0.5 then f + 1 else if f % 2 == 0 then f else f + 1
  }

  /** USD to the nearest micro-USD. */
  function Micros(usd: real): int {
    Nearest(usd * MICRO)
  }

  function Ceiling(x: real): int {
    -Floor(-x)
  }

  function Spread(coin: string, spreads: map<string, real>): real {
    if coin in spreads then spreads[coin] else 0.0
  }

  // ----- What the tape says, coin by coin -----

  /** A coin's fills so far: its position, what they realized at average cost, what they cost in all
      (signed size times price), and their net size. */
  datatype Account = Account(position: Position, earned: real, outlay: real, net: real)

  const OPENED := Account(FLAT, 0.0, 0.0, 0.0)

  /** What a fill realizes at average cost: the part it closes, at its price against the entry. */
  function AverageCost(p: Position, signed: real, px: real): real {
    if p.held == 0.0 || (p.held > 0.0) == (signed > 0.0) then 0.0
    else
      var closed := if Abs(signed) < Abs(p.held) then signed else -p.held;
      (p.entry - px) * closed
  }

  function Recorded(a: Account, e: Event, coin: string): Account {
    if e.Fill? && e.coin == coin then
      Account(Filled(a.position, Signed(e), e.size, e.px),
              a.earned + AverageCost(a.position, Signed(e), e.px),
              a.outlay + Signed(e) * e.px,
              a.net + Signed(e))
    else a
  }

  function RecordOn(coin: string): (Account, Event) -> Account {
    (a, e) => Recorded(a, e, coin)
  }

  function Fold(events: seq<Event>, a: Account, step: (Account, Event) -> Account): Account {
    if events == [] then a else step(Fold(events[..|events| - 1], a, step), events[|events| - 1])
  }

  function AccountOf(events: seq<Event>, coin: string): Account {
    Fold(events, OPENED, RecordOn(coin))
  }

  function PositionOf(events: seq<Event>, coin: string): Position {
    AccountOf(events, coin).position
  }

  function LastMid(events: seq<Event>, coin: string): Option<real> {
    if events == [] then None
    else
      var e := events[|events| - 1];
      if e.Mid? && e.coin == coin then Some(e.mid) else LastMid(events[..|events| - 1], coin)
  }

  /** The coins filled, in the order they first were. */
  function Coins(events: seq<Event>): (r: seq<string>)
    ensures forall i, j :: 0 <= i < j < |r| ==> r[i] != r[j]
  {
    if events == [] then []
    else
      var r := Coins(events[..|events| - 1]);
      var e := events[|events| - 1];
      if e.Fill? && e.coin !in r then r + [e.coin] else r
  }

  function Sum(events: seq<Event>, amount: Event -> int): int {
    if events == [] then 0 else Sum(events[..|events| - 1], amount) + amount(events[|events| - 1])
  }

  function IsFill(e: Event): int { if e.Fill? then 1 else 0 }
  function Realized(e: Event): int { if e.Fill? then e.realized else 0 }
  function Fee(e: Event): int { if e.Fill? then e.fee else 0 }
  function Notional(e: Event): int { if e.Fill? then e.notional else 0 }
  function Paid(e: Event): int { if e.Funding? then -e.amount else 0 }

  /** Half the market's spread on the fill's notional, rounded against the factory. */
  function Slippage(e: Event, spreads: map<string, real>): int {
    if e.Fill? then Ceiling(e.notional as real * (Spread(e.coin, spreads) / 20000.0)) else 0
  }

  function SlippageOn(spreads: map<string, real>): Event -> int {
    e => Slippage(e, spreads)
  }

  /** A position's unrealized result at a price. */
  function Gain(p: Position, mark: real): real {
    (mark - p.entry) * p.held
  }

  function Open(p: Position, mid: Option<real>): int {
    if p.held != 0.0 && mid.Some? then Micros(Gain(p, mid.value)) else 0
  }

  function OpenOver(coins: seq<string>, events: seq<Event>): int {
    if coins == [] then 0
    else
      var c := coins[|coins| - 1];
      OpenOver(coins[..|coins| - 1], events) + Open(PositionOf(events, c), LastMid(events, c))
  }

  // ----- The loop -----

  method Unrealized(ghost events: seq<Event>, order: seq<string>, positions: map<string, Position>,
                    lastMid: map<string, real>) returns (r: int)
    requires positions.Keys == set c <- order
    requires forall c <- positions :: positions[c] == PositionOf(events, c)
    requires forall c :: LastMid(events, c) == if c in lastMid then Some(lastMid[c]) else None
    ensures r == OpenOver(order, events)
  {
    r := 0;
    for k := 0 to |order|
      invariant r == OpenOver(order[..k], events)
    {
      var c := order[k];
      assert c in positions && order[..k + 1][..k] == order[..k];
      r := r + Open(positions[c], if c in lastMid then Some(lastMid[c]) else None);
    }
    assert order[..|order|] == order;
  }

  ghost predicate Totals(events: seq<Event>, spreads: map<string, real>, fills: int, notional: int,
                         realized: int, fees: int, funding: int, extra: int) {
    && fills == Sum(events, IsFill) && notional == Sum(events, Notional) && realized == Sum(events, Realized)
    && fees == Sum(events, Fee) && funding == Sum(events, Paid) && extra == Sum(events, SlippageOn(spreads))
  }

  lemma TotalsStep(events: seq<Event>, i: nat, spreads: map<string, real>, fills: int, notional: int,
                   realized: int, fees: int, funding: int, extra: int)
    requires i < |events| && Totals(events[..i], spreads, fills, notional, realized, fees, funding, extra)
    ensures
      var e := events[i];
      Totals(events[..i + 1], spreads, fills + IsFill(e), notional + Notional(e), realized + Realized(e),
             fees + Fee(e), funding + Paid(e), extra + Slippage(e, spreads))
  {
    assert events[..i + 1][..i] == events[..i];
  }

  ghost predicate Follows(events: seq<Event>, positions: map<string, Position>, order: seq<string>) {
    && order == Coins(events) && positions.Keys == (set c <- order)
    && (forall c <- positions :: positions[c] == PositionOf(events, c))
    && (forall c | c !in positions :: PositionOf(events, c) == FLAT)
  }

  ghost predicate Marks(events: seq<Event>, lastMid: map<string, real>) {
    forall c :: LastMid(events, c) == if c in lastMid then Some(lastMid[c]) else None
  }

  function Held(positions: map<string, Position>, coin: string): Position {
    if coin in positions then positions[coin] else FLAT
  }

  function Moved(positions: map<string, Position>, e: Event): map<string, Position> {
    if e.Fill? then positions[e.coin := Filled(Held(positions, e.coin), Signed(e), e.size, e.px)] else positions
  }

  lemma PositionStep(events: seq<Event>, i: nat, coin: string)
    requires i < |events|
    ensures
      var e := events[i];
      var p := PositionOf(events[..i], coin);
      PositionOf(events[..i + 1], coin) == if e.Fill? && e.coin == coin then Filled(p, Signed(e), e.size, e.px) else p
  {
    assert events[..i + 1][..i] == events[..i];
  }

  lemma FollowsStep(events: seq<Event>, i: nat, positions: map<string, Position>, order: seq<string>)
    requires i < |events| && Follows(events[..i], positions, order)
    ensures
      var e := events[i];
      Follows(events[..i + 1], Moved(positions, e),
              if e.Fill? && e.coin !in positions then order + [e.coin] else order)
  {
    assert events[..i + 1][..i] == events[..i];
    forall c
      ensures PositionOf(events[..i + 1], c)
           == if c in Moved(positions, events[i]) then Moved(positions, events[i])[c] else FLAT
    {
      PositionStep(events, i, c);
    }
  }

  lemma MarksStep(events: seq<Event>, i: nat, lastMid: map<string, real>)
    requires i < |events| && Marks(events[..i], lastMid)
    ensures Marks(events[..i + 1], if events[i].Mid? then lastMid[events[i].coin := events[i].mid] else lastMid)
  {
    assert events[..i + 1][..i] == events[..i];
  }

  /** A fill's extra cost. */
  method Slipped(e: Event, spreads: map<string, real>) returns (cost: int)
    requires e.Fill?
    ensures cost == Slippage(e, spreads)
  {
    var half := (if e.coin in spreads then spreads[e.coin] else 0.0) / 20000.0;
    cost := Ceiling(e.notional as real * half);
  }

  /** A fill's effect on its coin's position. */
  method Traded(p: Position, e: Event) returns (q: Position)
    requires e.Fill?
    ensures q == Filled(p, Signed(e), e.size, e.px)
  {
    var signed := if e.isBuy then e.size else -e.size;
    var after, entry := p.held + signed, p.entry;
    if p.held == 0.0 || (p.held > 0.0) == (signed > 0.0) {
      entry := if after != 0.0 then (entry * Abs(p.held) + e.px * e.size) / Abs(after) else 0.0;
    } else if (after > 0.0) != (p.held > 0.0) && after != 0.0 {
      entry := e.px;
    }
    q := Position(after, if after != 0.0 then entry else 0.0);
  }

  /** One pass over the events with running totals and a dict of positions. */
  method Compute(events: seq<Event>, tape: Option<map<string, real>>) returns (r: Option<Band>)
    ensures r.None? <==> tape.None?
    ensures r.Some? ==>
      var b := r.value;
      && b.fills == Sum(events, IsFill) && b.notional == Sum(events, Notional)
      && b.realized == Sum(events, Realized) && b.fees == Sum(events, Fee) && b.funding == Sum(events, Paid)
      && b.unrealized == OpenOver(Coins(events), events)
      && b.pnl == b.realized - b.fees - b.funding + b.unrealized
      && b.extra == Sum(events, SlippageOn(tape.value)) && b.pessimistic == b.pnl - b.extra
  {
    if tape.None? { return None; }
    var spreads := tape.value;
    var realized, fees, funding, extra, notional, fills := 0, 0, 0, 0, 0, 0;
    var positions: map<string, Position>, order: seq<string> := map[], [];
    var lastMid: map<string, real> := map[];
    var i := 0;
    while i < |events|
      invariant 0 <= i <= |events| && fills >= 0
      invariant Totals(events[..i], spreads, fills, notional, realized, fees, funding, extra)
      invariant Follows(events[..i], positions, order) && Marks(events[..i], lastMid)
    {
      var e := events[i];
      TotalsStep(events, i, spreads, fills, notional, realized, fees, funding, extra);
      FollowsStep(events, i, positions, order);
      MarksStep(events, i, lastMid);
      if e.Mid? {
        lastMid := lastMid[e.coin := e.mid];
      } else if e.Funding? {
        funding := funding - e.amount;
      } else if e.Fill? {
        fills, notional := fills + 1, notional + e.notional;
        realized, fees := realized + e.realized, fees + e.fee;
        var cost := Slipped(e, spreads);
        extra := extra + cost;
        var p := if e.coin in positions then positions[e.coin] else Position(0.0, 0.0);
        if e.coin !in positions { order := order + [e.coin]; }
        var q := Traded(p, e);
        positions := positions[e.coin := q];
      }
      i := i + 1;
    }
    assert events[..i] == events;
    var unrealized := Unrealized(events, order, positions, lastMid);
    var pnl := realized - fees - funding + unrealized;
    return Some(Band(fills, notional, realized, fees, funding, unrealized, pnl, pnl - extra, extra));
  }

  // ----- Average cost conserves value -----

  /** Sizes are magnitudes; the side is said apart. */
  ghost predicate Magnitudes(events: seq<Event>) {
    forall e <- events | e.Fill? :: e.size >= 0.0
  }

  /** A property of an account that every step keeps holds after any events. */
  lemma {:induction false} FoldKeeps(events: seq<Event>, a: Account, step: (Account, Event) -> Account,
                                     inv: Account -> bool)
    requires inv(a)
    requires forall x, e | inv(x) && e in events :: inv(step(x, e))
    ensures inv(Fold(events, a, step))
  {
    if events != [] {
      FoldKeeps(events[..|events| - 1], a, step, inv);
    }
  }

  predicate Balanced(a: Account) {
    && a.earned - a.position.entry * a.position.held == -a.outlay
    && a.position.held == a.net && (a.position.held == 0.0 ==> a.position.entry == 0.0)
  }

  lemma RecordedBalances(a: Account, e: Event, coin: string)
    requires Balanced(a) && (e.Fill? ==> e.size >= 0.0)
    ensures Balanced(Recorded(a, e, coin))
  {
  }

  lemma AccountBalances(events: seq<Event>, coin: string)
    requires Magnitudes(events)
    ensures Balanced(AccountOf(events, coin))
  {
    forall a, e | Balanced(a) && e in events
      ensures Balanced(RecordOn(coin)(a, e))
    {
      RecordedBalances(a, e, coin);
    }
    FoldKeeps(events, OPENED, RecordOn(coin), a => Balanced(a));
  }

  /** What was realized plus what is open, valued at a price, is that price times what is held less
      everything paid. */
  predicate Conserved(a: Account, mid: real) {
    && a.earned + (mid - a.position.entry) * a.position.held == mid * a.position.held - a.outlay
    && a.position.held == a.net && (a.position.held == 0.0 ==> a.position.entry == 0.0)
  }

  /** Conservation over any fills, through increases, reductions, exact closes and crossings of
      zero, at every price. */
  lemma AverageCostConserves(events: seq<Event>, coin: string, mid: real)
    requires Magnitudes(events)
    ensures Conserved(AccountOf(events, coin), mid)
  {
    AccountBalances(events, coin);
  }

  predicate Trades(e: Event, coin: string, bought: bool) {
    e.Fill? && e.coin == coin && e.isBuy == bought
  }

  function SizeOf(e: Event, coin: string, bought: bool): real {
    if Trades(e, coin, bought) then e.size else 0.0
  }

  function MoneyOf(e: Event, coin: string, bought: bool): real {
    if Trades(e, coin, bought) then e.size * e.px else 0.0
  }

  /** What was bought, or sold, of a coin. */
  function Size(events: seq<Event>, coin: string, bought: bool): real {
    if events == [] then 0.0
    else Size(events[..|events| - 1], coin, bought) + SizeOf(events[|events| - 1], coin, bought)
  }

  /** And the money that changed hands for it. */
  function Money(events: seq<Event>, coin: string, bought: bool): real {
    if events == [] then 0.0
    else Money(events[..|events| - 1], coin, bought) + MoneyOf(events[|events| - 1], coin, bought)
  }

  lemma OneTrade(a: Account, e: Event, coin: string)
    ensures Recorded(a, e, coin).net == a.net + SizeOf(e, coin, true) - SizeOf(e, coin, false)
    ensures Recorded(a, e, coin).outlay == a.outlay + MoneyOf(e, coin, true) - MoneyOf(e, coin, false)
  {
    if e.Fill? && !e.isBuy { assert -e.size * e.px == -(e.size * e.px); }
  }

  lemma {:induction false} NetAndOutlay(events: seq<Event>, coin: string)
    ensures AccountOf(events, coin).net == Size(events, coin, true) - Size(events, coin, false)
    ensures AccountOf(events, coin).outlay == Money(events, coin, true) - Money(events, coin, false)
  {
    if events != [] {
      var n := |events| - 1;
      NetAndOutlay(events[..n], coin);
      OneTrade(AccountOf(events[..n], coin), events[n], coin);
    }
  }

  /** A position is what was bought less what was sold; and what its fills realized at average cost plus
      what is open, at any price, is that price for the position, less the money paid for what was bought,
      plus the money taken for what was sold. */
  lemma TradesConserve(events: seq<Event>, coin: string, mid: real)
    requires Magnitudes(events)
    ensures
      var a := AccountOf(events, coin);
      && a.position.held == Size(events, coin, true) - Size(events, coin, false)
      && a.earned + (mid - a.position.entry) * a.position.held
         == mid * a.position.held - Money(events, coin, true) + Money(events, coin, false)
  {
    AverageCostConserves(events, coin, mid);
    NetAndOutlay(events, coin);
  }

  /** Rounding to the nearest micro-USD is off by half of one at most, and to the even one from halfway. */
  lemma NearestMicro(usd: real)
    ensures -0.5 <= Micros(usd) as real - usd * 1000000.0 <= 0.5
    ensures Micros(usd) as real - usd * 1000000.0 == 0.5 || usd * 1000000.0 - Micros(usd) as real == 0.5
            ==> Micros(usd) % 2 == 0
  {
    var x := usd * MICRO;
    assert Floor(x) as real <= x < Floor(x) as real + 1.0;
  }

  lemma WeightedMean(a: real, h: real, b: real, s: real, lo: real, hi: real)
    requires h >= 0.0 && s >= 0.0 && h + s > 0.0
    requires h > 0.0 ==> lo <= a <= hi
    requires lo <= b <= hi
    ensures lo <= (a * h + b * s) / (h + s) <= hi
  {
    var m := (a * h + b * s) / (h + s);
    Bounds(a, h, lo, hi);
    Bounds(b, s, lo, hi);
    Between(m, h + s, a * h, b * s, lo * h, lo * s, hi * h, hi * s, lo, hi);
  }

  lemma Between(m: real, n: real, x: real, y: real, x0: real, y0: real, x1: real, y1: real, lo: real, hi: real)
    requires n > 0.0 && m * n == x + y && x0 <= x <= x1 && y0 <= y <= y1
    requires lo * n == x0 + y0 && hi * n == x1 + y1
    ensures lo <= m <= hi
  {
  }

  lemma Bounds(a: real, h: real, lo: real, hi: real)
    requires h >= 0.0 && (h > 0.0 ==> lo <= a <= hi)
    ensures lo * h <= a * h <= hi * h
  {
  }

  predicate Among(a: Account, lo: real, hi: real) {
    a.position.held != 0.0 ==> lo <= a.position.entry <= hi
  }

  lemma FilledAmong(p: Position, signed: real, size: real, px: real, lo: real, hi: real)
    requires p.held != 0.0 ==> lo <= p.entry <= hi
    requires size >= 0.0 && (signed == size || signed == -size) && lo <= px <= hi
    ensures
      var q := Filled(p, signed, size, px);
      q.held != 0.0 ==> lo <= q.entry <= hi
  {
    if (p.held == 0.0 || (p.held > 0.0) == (signed > 0.0)) && p.held + signed != 0.0 {
      IncreaseAmong(p, signed, size, px, lo, hi);
    }
  }

  lemma IncreaseAmong(p: Position, signed: real, size: real, px: real, lo: real, hi: real)
    requires p.held == 0.0 || (p.held > 0.0) == (signed > 0.0)
    requires p.held != 0.0 ==> lo <= p.entry <= hi
    requires size >= 0.0 && (signed == size || signed == -size) && lo <= px <= hi && p.held + signed != 0.0
    ensures lo <= (p.entry * Abs(p.held) + px * size) / Abs(p.held + signed) <= hi
  {
    assert Abs(p.held + signed) == Abs(p.held) + size;
    WeightedMean(p.entry, Abs(p.held), px, size, lo, hi);
  }

  lemma RecordedAmong(a: Account, e: Event, coin: string, lo: real, hi: real)
    requires Among(a, lo, hi)
    requires e.Fill? && e.coin == coin ==> e.size >= 0.0 && lo <= e.px <= hi
    ensures Among(Recorded(a, e, coin), lo, hi)
  {
    if e.Fill? && e.coin == coin {
      FilledAmong(a.position, Signed(e), e.size, e.px, lo, hi);
    }
  }

  /** An open position's entry lies among the prices it was filled at. */
  lemma EntryAmongPrices(events: seq<Event>, coin: string, lo: real, hi: real)
    requires Magnitudes(events)
    requires forall e <- events | e.Fill? && e.coin == coin :: lo <= e.px <= hi
    ensures PositionOf(events, coin).held != 0.0 ==> lo <= PositionOf(events, coin).entry <= hi
  {
    forall a, e | Among(a, lo, hi) && e in events
      ensures Among(RecordOn(coin)(a, e), lo, hi)
    {
      RecordedAmong(a, e, coin, lo, hi);
    }
    FoldKeeps(events, OPENED, RecordOn(coin), a => Among(a, lo, hi));
  }

  // ----- The reported figure -----

  /** How far each fill's booked figure may be from the average-cost one. */
  ghost predicate Booked(events: seq<Event>, slack: real) {
    forall i | 0 <= i < |events| && events[i].Fill? ::
      Near(events[i].realized, FigureAt(events, i), slack)
  }

  function FigureAt(events: seq<Event>, i: nat): real
    requires i < |events| && events[i].Fill?
  {
    AverageCost(PositionOf(events[..i], events[i].coin), Signed(events[i]), events[i].px)
  }

  /** A coin's whole result: what it holds, at the last mid or, with none, at its entry, less what it
      paid. */
  function Value(a: Account, mid: Option<real>): real {
    Marked(a.position, if mid.Some? then mid.value else a.position.entry) - a.outlay
  }

  function Marked(p: Position, mark: real): real {
    mark * p.held
  }

  function Worth(events: seq<Event>, coin: string): real {
    Value(AccountOf(events, coin), LastMid(events, coin))
  }

  function WorthOver(coins: seq<string>, events: seq<Event>): real {
    if coins == [] then 0.0
    else WorthOver(coins[..|coins| - 1], events) + Worth(events, coins[|coins| - 1])
  }

  function EarnedOver(coins: seq<string>, events: seq<Event>): real {
    if coins == [] then 0.0
    else EarnedOver(coins[..|coins| - 1], events) + Earned(events, coins[|coins| - 1])
  }

  function Earned(events: seq<Event>, coin: string): real {
    AccountOf(events, coin).earned
  }

  /** An integer of micro-USD near an amount of USD. */
  predicate Near(micro: int, usd: real, slack: real) {
    Abs(micro as real - usd * 1000000.0) <= slack
  }

  lemma OpenIsValue(a: Account, mid: Option<real>)
    requires Balanced(a)
    ensures Near(Open(a.position, mid), Value(a, mid) - a.earned, 0.5)
  {
  }

  lemma OpenIsWorth(events: seq<Event>, coin: string)
    requires Magnitudes(events)
    ensures Near(Open(PositionOf(events, coin), LastMid(events, coin)), Worth(events, coin) - Earned(events, coin), 0.5)
  {
    AccountBalances(events, coin);
    OpenIsValue(AccountOf(events, coin), LastMid(events, coin));
  }

  lemma {:induction false} OpenOverIsWorth(coins: seq<string>, events: seq<Event>)
    requires Magnitudes(events)
    ensures Near(OpenOver(coins, events), WorthOver(coins, events) - EarnedOver(coins, events), 0.5 * |coins| as real)
  {
    if coins != [] {
      var rest, c := coins[..|coins| - 1], coins[|coins| - 1];
      OpenOverIsWorth(rest, events);
      OpenIsWorth(events, c);
    }
  }

  /** A fill moves one coin's earnings and no other's. */
  lemma {:induction false} EarnedStep(coins: seq<string>, events: seq<Event>)
    requires events != [] && forall i, j :: 0 <= i < j < |coins| ==> coins[i] != coins[j]
    ensures
      var n, e := |events| - 1, events[|events| - 1];
      EarnedOver(coins, events) == EarnedOver(coins, events[..n])
        + if e.Fill? && e.coin in coins then FigureAt(events, n) else 0.0
  {
    if coins != [] {
      EarnedStep(coins[..|coins| - 1], events);
    }
  }

  lemma {:induction false} UnseenEarnNothing(events: seq<Event>, coin: string)
    requires coin !in Coins(events)
    ensures Earned(events, coin) == 0.0
  {
    if events != [] {
      UnseenEarnNothing(events[..|events| - 1], coin);
    }
  }

  /** The last event's share of what was earned, close to what it booked. */
  lemma EarnedGrows(events: seq<Event>, slack: real) returns (g: real)
    requires events != [] && Booked(events, slack)
    ensures EarnedOver(Coins(events), events)
         == EarnedOver(Coins(events[..|events| - 1]), events[..|events| - 1]) + g
    ensures if events[|events| - 1].Fill? then Near(events[|events| - 1].realized, g, slack) else g == 0.0
  {
    var n, e := |events| - 1, events[|events| - 1];
    EarnedStep(Coins(events), events);
    if e.Fill? && e.coin !in Coins(events[..n]) {
      UnseenEarnNothing(events[..n], e.coin);
      assert Coins(events)[..|Coins(events[..n])|] == Coins(events[..n]);
    }
    g := if e.Fill? then FigureAt(events, n) else 0.0;
  }

  lemma BookedBefore(events: seq<Event>, slack: real)
    requires Booked(events, slack) && events != []
    ensures Booked(events[..|events| - 1], slack)
  {
    var before := events[..|events| - 1];
    forall i | 0 <= i < |before| && before[i].Fill?
      ensures Near(before[i].realized, FigureAt(before, i), slack)
    {
      assert before[..i] == events[..i];
    }
  }

  /** The slack of every fill together. */
  function Allowance(events: seq<Event>, slack: real): real {
    if events == [] then 0.0
    else Allowance(events[..|events| - 1], slack) + if events[|events| - 1].Fill? then slack else 0.0
  }

  lemma {:induction false} RealizedIsEarned(events: seq<Event>, slack: real)
    requires Booked(events, slack)
    ensures Near(Sum(events, Realized), EarnedOver(Coins(events), events), Allowance(events, slack))
  {
    if events != [] {
      BookedBefore(events, slack);
      RealizedIsEarned(events[..|events| - 1], slack);
      var _ := EarnedGrows(events, slack);
    }
  }

  /** The reported profit and loss is what the coins are worth less fees and funding, to within half
      a micro-USD for each coin and the slack of each booked fill. */
  lemma ReportedIsWorth(events: seq<Event>, slack: real)
    requires Magnitudes(events) && Booked(events, slack)
    ensures
      var coins := Coins(events);
      Near(Sum(events, Realized) + OpenOver(coins, events), WorthOver(coins, events),
           Allowance(events, slack) + 0.5 * |coins| as real)
  {
    var coins := Coins(events);
    RealizedIsEarned(events, slack);
    OpenOverIsWorth(coins, events);
  }

  // ----- The pessimistic figure -----

  /** The slippage charged in all, before rounding. */
  function Charge(events: seq<Event>, spreads: map<string, real>): real {
    if events == [] then 0.0
    else
      var e := events[|events| - 1];
      Charge(events[..|events| - 1], spreads)
      + if e.Fill? then e.notional as real * (Spread(e.coin, spreads) / 20000.0) else 0.0
  }

  /** Rounding is against the factory and by less than a micro-USD a fill, so the pessimistic figure
      is at most the other. */
  lemma {:induction false} PessimisticIsLower(events: seq<Event>, spreads: map<string, real>)
    requires forall e <- events | e.Fill? :: e.notional >= 0
    requires forall c <- spreads :: spreads[c] >= 0.0
    ensures 0.0 <= Charge(events, spreads) <= Sum(events, SlippageOn(spreads)) as real
    ensures Sum(events, SlippageOn(spreads)) as real <= Charge(events, spreads) + Sum(events, IsFill) as real
    ensures Sum(events, SlippageOn(spreads)) >= 0
  {
    if events != [] {
      PessimisticIsLower(events[..|events| - 1], spreads);
    }
  }
}
