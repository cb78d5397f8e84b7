/** The spend guard of one rehearsal: which calls it admits, what it books for each, and when it
    stops. All money is whole micro-dollars. */
module Admissions {
  import opened Options

  datatype Stop = MaxCalls | QuoteAboveRemaining | TableCost | UnknownBill | ReportedOverrun
                | CapExhausted | CapExceeded | UnknownAfterDispatch | ConsecutiveFailures

  datatype Denial = InvalidQuote | Stopped(stop: Stop) | OutOfCalls | AboveCap | AboveRemaining

  datatype Admission = Admission(
    cap: int, maxCalls: int, recover: bool,
    attempted: nat, known: int, uncertain: int,
    unknownBills: nat, uncertainBills: nat, overruns: nat, refusals: nat,
    stop: Option<Stop>, failures: nat)

  /** A guard before its first call. */
  function Opened(cap: int, maxCalls: int, recover: bool): Admission {
    Admission(cap, maxCalls, recover, 0, 0, 0, 0, 0, 0, 0, None, 0)
  }

  function Booked(a: Admission): int { a.known + a.uncertain }

  function Max(x: int, y: int): int { if x >= y then x else y }

  function Remaining(a: Admission): int { Max(0, a.cap - a.known - a.uncertain) }

  function Stopping(a: Admission, stop: Stop): Admission {
    if a.stop.Some? then a else a.(stop := Some(stop))
  }

  /** Whether a quote is admitted, or why not; a call or probe that does not fit can stop the run. */
  function CanAdmit(a: Admission, ceiling: int, probe: bool): (Admission, Option<Denial>) {
    if ceiling < 0 then (a, Some(InvalidQuote))
    else if a.stop.Some? then (a, Some(Stopped(a.stop.value)))
    else if a.attempted >= a.maxCalls then (Stopping(a, MaxCalls), Some(OutOfCalls))
    else if ceiling > Remaining(a) then
      if probe && ceiling > a.cap then (a, Some(AboveCap))
      else (Stopping(a, QuoteAboveRemaining), Some(AboveRemaining))
    else (a, None)
  }

  function Admit(a: Admission, ceiling: int): (Admission, bool) {
    var (b, denial) := CanAdmit(a, ceiling, false);
    if denial.Some? then (b.(refusals := b.refusals + 1), false) else (b, true)
  }

  function Attempted(a: Admission): Admission { a.(attempted := a.attempted + 1) }

  /** What a provider's answer says of its bill. */
  datatype Bill = Table(estimate: Option<int>) | Reported(cost: int) | Missing

  function Observe(a: Admission, bill: Bill, ceiling: int): Admission {
    match bill
    case Table(estimate) =>
      a.(uncertainBills := a.uncertainBills + 1,
         uncertain := a.uncertain + Max(ceiling, if estimate.Some? then estimate.value else 0),
         stop := Some(TableCost))
    case Reported(cost) =>
      if cost < 0 then Unknown(a, ceiling)
      else
        var b := a.(failures := 0, known := a.known + cost);
        if cost > ceiling then b.(overruns := b.overruns + 1, stop := Some(ReportedOverrun))
        else if Booked(b) >= b.cap then
          b.(stop := Some(if Booked(b) == b.cap then CapExhausted else CapExceeded))
        else if b.attempted >= b.maxCalls then b.(stop := Some(MaxCalls))
        else b
    case Missing => Unknown(a, ceiling)
  }

  function Unknown(a: Admission, ceiling: int): Admission {
    a.(unknownBills := a.unknownBills + 1, uncertainBills := a.uncertainBills + 1,
       uncertain := a.uncertain + Max(0, ceiling), stop := Some(UnknownBill))
  }

  /** A failed call: unbilled for certain, or counted at its whole quote. */
  function Failed(a: Admission, unbilled: bool, ceiling: int): Admission {
    var b := a.(failures := a.failures + 1);
    var c := if unbilled then b
             else
               var d := b.(unknownBills := b.unknownBills + 1, uncertainBills := b.uncertainBills + 1,
                           uncertain := b.uncertain + Max(0, ceiling));
               if d.recover then d else d.(stop := Some(UnknownAfterDispatch));
    if !c.recover then c
    else if Booked(c) >= c.cap then c.(stop := Some(CapExhausted))
    else if c.attempted >= c.maxCalls then c.(stop := Some(MaxCalls))
    else if c.failures >= 3 then c.(stop := Some(ConsecutiveFailures))
    else c
  }

  /** How a dispatched call came back. */
  datatype Result = Answer(bill: Bill) | Failure(unbilled: bool)

  function Returned(a: Admission, result: Result, ceiling: int): Admission {
    match result
    case Answer(bill) => Observe(a, bill, ceiling)
    case Failure(unbilled) => Failed(a, unbilled, ceiling)
  }

  /** What a returned call adds to the booked total. */
  function Charge(result: Result, ceiling: int): int {
    match result
    case Answer(Table(estimate)) => Max(ceiling, if estimate.Some? then estimate.value else 0)
    case Answer(Reported(cost)) => if cost < 0 then Max(0, ceiling) else cost
    case Answer(Missing) => Max(0, ceiling)
    case Failure(unbilled) => if unbilled then 0 else Max(0, ceiling)
  }

  lemma ReturnedBooks(a: Admission, result: Result, ceiling: int)
    ensures Booked(Returned(a, result, ceiling)) == Booked(a) + Charge(result, ceiling)
    ensures ceiling >= 0 ==> Charge(result, ceiling) >= 0
    ensures Charge(result, ceiling) > Max(0, ceiling) ==> Returned(a, result, ceiling).stop.Some?
    ensures var b := Returned(a, result, ceiling);
      b.attempted == a.attempted && b.maxCalls == a.maxCalls && b.cap == a.cap && b.recover == a.recover
  {
  }

  /** A call goes to the provider exactly when its quote is no less than nothing, the run has not stopped,
      a call is left, and the quote fits what the cap leaves: with all that is booked, it stays within the
      cap, or it is nothing. A refusal is counted, and stops the run when no call is left or the quote does
      not fit. */
  lemma AdmittedExactly(a: Admission, quote: int)
    ensures
      var (b, admitted) := Admit(a, quote);
      && (admitted <==> quote >= 0 && a.stop == None && a.attempted < a.maxCalls
                        && (a.known + a.uncertain + quote <= a.cap || quote == 0))
      && (admitted ==> b == a)
      && (!admitted ==> b.refusals == a.refusals + 1 && b.attempted == a.attempted && Booked(b) == Booked(a))
      && (!admitted && quote >= 0 && a.stop == None ==>
            b.stop == Some(if a.attempted >= a.maxCalls then MaxCalls else QuoteAboveRemaining))
      && (a.stop.Some? || quote < 0 ==> b.stop == a.stop)
  {
  }

  // ----- One run -----

  datatype Event = Probe(ceiling: int) | Complete(ceiling: int, result: Result)

  /** A probe, or a completion: admitted, counted, dispatched and observed, or refused. */
  function Next(a: Admission, e: Event): Admission {
    match e
    case Probe(ceiling) => CanAdmit(a, ceiling, true).0
    case Complete(ceiling, result) =>
      var (b, admitted) := Admit(a, ceiling);
      if admitted then Returned(Attempted(b), result, ceiling) else b
  }

  /** A probe is answered as a call would be, and books nothing; it stops the run as a refused call would,
      but never by asking for more than the whole cap. */
  lemma ProbedExactly(a: Admission, quote: int)
    ensures
      var b := Next(a, Probe(quote));
      && (CanAdmit(a, quote, true).1 == None <==> Admit(a, quote).1)
      && b == a.(stop := b.stop)
      && b.stop == if quote > a.cap && a.attempted < a.maxCalls then a.stop else Admit(a, quote).0.stop
  {
  }

  function After(a: Admission, run: seq<Event>): Admission {
    if run == [] then a else Next(After(a, run[..|run| - 1]), run[|run| - 1])
  }

  predicate Dispatches(a: Admission, e: Event) {
    e.Complete? && Admit(a, e.ceiling).1
  }

  /** By how much a dispatched call was booked above its quote. */
  function Excess(a: Admission, e: Event): int {
    if Dispatches(a, e) then Max(0, Charge(e.result, e.ceiling) - e.ceiling) else 0
  }

  function TotalExcess(a: Admission, run: seq<Event>): int {
    if run == [] then 0
    else TotalExcess(a, run[..|run| - 1]) + Excess(After(a, run[..|run| - 1]), run[|run| - 1])
  }

  function CallsAboveQuote(a: Admission, run: seq<Event>): nat {
    if run == [] then 0
    else CallsAboveQuote(a, run[..|run| - 1])
         + (if Excess(After(a, run[..|run| - 1]), run[|run| - 1]) > 0 then 1 else 0)
  }

  function Dispatched(a: Admission, run: seq<Event>): nat {
    if run == [] then 0
    else Dispatched(a, run[..|run| - 1])
         + (if Dispatches(After(a, run[..|run| - 1]), run[|run| - 1]) then 1 else 0)
  }

  /** Once a run has stopped it stays stopped, for the same reason, and dispatches nothing more. */
  lemma {:induction false} StopsAreSticky(a: Admission, run: seq<Event>)
    requires a.stop.Some?
    ensures After(a, run).stop == a.stop
    ensures Dispatched(a, run) == 0 && After(a, run).attempted == a.attempted && Booked(After(a, run)) == Booked(a)
  {
    if run != [] { StopsAreSticky(a, run[..|run| - 1]); }
  }

  /** In one run: every dispatch is an attempt and there are at most max_calls; at most one call is
      booked above its quote, it stops the run, and the booked total passes the cap by that call's
      excess at most. */
  lemma {:induction false} OneRun(cap: int, maxCalls: int, recover: bool, run: seq<Event>)
    ensures var o := Opened(cap, maxCalls, recover);
      var a := After(o, run);
      && a.attempted == Dispatched(o, run) <= Max(0, maxCalls)
      && CallsAboveQuote(o, run) <= 1
      && (CallsAboveQuote(o, run) == 1 ==> a.stop.Some?)
      && (CallsAboveQuote(o, run) == 0 ==> TotalExcess(o, run) == 0)
      && Booked(a) <= Max(0, cap) + TotalExcess(o, run)
      && a.cap == cap && a.maxCalls == maxCalls
      && (a.stop.None? ==> TotalExcess(o, run) == 0)
  {
    if run != [] {
      var o, init, e := Opened(cap, maxCalls, recover), run[..|run| - 1], run[|run| - 1];
      OneRun(cap, maxCalls, recover, init);
      if Dispatches(After(o, init), e) {
        ReturnedBooks(Attempted(After(o, init)), e.result, e.ceiling);
      }
    }
  }
}

/** The guard as the object the provider updates. */
module AdmissionClass {
  import opened Options
  import opened Admissions

  class Guard {
    const cap: int
    var maxCalls: int
    var recover: bool
    var attempted: nat
    var known: int
    var uncertain: int
    var unknownBills: nat
    var uncertainBills: nat
    var overruns: nat
    var refusals: nat
    var stop: Option<Stop>
    var failures: nat

    function State(): Admission
      reads this
    {
      Admission(cap, maxCalls, recover, attempted, known, uncertain, unknownBills, uncertainBills, overruns,
                refusals, stop, failures)
    }

    constructor (cap: int, maxCalls: int, recover: bool)
      ensures State() == Opened(cap, maxCalls, recover)
    {
      this.cap, this.maxCalls, this.recover := cap, maxCalls, recover;
      attempted, known, uncertain, unknownBills, uncertainBills := 0, 0, 0, 0, 0;
      overruns, refusals, stop, failures := 0, 0, None, 0;
    }

    /** Every recorded field but the cap, which is the run's. */
    method Load(a: Admission)
      modifies this
      ensures State() == a.(cap := cap)
    {
      maxCalls, recover, attempted, known, uncertain := a.maxCalls, a.recover, a.attempted, a.known, a.uncertain;
      unknownBills, uncertainBills, overruns, refusals := a.unknownBills, a.uncertainBills, a.overruns, a.refusals;
      stop, failures := a.stop, a.failures;
    }

    method CanAdmit(ceiling: int, probe: bool) returns (denial: Option<Denial>)
      modifies this`stop
      ensures (State(), denial) == Admissions.CanAdmit(old(State()), ceiling, probe)
    {
      if ceiling < 0 { return Some(InvalidQuote); }
      if stop.Some? { return Some(Stopped(stop.value)); }
      if attempted >= maxCalls {
        stop := Some(MaxCalls);
        return Some(OutOfCalls);
      }
      var remaining := Max(0, cap - known - uncertain);
      if ceiling > remaining {
        if probe && ceiling > cap { return Some(AboveCap); }
        stop := Some(QuoteAboveRemaining);
        return Some(AboveRemaining);
      }
      return None;
    }

    method Admit(ceiling: int) returns (admitted: bool)
      modifies this`stop, this`refusals
      ensures (State(), admitted) == Admissions.Admit(old(State()), ceiling)
    {
      var denial := CanAdmit(ceiling, false);
      if denial.Some? { refusals := refusals + 1; }
      return denial.None?;
    }

    method AttemptedCall()
      modifies this`attempted
      ensures State() == Attempted(old(State()))
    {
      attempted := attempted + 1;
    }

    method Observe(bill: Bill, ceiling: int)
      modifies this
      ensures State() == Admissions.Observe(old(State()), bill, ceiling)
    {
      if bill.Table? {
        uncertainBills := uncertainBills + 1;
        uncertain := uncertain + Max(ceiling, if bill.estimate.Some? then bill.estimate.value else 0);
        stop := Some(TableCost);
        return;
      }
      if bill.Missing? || bill.cost < 0 {
        unknownBills, uncertainBills := unknownBills + 1, uncertainBills + 1;
        uncertain := uncertain + Max(0, ceiling);
        stop := Some(UnknownBill);
        return;
      }
      failures := 0;
      known := known + bill.cost;
      if bill.cost > ceiling {
        overruns := overruns + 1;
        stop := Some(ReportedOverrun);
      } else if known + uncertain >= cap {
        stop := Some(if known + uncertain == cap then CapExhausted else CapExceeded);
      } else if attempted >= maxCalls {
        stop := Some(MaxCalls);
      }
    }

    method ObserveException(unbilled: bool, ceiling: int)
      modifies this
      ensures State() == Failed(old(State()), unbilled, ceiling)
    {
      failures := failures + 1;
      if !unbilled {
        unknownBills, uncertainBills := unknownBills + 1, uncertainBills + 1;
        uncertain := uncertain + Max(0, ceiling);
        if !recover { stop := Some(UnknownAfterDispatch); }
      }
      if !recover { return; }
      if known + uncertain >= cap {
        stop := Some(CapExhausted);
      } else if attempted >= maxCalls {
        stop := Some(MaxCalls);
      } else if failures >= 3 {
        stop := Some(ConsecutiveFailures);
      }
    }

    /** The prepaid provider's completion of one call: what the provider would return is `result`. */
    method Complete(ceiling: int, result: Result) returns (admitted: bool)
      modifies this
      ensures State() == Next(old(State()), Event.Complete(ceiling, result))
      ensures admitted == Dispatches(old(State()), Event.Complete(ceiling, result))
    {
      admitted := Admit(ceiling);
      if !admitted { return; }
      AttemptedCall();
      match result {
        case Answer(bill) => Observe(bill, ceiling);
        case Failure(unbilled) => ObserveException(unbilled, ceiling);
      }
    }
  }
}
