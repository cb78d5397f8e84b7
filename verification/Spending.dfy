/** The recorded provider across process deaths: the spend of a whole run stays under its cap. */
module Spending {
  import opened Options
  import opened Sequences
  import opened Admissions

  // Each call draws, is written ahead with its quote pending, is dispatched, and is written again with
  // its outcome; a resume restores the record and counts a quote still pending. One step is one effect,
  // and the process may die before any of them. The record is one value, replaced whole; a write may
  // fail before it replaces the record, or after.

  /** What a request is to this layer: its quote, whether its rail is served, and its deadline. */
  datatype Request = Request(quote: nat, served: bool, deadline: Option<nat>)

  /** The stand-in's durable state: the latency stream's position, and the requests the scripted
      policy has decided, which fix its counters. */
  datatype Draws = Draws(position: nat, decided: seq<Request>)

  /** The latency at each position of the stream a seed gives. */
  type Stream = nat -> nat

  /** The latency is drawn first; the decision is made only if the call does not expire. */
  function Draw(stream: Stream, d: Draws, r: Request): Draws {
    var latency := stream(d.position);
    var reaches := r.deadline.None? || latency <= r.deadline.value;
    Draws(d.position + 1, if reaches then d.decided + [r] else d.decided)
  }

  function DrawAll(stream: Stream, calls: seq<Request>): Draws {
    if calls == [] then Draws(0, []) else Draw(stream, DrawAll(stream, calls[..|calls| - 1]), calls[|calls| - 1])
  }

  datatype Record = Record(admission: Admission, draws: Draws, pending: Option<nat>)

  datatype Phase =
    | Idle
    | Drawn(request: Request, before: Draws)   // drawn, not yet written ahead
    | Ahead(request: Request)                  // written ahead, not yet admitted
    | Dispatched(request: Request, bill: nat)  // the provider is at work on it
    | Settling                                 // observed or refused, not yet written
    | Restoring                                // a resume, before its write

  datatype Process = Process(admission: Admission, draws: Draws, phase: Phase)

  datatype World = World(
    disk: Option<Record>,
    process: Option<Process>,
    spent: nat,                 // what the provider really billed, over the whole run
    durable: seq<Request>,      // the calls whose write-ahead reached the disk
    standing: seq<Request>,     // those of them whose draws stand
    torn: Option<Request>)      // one whose write reached the disk but raised, the process living on

  datatype Config = Config(cap: int, maxCalls: int, recover: bool, stream: Stream)

  datatype Write = Replaced | FailedBefore | FailedAfter

  datatype Action =
    | Launch
    | Begin(request: Request)
    | WriteAhead(write: Write)
    | Enter(bill: nat)          // the admission's decision; if it admits, what the call will bill
    | Return(result: Result)
    | Settle(write: Write)
    | Die
    | Resume
    | WriteRestored(write: Write)

  function Start(): World { World(None, None, 0, [], [], None) }

  function Blank(c: Config): Process {
    Process(Opened(c.cap, c.maxCalls, c.recover), Draws(0, []), Idle)
  }

  /** The admission a resume works with: the record's, under the cap stated at launch, with a pending
      quote counted whole. */
  function Counted(c: Config, r: Record): Admission {
    var a := r.admission.(cap := c.cap);
    match r.pending
    case None => a
    case Some(quote) =>
      a.(attempted := a.attempted + 1, unknownBills := a.unknownBills + 1,
         uncertainBills := a.uncertainBills + 1, uncertain := a.uncertain + quote)
  }

  function Restored(c: Config, disk: Option<Record>): Process {
    match disk
    case None => Blank(c).(phase := Restoring)
    case Some(r) => Process(Counted(c, r), r.draws, Restoring)
  }

  /** An answer's bill is what was billed, a failure known unbilled billed nothing, and nothing bills
      more than its quote: what is assumed of the provider. */
  predicate Honest(result: Result, bill: nat) {
    match result
    case Answer(Reported(cost)) => cost < 0 || cost == bill
    case Failure(unbilled) => unbilled ==> bill == 0
    case _ => true
  }

  /** When a step can happen. */
  predicate Enabled(w: World, action: Action) {
    match action
    case Launch => w.process.None? && w.disk.None?
    case Resume => w.process.None?
    case Die => w.process.Some?
    case Begin(_) => w.process.Some? && w.process.value.phase.Idle?
    case WriteAhead(_) => w.process.Some? && w.process.value.phase.Drawn?
    case Enter(bill) => w.process.Some? && w.process.value.phase.Ahead?
                        && bill <= w.process.value.phase.request.quote
    case Return(result) => w.process.Some? && w.process.value.phase.Dispatched?
                           && Honest(result, w.process.value.phase.bill)
    case Settle(_) => w.process.Some? && w.process.value.phase.Settling?
    case WriteRestored(_) => w.process.Some? && w.process.value.phase.Restoring?
  }

  /** A write-ahead: on an exception what it drew is taken back in memory, and nothing is dispatched. */
  function WrittenAhead(w: World, write: Write): World
    requires w.process.Some? && w.process.value.phase.Drawn?
  {
    var p := w.process.value;
    var r := p.phase.request;
    var onDisk := w.(disk := Some(Record(p.admission, p.draws, Some(r.quote))), durable := w.durable + [r]);
    var takenBack := Some(p.(draws := p.phase.before, phase := Idle));
    match write
    case Replaced => onDisk.(process := Some(p.(phase := Ahead(r))), standing := w.standing + [r], torn := None)
    case FailedBefore => w.(process := takenBack)
    case FailedAfter => onDisk.(process := takenBack, torn := Some(r))
  }

  /** The admission refuses the call, or counts it and lets it go to the provider. */
  function Entered(w: World, bill: nat): World
    requires w.process.Some? && w.process.value.phase.Ahead?
  {
    var p := w.process.value;
    var r := p.phase.request;
    if !r.served then w.(process := Some(p.(phase := Settling)))
    else
      var (a, admitted) := Admit(p.admission, r.quote);
      if admitted then
        w.(process := Some(p.(admission := Attempted(a), phase := Dispatched(r, bill))), spent := w.spent + bill)
      else w.(process := Some(p.(admission := a, phase := Settling)))
  }

  /** A write of the state as it stands, nothing pending; `then_` is the process if it raises. */
  function Written(w: World, write: Write, raised: Option<Process>): World
    requires w.process.Some?
  {
    var p := w.process.value;
    var onDisk := w.(disk := Some(Record(p.admission, p.draws, None)), torn := None);
    match write
    case Replaced => onDisk.(process := Some(p.(phase := Idle)))
    case FailedBefore => w.(process := raised)
    case FailedAfter => onDisk.(process := raised)
  }

  function Step(c: Config, w: World, action: Action): World
    requires Enabled(w, action)
  {
    match action
    case Launch => w.(process := Some(Blank(c)))
    case Begin(r) =>
      var p := w.process.value;
      w.(process := Some(p.(draws := Draw(c.stream, p.draws, r), phase := Drawn(r, p.draws))))
    case WriteAhead(write) => WrittenAhead(w, write)
    case Enter(bill) => Entered(w, bill)
    case Return(result) =>
      var p := w.process.value;
      w.(process := Some(p.(admission := Returned(p.admission, result, p.phase.request.quote), phase := Settling)))
    case Settle(write) => Written(w, write, Some(w.process.value.(phase := Idle)))
    case Die =>
      // What a torn write left on the disk is what a resume will restore.
      if w.torn.Some? then w.(process := None, standing := w.standing + [w.torn.value], torn := None)
      else w.(process := None)
    case Resume => w.(process := Some(Restored(c, w.disk)))
    case WriteRestored(write) => Written(w, write, None)
  }

  /** Steps that cannot happen when they are due are skipped. */
  function Taken(c: Config, w: World, action: Action): World {
    if Enabled(w, action) then Step(c, w, action) else w
  }

  function After(c: Config, actions: seq<Action>): World {
    if actions == [] then Start()
    else
      Taken(c, After(c, actions[..|actions| - 1]), actions[|actions| - 1])
  }

  // ----- Invariant -----

  /** What a record holds the run to have cost at most. */
  function Held(r: Option<Record>): int {
    match r
    case None => 0
    case Some(r) => Booked(r.admission) + (if r.pending.Some? then r.pending.value else 0)
  }

  /** What a process holds the run to have cost at most. */
  function Owed(p: Process): int {
    Booked(p.admission) + (if p.phase.Dispatched? then p.phase.request.quote else 0)
  }

  predicate ProcessOk(c: Config, w: World, p: Process) {
    && p.admission.cap == c.cap && w.spent <= Owed(p)
    && (p.phase.Dispatched? ==> p.phase.bill <= p.phase.request.quote && w.spent <= Booked(p.admission) + p.phase.bill)
    && (p.phase.Ahead? || p.phase.Dispatched? ==>
          && w.torn.None? && w.disk.Some? && w.disk.value.pending == Some(p.phase.request.quote)
          && Booked(w.disk.value.admission) == Booked(p.admission) && w.disk.value.draws == p.draws)
    && (p.phase.Drawn? ==> p.draws == Draw(c.stream, p.phase.before, p.phase.request))
    && (p.phase.Restoring? ==> w.torn.None? && p == Restored(c, w.disk))
  }

  /** Whatever dies, the record alone covers what was spent, and so does the memory of a process. */
  predicate Inv(c: Config, w: World) {
    && w.spent <= Held(w.disk)
    && w.spent <= Max(0, c.cap)
    && (if w.process.Some? then ProcessOk(c, w, w.process.value) else w.torn.None?)
  }

  lemma StepKeeps(c: Config, w: World, action: Action)
    requires Inv(c, w) && Enabled(w, action)
    ensures Inv(c, Step(c, w, action))
  {
    if action.Return? {
      var p := w.process.value;
      ReturnedBooks(p.admission, action.result, p.phase.request.quote);
      assert Charge(action.result, p.phase.request.quote) >= p.phase.bill;
    }
  }

  /** The spend of a whole run is bounded by its cap, over any interleaving of calls, refusals, failures,
      failed writes, process deaths and restores; and at every moment the record on disk accounts for
      all of it. */
  lemma {:induction false} SpendBounded(c: Config, actions: seq<Action>)
    ensures Inv(c, After(c, actions))
    ensures var w := After(c, actions); w.spent <= Max(0, c.cap) && w.spent <= Held(w.disk)
  {
    if actions != [] {
      var init, action := actions[..|actions| - 1], actions[|actions| - 1];
      SpendBounded(c, init);
      var w := After(c, init);
      if Enabled(w, action) { StepKeeps(c, w, action); }
    }
  }

  // ----- Draw once -----

  /** The calls whose draws the disk holds. */
  function OnDisk(w: World): seq<Request> {
    if w.torn.Some? then w.standing + [w.torn.value] else w.standing
  }

  lemma DrawAllAppend(stream: Stream, calls: seq<Request>, r: Request)
    ensures DrawAll(stream, calls + [r]) == Draw(stream, DrawAll(stream, calls), r)
  {
    assert (calls + [r])[..|calls|] == calls;
  }

  lemma {:induction false} PositionCounts(stream: Stream, calls: seq<Request>)
    ensures DrawAll(stream, calls).position == |calls|
  {
    if calls != [] { PositionCounts(stream, calls[..|calls| - 1]); }
  }

  predicate DiskDrawsOk(c: Config, w: World) {
    if w.disk.Some? then w.disk.value.draws == DrawAll(c.stream, OnDisk(w)) else OnDisk(w) == []
  }

  predicate ProcessDrawsOk(c: Config, w: World) {
    w.process.Some? ==>
      var p := w.process.value;
      if p.phase.Drawn? then p.phase.before == DrawAll(c.stream, w.standing)
      else p.draws == DrawAll(c.stream, w.standing)
  }

  predicate DrawsOk(c: Config, w: World) {
    DiskDrawsOk(c, w) && ProcessDrawsOk(c, w)
  }

  lemma WriteAheadDraws(c: Config, w: World, write: Write)
    requires Inv(c, w) && DrawsOk(c, w) && Enabled(w, WriteAhead(write))
    ensures DrawsOk(c, WrittenAhead(w, write))
  {
    DrawAllAppend(c.stream, w.standing, w.process.value.phase.request);
  }

  lemma WrittenDraws(c: Config, w: World, write: Write, raised: Option<Process>)
    requires DrawsOk(c, w) && w.process.Some? && !w.process.value.phase.Drawn?
    requires raised.Some? ==> raised.value.draws == w.process.value.draws && !raised.value.phase.Drawn?
    ensures DrawsOk(c, Written(w, write, raised))
  {
  }

  lemma StepDraws(c: Config, w: World, action: Action)
    requires Inv(c, w) && DrawsOk(c, w) && Enabled(w, action)
    ensures DrawsOk(c, Step(c, w, action))
  {
    match action
    case WriteAhead(write) => WriteAheadDraws(c, w, write);
    case Settle(write) => WrittenDraws(c, w, write, Some(w.process.value.(phase := Idle)));
    case WriteRestored(write) => WrittenDraws(c, w, write, None);
    case _ =>
  }

  /** A write that reaches the disk over one that had reached it and raised: that call's draw is undone. */
  predicate Undoes(w: World, action: Action) {
    w.torn.Some? && match action
                    case WriteAhead(write) => !write.FailedBefore?
                    case Settle(write) => !write.FailedBefore?
                    case _ => false
  }

  /** A sequence without the elements at some positions. */
  function Without<T>(s: seq<T>, out: set<nat>): seq<T> {
    if s == [] then []
    else Without(s[..|s| - 1], out) + (if |s| - 1 in out then [] else [s[|s| - 1]])
  }

  lemma {:induction false} WithoutSelects<T>(s: seq<T>, out: set<nat>) returns (at: seq<nat>)
    ensures Selects(Without(s, out), s, at) && forall i | 0 <= i < |s| :: i in at <==> i !in out
  {
    at := [];
    if s != [] {
      var n := |s| - 1;
      at := WithoutSelects(s[..n], out);
      SelectsLonger(Without(s[..n], out), s, at, n);
      if n !in out {
        SelectsMore(Without(s[..n], out), s, at, n);
        at := at + [n];
      }
    }
  }

  /** What a step adds to the positions undone. */
  function Struck(w: World, action: Action): set<nat> {
    if Enabled(w, action) && Undoes(w, action) && w.durable != [] then {|w.durable| - 1} else {}
  }

  /** The positions in `durable` of the calls undone: at each such step the last call there is. */
  function Undone(c: Config, actions: seq<Action>): set<nat> {
    if actions == [] then {}
    else
      var init, action := actions[..|actions| - 1], actions[|actions| - 1];
      Undone(c, init) + Struck(After(c, init), action)
  }

  lemma WithoutAppend<T>(s: seq<T>, x: T, out: set<nat>)
    ensures Without(s + [x], out) == Without(s, out) + if |s| in out then [] else [x]
  {
    assert (s + [x])[..|s|] == s;
  }

  lemma {:induction false} WithoutBeyond<T>(s: seq<T>, out: set<nat>, i: nat)
    requires i >= |s|
    ensures Without(s, out + {i}) == Without(s, out)
  {
    if s != [] {
      WithoutBeyond(s[..|s| - 1], out, i);
    }
  }

  /** Striking a last element that was kept. */
  lemma WithoutLast<T>(s: seq<T>, kept: seq<T>, x: T, out: set<nat>)
    requires s != [] && |s| - 1 !in out && Without(s, out) == kept + [x]
    ensures Without(s, out + {|s| - 1}) == kept && s[|s| - 1] == x
  {
    WithoutBeyond(s[..|s| - 1], out, |s| - 1);
    var all := Without(s[..|s| - 1], out) + [s[|s| - 1]];
    assert all[..|all| - 1] == kept && all[|all| - 1] == x;
  }

  /** What the disk holds is what became durable, less what was undone; and a torn write is the last. */
  ghost predicate Accounted(w: World, undone: set<nat>) {
    && OnDisk(w) == Without(w.durable, undone) && (forall i <- undone :: i < |w.durable|)
    && (w.torn.Some? ==> w.durable != [] && |w.durable| - 1 !in undone)
  }

  lemma AheadAccounted(w: World, write: Write, undone: set<nat>)
    requires w.process.Some? && w.process.value.phase.Drawn? && Accounted(w, undone)
    ensures Accounted(WrittenAhead(w, write), undone + Struck(w, WriteAhead(write)))
  {
    assert undone + {} == undone;
    if !write.FailedBefore? {
      if w.torn.Some? {
        OverTorn(w, write, undone);
      } else {
        WithoutAppend(w.durable, w.process.value.phase.request, undone);
      }
    }
  }

  /** A write ahead over a torn one strikes that one. */
  lemma OverTorn(w: World, write: Write, undone: set<nat>)
    requires w.process.Some? && w.process.value.phase.Drawn? && Accounted(w, undone)
    requires w.torn.Some? && !write.FailedBefore?
    ensures Accounted(WrittenAhead(w, write), undone + {|w.durable| - 1})
  {
    var r, struck := w.process.value.phase.request, undone + {|w.durable| - 1};
    WithoutLast(w.durable, w.standing, w.torn.value, undone);
    WithoutAppend(w.durable, r, struck);
    assert Without(w.durable + [r], struck) == w.standing + [r];
    assert OnDisk(WrittenAhead(w, write)) == w.standing + [r];
  }

  lemma SettleAccounted(w: World, write: Write, undone: set<nat>)
    requires w.process.Some? && w.process.value.phase.Settling? && Accounted(w, undone)
    ensures Accounted(Written(w, write, Some(w.process.value.(phase := Idle))), undone + Struck(w, Settle(write)))
  {
    assert undone + {} == undone;
    if !write.FailedBefore? && w.torn.Some? {
      WithoutLast(w.durable, w.standing, w.torn.value, undone);
    }
  }

  lemma StepAccounted(c: Config, w: World, action: Action, undone: set<nat>)
    requires Inv(c, w) && Enabled(w, action) && Accounted(w, undone)
    ensures Accounted(Step(c, w, action), undone + Struck(w, action))
  {
    match action
    case WriteAhead(write) => AheadAccounted(w, write, undone);
    case Settle(write) => SettleAccounted(w, write, undone);
    case _ => assert undone + {} == undone;
  }

  lemma {:induction false} WithoutSize<T>(s: seq<T>, out: set<nat>)
    requires forall i <- out :: i < |s|
    ensures |Without(s, out)| == |s| - |out|
  {
    if s != [] {
      var n := |s| - 1;
      if n in out {
        WithoutBeyond(s[..n], out - {n}, n);
        assert out - {n} + {n} == out;
        WithoutSize(s[..n], out - {n});
      } else {
        WithoutSize(s[..n], out);
      }
    }
  }

  /** Draw once: whatever crashes, the durable stream and counters are those of exactly the calls whose
      write-ahead became durable, in order, less those whose write raised after reaching the disk and
      was then overwritten by the process living on. */
  lemma {:induction false} DrawOnce(c: Config, actions: seq<Action>)
    ensures var w := After(c, actions);
      && DrawsOk(c, w) && Accounted(w, Undone(c, actions))
      && (w.disk.Some? ==> w.disk.value.draws == DrawAll(c.stream, Without(w.durable, Undone(c, actions)))
                           && w.disk.value.draws.position == |w.durable| - |Undone(c, actions)|)
  {
    if actions != [] {
      var init, action := actions[..|actions| - 1], actions[|actions| - 1];
      DrawOnce(c, init);
      SpendBounded(c, init);
      var w := After(c, init);
      if Enabled(w, action) {
        StepDraws(c, w, action);
        StepAccounted(c, w, action, Undone(c, init));
      } else {
        assert Undone(c, init) + {} == Undone(c, init);
      }
    }
    PositionCounts(c.stream, OnDisk(After(c, actions)));
    WithoutSize(After(c, actions).durable, Undone(c, actions));
  }

  /** The stand-in has answered these calls: the stream stands after as many draws, and the policy has
      decided, in order, those at positions `at`: the calls whose drawn latency did not outlive their
      deadline. */
  ghost predicate Answered(stream: Stream, calls: seq<Request>, d: Draws, at: seq<nat>) {
    && d.position == |calls| && Selects(d.decided, calls, at)
    && forall i | 0 <= i < |calls| :: i in at <==> (calls[i].deadline == None || stream(i) <= calls[i].deadline.value)
  }

  lemma {:induction false} DrawsAnswer(stream: Stream, calls: seq<Request>) returns (at: seq<nat>)
    ensures Answered(stream, calls, DrawAll(stream, calls), at)
  {
    at := [];
    if calls != [] {
      var n := |calls| - 1;
      at := DrawsAnswer(stream, calls[..n]);
      assert forall i | 0 <= i < n :: calls[..n][i] == calls[i];
      SelectsLonger(DrawAll(stream, calls[..n]).decided, calls, at, n);
      if calls[n].deadline == None || stream(n) <= calls[n].deadline.value {
        SelectsMore(DrawAll(stream, calls[..n]).decided, calls, at, n);
        at := at + [n];
      }
    }
  }

  /** After any run, the record's stream and counters are those of the durable calls not undone, at the
      positions `calls` among all durable ones; those decided are at the positions `at` among these. */
  lemma RecordAnswers(c: Config, actions: seq<Action>)
    returns (kept: seq<Request>, calls: seq<nat>, at: seq<nat>)
    requires After(c, actions).disk.Some?
    ensures
      var w := After(c, actions);
      && Selects(kept, w.durable, calls) && Answered(c.stream, kept, w.disk.value.draws, at)
      && forall i | 0 <= i < |w.durable| :: i in calls <==> i !in Undone(c, actions)
  {
    DrawOnce(c, actions);
    var w := After(c, actions);
    kept := Without(w.durable, Undone(c, actions));
    calls := WithoutSelects(w.durable, Undone(c, actions));
    at := DrawsAnswer(c.stream, kept);
  }

  /** What a process holds in memory, unless it has drawn and not yet written, is what stands. */
  lemma MemoryAnswers(c: Config, actions: seq<Action>) returns (at: seq<nat>)
    requires var w := After(c, actions); w.process.Some? && !w.process.value.phase.Drawn?
    ensures var w := After(c, actions); Answered(c.stream, w.standing, w.process.value.draws, at)
  {
    DrawOnce(c, actions);
    at := DrawsAnswer(c.stream, After(c, actions).standing);
  }

  lemma AfterOne(c: Config, actions: seq<Action>, action: Action)
    ensures After(c, actions + [action]) == Taken(c, After(c, actions), action)
    ensures Undone(c, actions + [action]) == Undone(c, actions) + Struck(After(c, actions), action)
  {
    var more := actions + [action];
    assert more[..|more| - 1] == actions && more[|more| - 1] == action;
  }

  /** One call is torn and durable, and nothing is undone; with `next`, another has been drawn since. */
  ghost predicate TornAlone(w: World, undone: set<nat>, r: Request, next: Option<Request>) {
    && w.process.Some? && w.torn == Some(r) && w.durable == [r] && undone == {}
    && match next
       case None => w.process.value.phase.Idle?
       case Some(q) => w.process.value.phase.Drawn? && w.process.value.phase.request == q
  }

  /** Two calls are durable, and the first was undone. */
  ghost predicate FirstUndone(w: World, undone: set<nat>, r: Request, q: Request) {
    w.disk.Some? && w.durable == [r, q] && undone == {0}
  }

  lemma TornWrite(c: Config, r: Request) returns (actions: seq<Action>)
    ensures TornAlone(After(c, actions), Undone(c, actions), r, None)
  {
    AfterOne(c, [], Launch);
    AfterOne(c, [] + [Launch], Begin(r));
    AfterOne(c, [] + [Launch] + [Begin(r)], WriteAhead(FailedAfter));
    actions := [] + [Launch] + [Begin(r)] + [WriteAhead(FailedAfter)];
  }

  lemma DrawnOver(c: Config, torn: seq<Action>, r: Request, q: Request) returns (actions: seq<Action>)
    requires TornAlone(After(c, torn), Undone(c, torn), r, None)
    ensures TornAlone(After(c, actions), Undone(c, actions), r, Some(q))
  {
    AfterOne(c, torn, Begin(q));
    actions := torn + [Begin(q)];
  }

  lemma WrittenOver(c: Config, drawn: seq<Action>, r: Request, q: Request) returns (actions: seq<Action>)
    requires TornAlone(After(c, drawn), Undone(c, drawn), r, Some(q))
    ensures FirstUndone(After(c, actions), Undone(c, actions), r, q)
  {
    AfterOne(c, drawn, WriteAhead(Replaced));
    actions := drawn + [WriteAhead(Replaced)];
  }

  /** Such calls exist: a write can reach the disk and still raise. Two calls became durable, and the
      disk holds the draw of the second alone. */
  lemma DrawCanBeUndone(c: Config, r: Request, q: Request) returns (actions: seq<Action>)
    ensures FirstUndone(After(c, actions), Undone(c, actions), r, q)
    ensures After(c, actions).disk.value.draws == DrawAll(c.stream, [q])
  {
    var torn := TornWrite(c, r);
    var drawn := DrawnOver(c, torn, r, q);
    actions := WrittenOver(c, drawn, r, q);
    WithoutFirst(r, q);
    DiskDraws(c, actions, r, q);
  }

  lemma DiskDraws(c: Config, actions: seq<Action>, r: Request, q: Request)
    requires FirstUndone(After(c, actions), Undone(c, actions), r, q) && Without([r, q], {0}) == [q]
    ensures After(c, actions).disk.value.draws == DrawAll(c.stream, [q])
  {
    DrawOnce(c, actions);
  }

  lemma WithoutFirst(r: Request, q: Request)
    ensures Without([r, q], {0}) == [q]
  {
    assert [r, q][..1] == [r] && [r][..0] == [];
    assert Without([r], {0}) == [];
  }

  // ----- Count once -----

  function From(c: Config, w: World, actions: seq<Action>): World {
    if actions == [] then w
    else
      Taken(c, From(c, w, actions[..|actions| - 1]), actions[|actions| - 1])
  }

  lemma {:induction false} FromAppend(c: Config, w: World, before: seq<Action>, after: seq<Action>)
    ensures From(c, w, before + after) == From(c, From(c, w, before), after)
  {
    if after == [] {
      assert before + after == before;
    } else {
      assert (before + after)[..|before + after| - 1] == before + after[..|after| - 1];
      FromAppend(c, w, before, after[..|after| - 1]);
    }
  }

  predicate Restores(action: Action) {
    action.Resume? || action.Die? || action.WriteRestored?
  }

  /** The record with its pending quote counted and its slot cleared. */
  function Consumed(c: Config, r: Record): Record {
    Record(Counted(c, r), r.draws, None)
  }

  /** However often a restore dies, and wherever, the record is the one the death left or that one with
      its pending quote in the uncertain total once: never twice, and never lost. */
  lemma {:induction false} PendingCountsOnce(c: Config, w: World, r: Record, actions: seq<Action>)
    requires w.process.None? && w.disk == Some(r)
    requires forall action <- actions :: Restores(action)
    ensures var v := From(c, w, actions);
      && v.disk.Some? && (v.disk.value == r || v.disk.value == Consumed(c, r))
      && v.spent == w.spent && v.durable == w.durable
      && (v.process.Some? ==>
            var p := v.process.value;
            if p.phase.Restoring? then p == Restored(c, v.disk)
            else v.disk.value == Consumed(c, r) && p.phase.Idle? && p.admission == Counted(c, r))
  {
    if actions != [] {
      assert actions[|actions| - 1] in actions;
      PendingCountsOnce(c, w, r, actions[..|actions| - 1]);
    }
  }
}

/** The recorded provider as the fast loop's object. `world` is its place in the protocol; the method
    runs until the call is over or the process dies. */
module RecordedProviderClass {
  import opened Options
  import opened Admissions
  import opened AdmissionClass
  import opened Spending

  datatype Ending = Answered | Raised | Died

  /** What befalls one call: how its two writes end, what it bills and returns, and before which of its
      effects, counted from 0, the process dies (4 or more: none). */
  datatype Weather = Weather(ahead: Write, bill: nat, result: Result, settle: Write, death: nat)

  /** The write-ahead reaches the disk. */
  predicate WrittenFirst(weather: Weather) {
    weather.death > 0 && !weather.ahead.FailedBefore?
  }

  /** The guard lets a served request go. */
  predicate Goes(a: Admission, request: Request) {
    request.served && Admit(a, request.quote).1
  }

  /** What the guard holds once the call has come back, or was refused. */
  function Booking(a: Admission, request: Request, result: Result): Admission {
    if !request.served then a
    else
      var (b, admitted) := Admit(a, request.quote);
      if admitted then Returned(Attempted(b), result, request.quote) else b
  }

  function Staged(request: Request, weather: Weather): seq<Action> {
    [Begin(request)]
    + if weather.death == 0 then [Die]
      else [WriteAhead(weather.ahead)] + if weather.ahead.Replaced? && weather.death == 1 then [Die] else []
  }

  function Sent(weather: Weather, goes: bool): seq<Action> {
    [Enter(weather.bill)]
    + if !goes then [] else if weather.death == 2 then [Die] else [Return(weather.result)]
  }

  function Closing(weather: Weather): seq<Action> {
    if weather.death == 3 then [Die] else [Settle(weather.settle)]
  }

  /** From the guard on. */
  function Carried(weather: Weather, goes: bool): seq<Action> {
    Sent(weather, goes) + if goes && weather.death == 2 then [] else Closing(weather)
  }

  /** The moves of a call, by what befalls it and whether the guard lets it go. */
  function Moves(request: Request, weather: Weather, goes: bool): seq<Action> {
    Staged(request, weather)
    + if weather.death <= 1 || !weather.ahead.Replaced? then [] else Carried(weather, goes)
  }

  /** The record a resume writes. */
  function Resumed(c: Config, disk: Option<Record>): Record {
    match disk
    case None => Record(Opened(c.cap, c.maxCalls, c.recover), Draws(0, []), None)
    case Some(r) => Consumed(c, r)
  }

  lemma ResumedIs(c: Config, disk: Option<Record>, a: Admission, d: Draws)
    requires Process(a, d, Restoring) == Restored(c, disk)
    ensures Record(a, d, None) == Resumed(c, disk)
  {
  }

  /** What a call's moves show of its end. */
  lemma MovesMean(request: Request, weather: Weather, goes: bool)
    ensures
      var trace := Moves(request, weather, goes);
      var entered := weather.death > 1 && weather.ahead.Replaced?;
      && trace != [] && (Enter(weather.bill) in trace <==> entered)
      && (trace[|trace| - 1] == Die <==>
            weather.death == 0 || (weather.ahead.Replaced? && weather.death == 1)
            || (entered && (weather.death == 3 || (goes && weather.death == 2))))
      && (trace == [Begin(request), WriteAhead(Replaced), Enter(weather.bill), Return(weather.result), Settle(Replaced)]
          <==> entered && goes && weather.death > 3 && weather.settle.Replaced?)
  {
    if weather.death > 1 && weather.ahead.Replaced? {
      SentMean(request, weather, goes);
    }
  }

  lemma SentMean(request: Request, weather: Weather, goes: bool)
    requires weather.death > 1 && weather.ahead.Replaced?
    ensures
      var trace := Moves(request, weather, goes);
      && trace[..3] == [Begin(request), WriteAhead(Replaced), Enter(weather.bill)]
      && trace[3..] == if goes && weather.death == 2 then [Die]
                       else (if goes then [Return(weather.result)] else []) + Closing(weather)
  {
    assert Staged(request, weather) == [Begin(request), WriteAhead(Replaced)];
  }

  class RecordedProvider {
    const config: Config
    const guard: Guard
    var draws: Draws
    var disk: Option<Record>
    ghost var world: World

    /** A process between calls. */
    ghost predicate Ready()
      reads this, guard
    {
      world.disk == disk && world.process == Some(Process(guard.State(), draws, Idle))
    }

    constructor (config: Config)
      ensures Ready() && fresh(guard) && this.config == config && world == Step(config, Start(), Launch)
    {
      this.config := config;
      guard := new Guard(config.cap, config.maxCalls, config.recover);
      draws, disk := Draws(0, []), None;
      world := Step(config, Start(), Launch);
    }

    /** One whole file replaced, or an exception before or after it is. */
    method WriteRecord(pending: Option<nat>, write: Write) returns (ok: bool)
      modifies this`disk
      ensures ok == write.Replaced?
      ensures disk == if write.FailedBefore? then old(disk) else Some(Record(guard.State(), draws, pending))
    {
      if !write.FailedBefore? { disk := Some(Record(guard.State(), draws, pending)); }
      ok := write.Replaced?;
    }

    /** The protocol's own steps, taken as the code takes them. */
    ghost method Do(action: Action, before: World, trace: seq<Action>) returns (trace': seq<Action>)
      requires Enabled(world, action) && world == From(config, before, trace)
      modifies this`world
      ensures world == Step(config, old(world), action)
      ensures trace' == trace + [action] && world == From(config, before, trace')
    {
      trace' := trace + [action];
      assert trace'[..|trace|] == trace;
      world := Step(config, world, action);
    }

    /** The call's latency; then, if the call does not expire, its scripted decision. */
    method DrawCall(request: Request)
      modifies this`draws
      ensures draws == Draw(config.stream, old(draws), request)
    {
      var latency := config.stream(draws.position);
      draws := draws.(position := draws.position + 1);
      if request.deadline.None? || latency <= request.deadline.value {
        draws := draws.(decided := draws.decided + [request]);
      }
    }

    /** Draws, then the write ahead. */
    method Stage(request: Request, weather: Weather) returns (ok: bool, died: bool, ghost trace: seq<Action>)
      requires Ready()
      modifies this`draws, this`disk, this`world
      ensures trace == Staged(request, weather) && world == From(config, old(world), trace) && world.disk == disk
      ensures died == (weather.death == 0 || (weather.ahead.Replaced? && weather.death == 1))
      ensures ok == (weather.ahead.Replaced? && !died)
      ensures draws == if ok || died then Draw(config.stream, old(draws), request) else old(draws)
      ensures world.process == if died then None
                               else Some(Process(guard.State(), draws, if ok then Ahead(request) else Idle))
      ensures world.spent == old(world).spent
      ensures world.durable == old(world).durable + if WrittenFirst(weather) then [request] else []
    {
      ghost var start := world;
      ok, died := false, false;
      var before := draws;
      DrawCall(request);
      trace := Do(Begin(request), start, []);
      if weather.death == 0 {
        trace := Do(Die, start, trace);
        died := true;
        return;
      }
      ok := WriteRecord(Some(request.quote), weather.ahead);
      trace := Do(WriteAhead(weather.ahead), start, trace);
      if !ok {
        draws := before;
      } else if weather.death == 1 {
        trace := Do(Die, start, trace);
        ok, died := false, true;
      }
    }

    /** A call whose write-ahead is durable: the guard is asked, and the provider if it admits. */
    method Dispatch(request: Request, weather: Weather)
      returns (answered: bool, died: bool, ghost trace: seq<Action>)
      requires world.disk == disk
      requires world.process == Some(Process(guard.State(), draws, Ahead(request)))
      requires weather.bill <= request.quote && Honest(weather.result, weather.bill)
      modifies this`world, guard
      ensures world == From(config, old(world), trace) && world.disk == disk
      ensures if died then world.process.None? else world.process == Some(Process(guard.State(), draws, Settling))
      ensures trace == Sent(weather, Goes(old(guard.State()), request))
      ensures died <==> Goes(old(guard.State()), request) && weather.death == 2
      ensures answered <==> Goes(old(guard.State()), request) && weather.death != 2 && weather.result.Answer?
      ensures !died ==> guard.State() == Booking(old(guard.State()), request, weather.result)
      ensures world.spent == old(world).spent + if Goes(old(guard.State()), request) then weather.bill else 0
      ensures world.durable == old(world).durable
    {
      ghost var start := world;
      answered, died := false, false;
      trace := Do(Enter(weather.bill), start, []);
      if request.served {
        var admitted := guard.Admit(request.quote);
        if admitted {
          guard.AttemptedCall();
          if weather.death == 2 {
            trace := Do(Die, start, trace);
            return false, true, trace;
          }
          match weather.result {
            case Answer(bill) =>
              guard.Observe(bill, request.quote);
              answered := true;
            case Failure(unbilled) =>
              guard.ObserveException(unbilled, request.quote);
          }
          trace := Do(Return(weather.result), start, trace);
        }
      }
    }

    /** The outcome's own write. */
    method Close(weather: Weather) returns (ok: bool, died: bool, ghost trace: seq<Action>)
      requires world.disk == disk
      requires world.process == Some(Process(guard.State(), draws, Settling))
      modifies this`disk, this`world
      ensures world == From(config, old(world), trace) && world.disk == disk
      ensures trace == Closing(weather)
      ensures died == (weather.death == 3) && ok == (!died && weather.settle.Replaced?)
      ensures if died then world.process.None? else Ready()
      ensures disk == if died || weather.settle.FailedBefore? then old(disk)
                      else Some(Record(guard.State(), draws, None))
      ensures world.spent == old(world).spent && world.durable == old(world).durable
    {
      ghost var start := world;
      ok, died := false, weather.death == 3;
      if died {
        trace := Do(Die, start, []);
        return;
      }
      ok := WriteRecord(None, weather.settle);
      trace := Do(Settle(weather.settle), start, []);
    }

    /** A call whose write-ahead is durable, to its end. */
    method Carry(request: Request, weather: Weather) returns (ending: Ending, ghost trace: seq<Action>)
      requires world.disk == disk
      requires world.process == Some(Process(guard.State(), draws, Ahead(request)))
      requires weather.bill <= request.quote && Honest(weather.result, weather.bill)
      modifies this`disk, this`world, guard
      ensures world == From(config, old(world), trace) && world.disk == disk
      ensures trace == Carried(weather, Goes(old(guard.State()), request))
      ensures if ending.Died? then world.process.None? else Ready()
      ensures ending.Died? <==> weather.death == 3 || (weather.death == 2 && Goes(old(guard.State()), request))
      ensures ending.Answered? <==>
                && !ending.Died? && Goes(old(guard.State()), request) && weather.result.Answer?
                && weather.settle.Replaced?
      ensures !ending.Died? ==> guard.State() == Booking(old(guard.State()), request, weather.result)
      ensures ending.Answered? ==> disk == Some(Record(guard.State(), draws, None))
      ensures world.spent == old(world).spent + if Goes(old(guard.State()), request) then weather.bill else 0
      ensures world.durable == old(world).durable
    {
      ghost var start := world;
      var answered, died;
      answered, died, trace := Dispatch(request, weather);
      if died { return Died, trace; }
      var ok, dies, last := Close(weather);
      FromAppend(config, start, trace, last);
      return if dies then Died else if ok && answered then Answered else Raised, trace + last;
    }

    /** One call. It is answered exactly when it was drawn, written ahead, admitted, sent, answered and
        written again, in that order; it is written ahead before anything is billed; and a call that
        raised before its write-ahead stood has drawn nothing. */
    method Complete(request: Request, weather: Weather) returns (ending: Ending, ghost trace: seq<Action>)
      requires Ready()
      requires weather.bill <= request.quote && Honest(weather.result, weather.bill)
      modifies this, guard
      ensures world == From(config, old(world), trace) && world.disk == disk
      ensures trace == Moves(request, weather, Goes(old(guard.State()), request))
      ensures ending.Died? <==> trace[|trace| - 1] == Die
      ensures ending.Answered? <==>
                && weather.result.Answer?
                && trace == [Begin(request), WriteAhead(Replaced), Enter(weather.bill), Return(weather.result),
                             Settle(Replaced)]
      ensures if ending.Died? then world.process.None? else Ready()
      ensures world.durable == old(world).durable + if WrittenFirst(weather) then [request] else []
      ensures
        var sent := Enter(weather.bill) in trace && Goes(old(guard.State()), request);
        world.spent == old(world).spent + if sent then weather.bill else 0
      ensures !ending.Died? && Enter(weather.bill) !in trace ==>
                draws == old(draws) && guard.State() == old(guard.State())
      ensures !ending.Died? && Enter(weather.bill) in trace ==>
                && draws == Draw(config.stream, old(draws), request)
                && guard.State() == Booking(old(guard.State()), request, weather.result)
      ensures ending.Answered? ==> disk == Some(Record(guard.State(), draws, None))
    {
      ghost var start := world;
      MovesMean(request, weather, Goes(guard.State(), request));
      var ok, died;
      ok, died, trace := Stage(request, weather);
      if died { return Died, trace; }
      if !ok { return Raised, trace; }
      ghost var rest;
      ending, rest := Carry(request, weather);
      FromAppend(config, start, trace, rest);
      trace := trace + rest;
    }

    /** The record's state in memory, its pending quote counted. */
    method LoadRecord()
      requires guard.cap == config.cap
      requires disk.None? ==> guard.State() == Opened(config.cap, config.maxCalls, config.recover)
                              && draws == Draws(0, [])
      modifies this`draws, guard
      ensures Process(guard.State(), draws, Restoring) == Restored(config, disk)
    {
      if disk.Some? {
        guard.Load(disk.value.admission);
        if disk.value.pending.Some? {
          guard.attempted := guard.attempted + 1;
          guard.unknownBills := guard.unknownBills + 1;
          guard.uncertainBills := guard.uncertainBills + 1;
          guard.uncertain := guard.uncertain + disk.value.pending.value;
        }
        draws := disk.value.draws;
      }
    }

    /** A resume up to its write, on the object of a new process. */
    method Reload(ghost start: World) returns (ghost trace: seq<Action>)
      requires start == world && world.process.None? && world.disk == disk && guard.cap == config.cap
      requires disk.None? ==> guard.State() == Opened(config.cap, config.maxCalls, config.recover)
                              && draws == Draws(0, [])
      modifies this`draws, this`world, guard
      ensures trace == [Resume] && world == From(config, start, trace)
      ensures world == start.(process := Some(Process(guard.State(), draws, Restoring)))
      ensures Process(guard.State(), draws, Restoring) == Restored(config, disk)
    {
      LoadRecord();
      trace := Do(Resume, start, []);
    }

    /** The record's totals but for the cap, a pending quote counted, the stand-in's state put back, and
        all of it written before anything else can run. */
    method Restore(write: Write, dies: bool) returns (ending: Ending, ghost trace: seq<Action>)
      requires world.process.None? && world.disk == disk && guard.cap == config.cap
      requires disk.None? ==> guard.State() == Opened(config.cap, config.maxCalls, config.recover)
                              && draws == Draws(0, [])
      modifies this, guard
      ensures world == From(config, old(world), trace) && world.disk == disk
      ensures trace == [Resume, if dies then Die else WriteRestored(write)]
      ensures ending == if dies then Died else if write.Replaced? then Answered else Raised
      ensures if ending.Answered? then Ready() else world.process.None?
      ensures disk == if dies || write.FailedBefore? then old(disk) else Some(Resumed(config, old(disk)))
      ensures world.spent == old(world).spent && world.durable == old(world).durable
    {
      ghost var start := world;
      trace := Reload(start);
      ResumedIs(config, disk, guard.State(), draws);
      if dies {
        trace := Do(Die, start, trace);
        return Died, trace;
      }
      var ok := WriteRecord(None, write);
      trace := Do(WriteRestored(write), start, trace);
      return if ok then Answered else Raised, trace;
    }
  }
}
