/** The attempt protocol of a paid proof step: an exclusive marker before the action, a result after
    it, and a disk that may lose what was not yet synced. */
module Attempts {
  import opened Options

  // One step's two files are followed under any number of runs of the script, each file operation a
  // move of its own.

  type Pid = nat

  /** What a file says: an opened marker is empty until it is written. */
  datatype Doc = Empty | Doc(charged: bool, ok: bool)

  /** What a process sees at a path, and every state a loss of power could leave it in. */
  datatype Path = Path(view: Option<Doc>, maybe: set<Option<Doc>>)

  datatype Pc =
    | Begun(continuing: bool)
    | Surveyed                               // continuing: no marker stands without a result
    | Dropped                                // continuing: a failed result is gone
    | Looked                                 // neither file seen
    | Created                                // the marker opened exclusively
    | Filled                                 // and written
    | Acting(charged: bool)                  // and durable: the action runs
    | Flagged                                // a charge is about to be sent: noted in memory
    | Rewritten                              // noted in the marker
    | Armed                                  // durably
    | Finished(ok: bool, charged: bool)
    | Put(ok: bool, charged: bool)           // the result replaced
    | Kept(ok: bool, charged: bool)          // durably

  /** Several runs at once, none of them continuing; or one at a time, of either kind. */
  datatype Regime = Together | Alone

  /** `starts` are the processes whose action started, in order; `payers` those that sent a charge. */
  datatype State = State(
    regime: Regime,
    marker: Path,
    result: Path,
    procs: map<Pid, Pc>,
    begun: set<Pid>,
    starts: seq<Pid>,
    payers: set<Pid>)

  datatype Action =
    | Begin(p: Pid, continuing: bool)
    | Advance(p: Pid)                 // the next file operation, as the process is written
    | Charge(p: Pid)                  // the action asks for a paid request
    | Finish(p: Pid, ok: bool)        // the action returns, or raises
    | Die(p: Pid)                     // the process ends anywhere, its files as they are
    | Sync                            // the directory is synced for another file's sake
    | PowerLoss(m: Option<Doc>, r: Option<Doc>)

  function Fresh(regime: Regime): State {
    State(regime, Path(None, {None}), Path(None, {None}), map[], {}, [], {})
  }

  // ----- The disk -----

  function Write(f: Path, v: Option<Doc>): Path {
    Path(v, f.maybe + {v})
  }

  function Durable(f: Path): Path {
    Path(f.view, {f.view})
  }

  function Synced(s: State): State {
    s.(marker := Durable(s.marker), result := Durable(s.result))
  }

  // ----- The processes -----

  function At(s: State, p: Pid, pc: Pc): State {
    s.(procs := s.procs[p := pc])
  }

  function Leave(s: State, p: Pid): State {
    s.(procs := s.procs - {p})
  }

  function NextOf(s: State, p: Pid, pc: Pc): State {
    match pc
    case Begun(continuing) =>
      if !continuing then Look(s, p)
      else if s.marker.view.Some? && s.result.view.None? then Leave(s, p)
      else At(s, p, Surveyed)
    case Surveyed =>
      if s.result.view.Some? && s.result.view.value.Doc? && s.result.view.value.ok then Leave(s, p)
      else At(s.(result := if s.result.view.Some? then Write(s.result, None) else s.result), p, Dropped)
    case Dropped => At(s.(marker := if s.marker.view.Some? then Write(s.marker, None) else s.marker), p, Begun(false))
    case Looked =>
      if s.marker.view.Some? then Leave(s, p) else At(s.(marker := Write(s.marker, Some(Empty))), p, Created)
    case Created => At(s.(marker := Write(s.marker, Some(Doc(false, false)))), p, Filled)
    case Filled => At(Synced(s).(starts := s.starts + [p]), p, Acting(false))
    case Acting(_) => s
    case Flagged => At(s.(marker := Write(s.marker, Some(Doc(true, false)))), p, Rewritten)
    case Rewritten => At(Synced(s), p, Armed)
    case Armed => At(s.(payers := s.payers + {p}), p, Acting(true))
    case Finished(ok, charged) => At(s.(result := Write(s.result, Some(Doc(charged, ok)))), p, Put(ok, charged))
    case Put(ok, charged) => At(Synced(s), p, Kept(ok, charged))
    case Kept(ok, charged) =>
      Leave(s.(marker := Write(s.marker, if !ok && !charged then None else Some(Doc(charged, ok)))), p)
  }

  function Look(s: State, p: Pid): State {
    if s.marker.view.Some? || s.result.view.Some? then Leave(s, p) else At(s, p, Looked)
  }

  /** Whether a charge was noted in memory. */
  predicate Noted(pc: Pc) {
    pc.Flagged? || pc.Rewritten? || pc.Armed? || (pc.Acting? && pc.charged)
  }

  predicate Running(pc: Pc) {
    pc.Acting? || pc.Flagged? || pc.Rewritten? || pc.Armed?
  }

  predicate MayBegin(s: State, p: Pid, continuing: bool) {
    p !in s.begun && if s.regime.Together? then !continuing else s.procs == map[]
  }

  function Step(s: State, a: Action): State {
    match a
    case Begin(p, continuing) =>
      if MayBegin(s, p, continuing) then At(s.(begun := s.begun + {p}), p, Begun(continuing)) else s
    case Advance(p) => if p in s.procs then NextOf(s, p, s.procs[p]) else s
    case Charge(p) => if p in s.procs && s.procs[p].Acting? then At(s, p, Flagged) else s
    case Finish(p, ok) =>
      if p in s.procs && Running(s.procs[p]) && (ok ==> s.procs[p].Acting?)
      then At(s, p, Finished(ok, Noted(s.procs[p]))) else s
    case Die(p) => Leave(s, p)
    case Sync => Synced(s)
    case PowerLoss(m, r) =>
      if m in s.marker.maybe && r in s.result.maybe
      then s.(marker := Path(m, {m}), result := Path(r, {r}), procs := map[]) else s
  }

  function Run(s: State, actions: seq<Action>): State {
    if actions == [] then s else Step(Run(s, actions[..|actions| - 1]), actions[|actions| - 1])
  }

  // ----- What every run keeps -----

  /** The process has opened the marker and not yet given it up. */
  predicate Holds(pc: Pc) {
    pc.Created? || pc.Filled? || Running(pc) || pc.Finished? || pc.Put? || pc.Kept?
  }

  /** The process's action has started. */
  predicate Past(pc: Pc) {
    Holds(pc) && !pc.Created? && !pc.Filled?
  }

  predicate Charged(pc: Pc) {
    Noted(pc) || ((pc.Finished? || pc.Put? || pc.Kept?) && pc.charged)
  }

  /** No loss of power can take the file away. */
  predicate Lasting(f: Path) {
    f.view.Some? && None !in f.maybe
  }

  predicate Consistent(f: Path) {
    f.view in f.maybe
  }

  ghost predicate OneHolder(s: State) {
    forall p, q | p in s.procs && q in s.procs && Holds(s.procs[p]) && Holds(s.procs[q]) :: p == q
  }

  ghost predicate Held(s: State) {
    forall p | p in s.procs && Holds(s.procs[p]) ::
      && s.marker.view.Some?
      && (Past(s.procs[p]) ==> Lasting(s.marker))
      && (s.procs[p].Rewritten? ==> s.marker.view == Some(Doc(true, false)))
      && (s.procs[p].Armed? ==> s.marker.maybe == {Some(Doc(true, false))})
  }

  /** Only a continuing run, which runs alone, is ever about to unlink a marker it did not open. */
  ghost predicate Careful(s: State) {
    && (s.regime.Together? ==> forall p <- s.procs :: !Unlinks(s.procs[p]))
    && (s.regime.Alone? ==> forall p, q | p in s.procs && q in s.procs :: p == q)
  }

  predicate Unlinks(pc: Pc) {
    pc == Begun(true) || pc.Surveyed? || pc.Dropped?
  }

  ghost predicate Inv(s: State) {
    && Consistent(s.marker) && Consistent(s.result)
    && OneHolder(s) && Held(s) && Careful(s)
    && s.procs.Keys <= s.begun && s.payers <= s.begun
  }

  /** A process that does not hold the marker opens it only when nobody does. */
  lemma AdvanceKeepsHolder(s: State, p: Pid)
    requires Inv(s) && p in s.procs
    ensures OneHolder(NextOf(s, p, s.procs[p]))
  {
    var t := NextOf(s, p, s.procs[p]);
    forall q | q in t.procs && q != p
      ensures q in s.procs && t.procs[q] == s.procs[q]
    {
    }
  }

  lemma AdvanceKeepsHeld(s: State, p: Pid)
    requires Inv(s) && p in s.procs
    ensures Held(NextOf(s, p, s.procs[p]))
  {
    if !Holds(s.procs[p]) {
      OthersKeepHeld(s, p);
    }
  }

  lemma OthersKeepHeld(s: State, p: Pid)
    requires Inv(s) && p in s.procs && !Holds(s.procs[p])
    ensures Held(NextOf(s, p, s.procs[p]))
  {
  }

  lemma AdvanceKeepsRest(s: State, p: Pid)
    requires Inv(s) && p in s.procs
    ensures
      var t := NextOf(s, p, s.procs[p]);
      && Consistent(t.marker) && Consistent(t.result) && Careful(t)
      && t.procs.Keys <= t.begun && t.payers <= t.begun && t.regime == s.regime
  {
  }

  lemma StepKeeps(s: State, a: Action)
    requires Inv(s)
    ensures Inv(Step(s, a)) && Step(s, a).regime == s.regime
  {
    if a.Advance? {
      if a.p in s.procs {
        AdvanceKeepsHolder(s, a.p);
        AdvanceKeepsHeld(s, a.p);
        AdvanceKeepsRest(s, a.p);
      }
    }
  }

  /** Every reachable state, in either regime. */
  lemma {:induction false} EveryRun(regime: Regime, actions: seq<Action>)
    ensures Inv(Run(Fresh(regime), actions)) && Run(Fresh(regime), actions).regime == regime
  {
    if actions != [] {
      EveryRun(regime, actions[..|actions| - 1]);
      StepKeeps(Run(Fresh(regime), actions[..|actions| - 1]), actions[|actions| - 1]);
    }
  }

  // ----- A charge is recorded before it is sent -----

  /** When a move sends a process's first charge, the marker says so and no loss of power can change
      that. */
  lemma ChargeIsRecordedFirst(regime: Regime, actions: seq<Action>, a: Action, p: Pid)
    requires p !in Run(Fresh(regime), actions).payers
    requires p in Step(Run(Fresh(regime), actions), a).payers
    ensures Run(Fresh(regime), actions).marker.maybe == {Some(Doc(true, false))}
  {
    EveryRun(regime, actions);
  }

  // ----- Runs together pay once -----

  ghost predicate PaidOnce(s: State) {
    && (s.payers == {} || exists q :: s.payers == {q})
    && (s.payers != {} ==> Lasting(s.marker))
    && (forall q, p | q in s.payers && p in s.procs && Holds(s.procs[p]) :: p == q && Charged(s.procs[p]))
  }

  lemma PayingKeepsOnce(s: State, p: Pid)
    requires Inv(s) && s.regime.Together? && PaidOnce(s) && p in s.procs && s.procs[p].Armed?
    ensures PaidOnce(Step(s, Advance(p)))
  {
    var t := Step(s, Advance(p));
    if s.payers != {} {
      var q :| s.payers == {q};
      assert q in s.payers && p == q;
    }
    assert t.payers == {p};
  }

  lemma StepPaysOnce(s: State, a: Action)
    requires Inv(s) && s.regime.Together? && PaidOnce(s)
    ensures PaidOnce(Step(s, a))
  {
    if a.Advance? && a.p in s.procs && s.procs[a.p].Armed? {
      PayingKeepsOnce(s, a.p);
    } else {
      assert Step(s, a).payers == s.payers;
    }
  }

  /** However many runs there are, at once or one after the other, killed anywhere or without power:
      at most one of them ever sends a charge for the step. */
  lemma {:induction false} AtMostOnePayer(actions: seq<Action>)
    ensures PaidOnce(Run(Fresh(Together), actions)) && |Run(Fresh(Together), actions).payers| <= 1
  {
    if actions != [] {
      var before := actions[..|actions| - 1];
      AtMostOnePayer(before);
      EveryRun(Together, before);
      StepPaysOnce(Run(Fresh(Together), before), actions[|actions| - 1]);
    }
  }

  // ----- Runs one at a time start once -----

  predicate Default(a: Action) {
    a.Begin? ==> !a.continuing
  }

  ghost predicate StartedOnce(s: State) {
    && |s.starts| <= 1
    && (forall p <- s.procs :: !Unlinks(s.procs[p]))
    && (forall p <- s.procs | s.procs[p].Put? :: s.result.view.Some?)
    && (forall p <- s.procs | s.procs[p].Kept? :: Lasting(s.result))
    && (s.starts != [] ==> Lasting(s.marker) || Lasting(s.result))
    && (s.starts != [] ==> forall p <- s.procs :: s.procs[p] == Begun(false) || Past(s.procs[p]))
  }

  lemma StepStartsOnce(s: State, a: Action)
    requires Inv(s) && s.regime.Alone? && StartedOnce(s) && Default(a)
    ensures StartedOnce(Step(s, a))
  {
    if a.Advance? {
      if a.p in s.procs {
        AdvanceStartsOnce(s, a.p);
      }
    }
  }

  lemma AdvanceStartsOnce(s: State, p: Pid)
    requires Inv(s) && s.regime.Alone? && StartedOnce(s) && p in s.procs
    ensures StartedOnce(Step(s, Advance(p)))
  {
    assert forall q <- s.procs :: q == p;
    var t := Step(s, Advance(p));
    assert forall q <- t.procs :: q == p;
  }

  /** Runs one after the other, none of them continuing, killed anywhere: the step's action starts at
      most once. */
  lemma {:induction false} AtMostOneStart(actions: seq<Action>)
    requires forall a <- actions :: Default(a)
    ensures StartedOnce(Run(Fresh(Alone), actions)) && |Run(Fresh(Alone), actions).starts| <= 1
  {
    if actions != [] {
      var before := actions[..|actions| - 1];
      AtMostOneStart(before);
      EveryRun(Alone, before);
      StepStartsOnce(Run(Fresh(Alone), before), actions[|actions| - 1]);
    }
  }

  // ----- Continuing runs -----

  /** While one run is at work on the step, no result stands, and none can come back. */
  ghost predicate NoResultYet(s: State) {
    forall p <- s.procs ::
      && (s.procs[p].Looked? || s.procs[p].Created? || s.procs[p].Filled? ==> s.result.view == None)
      && (Running(s.procs[p]) || s.procs[p].Finished? ==> s.result == Path(None, {None}))
  }

  lemma StepHasNoResultYet(s: State, a: Action)
    requires Inv(s) && s.regime.Alone? && NoResultYet(s)
    ensures NoResultYet(Step(s, a))
  {
  }

  lemma {:induction false} RunHasNoResultYet(actions: seq<Action>)
    ensures NoResultYet(Run(Fresh(Alone), actions))
  {
    if actions != [] {
      var before := actions[..|actions| - 1];
      RunHasNoResultYet(before);
      EveryRun(Alone, before);
      StepHasNoResultYet(Run(Fresh(Alone), before), actions[|actions| - 1]);
    }
  }

  /** A marker stands without a result, for good. */
  ghost predicate Blocked(s: State) {
    && s.regime.Alone? && Lasting(s.marker) && Consistent(s.marker) && s.result == Path(None, {None})
    && forall p <- s.procs :: s.procs[p].Begun?
  }

  lemma {:induction false} BlockedStays(s: State, after: seq<Action>)
    requires Blocked(s)
    ensures Blocked(Run(s, after)) && Run(s, after).starts == s.starts
  {
    if after != [] {
      BlockedStays(s, after[..|after| - 1]);
    }
  }

  predicate Ends(a: Action, p: Pid) {
    a == Die(p) || a.PowerLoss?
  }

  /** A run that ends while the action runs, or before its result is written, blocks every later run
      of the step, continuing or not. */
  lemma InterruptedBlocks(actions: seq<Action>, p: Pid, a: Action, after: seq<Action>)
    requires
      var s := Run(Fresh(Alone), actions);
      && p in s.procs && (Running(s.procs[p]) || s.procs[p].Finished?)
      && Ends(a, p) && p !in Step(s, a).procs
    ensures
      var t := Step(Run(Fresh(Alone), actions), a);
      Blocked(t) && Run(t, after).starts == t.starts
  {
    EveryRun(Alone, actions);
    RunHasNoResultYet(actions);
    BlockedStays(Step(Run(Fresh(Alone), actions), a), after);
  }

  predicate OkDoc(v: Option<Doc>) {
    v.Some? && v.value.Doc? && v.value.ok
  }

  /** The step is done: its marker stays, and its result is ok wherever it is seen. */
  ghost predicate Settled(s: State) {
    && s.regime.Alone? && Lasting(s.marker) && Consistent(s.marker) && Consistent(s.result)
    && (forall v <- s.result.maybe :: v == None || OkDoc(v))
    && (forall p, q | p in s.procs && q in s.procs :: p == q)
    && forall p <- s.procs ::
      || s.procs[p].Begun?
      || (s.procs[p].Surveyed? && OkDoc(s.result.view))
      || ((s.procs[p].Put? || s.procs[p].Kept?) && s.procs[p].ok)
  }

  lemma SettledStep(s: State, a: Action)
    requires Settled(s)
    ensures Settled(Step(s, a)) && Step(s, a).starts == s.starts
  {
  }

  lemma {:induction false} SettledStays(s: State, after: seq<Action>)
    requires Settled(s)
    ensures Settled(Run(s, after)) && Run(s, after).starts == s.starts
  {
    if after != [] {
      SettledStays(s, after[..|after| - 1]);
      SettledStep(Run(s, after[..|after| - 1]), after[|after| - 1]);
    }
  }

  /** Once a step's ok result is written, its action never starts again, whatever run comes after. */
  lemma OkNeverReruns(actions: seq<Action>, p: Pid, after: seq<Action>)
    requires
      var s := Run(Fresh(Alone), actions);
      p in s.procs && s.procs[p].Finished? && s.procs[p].ok
    ensures
      var t := Step(Run(Fresh(Alone), actions), Advance(p));
      Run(t, after).starts == t.starts
  {
    EveryRun(Alone, actions);
    RunHasNoResultYet(actions);
    SettledStays(Step(Run(Fresh(Alone), actions), Advance(p)), after);
  }

  // ----- When a run starts the action -----

  /** A run that nothing disturbs, up to where its action starts. */
  function Undisturbed(p: Pid, continuing: bool): seq<Action> {
    [Begin(p, continuing), Advance(p), Advance(p), Advance(p), Advance(p), Advance(p), Advance(p), Advance(p)]
  }

  /** The files as a continuing run needs them: no marker without a result, and no ok result. */
  predicate MayContinue(s: State) {
    && !(s.marker.view.Some? && s.result.view.None?)
    && !OkDoc(s.result.view)
  }

  lemma LookedStarts(s: State, p: Pid)
    requires p in s.procs && s.procs[p].Looked? && s.marker.view.None?
    ensures
      var t := Step(Step(Step(s, Advance(p)), Advance(p)), Advance(p));
      && t.starts == s.starts + [p] && p in t.procs && t.procs[p] == Acting(false) && t.result.view == s.result.view
      && t.marker.view == Some(Doc(false, false))
  {
  }

  lemma Absent(s: State, p: Pid)
    requires p !in s.procs
    ensures Step(s, Advance(p)) == s
  {
  }

  /** A continuing run's first two moves. */
  lemma ContinuingLooks(s: State, p: Pid)
    requires p in s.procs && s.procs[p] == Begun(true)
    ensures
      var t := Step(Step(Step(s, Advance(p)), Advance(p)), Advance(p));
      if MayContinue(s)
      then t.procs == s.procs[p := Begun(false)] && t.starts == s.starts && t.marker.view == None == t.result.view
      else t == Leave(s, p)
  {
  }

  lemma SevenMoves(s: State, p: Pid, continuing: bool)
    ensures
      var a := Step(s, Begin(p, continuing));
      var b := Step(Step(Step(a, Advance(p)), Advance(p)), Advance(p));
      Run(s, Undisturbed(p, continuing)) == Step(Step(Step(Step(b, Advance(p)), Advance(p)), Advance(p)), Advance(p))
  {
    var all := Undisturbed(p, continuing);
    RunFour(s, all[0], all[1], all[2], all[3]);
    assert all[..4] == [all[0], all[1], all[2], all[3]];
    assert all[..5][..4] == all[..4] && all[..6][..5] == all[..5] && all[..7][..6] == all[..6] && all[..8] == all;
    assert Run(s, all[..5]) == Step(Run(s, all[..4]), Advance(p));
    assert Run(s, all[..6]) == Step(Run(s, all[..5]), Advance(p));
    assert Run(s, all[..7]) == Step(Run(s, all[..6]), Advance(p));
  }

  /** Undisturbed, a default run starts the action exactly when neither file stands, and otherwise leaves
      them as they are. */
  lemma DefaultStartsExactly(s: State, p: Pid)
    requires s.procs == map[] && MayBegin(s, p, false)
    ensures
      var t := Run(s, Undisturbed(p, false));
      if s.marker.view == None && s.result.view == None
      then t.starts == s.starts + [p] && p in t.procs && t.procs[p] == Acting(false)
      else t.starts == s.starts && t.procs == map[] && t.marker == s.marker && t.result == s.result
  {
    SevenMoves(s, p, false);
    var a := Step(s, Begin(p, false));
    var b := Step(a, Advance(p));
    if s.marker.view == None && s.result.view == None {
      LookedStarts(b, p);
    } else {
      Absent(b, p);
    }
  }

  /** Undisturbed, a continuing run starts it exactly when no marker stands without a result and no result
      says ok: the step failed and is run again, from no files at all, or was never run. Otherwise it leaves
      the files as they are. */
  lemma ContinuingStartsExactly(s: State, p: Pid)
    requires s.procs == map[] && MayBegin(s, p, true)
    ensures
      var t := Run(s, Undisturbed(p, true));
      if MayContinue(s)
      then t.starts == s.starts + [p] && p in t.procs && t.procs[p] == Acting(false) && t.result.view == None
      else t.starts == s.starts && t.procs == map[] && t.marker == s.marker && t.result == s.result
  {
    SevenMoves(s, p, true);
    var a := Step(s, Begin(p, true));
    ContinuingLooks(a, p);
    var b := Step(Step(Step(a, Advance(p)), Advance(p)), Advance(p));
    if MayContinue(s) {
      LookedStarts(Step(b, Advance(p)), p);
    } else {
      Absent(b, p);
    }
  }

  // ----- Runs together start once, unless one gives its marker up under another's look -----

  /** A process gives its marker up, failed and unpaid, while another has looked and not yet opened its
      own. */
  ghost predicate GivesUpUnderLook(s: State, a: Action) {
    && a.Advance? && a.p in s.procs && s.procs[a.p] == Kept(false, false)
    && exists q <- s.procs :: s.procs[q].Looked?
  }

  predicate Opening(pc: Pc) {
    pc.Created? || pc.Filled?
  }

  /** The files stand in the way of another start. */
  ghost predicate Barred(s: State) {
    && (forall p <- s.procs :: !Opening(s.procs[p]))
    && (Lasting(s.marker) || (Lasting(s.result) && forall p <- s.procs :: !s.procs[p].Looked?))
  }

  ghost predicate Recorded(s: State) {
    && (forall p <- s.procs | s.procs[p].Put? :: s.result.view.Some?)
    && (forall p <- s.procs | s.procs[p].Kept? :: Lasting(s.result))
    && (forall p <- s.procs | Past(s.procs[p]) :: p in s.starts)
  }

  ghost predicate OnceTogether(s: State) {
    |s.starts| <= 1 && (s.starts != [] ==> Barred(s))
  }

  lemma StepRecords(s: State, a: Action)
    requires Inv(s) && s.regime.Together? && Recorded(s)
    ensures Recorded(Step(s, a))
  {
    if a.Advance? {
      if a.p in s.procs {
        AdvanceRecords(s, a.p);
      }
    }
  }

  lemma AdvanceRecords(s: State, p: Pid)
    requires Inv(s) && s.regime.Together? && Recorded(s) && p in s.procs
    ensures Recorded(Step(s, Advance(p)))
  {
    var t := Step(s, Advance(p));
    forall q <- t.procs
      ensures t.procs[q].Put? ==> t.result.view.Some?
      ensures t.procs[q].Kept? ==> Lasting(t.result)
      ensures Past(t.procs[q]) ==> q in t.starts
    {
      if q != p { assert q in s.procs && t.procs[q] == s.procs[q]; }
    }
  }

  lemma StartBars(s: State, p: Pid)
    requires Inv(s) && p in s.procs && s.procs[p].Filled?
    ensures Barred(Step(s, Advance(p)))
  {
    var t := Step(s, Advance(p));
    forall q <- t.procs ensures !Opening(t.procs[q]) {
      assert q != p ==> t.procs[q] == s.procs[q];
    }
  }

  lemma AdvanceStaysBarred(s: State, p: Pid)
    requires Inv(s) && s.regime.Together? && Recorded(s) && Barred(s) && p in s.procs
    requires !GivesUpUnderLook(s, Advance(p))
    ensures Barred(Step(s, Advance(p)))
  {
    var t := Step(s, Advance(p));
    forall q <- t.procs
      ensures !Opening(t.procs[q])
      ensures !Lasting(t.marker) ==> !t.procs[q].Looked?
    {
      if q != p { assert t.procs[q] == s.procs[q]; }
    }
  }

  lemma StepStaysBarred(s: State, a: Action)
    requires Inv(s) && s.regime.Together? && Recorded(s) && Barred(s) && !GivesUpUnderLook(s, a)
    ensures Barred(Step(s, a)) && Step(s, a).starts == s.starts
  {
    if a.Advance? && a.p in s.procs {
      AdvanceStaysBarred(s, a.p);
    }
  }

  lemma StepStartsOnceTogether(s: State, a: Action)
    requires Inv(s) && s.regime.Together? && Recorded(s) && OnceTogether(s) && !GivesUpUnderLook(s, a)
    ensures OnceTogether(Step(s, a))
  {
    if s.starts != [] {
      StepStaysBarred(s, a);
    } else if a.Advance? && a.p in s.procs && s.procs[a.p].Filled? {
      StartBars(s, a.p);
    }
  }

  lemma {:induction false} RunRecords(actions: seq<Action>)
    ensures Recorded(Run(Fresh(Together), actions))
  {
    if actions != [] {
      var before := actions[..|actions| - 1];
      RunRecords(before);
      EveryRun(Together, before);
      StepRecords(Run(Fresh(Together), before), actions[|actions| - 1]);
    }
  }

  /** Any number of default runs at once, killed anywhere: the action starts at most once, unless some
      process gave its marker up under another's look. */
  lemma {:induction false} TogetherStartsOnce(actions: seq<Action>)
    requires forall k | 0 <= k < |actions| :: !GivesUpUnderLook(Run(Fresh(Together), actions[..k]), actions[k])
    ensures OnceTogether(Run(Fresh(Together), actions)) && |Run(Fresh(Together), actions).starts| <= 1
  {
    if actions != [] {
      var n := |actions| - 1;
      forall k | 0 <= k < n ensures !GivesUpUnderLook(Run(Fresh(Together), actions[..n][..k]), actions[..n][k]) {
        assert actions[..n][..k] == actions[..k];
      }
      TogetherStartsOnce(actions[..n]);
      EveryRun(Together, actions[..n]);
      RunRecords(actions[..n]);
      StepStartsOnceTogether(Run(Fresh(Together), actions[..n]), actions[n]);
    }
  }

  /** And wherever that can happen, the action can start again: from every reachable state in which one
      process is about to give its marker up and another has looked, four moves make a second start,
      by the other. */
  lemma GivingUpStartsAgain(actions: seq<Action>, p: Pid, q: Pid)
    requires
      var s := Run(Fresh(Together), actions);
      p in s.procs && q in s.procs && s.procs[p] == Kept(false, false) && s.procs[q].Looked?
    ensures
      var s := Run(Fresh(Together), actions);
      && p in s.starts && p != q && GivesUpUnderLook(s, Advance(p))
      && Run(Fresh(Together), actions + [Advance(p), Advance(q), Advance(q), Advance(q)]).starts == s.starts + [q]
  {
    RunRecords(actions);
    RunOn(actions, [Advance(p), Advance(q), Advance(q), Advance(q)]);
    Restart(Run(Fresh(Together), actions), p, q);
  }

  lemma {:induction false} RunOn(before: seq<Action>, after: seq<Action>)
    ensures Run(Fresh(Together), before + after) == Run(Run(Fresh(Together), before), after)
  {
    if after == [] {
      assert before + after == before;
    } else {
      var n := |after| - 1;
      assert (before + after)[..|before + after| - 1] == before + after[..n];
      RunOn(before, after[..n]);
    }
  }

  lemma Restart(s: State, p: Pid, q: Pid)
    requires p in s.procs && q in s.procs && s.procs[p] == Kept(false, false) && s.procs[q].Looked?
    ensures Run(s, [Advance(p), Advance(q), Advance(q), Advance(q)]).starts == s.starts + [q]
  {
    var free := Step(s, Advance(p));
    RunFour(s, Advance(p), Advance(q), Advance(q), Advance(q));
    OpensAndActs(free, q);
  }

  lemma RunFour(s: State, a: Action, b: Action, c: Action, d: Action)
    ensures Run(s, [a, b, c, d]) == Step(Step(Step(Step(s, a), b), c), d)
  {
    RunTwo(s, a, b);
    assert [a, b, c, d][..3] == [a, b, c] && [a, b, c][..2] == [a, b];
    assert Run(s, [a, b, c]) == Step(Run(s, [a, b]), c);
  }

  lemma RunTwo(s: State, a: Action, b: Action)
    ensures Run(s, [a, b]) == Step(Step(s, a), b)
  {
    assert [a, b][..1] == [a] && [a][..0] == [];
    assert Run(s, [a]) == Step(Run(s, []), a);
  }

  /** Three moves of a process that has looked, while no marker stands. */
  lemma OpensAndActs(s: State, q: Pid)
    requires q in s.procs && s.procs[q].Looked? && s.marker.view == None
    ensures
      var t := Step(Step(Step(s, Advance(q)), Advance(q)), Advance(q));
      t.starts == s.starts + [q] && t.payers == s.payers
  {
    var a := Step(s, Advance(q));
    assert a.procs[q].Created? && a.starts == s.starts;
    var b := Step(a, Advance(q));
    assert b.procs[q].Filled? && b.starts == s.starts;
  }

  // ----- Runs together may start twice -----

  lemma RunAppend(s: State, before: seq<Action>, a: Action)
    ensures Run(s, before + [a]) == Step(Run(s, before), a)
  {
    assert (before + [a])[..|before|] == before;
  }

  /** The first run ends its step unpaid, between the second's look and its marker. */
  const RACE: seq<Action> := [
    Begin(0, false), Begin(1, false), Advance(0), Advance(1), Advance(0), Advance(0), Advance(0),
    Finish(0, false), Advance(0), Advance(0), Advance(0), Advance(1), Advance(1), Advance(1)]

  lemma RaceStep(k: nat)
    requires k < |RACE|
    ensures Run(Fresh(Together), RACE[..k + 1]) == Step(Run(Fresh(Together), RACE[..k]), RACE[k])
  {
    assert RACE[..k + 1] == RACE[..k] + [RACE[k]];
    RunAppend(Fresh(Together), RACE[..k], RACE[k]);
  }

  lemma RaceLooks()
    ensures
      var s := Run(Fresh(Together), RACE[..4]);
      && s.procs == map[0 := Looked, 1 := Looked] && s.starts == [] && s.payers == {}
      && s.marker.view == None && s.result.view == None
  {
    assert RACE[..0] == [];
    RaceStep(0);
    RaceStep(1);
    RaceStep(2);
    RaceStep(3);
  }

  lemma RaceActs()
    ensures
      var s := Run(Fresh(Together), RACE[..7]);
      s.procs == map[0 := Acting(false), 1 := Looked] && s.starts == [0] && s.payers == {}
  {
    RaceLooks();
    RaceStep(4);
    RaceStep(5);
    RaceStep(6);
  }

  lemma RaceFails()
    ensures
      var s := Run(Fresh(Together), RACE[..9]);
      s.procs == map[0 := Put(false, false), 1 := Looked] && s.starts == [0] && s.payers == {}
  {
    RaceActs();
    RaceStep(7);
    RaceStep(8);
  }

  lemma RaceEnds()
    ensures
      var s := Run(Fresh(Together), RACE[..11]);
      s.procs == map[1 := Looked] && s.starts == [0] && s.payers == {} && s.marker.view == None
  {
    RaceFails();
    RaceStep(9);
    RaceStep(10);
  }

  /** With several runs at once the action may start twice, though neither start paid. */
  lemma TogetherMayStartTwice()
    ensures Run(Fresh(Together), RACE).starts == [0, 1] && Run(Fresh(Together), RACE).payers == {}
  {
    RaceEnds();
    RaceStep(11);
    RaceStep(12);
    RaceStep(13);
    OpensAndActs(Run(Fresh(Together), RACE[..11]), 1);
    assert RACE[..14] == RACE;
  }
}
