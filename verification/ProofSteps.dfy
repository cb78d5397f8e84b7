/** The proof script's step as it is written: the files it touches, in order, each touch a move of the
    attempt protocol. */
module ProofSteps {
  import opened Options
  import opened Attempts

  lemma Opens(s: State, p: Pid)
    requires p in s.procs && s.procs[p] == Looked && s.marker.view.None?
    ensures
      var t := Step(Step(Step(s, Advance(p)), Advance(p)), Advance(p));
      && t.procs == s.procs[p := Acting(false)] && t.payers == s.payers && t.starts == s.starts + [p]
      && t.result == Durable(s.result) && t.marker == Durable(Path(Some(Doc(false, false)), {}))
  {
  }

  lemma Charges(s: State, p: Pid, charged: bool)
    requires p in s.procs && s.procs[p] == Acting(charged)
    ensures
      var t := Step(Step(Step(s, Charge(p)), Advance(p)), Advance(p));
      && t.procs == s.procs[p := Armed] && t.payers == s.payers && t.starts == s.starts
      && t.result == Durable(s.result) && t.marker == Durable(Path(Some(Doc(true, false)), {}))
  {
  }

  lemma Concludes(s: State, p: Pid, charged: bool, ok: bool)
    requires p in s.procs && s.procs[p] == Acting(charged)
    ensures
      var t := Step(Step(Step(s, Finish(p, ok)), Advance(p)), Advance(p));
      && t.procs == s.procs[p := Kept(ok, charged)] && t.payers == s.payers && t.starts == s.starts
      && t.marker == Durable(s.marker) && t.result == Durable(Path(Some(Doc(charged, ok)), {}))
  {
  }

  class Proof {
    const pid: Pid
    const regime: Regime
    var marker: Path
    var result: Path
    var chargeSubmitted: bool
    /** The protocol's moves so far, of this process and of every other. */
    ghost var moves: seq<Action>

    ghost function World(): State
      reads this
    {
      Run(Fresh(regime), moves)
    }

    ghost predicate Valid()
      reads this
    {
      marker == World().marker && result == World().result
    }

    ghost predicate Is(pc: Pc)
      reads this
    {
      Valid() && pid in World().procs && World().procs[pid] == pc && chargeSubmitted == Charged(pc)
    }

    /** A run that has begun, at whatever files the runs before it left. */
    constructor (regime: Regime, pid: Pid, ghost before: seq<Action>, marker: Path, result: Path)
      requires marker == Run(Fresh(regime), before).marker && result == Run(Fresh(regime), before).result
      requires MayBegin(Run(Fresh(regime), before), pid, false)
      ensures Is(Begun(false)) && this.pid == pid && this.regime == regime
      ensures moves == before + [Begin(pid, false)] && this.marker == marker && this.result == result
    {
      this.regime, this.pid, this.marker, this.result := regime, pid, marker, result;
      chargeSubmitted := false;
      moves := before + [Begin(pid, false)];
      RunAppend(Fresh(regime), before, Begin(pid, false));
    }

    ghost method Move(a: Action)
      modifies this`moves
      ensures moves == old(moves) + [a] && World() == Step(old(World()), a)
    {
      RunAppend(Fresh(regime), moves, a);
      moves := moves + [a];
    }

    /** The exclusive marker: opened, written, and durable before the action starts. */
    method Open()
      requires Is(Looked) && marker.view.None?
      modifies this
      ensures Is(Acting(false)) && result == old(Durable(result))
      ensures marker == Durable(Path(Some(Doc(false, false)), {}))
      ensures World().starts == old(World().starts) + [pid] && World().payers == old(World().payers)
    {
      ghost var s := World();
      Opens(s, pid);
      marker := Write(marker, Some(Empty));
      Move(Advance(pid));
      marker := Write(marker, Some(Doc(false, false)));
      Move(Advance(pid));
      marker, result := Durable(marker), Durable(result);
      Move(Advance(pid));
      ghost var t := World();
      assert t == Step(Step(Step(s, Advance(pid)), Advance(pid)), Advance(pid));
    }

    /** A step is claimed only when neither file stands. */
    method Claim() returns (claimed: bool)
      requires Is(Begun(false))
      modifies this
      ensures claimed <==> old(marker.view.None? && result.view.None?)
      ensures claimed ==>
        && Is(Acting(false)) && result == old(Durable(result)) && marker == Durable(Path(Some(Doc(false, false)), {}))
        && World().starts == old(World().starts) + [pid] && World().payers == old(World().payers)
      ensures !claimed ==>
        && Valid() && marker == old(marker) && result == old(result) && World() == Leave(old(World()), pid)
    {
      claimed := marker.view.None? && result.view.None?;
      Move(Advance(pid));
      if claimed { Open(); }
    }

    /** A paid request: noted in memory, then durably in the marker, then sent. */
    method Wire()
      requires Is(Acting(chargeSubmitted))
      modifies this
      ensures Is(Acting(true)) && result == old(Durable(result)) && marker == Durable(Path(Some(Doc(true, false)), {}))
      ensures World().payers == old(World().payers) + {pid} && World().starts == old(World().starts)
    {
      ghost var s := World();
      Charges(s, pid, chargeSubmitted);
      Move(Charge(pid));
      chargeSubmitted := true;
      marker := Write(marker, Some(Doc(true, false)));
      Move(Advance(pid));
      marker, result := Durable(marker), Durable(result);
      Move(Advance(pid));
      ghost var t := World();
      assert t == Step(Step(Step(s, Charge(pid)), Advance(pid)), Advance(pid));
      Move(Advance(pid));
    }

    /** The result, durably. */
    method Record(ok: bool)
      requires Is(Acting(chargeSubmitted))
      modifies this
      ensures Is(Kept(ok, chargeSubmitted)) && chargeSubmitted == old(chargeSubmitted)
      ensures marker == old(Durable(marker)) && result == Durable(Path(Some(Doc(chargeSubmitted, ok)), {}))
      ensures World().starts == old(World().starts) && World().payers == old(World().payers)
    {
      ghost var s := World();
      Concludes(s, pid, chargeSubmitted, ok);
      Move(Finish(pid, ok));
      result := Write(result, Some(Doc(chargeSubmitted, ok)));
      Move(Advance(pid));
      marker, result := Durable(marker), Durable(result);
      Move(Advance(pid));
      ghost var t := World();
      assert t == Step(Step(Step(s, Finish(pid, ok)), Advance(pid)), Advance(pid));
    }

    /** The marker is given up only when the action failed before any charge. */
    method Release(ok: bool)
      requires Is(Kept(ok, chargeSubmitted))
      modifies this
      ensures Valid() && pid !in World().procs && chargeSubmitted == old(chargeSubmitted)
      ensures result == old(Durable(result))
      ensures marker == Durable(Path(if !ok && !chargeSubmitted then None else Some(Doc(chargeSubmitted, ok)), {}))
      ensures World().starts == old(World().starts) && World().payers == old(World().payers)
    {
      if !ok && !chargeSubmitted {
        marker := Write(marker, None);
      } else {
        marker := Write(marker, Some(Doc(chargeSubmitted, ok)));
      }
      Move(Advance(pid));
      marker, result := Durable(marker), Durable(result);
      Move(Sync);
    }

    /** A whole step whose action sends some number of paid requests and then returns or raises. */
    method StepOnce(charges: nat, ok: bool) returns (claimed: bool)
      requires Is(Begun(false))
      modifies this
      ensures Valid() && claimed == old(marker.view.None? && result.view.None?)
      ensures claimed ==>
        && result == Durable(Path(Some(Doc(charges > 0, ok)), {}))
        && marker == Durable(Path(if !ok && charges == 0 then None else Some(Doc(charges > 0, ok)), {}))
        && World().starts == old(World().starts) + [pid]
        && World().payers == old(World().payers) + (if charges > 0 then {pid} else {})
      ensures !claimed ==>
        && marker == old(marker) && result == old(result)
        && World().starts == old(World().starts) && World().payers == old(World().payers)
    {
      claimed := Claim();
      if !claimed { return; }
      for i := 0 to charges
        invariant Is(Acting(i > 0))
        invariant World().starts == old(World().starts) + [pid]
        invariant World().payers == old(World().payers) + (if i > 0 then {pid} else {})
      {
        Wire();
      }
      Record(ok);
      Release(ok);
    }
  }
}
