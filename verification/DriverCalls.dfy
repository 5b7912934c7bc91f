/** Every interleaving of the builtin driver's calls has the outcome of the same calls made one after the other. */
module DriverCalls {
  import opened Prelude
  import opened Ports
  import opened PortManager
  import opened PortManagerProofs
  import opened PortManagerProgress
  import opened Drivers

  // ---------------------------------------------------------------- calls one after the other

  /** The tables after successful calls, each with no other in between. */
  function Replay(changes: seq<Change>): Tables {
    if changes == [] then EMPTY else Changed(Replay(changes[..|changes| - 1]), changes[|changes| - 1])
  }

  /** Each of them succeeds where it stands. */
  predicate Sequential(v: ValidIP, changes: seq<Change>) {
    forall k | 0 <= k < |changes| :: Succeeds(v, Replay(changes[..k]), changes[k])
  }

  lemma SequentialExtends(v: ValidIP, changes: seq<Change>, c: Change)
    requires Sequential(v, changes) && Succeeds(v, Replay(changes), c)
    ensures Sequential(v, changes + [c]) && Replay(changes + [c]) == Changed(Replay(changes), c)
  {
    var all := changes + [c];
    assert all[..|changes|] == changes;
    forall k | 0 <= k < |all|
      ensures Succeeds(v, Replay(all[..k]), all[k])
    {
      assert k < |changes| ==> all[..k] == changes[..k];
    }
  }

  // ---------------------------------------------------------------- where a call takes effect

  /** The change a step completes: AddPort takes effect when its stopper is put, RemovePort when it is deleted. */
  function Effect(s: State, a: Action): seq<Change> {
    if !a.InCall? || a.call !in s.calls then []
    else
      match (s.calls[a.call], a.ca)
      case (AddPutStopper(spec, rid), PutStopper) => [Add(spec, rid)]
      case (RemoveStopper(id, _, _), DeleteStopper) => [Remove(id)]
      case _ => []
  }

  /** The changes of a run, in the order in which they take effect. */
  function History(v: ValidIP, actions: seq<Action>): seq<Change>
    requires Run(v, actions).Some?
  {
    if actions == [] then []
    else
      var front := actions[..|actions| - 1];
      History(v, front) + Effect(Run(v, front).value, actions[|actions| - 1])
  }

  /** The tables without the entry that the holder of `mu` has half put or half removed. */
  function Settled(s: State): Tables {
    Tables(s.ports - Half(s), s.stoppers, s.nextID)
  }

  /** A call that has passed the check, or started a routine, has a spec that allows it. */
  predicate SpecAllowed(v: ValidIP, pc: CallPc) {
    match pc
    case AddRun(spec) => WellFormed(spec, v)
    case AddLock(spec, _) => WellFormed(spec, v) && (IsTCP(spec) || IsUDP(spec))
    case AddPutPort(spec, _) => WellFormed(spec, v) && (IsTCP(spec) || IsUDP(spec))
    case AddPutStopper(spec, _) => WellFormed(spec, v) && (IsTCP(spec) || IsUDP(spec))
    case _ => true
  }

  predicate AllAllowed(v: ValidIP, s: State) {
    forall c | c in s.calls :: SpecAllowed(v, s.calls[c])
  }

  lemma CallAllowed(v: ValidIP, s: State, c: Call, a: CallAction)
    requires AllAllowed(v, s) && CallStep(v, s, c, a).Some?
    ensures AllAllowed(v, CallStep(v, s, c, a).value)
  {
    hide WellFormed, IsTCP, IsUDP, Conflicts;
  }

  // ---------------------------------------------------------------- one step

  /** What a step does to the settled tables is the change it completes, which would succeed there, or nothing. */
  predicate Settles(v: ValidIP, s: State, s': State, changes: seq<Change>) {
    if changes == [] then Settled(s') == Settled(s)
    else |changes| == 1 && Succeeds(v, Settled(s), changes[0]) && Settled(s') == Changed(Settled(s), changes[0])
  }

  /** A half-put entry conflicts with no other. */
  lemma HalfPutSucceeds(v: ValidIP, s: State, c: Call, spec: Spec, rid: Rid)
    requires Inv(s) && Claimed(s) && AllAllowed(v, s) && c in s.calls && s.calls[c] == AddPutStopper(spec, rid)
    ensures s.mu == Some(c) && Half(s) == {s.nextID}
    ensures s.nextID in s.ports && s.ports[s.nextID] == Status(s.nextID, spec)
    ensures Succeeds(v, Settled(s), Add(spec, rid))
  {
    assert HoldsMu(s.calls[c]) && SpecAllowed(v, s.calls[c]);
    assert s.nextID in s.ports.Keys;
    hide WellFormed, IsTCP, IsUDP;
  }

  lemma PutStopperSettles(v: ValidIP, s: State, c: Call)
    requires Inv(s) && Claimed(s) && AllAllowed(v, s) && c in s.calls && AddStep(v, s, c, s.calls[c], PutStopper).Some?
    ensures Settles(v, s, AddStep(v, s, c, s.calls[c], PutStopper).value, Effect(s, InCall(c, PutStopper)))
    // and the call returns the ID that it has among the calls made one after the other
    ensures AddStep(v, s, c, s.calls[c], PutStopper).value.calls[c] == Added(Settled(s).nextID)
  {
    var spec, rid := s.calls[c].spec, s.calls[c].rid;
    HalfPutSucceeds(v, s, c, spec, rid);
    AddHalf(v, s, c, PutStopper);
    hide Inv, Claimed, AllAllowed, Half, Succeeds;
    var s' := AddStep(v, s, c, s.calls[c], PutStopper).value;
    assert s.ports == (s.ports - {s.nextID})[s.nextID := Status(s.nextID, spec)];
    assert s'.ports - {} == s.ports;
  }

  lemma PutPortSettles(v: ValidIP, s: State, c: Call)
    requires Inv(s) && Claimed(s) && c in s.calls && AddStep(v, s, c, s.calls[c], PutPort).Some?
    ensures Settled(AddStep(v, s, c, s.calls[c], PutPort).value) == Settled(s)
  {
    AddHalf(v, s, c, PutPort);
    PutPortNoConflict(s, c, s.calls[c].spec, s.calls[c].rid);
    hide Inv, Claimed, Half, Conflicts;
    var st := Status(s.nextID, s.calls[c].spec);
    assert s.ports[s.nextID := st] - {s.nextID} == s.ports - {};
  }

  lemma AddSettles(v: ValidIP, s: State, c: Call, a: CallAction)
    requires Inv(s) && Claimed(s) && AllAllowed(v, s) && c in s.calls && AddStep(v, s, c, s.calls[c], a).Some?
    ensures Settles(v, s, AddStep(v, s, c, s.calls[c], a).value, Effect(s, InCall(c, a)))
  {
    if a == PutStopper {
      PutStopperSettles(v, s, c);
    } else if a == PutPort {
      PutPortSettles(v, s, c);
      hide Inv, Claimed, Half;
    } else {
      AddHalf(v, s, c, a);
      hide Inv, Claimed, Half, WellFormed, Conflicts;
    }
  }

  lemma RemoveHalf(s: State, c: Call, a: CallAction)
    requires MuRight(s) && c in s.calls && RemoveStep(s, c, s.calls[c], a).Some?
    ensures var h, h' := Half(s), Half(RemoveStep(s, c, s.calls[c], a).value);
            match a
            case DeleteStopper => h == {} && h' == {s.calls[c].id}
            case DeletePort => h == {s.calls[c].id} && h' == {}
            case _ => h == h'
  {
  }

  lemma RemoveSettles(v: ValidIP, s: State, c: Call, a: CallAction)
    requires MuRight(s) && OwnersRight(s) && c in s.calls && RemoveStep(s, c, s.calls[c], a).Some?
    ensures Settles(v, s, RemoveStep(s, c, s.calls[c], a).value, Effect(s, InCall(c, a)))
  {
    RemoveHalf(s, c, a);
    if a == DeleteStopper {
      assert HoldsMu(s.calls[c]) && RemovalRight(s, s.calls[c]);
    }
    hide MuRight, OwnersRight, Half;
  }

  lemma StopSettles(v: ValidIP, s: State, c: Call, id: int, rid: Rid, a: CallAction)
    requires MuRight(s) && AtStop(s, c, id, rid) && StopStep(s, c, id, rid, a).Some?
    ensures Settles(v, s, StopStep(s, c, id, rid, a).value, Effect(s, InCall(c, a)))
  {
  }

  lemma StartSettles(v: ValidIP, s: State, c: Call, a: CallAction)
    requires MuRight(s) && a.Start? && CallStep(v, s, c, a).Some?
    ensures Settles(v, s, CallStep(v, s, c, a).value, Effect(s, InCall(c, a)))
  {
  }

  lemma CallSettles(v: ValidIP, s: State, c: Call, a: CallAction)
    requires Inv(s) && Claimed(s) && AllAllowed(v, s) && CallStep(v, s, c, a).Some?
    ensures Settles(v, s, CallStep(v, s, c, a).value, Effect(s, InCall(c, a)))
  {
    if a.Start? {
      StartSettles(v, s, c, a);
    } else if s.calls[c].RemoveStop? || s.calls[c].RemoveWait? {
      StopSettles(v, s, c, s.calls[c].id, s.calls[c].rid, a);
      hide Inv, Claimed, Settles, StopStep;
    } else if CallStep(v, s, c, a) == AddStep(v, s, c, s.calls[c], a) {
      AddSettles(v, s, c, a);
      hide Inv, Claimed, Settles, AddStep, RemoveStep;
    } else {
      RemoveSettles(v, s, c, a);
      hide Inv, Claimed, Settles, AddStep, RemoveStep;
    }
  }

  // ---------------------------------------------------------------- whole runs

  lemma {:induction false} RunSettles(v: ValidIP, actions: seq<Action>)
    requires Run(v, actions).Some? && NeverBreaks(actions)
    ensures var s := Run(v, actions).value;
            AllAllowed(v, s) && Sequential(v, History(v, actions)) && Replay(History(v, actions)) == Settled(s)
  {
    if actions != [] {
      var front, a := actions[..|actions| - 1], actions[|actions| - 1];
      RunSettles(v, front);
      RunInv(v, front);
      RunClaimed(v, front);
      var s := Run(v, front).value;
      var changes := Effect(s, a);
      hide Inv, Claimed, CallStep, RoutineStep, Settled, Succeeds, Changed, AllAllowed, Sequential, Replay;
      match a {
        case InCall(c, ca) =>
          CallAllowed(v, s, c, ca);
          CallSettles(v, s, c, ca);
        case InRoutine(rid, ra) => RoutineSettles(v, s, rid, RoutineStep(s.routines[rid], ra).value);
      }
      if changes == [] {
        assert History(v, front) + changes == History(v, front);
      } else {
        assert changes == [changes[0]];
        SequentialExtends(v, History(v, front), changes[0]);
      }
    }
  }

  lemma RoutineSettles(v: ValidIP, s: State, rid: Rid, r: Routine)
    requires AllAllowed(v, s)
    ensures var s' := s.(routines := s.routines[rid := r]); AllAllowed(v, s') && Settled(s') == Settled(s)
  {
  }

  /**
   * Whenever `mu` is free, the tables are those that the calls leave when they are made one after the
   * other, in the order in which they took effect, and each of them succeeds there as well.
   */
  lemma {:induction false} Linearizes(v: ValidIP, actions: seq<Action>)
    requires Run(v, actions).Some? && NeverBreaks(actions) && Run(v, actions).value.mu == None
    ensures var s := Run(v, actions).value;
            Sequential(v, History(v, actions)) && Replay(History(v, actions)) == Tables(s.ports, s.stoppers, s.nextID)
  {
    RunSettles(v, actions);
    var s := Run(v, actions).value;
    assert s.ports - {} == s.ports;
  }

  /** A call that is refused is refused there too: the answer is that of the tables the calls so far leave one after the other. */
  lemma RefusalsAgree(v: ValidIP, actions: seq<Action>, c: Call)
    requires Run(v, actions).Some? && NeverBreaks(actions) && c in Run(v, actions).value.calls
    ensures var s, t := Run(v, actions).value, Replay(History(v, actions));
            && (CallStep(v, s, c, TakeStopper).Some? && s.calls[c].RemoveLock? ==>
                  (CallStep(v, s, c, TakeStopper).value.calls[c].UnknownId? <==> !Succeeds(v, t, Remove(s.calls[c].id))))
            && (CallStep(v, s, c, Check).Some? && s.calls[c].AddCheck? && (IsTCP(s.calls[c].spec) || IsUDP(s.calls[c].spec)) ==>
                  (CallStep(v, s, c, Check).value.calls[c].AddFailed? <==> !Succeeds(v, t, Add(s.calls[c].spec, 0))))
  {
    var s := Run(v, actions).value;
    RunSettles(v, actions);
    RunInv(v, actions);
    if s.mu == None {
      assert s.ports - {} == s.ports;
      if s.calls[c].RemoveLock? && CallStep(v, s, c, TakeStopper).Some? {
        TakeAnswers(v, s, c);
      }
    }
    hide Inv, Run, WellFormed, Conflicts, IsTCP, IsUDP;
  }
}
