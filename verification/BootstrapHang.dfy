/** When the parent waits forever: it keeps the write end of the pipe it reads, so it never sees that pipe end. */
module BootstrapHang {
  import opened Prelude
  import opened Framing
  import opened Messages
  import opened Channel
  import opened Endpoint
  import opened Bootstrap
  import opened BootstrapSafety
  import opened BootstrapReady
  import opened BootstrapProgress

  predicate AtAwait(s: State) {
    s.parent.fail == None && ParentOp(s.parent.pc).Await?
  }

  /** The parent has a step other than being aborted. */
  ghost predicate ParentMoves(cfg: Config, s: State) {
    exists a: ProcAction :: a != Abort && ParentStep(cfg, s, a).Some?
  }

  lemma MovesIff(cfg: Config, s: State)
    requires AtAwait(s) && WritesAtSend(s) && Inv(s.up)
    ensures ParentMoves(cfg, s) <==> s.up.buf != []
  {
    if s.up.buf != [] {
      assert CanRead(s.up, 1) by {
        if s.up.want.Some? { SendableNext(s.up); }
      }
      assert ParentStep(cfg, s, Read(1)).Some?;
    }
  }

  lemma RunWrites(cfg: Config, actions: seq<Action>)
    requires Run(cfg, actions).Some?
    ensures WritesAtSend(Run(cfg, actions).value) && Inv(Run(cfg, actions).value.up)
  {
    RunTold(cfg, actions);
    ReceivedIsPrefix(cfg, actions);
  }

  /** Whatever happens, short of aborting the parent, it does not get a step. */
  ghost predicate Hangs(cfg: Config, actions: seq<Action>) {
    forall more | Run(cfg, actions + more).Some? && ByParent(Abort) !in more ::
      !ParentMoves(cfg, Run(cfg, actions + more).value)
  }

  // ---------------------------------------------------------------- nothing comes any more

  predicate Abandoned(s: State) {
    AtAwait(s) && s.child.fail.Some? && s.up.buf == []
  }

  lemma OnlyAbort(cfg: Config, s: State, a: ProcAction)
    requires Abandoned(s) && WritesAtSend(s)
    ensures ParentStep(cfg, s, a).Some? ==> a == Abort
  {
    hide Inv;
  }

  lemma ChildIsDead(cfg: Config, s: State, a: ProcAction)
    requires s.child.fail.Some?
    ensures ChildStep(cfg, s, a) == None
  {
  }

  lemma DriversLeave(s: State, a: DriverAction)
    requires DriversStep(s, a).Some?
    ensures var s' := DriversStep(s, a).value; s' == s.(w := s'.w)
  {
  }

  lemma AbandonedKept(cfg: Config, s: State, a: Action)
    requires Abandoned(s) && WritesAtSend(s) && Step(cfg, s, a).Some? && a != ByParent(Abort)
    ensures Abandoned(Step(cfg, s, a).value)
  {
    hide ParentStep, ChildStep, DriversStep, WritesAtSend;
    match a
    case ByParent(pa) => OnlyAbort(cfg, s, pa);
    case ByChild(ca) => ChildIsDead(cfg, s, ca);
    case ByDriver(da) => DriversLeave(s, da);
  }

  lemma {:induction false} AbandonedForever(cfg: Config, actions: seq<Action>, more: seq<Action>)
    requires Run(cfg, actions).Some? && Abandoned(Run(cfg, actions).value)
    requires Run(cfg, actions + more).Some? && ByParent(Abort) !in more
    ensures Abandoned(Run(cfg, actions + more).value)
  {
    hide Step, Abandoned, Init;
    if more == [] {
      assert actions + more == actions;
    } else {
      var front, a := more[..|more| - 1], more[|more| - 1];
      RunSplit(cfg, actions, more);
      AbandonedForever(cfg, actions, front);
      RunTold(cfg, actions + front);
      hide Run, WritesAtSend, Told;
      AbandonedKept(cfg, Run(cfg, actions + front).value, a);
    }
  }

  lemma RunSplit(cfg: Config, actions: seq<Action>, more: seq<Action>)
    requires more != [] && Run(cfg, actions + more).Some?
    ensures var front, a := more[..|more| - 1], more[|more| - 1];
            Run(cfg, actions + front).Some? && Run(cfg, actions + more) == Step(cfg, Run(cfg, actions + front).value, a)
  {
    hide Step, Init;
    var all := actions + more;
    assert all[..|all| - 1] == actions + more[..|more| - 1] && all[|all| - 1] == more[|more| - 1];
  }

  // ---------------------------------------------------------------- the child still delivers

  /** A waiting parent and a child that has not failed, with nothing half written, are healthy. */
  lemma WaitingIsHealthy(cfg: Config, s: State)
    requires Ordered(cfg, s) && Told(cfg, s) && AtAwait(s) && s.child.fail == None && s.up.pend == []
    ensures Healthy(cfg, s)
  {
    hide Carries, DownMsgs, UpMsgs;
    assert |s.down.rcvd| <= |s.down.sent| by { CarriesOrder(cfg, s.down, DownMsgs(cfg)); }
  }

  lemma CarriesOrder(cfg: Config, c: Chan, msgs: seq<Message>)
    requires Carries(cfg.codec, c, msgs)
    ensures |c.rcvd| <= |c.sent|
  {
  }

  lemma ChildLeavesParent(cfg: Config, s: State, a: ProcAction)
    requires ChildStep(cfg, s, a).Some?
    ensures ChildStep(cfg, s, a).value.parent == s.parent
  {
  }

  /** A healthy child brings something into the parent's pipe by its own steps. */
  lemma {:induction false} ChildFeeds(cfg: Config, actions: seq<Action>, sofar: seq<Action>) returns (more: seq<Action>)
    requires Usable(cfg) && CapsAsExpected(cfg) && Run(cfg, actions + sofar).Some?
    requires Healthy(cfg, Run(cfg, actions + sofar).value) && AtAwait(Run(cfg, actions + sofar).value)
    requires ByParent(Abort) !in sofar
    ensures Run(cfg, actions + more).Some? && ByParent(Abort) !in more
    ensures AtAwait(Run(cfg, actions + more).value) && Run(cfg, actions + more).value.up.buf != []
    decreases Measure(cfg, Run(cfg, actions + sofar).value)
  {
    hide Healthy, Usable, Step, ChildStep, NextChild, Measure, Sound;
    var s := Run(cfg, actions + sofar).value;
    if s.up.buf != [] {
      more := sofar;
    } else {
      ChildsTurn(cfg, s);
      ChildCan(cfg, s);
      var a := ByChild(NextChild(s));
      StepIs(cfg, s, a);
      ChildLeavesParent(cfg, s, NextChild(s));
      SoundStep(cfg, s, a);
      MeasureNonNegative(cfg, s);
      var all := actions + sofar + [a];
      assert all[..|all| - 1] == actions + sofar && all == actions + (sofar + [a]);
      more := ChildFeeds(cfg, actions, sofar + [a]);
    }
  }

  lemma ChildsTurn(cfg: Config, s: State)
    requires Healthy(cfg, s) && AtAwait(s) && s.up.buf == []
    ensures !ChildWaits(s)
  {
    if ChildWaits(s) {
      BothWait(cfg, s);
    }
  }

  /** A partial write goes on. */
  lemma FlushFeeds(cfg: Config, s: State)
    requires s.child.fail == None && s.up.pend != []
    ensures var r := Step(cfg, s, ByChild(Flush(1))); r.Some? && r.value.parent == s.parent && r.value.up.buf != []
  {
  }

  /**
   * A waiting parent hangs, that is it gets no step whatever the others do, exactly when the child
   * has failed and the parent has taken all there was in the pipe.
   */
  lemma {:induction false} ParentHangsIff(cfg: Config, actions: seq<Action>)
    requires Usable(cfg) && CapsAsExpected(cfg) && Run(cfg, actions).Some? && AtAwait(Run(cfg, actions).value)
    ensures Hangs(cfg, actions) <==> Run(cfg, actions).value.child.fail.Some? && Run(cfg, actions).value.up.buf == []
  {
    var s := Run(cfg, actions).value;
    if Abandoned(s) {
      forall more | Run(cfg, actions + more).Some? && ByParent(Abort) !in more
        ensures !ParentMoves(cfg, Run(cfg, actions + more).value)
      {
        AbandonedForever(cfg, actions, more);
        RunWrites(cfg, actions + more);
        MovesIff(cfg, Run(cfg, actions + more).value);
      }
    } else {
      var more := SomethingComes(cfg, actions);
      RunWrites(cfg, actions + more);
      MovesIff(cfg, Run(cfg, actions + more).value);
    }
  }

  lemma SomethingComes(cfg: Config, actions: seq<Action>) returns (more: seq<Action>)
    requires Usable(cfg) && CapsAsExpected(cfg) && Run(cfg, actions).Some?
    requires AtAwait(Run(cfg, actions).value) && !Abandoned(Run(cfg, actions).value)
    ensures Run(cfg, actions + more).Some? && ByParent(Abort) !in more
    ensures AtAwait(Run(cfg, actions + more).value) && Run(cfg, actions + more).value.up.buf != []
  {
    hide Step, Usable, Ordered, Told, Healthy, Init;
    var s := Run(cfg, actions).value;
    assert actions + [] == actions;
    if s.up.buf != [] {
      more := [];
    } else if s.up.pend != [] {
      FlushFeeds(cfg, s);
      more := [ByChild(Flush(1))];
      assert (actions + more)[..|actions + more| - 1] == actions;
    } else {
      RunOrdered(cfg, actions);
      RunTold(cfg, actions);
      WaitingIsHealthy(cfg, s);
      more := ChildFeeds(cfg, actions, []);
    }
  }

  // ---------------------------------------------------------------- the child sees the end of its pipe

  /** A waiting child whose parent has failed always has a step: it reads what is left, and then the end of the pipe. */
  lemma {:induction false} ChildNeverHangs(cfg: Config, actions: seq<Action>)
    requires Run(cfg, actions).Some?
    requires var s := Run(cfg, actions).value; s.parent.fail.Some? && s.child.fail == None && ChildOp(s.child.pc).Await?
    ensures var s := Run(cfg, actions).value;
            if s.down.buf == [] then
              ChildStep(cfg, s, End).Some? && ChildStep(cfg, s, End).value.child == Proc(s.child.pc, Some(EndOfPipe))
            else ChildStep(cfg, s, Read(1)).Some?
  {
    ReceivedIsPrefix(cfg, actions);
    var s := Run(cfg, actions).value;
    if s.down.buf != [] && s.down.want.Some? { SendableNext(s.down); }
  }

  lemma EndIsFailure(cfg: Config, s: State)
    requires Ordered(cfg, s) && Told(cfg, s) && ChildEnd(s).Some?
    ensures s.parent.fail.Some?
  {
    if s.parent.fail == None {
      AwaitPosition(s);
      BufferHasNext(s.down);
    }
  }

  /** With nothing half written, a message that is still to be taken is in the pipe. */
  lemma BufferHasNext(c: Chan)
    requires Inv(c) && c.pend == [] && |c.rcvd| < |c.sent|
    ensures c.buf != []
  {
    SendableNext(c);
  }

  predicate EndedByParent(s: State) {
    s.child.fail == Some(EndOfPipe) ==> s.parent.fail.Some?
  }

  lemma ChildEndsByParent(cfg: Config, s: State, a: ProcAction)
    requires Ordered(cfg, s) && Told(cfg, s) && EndedByParent(s) && ChildStep(cfg, s, a).Some?
    ensures EndedByParent(ChildStep(cfg, s, a).value)
  {
    if a == End {
      EndIsFailure(cfg, s);
    } else {
      OnlyEndEnds(cfg, s, a);
    }
    hide Ordered;
  }

  lemma OnlyEndEnds(cfg: Config, s: State, a: ProcAction)
    requires ChildStep(cfg, s, a).Some? && a != End
    ensures ChildStep(cfg, s, a).value.child.fail != Some(EndOfPipe)
  {
    hide Channel.Read, Channel.Flush, Channel.Begin;
  }

  lemma ParentFailureStays(cfg: Config, s: State, a: ProcAction)
    requires ParentStep(cfg, s, a).Some?
    ensures s.parent.fail == None && ParentStep(cfg, s, a).value.child == s.child
  {
    hide Inv;
  }

  /** Under the capability assumption the child sees the end of its pipe only if the parent has failed. */
  lemma {:induction false} EndMeansParentFailed(cfg: Config, actions: seq<Action>)
    requires Usable(cfg) && CapsAsExpected(cfg) && Run(cfg, actions).Some?
    ensures EndedByParent(Run(cfg, actions).value)
  {
    if actions != [] {
      var front, a := actions[..|actions| - 1], actions[|actions| - 1];
      EndMeansParentFailed(cfg, front);
      RunOrdered(cfg, front);
      RunTold(cfg, front);
      var s := Run(cfg, front).value;
      hide ParentStep, ChildStep, DriversStep, Ordered, Usable, Told;
      match a
      case ByParent(pa) => ParentFailureStays(cfg, s, pa);
      case ByChild(ca) => ChildEndsByParent(cfg, s, ca);
      case ByDriver(da) => DriversLeave(s, da);
    }
  }

  // ---------------------------------------------------------------- a parent that waits for its port driver

  predicate AtDriver(cfg: Config, s: State) {
    s.parent.fail == None && ParentOp(s.parent.pc) == AwaitDriver && cfg.driver == Builtin
  }

  /** The parent's driver still waits for a writer of the FIFO, and the child's will not be one. */
  predicate NoWriter(s: State) {
    && s.w.parentDriver == POpening
    && (s.w.childDriver == CDead || (s.w.childDriver == CNotStarted && s.child.fail.Some?))
  }

  predicate NoGivingUp(actions: seq<Action>) {
    ByParent(Abort) !in actions && ByDriver(ParentGiveUp) !in actions
  }

  /** No continuation gives the parent a step, unless it is aborted or its driver fails by itself. */
  ghost predicate HangsAtDriver(cfg: Config, actions: seq<Action>) {
    forall more | Run(cfg, actions + more).Some? && NoGivingUp(more) :: !ParentMoves(cfg, Run(cfg, actions + more).value)
  }

  lemma AtDriverMovesIff(cfg: Config, s: State)
    requires AtDriver(cfg, s) && WritesAtSend(s)
    ensures ParentMoves(cfg, s) <==> s.w.parentDriver in {PSignalling, PDead}
  {
    AwaitsDriver(cfg, s);
    if s.w.parentDriver in {PSignalling, PDead} {
      assert ParentStep(cfg, s, Do).Some?;
    }
  }

  lemma NoWriterKept(cfg: Config, s: State, a: Action)
    requires AtDriver(cfg, s) && NoWriter(s) && WritesAtSend(s) && Told(cfg, s) && Step(cfg, s, a).Some?
    requires a != ByParent(Abort) && a != ByDriver(ParentGiveUp)
    ensures AtDriver(cfg, Step(cfg, s, a).value) && NoWriter(Step(cfg, s, a).value)
  {
    match a
    case ByParent(pa) => NoParentStep(cfg, s, pa);
    case ByChild(ca) => LostChild(cfg, s, ca);
    case ByDriver(_) =>
  }

  lemma NoParentStep(cfg: Config, s: State, a: ProcAction)
    requires AtDriver(cfg, s) && NoWriter(s) && WritesAtSend(s) && ParentStep(cfg, s, a).Some?
    ensures a == Abort
  {
  }

  lemma LostChild(cfg: Config, s: State, a: ProcAction)
    requires NoWriter(s) && Told(cfg, s) && ChildStep(cfg, s, a).Some?
    ensures var s' := ChildStep(cfg, s, a).value;
            s'.parent == s.parent && s'.w.childDriver == CDead && s'.w.parentDriver == s.w.parentDriver
  {
    hide Inv;
  }

  lemma {:induction false} NoWriterForever(cfg: Config, actions: seq<Action>, more: seq<Action>)
    requires Run(cfg, actions).Some? && AtDriver(cfg, Run(cfg, actions).value) && NoWriter(Run(cfg, actions).value)
    requires Run(cfg, actions + more).Some? && NoGivingUp(more)
    ensures AtDriver(cfg, Run(cfg, actions + more).value) && NoWriter(Run(cfg, actions + more).value)
  {
    hide Step, AtDriver, NoWriter, Init;
    if more == [] {
      assert actions + more == actions;
    } else {
      var front, a := more[..|more| - 1], more[|more| - 1];
      RunSplit(cfg, actions, more);
      NoWriterForever(cfg, actions, front);
      RunTold(cfg, actions + front);
      hide Run, WritesAtSend, Told;
      NoWriterKept(cfg, Run(cfg, actions + front).value, a);
    }
  }

  // ---------------------------------------------------------------- otherwise the driver gets through

  lemma Adds(cfg: Config, actions: seq<Action>, more: seq<Action>, a: Action) returns (next: seq<Action>)
    requires Run(cfg, actions + more).Some? && Step(cfg, Run(cfg, actions + more).value, a).Some?
    requires NoGivingUp(more) && NoGivingUp([a])
    ensures NoGivingUp(next) && Run(cfg, actions + next) == Step(cfg, Run(cfg, actions + more).value, a)
  {
    next := more + [a];
    assert (actions + next)[..|actions + next| - 1] == actions + more;
    assert a in [a];
  }

  /** With the child's driver running or dead, the parent's driver comes to signal or to fail. */
  lemma {:induction false} DriverGetsThrough(cfg: Config, actions: seq<Action>, sofar: seq<Action>) returns (more: seq<Action>)
    requires Run(cfg, actions + sofar).Some? && NoGivingUp(sofar)
    requires AtDriver(cfg, Run(cfg, actions + sofar).value) && Told(cfg, Run(cfg, actions + sofar).value)
    requires var w := Run(cfg, actions + sofar).value.w; w.childDriver != CNotStarted && !NoWriter(Run(cfg, actions + sofar).value)
    ensures Run(cfg, actions + more).Some? && NoGivingUp(more) && AtDriver(cfg, Run(cfg, actions + more).value)
    ensures Run(cfg, actions + more).value.w.parentDriver in {PSignalling, PDead}
    decreases var w := Run(cfg, actions + sofar).value.w; ParentDriverLeft(w.parentDriver) + ChildDriverLeft(w.childDriver)
  {
    var s := Run(cfg, actions + sofar).value;
    if s.w.parentDriver in {PSignalling, PDead} {
      more := sofar;
    } else {
      var a := ByDriver(if DriversStep(s, ParentAdvance).Some? then ParentAdvance else ChildAdvance);
      DriverAdvances(cfg, s, a.da);
      DriversKeepTold(cfg, s, a.da);
      var next := Adds(cfg, actions, sofar, a);
      hide Run, Told;
      more := DriverGetsThrough(cfg, actions, next);
    }
  }

  lemma DriverAdvances(cfg: Config, s: State, a: DriverAction)
    requires AtDriver(cfg, s) && Told(cfg, s) && s.w.childDriver != CNotStarted && !NoWriter(s)
    requires s.w.parentDriver !in {PSignalling, PDead}
    requires a == if DriversStep(s, ParentAdvance).Some? then ParentAdvance else ChildAdvance
    ensures DriversStep(s, a).Some?
    ensures var w, w' := s.w, DriversStep(s, a).value.w;
            && ParentDriverLeft(w'.parentDriver) + ChildDriverLeft(w'.childDriver)
               < ParentDriverLeft(w.parentDriver) + ChildDriverLeft(w.childDriver)
            && w'.childDriver != CNotStarted && !NoWriter(DriversStep(s, a).value) && AtDriver(cfg, DriversStep(s, a).value)
  {
  }

  lemma HealthyAtDriver(cfg: Config, s: State)
    requires Ordered(cfg, s) && Told(cfg, s) && AtDriver(cfg, s) && s.child.fail == None
    requires s.w.parentDriver == POpening && s.w.childDriver == CNotStarted
    ensures Healthy(cfg, s)
  {
    AllWritten(cfg, s.up, UpMsgs());
    hide Carries, DownMsgs, UpMsgs;
    CarriesOrder(cfg, s.down, DownMsgs(cfg));
    CarriesOrder(cfg, s.up, UpMsgs());
  }

  lemma AllWritten(cfg: Config, c: Chan, msgs: seq<Message>)
    requires Carries(cfg.codec, c, msgs) && |c.rcvd| == |msgs|
    ensures c.pend == []
  {
    assert |c.sent| == |c.rcvd|;
  }

  lemma ChildsTurnAtDriver(cfg: Config, s: State)
    requires Healthy(cfg, s) && AtDriver(cfg, s) && s.w.parentDriver == POpening && s.w.childDriver == CNotStarted
    ensures !ChildWaits(s)
  {
    if ChildWaits(s) {
      BothWait(cfg, s);
    }
  }

  lemma ChildKeepsParentDriver(cfg: Config, s: State, a: ProcAction)
    requires ChildStep(cfg, s, a).Some?
    ensures ChildStep(cfg, s, a).value.parent == s.parent && ChildStep(cfg, s, a).value.w.parentDriver == s.w.parentDriver
  {
    hide Inv;
  }

  /** A child that has not failed starts its driver by its own steps. */
  lemma {:induction false} ChildStarts(cfg: Config, actions: seq<Action>, sofar: seq<Action>) returns (more: seq<Action>)
    requires Usable(cfg) && CapsAsExpected(cfg) && Run(cfg, actions + sofar).Some? && NoGivingUp(sofar)
    requires var s := Run(cfg, actions + sofar).value; Healthy(cfg, s) && AtDriver(cfg, s) && s.w.parentDriver == POpening
    ensures Run(cfg, actions + more).Some? && NoGivingUp(more)
    ensures var s := Run(cfg, actions + more).value;
            Healthy(cfg, s) && AtDriver(cfg, s) && s.w.parentDriver == POpening && s.w.childDriver != CNotStarted
    decreases Measure(cfg, Run(cfg, actions + sofar).value)
  {
    hide Healthy, Usable, Step, ChildStep, NextChild, Measure, Sound;
    var s := Run(cfg, actions + sofar).value;
    if s.w.childDriver != CNotStarted {
      more := sofar;
    } else {
      ChildsTurnAtDriver(cfg, s);
      ChildCan(cfg, s);
      var a := ByChild(NextChild(s));
      StepIs(cfg, s, a);
      ChildKeepsParentDriver(cfg, s, NextChild(s));
      SoundStep(cfg, s, a);
      MeasureNonNegative(cfg, s);
      var next := Adds(cfg, actions, sofar, a);
      more := ChildStarts(cfg, actions, next);
    }
  }

  /**
   * A parent that waits for the builtin driver hangs exactly when its driver is still opening the
   * FIFO and the child's will not: it has failed, or the child has before starting it. Nothing bounds
   * the wait: the parent gets to neither its driver's error nor the child's exit.
   */
  lemma {:induction false} DriverHangsIff(cfg: Config, actions: seq<Action>)
    requires Usable(cfg) && CapsAsExpected(cfg) && Run(cfg, actions).Some? && AtDriver(cfg, Run(cfg, actions).value)
    ensures HangsAtDriver(cfg, actions) <==> NoWriter(Run(cfg, actions).value)
  {
    var s := Run(cfg, actions).value;
    if NoWriter(s) {
      forall more | Run(cfg, actions + more).Some? && NoGivingUp(more)
        ensures !ParentMoves(cfg, Run(cfg, actions + more).value)
      {
        NoWriterForever(cfg, actions, more);
        RunTold(cfg, actions + more);
        AtDriverMovesIff(cfg, Run(cfg, actions + more).value);
      }
    } else {
      var more := DriverAnswers(cfg, actions);
      RunTold(cfg, actions + more);
      AtDriverMovesIff(cfg, Run(cfg, actions + more).value);
    }
  }

  lemma DriverAnswers(cfg: Config, actions: seq<Action>) returns (more: seq<Action>)
    requires Usable(cfg) && CapsAsExpected(cfg) && Run(cfg, actions).Some? && AtDriver(cfg, Run(cfg, actions).value)
    requires !NoWriter(Run(cfg, actions).value)
    ensures Run(cfg, actions + more).Some? && NoGivingUp(more) && AtDriver(cfg, Run(cfg, actions + more).value)
    ensures Run(cfg, actions + more).value.w.parentDriver in {PSignalling, PDead}
  {
    hide Usable, Ordered, Told, Healthy, Init, Step;
    var s := Run(cfg, actions).value;
    assert actions + [] == actions;
    RunTold(cfg, actions);
    if s.w.childDriver == CNotStarted && s.w.parentDriver != PDead {
      OpeningYet(cfg, s);
      RunOrdered(cfg, actions);
      HealthyAtDriver(cfg, s);
      more := ChildStarts(cfg, actions, []);
      RunTold(cfg, actions + more);
      NotDeadWhenHealthy(cfg, Run(cfg, actions + more).value);
      more := DriverGetsThrough(cfg, actions, more);
    } else if s.w.parentDriver == PDead {
      more := [];
    } else {
      more := DriverGetsThrough(cfg, actions, []);
    }
  }

  lemma OpeningYet(cfg: Config, s: State)
    requires Told(cfg, s) && AtDriver(cfg, s) && !NoWriter(s) && s.w.childDriver == CNotStarted && s.w.parentDriver != PDead
    ensures s.w.parentDriver == POpening && s.child.fail == None
  {
  }

  lemma NotDeadWhenHealthy(cfg: Config, s: State)
    requires Healthy(cfg, s) && s.w.childDriver != CNotStarted
    ensures !NoWriter(s)
  {
    hide Inv;
  }
}
