/** When ports may be published and the files announcing them written. */
module BootstrapReady {
  import opened Prelude
  import opened Framing
  import opened Messages
  import opened Channel
  import opened Endpoint
  import opened Bootstrap
  import opened BootstrapSafety

  /** How many ports the parent is asked to publish; without a port driver it publishes none. */
  function PortsToPublish(cfg: Config): nat {
    if cfg.driver == NoDriver then 0 else cfg.ports
  }

  /** What the parent has told the rest of the system, given where it is. */
  predicate ParentTold(cfg: Config, ppc: nat, w: World) {
    && (w.deeds.idmapped <==> ppc >= 3)
    && (w.deeds.netConfigured <==> ppc >= 6)
    && (w.deeds.pipeClosed <==> ppc >= 10)
    && (w.deeds.pidWritten <==> ppc >= 13)
    && (w.deeds.apiOpen <==> ppc >= 14)
    && (ppc <= 10 ==> w.published == 0)
    && (ppc >= 12 ==> w.published == PortsToPublish(cfg))
    && w.published <= PortsToPublish(cfg)
    && (w.parentDriver == PNotStarted <==> cfg.driver == NoDriver || ppc <= 7)
    && (w.parentDriver == PReady <==> cfg.driver != NoDriver && ppc >= 11)
    && (cfg.driver == Immediate ==> w.parentDriver in {PNotStarted, PSignalling, PReady})
  }

  /** What the child has done, and where its driver can be. */
  predicate ChildTold(cfg: Config, child: Proc, w: World) {
    && (w.deeds.procMounted <==> child.pc >= 6)
    && (w.deeds.pipeLeft <==> child.pc >= 10)
    && (w.deeds.netReady <==> child.pc >= 11)
    && (w.childDriver != CNotStarted <==> cfg.driver == Builtin && child.pc >= 12)
    && (child.fail.Some? ==> w.childDriver == CNotStarted || w.childDriver == CDead)
  }

  /** How far the builtin driver's two goroutines can be apart. */
  predicate DriversMet(cfg: Config, w: World) {
    && (w.childDriver == CClosing || w.childDriver == CServing ==> w.listened)
    && (w.childDriver in {CListening, CClosing, CServing} ==> w.parentDriver !in {PNotStarted, POpening})
    && (cfg.driver == Builtin ==>
          && (w.parentDriver in {PReading, PDialing, PSignalling, PReady} ==> w.childDriver !in {CNotStarted, COpening})
          && (w.parentDriver in {PDialing, PSignalling, PReady} ==> w.childDriver == CServing || w.childDriver == CDead)
          && (w.parentDriver in {PSignalling, PReady} ==> w.listened))
  }

  predicate Told(cfg: Config, s: State) {
    ParentTold(cfg, s.parent.pc, s.w) && ChildTold(cfg, s.child, s.w) && DriversMet(cfg, s.w)
  }

  lemma PipeStepMoves(cfg: Config, s: State, a: ProcAction, s': State)
    requires ParentStep(cfg, s, a) == Some(s') && a != Do
    ensures s' == s.(parent := s'.parent, down := s'.down, up := s'.up)
    ensures s'.parent.pc == s.parent.pc || (s'.parent.pc == s.parent.pc + 1 && (a.Flush? || ParentOp(s.parent.pc).Await?))
  {
  }

  lemma ChildPipeStepMoves(cfg: Config, s: State, a: ProcAction, s': State)
    requires ChildStep(cfg, s, a) == Some(s') && a != Do && a != Abort
    ensures s' == s.(child := s'.child, down := s'.down, up := s'.up)
    ensures s'.child.pc == s.child.pc || (s'.child.pc == s.child.pc + 1 && (a.Flush? || ChildOp(s.child.pc).Await?))
  {
  }

  /** A write in progress belongs to a Send operation. */
  predicate WritesAtSend(s: State) {
    (s.down.pend != [] ==> ParentOp(s.parent.pc).Send?) && (s.up.pend != [] ==> ChildOp(s.child.pc).Send?)
  }

  lemma WritesAtSendKept(cfg: Config, s: State, a: Action)
    requires WritesAtSend(s) && Step(cfg, s, a).Some?
    ensures WritesAtSend(Step(cfg, s, a).value)
  {
    match a
    case ByParent(Do) => ParentDoIs(cfg, s);
    case ByChild(Do) => ChildDoIs(cfg, s);
    case _ =>
  }

  lemma EffectTold(cfg: Config, ppc: nat, child: Proc, w: World)
    requires ParentTold(cfg, ppc, w) && ChildTold(cfg, child, w) && DriversMet(cfg, w)
    ensures match ParentEffect(cfg, ParentOp(ppc), w)
            case Moves(w') => ParentTold(cfg, ppc + 1, w') && ChildTold(cfg, child, w') && DriversMet(cfg, w')
            case Stays(w') => ParentTold(cfg, ppc, w') && ChildTold(cfg, child, w') && DriversMet(cfg, w')
            case _ => true
  {
  }

  lemma ParentKeepsTold(cfg: Config, s: State, a: ProcAction)
    requires Told(cfg, s) && WritesAtSend(s) && ParentStep(cfg, s, a).Some?
    ensures Told(cfg, ParentStep(cfg, s, a).value)
  {
    if a == Do {
      EffectTold(cfg, s.parent.pc, s.child, s.w);
      hide ParentTold, ChildTold, DriversMet, ParentEffect;
    } else {
      PipeStepMoves(cfg, s, a, ParentStep(cfg, s, a).value);
    }
  }

  lemma ChildKeepsTold(cfg: Config, s: State, a: ProcAction)
    requires Told(cfg, s) && WritesAtSend(s) && ChildStep(cfg, s, a).Some?
    ensures Told(cfg, ChildStep(cfg, s, a).value)
  {
    if a == Do {
      ChildDoTold(cfg, s);
      hide ParentTold, ChildTold, DriversMet, ChildDo;
    } else if a != Abort {
      ChildPipeStepMoves(cfg, s, a, ChildStep(cfg, s, a).value);
    }
  }

  lemma ChildDoTold(cfg: Config, s: State)
    requires ChildTold(cfg, s.child, s.w) && DriversMet(cfg, s.w) && ChildDo(cfg, s).Some?
    ensures var s' := ChildDo(cfg, s).value;
            && ChildTold(cfg, s'.child, s'.w) && DriversMet(cfg, s'.w) && s'.parent == s.parent
            && (ParentTold(cfg, s.parent.pc, s.w) ==> ParentTold(cfg, s.parent.pc, s'.w))
  {
    ChildWorldIs(cfg, s);
    ChildDoIs(cfg, s);
    hide ChildDo, ChildOp;
  }

  lemma ChildWorldIs(cfg: Config, s: State)
    requires ChildDo(cfg, s).Some?
    ensures var w, w' := s.w, ChildDo(cfg, s).value.w;
            w' == match s.child.pc
                  case 5 => w.(deeds := w.deeds.(procMounted := true))
                  case 9 => w.(deeds := w.deeds.(pipeLeft := true))
                  case 10 => w.(deeds := w.deeds.(netReady := true))
                  case 11 => w.(childDriver := if cfg.driver == Builtin then COpening else CNotStarted)
                  case _ => w
    ensures s.child.fail == None && s.child.pc <= 11
  {
  }

  lemma DriversKeepTold(cfg: Config, s: State, a: DriverAction)
    requires Told(cfg, s) && DriversStep(s, a).Some?
    ensures Told(cfg, DriversStep(s, a).value)
  {
  }

  lemma {:induction false} RunTold(cfg: Config, actions: seq<Action>)
    requires Run(cfg, actions).Some?
    ensures Told(cfg, Run(cfg, actions).value) && WritesAtSend(Run(cfg, actions).value)
  {
    if actions != [] {
      var front, a := actions[..|actions| - 1], actions[|actions| - 1];
      RunTold(cfg, front);
      var s := Run(cfg, front).value;
      WritesAtSendKept(cfg, s, a);
      hide ParentStep, ChildStep, DriversStep, WritesAtSend, Told;
      match a
      case ByParent(pa) => ParentKeepsTold(cfg, s, pa);
      case ByChild(ca) => ChildKeepsTold(cfg, s, ca);
      case ByDriver(da) => DriversKeepTold(cfg, s, da);
    }
  }

  // ---------------------------------------------------------------- main results

  /**
   * With the builtin driver, whenever a port is published, child_pid is written or the API socket is
   * open, the child has finished setupNet and has listened on its socket, and it is still serving
   * unless it or its driver has died. This needs no assumption on the pipes or on capabilities.
   */
  lemma ReadyBeforePublished(cfg: Config, actions: seq<Action>)
    requires cfg.driver == Builtin && Run(cfg, actions).Some?
    ensures var w := Run(cfg, actions).value.w;
            w.published > 0 || w.deeds.pidWritten || w.deeds.apiOpen ==>
              w.deeds.netReady && w.listened && (w.childDriver == CServing || w.childDriver == CDead)
  {
    RunTold(cfg, actions);
  }

  /**
   * Whenever child_pid is written or the API socket is open, every port that was asked for is
   * published, none without a port driver; never are there more.
   */
  lemma {:induction false} PublishedBeforeAnnounced(cfg: Config, actions: seq<Action>)
    requires Run(cfg, actions).Some?
    ensures var s := Run(cfg, actions).value;
            var asked := if cfg.driver == NoDriver then 0 else cfg.ports;
            && s.w.published <= asked
            && (s.w.deeds.pidWritten || s.w.deeds.apiOpen || s.parent.pc > 11 ==> s.w.published == asked)
            && (s.w.deeds.apiOpen ==> s.w.deeds.pidWritten)
            && (s.w.deeds.pidWritten <==> s.parent.pc > 12) && (s.w.deeds.apiOpen <==> s.parent.pc > 13)
  {
    RunTold(cfg, actions);
  }

  /** The driver of a child that has failed has failed with it, if it was started. */
  lemma {:induction false} NoDriverOutlives(cfg: Config, actions: seq<Action>)
    requires Run(cfg, actions).Some? && Run(cfg, actions).value.child.fail.Some?
    ensures Run(cfg, actions).value.w.childDriver in {CNotStarted, CDead}
  {
    RunTold(cfg, actions);
  }

  // ---------------------------------------------------------------- faults

  /** At any point a process can fail, and a driver of the builtin kind can, and that is all it changes; a child takes its driver with it. */
  lemma FaultsAre(cfg: Config, s: State)
    ensures s.parent.fail == None ==>
              ParentStep(cfg, s, Abort) == Some(s.(parent := Proc(s.parent.pc, Some(Aborted))))
    ensures s.child.fail == None ==>
              var driver := if s.w.childDriver == CNotStarted then CNotStarted else CDead;
              ChildStep(cfg, s, Abort) == Some(s.(child := Proc(s.child.pc, Some(Aborted)), w := s.w.(childDriver := driver)))
    ensures s.w.parentDriver in {POpening, PReading, PDialing} ==>
              DriversStep(s, ParentGiveUp) == Some(s.(w := s.w.(parentDriver := PDead)))
    ensures s.w.childDriver != CNotStarted ==>
              DriversStep(s, ChildGiveUp) == Some(s.(w := s.w.(childDriver := CDead)))
  {
  }

  // ---------------------------------------------------------------- a port driver that fails

  /** A parent that waits for its driver goes on exactly when the driver signals, and fails when the driver has failed. */
  lemma AwaitsDriver(cfg: Config, s: State)
    requires ParentOp(s.parent.pc) == AwaitDriver && s.parent.fail == None && cfg.driver != NoDriver
    ensures var r := ParentDo(cfg, s);
            match s.w.parentDriver
            case PSignalling => r.Some? && r.value.parent == Proc(s.parent.pc + 1, None)
            case PDead => r.Some? && r.value.parent == Proc(s.parent.pc, Some(DriverFailure)) && r.value.w == s.w
            case _ => r == None
  {
  }

  /** When the child's driver has died, the parent's one comes to fail once it has opened the FIFO. */
  lemma DeadDriverIsNoticed(w: World)
    requires w.childDriver == CDead && w.parentDriver in {PReading, PDialing}
    ensures var w1 := ParentDriverStep(w);
            && w1.Some?
            && var w2 := if w1.value.parentDriver == PDead then w1 else ParentDriverStep(w1.value);
            w2 == Some(w.(parentDriver := PDead))
  {
  }
}
