/**
 * Progress: with writes visible at once, whole reads and no failing operation, every run under the
 * capability assumption can be continued to the end, and none is longer than a fixed bound.
 */
module BootstrapProgress {
  import opened Prelude
  import opened Framing
  import opened Messages
  import opened Channel
  import opened Endpoint
  import opened Bootstrap
  import opened BootstrapSafety
  import opened BootstrapReady

  /** An action without a fault: a write becomes visible as a whole, a read gets all it asks for. */
  predicate Sound(s: State, a: Action) {
    match a
    case ByParent(Flush(k)) => k == |s.down.pend|
    case ByParent(Read(n)) => WholeRead(s.up, n)
    case ByParent(Abort) => false
    case ByChild(Flush(k)) => k == |s.up.pend|
    case ByChild(Read(n)) => WholeRead(s.down, n)
    case ByChild(Abort) => false
    case ByDriver(da) => da == ParentAdvance || da == ChildAdvance
    case _ => true
  }

  /** Where the driver goroutines are, given where the processes are, when nothing has failed. */
  predicate DriversInOrder(cfg: Config, ppc: nat, cpc: nat, w: World) {
    && w.published <= cfg.ports && (w.deeds.pipeClosed ==> ppc >= 10)
    && w.parentDriver != PDead && w.childDriver != CDead
    && (ppc <= 7 ==> w.parentDriver == PNotStarted)
    && (8 <= ppc <= 10 ==> AwaitedDriver(cfg.driver, w.parentDriver))
    && (ppc > 10 && cfg.driver != NoDriver ==> w.parentDriver == PReady)
    && (cfg.driver == NoDriver ==> w.parentDriver == PNotStarted)
    && (w.childDriver != CNotStarted <==> cfg.driver == Builtin && cpc == CHILD_DONE)
    && (ppc <= 7 ==> w.childDriver == CNotStarted)
    && (cfg.driver == Builtin && ppc > 7 ==> (w.parentDriver == POpening <==> w.childDriver in {CNotStarted, COpening}))
    && (cfg.driver == Builtin && w.parentDriver in {PDialing, PSignalling, PReady} ==> w.childDriver == CServing)
  }

  predicate AwaitedDriver(d: Driver, p: ParentDriver) {
    match d
    case NoDriver => true
    case Immediate => p == PSignalling
    case Builtin => p != PNotStarted && p != PReady
  }

  /** What a sound action of either process gives. */
  ghost predicate Better(cfg: Config, s: State, s': State) {
    && Atomic(s'.down) && Atomic(s'.up) && s'.parent.fail == None && s'.child.fail == None
    && DriversInOrder(cfg, s'.parent.pc, s'.child.pc, s'.w) && Measure(cfg, s') < Measure(cfg, s)
  }

  /** Reachable by sound actions. */
  ghost predicate Healthy(cfg: Config, s: State) {
    && Ordered(cfg, s) && Atomic(s.down) && Atomic(s.up)
    && s.parent.fail == None && s.child.fail == None
    && DriversInOrder(cfg, s.parent.pc, s.child.pc, s.w)
  }

  // ---------------------------------------------------------------- measure

  function Bit(b: bool): nat {
    if b then 1 else 0
  }

  function ParentLeft(s: State): int {
    4 * (PARENT_DONE - s.parent.pc) - Busy(s.down) - Bit(s.up.want != None)
  }

  /** The child's distance to its end; the re-execution leads from place 4 back to place 0. */
  function ChildPlaces(execs: nat, cpc: nat): int {
    if execs == 0 then 18 - cpc else if cpc == 0 then 13 else CHILD_DONE - cpc
  }

  function ChildLeft(s: State): int {
    4 * ChildPlaces(s.execs, s.child.pc) - Busy(s.up) - Bit(s.down.want != None)
  }

  function ParentDriverLeft(d: ParentDriver): nat {
    match d
    case PNotStarted => 6
    case POpening => 5
    case PReading => 4
    case PDialing => 3
    case PSignalling => 2
    case PReady => 1
    case PDead => 0
  }

  function ChildDriverLeft(d: ChildDriver): nat {
    match d
    case CNotStarted => 5
    case COpening => 4
    case CListening => 3
    case CClosing => 2
    case CServing => 1
    case CDead => 0
  }

  function Measure(cfg: Config, s: State): int {
    ParentLeft(s) + ChildLeft(s) + WorldLeft(cfg, s.w)
  }

  lemma MeasureNonNegative(cfg: Config, s: State)
    requires Healthy(cfg, s)
    ensures Measure(cfg, s) >= 0
  {
  }

  // ---------------------------------------------------------------- one sound action

  lemma FlushAll(p: Proc, c: Chan)
    ensures FlushSend(p, c, |c.pend|) == (Advance(p), c.(buf := c.buf + c.pend, pend := []))
  {
    assert c.pend[..|c.pend|] == c.pend;
  }

  lemma ParentPipeSound(cfg: Config, s: State, a: ProcAction)
    requires Usable(cfg) && Healthy(cfg, s) && ParentStep(cfg, s, a).Some? && Sound(s, ByParent(a)) && (a == Begin || a.Flush?)
    ensures Better(cfg, s, ParentStep(cfg, s, a).value)
  {
    hide Inv, Carries, DownMsgs, UpMsgs;
    if a == Begin {
      SendBegins(cfg.codec, s.parent, s.down, DownMsgs(cfg));
    } else {
      FlushAll(s.parent, s.down);
    }
  }

  lemma ParentReadSound(cfg: Config, s: State, n: nat)
    requires Usable(cfg) && Healthy(cfg, s) && ParentRead(cfg, s, n).Some? && WholeRead(s.up, n)
    ensures Better(cfg, s, ParentRead(cfg, s, n).value)
  {
    hide Inv, Carries, DownMsgs, UpMsgs;
    UpNames(|s.up.rcvd|);
    AwaitedReads(cfg.codec, s.parent, s.up, UpMsgs(), ParentOp(s.parent.pc).name, n);
    EnoughVisible(cfg, s.up, UpMsgs());
  }

  lemma ParentDoSound(cfg: Config, s: State)
    requires Healthy(cfg, s) && ParentDo(cfg, s).Some?
    ensures Better(cfg, s, ParentDo(cfg, s).value)
  {
    hide Ordered, Atomic, DriversInOrder, ParentEffect;
    ParentIdle(cfg, s);
    ParentEffectSound(cfg, s.parent.pc, s.child.pc, s.w);
  }

  function WorldLeft(cfg: Config, w: World): int {
    ParentDriverLeft(w.parentDriver) + ChildDriverLeft(w.childDriver) + cfg.ports - w.published
  }

  ghost predicate SoundEffect(cfg: Config, ppc: nat, cpc: nat, w: World, e: Effect) {
    match e
    case Moves(w') => DriversInOrder(cfg, ppc + 1, cpc, w') && WorldLeft(cfg, w') <= WorldLeft(cfg, w)
    case Stays(w') => DriversInOrder(cfg, ppc, cpc, w') && WorldLeft(cfg, w') < WorldLeft(cfg, w)
    case Fails(_) => false
    case Blocks => true
  }

  lemma StartDriverSound(cfg: Config, cpc: nat, w: World)
    requires DriversInOrder(cfg, 7, cpc, w)
    ensures SoundEffect(cfg, 7, cpc, w, Moves(StartDriver(cfg, w)))
  {
  }

  lemma WaitForDriverSound(cfg: Config, cpc: nat, w: World)
    requires DriversInOrder(cfg, 10, cpc, w)
    ensures SoundEffect(cfg, 10, cpc, w, WaitForDriver(cfg, w))
  {
  }

  lemma PublishSound(cfg: Config, cpc: nat, w: World)
    requires DriversInOrder(cfg, 11, cpc, w)
    ensures SoundEffect(cfg, 11, cpc, w, PublishNext(cfg, w))
  {
  }

  /** The operations that touch neither the drivers nor the count of ports. */
  lemma OtherEffectSound(cfg: Config, ppc: nat, cpc: nat, w: World, w': World)
    requires DriversInOrder(cfg, ppc, cpc, w) && ppc !in {7, 10}
    requires w'.parentDriver == w.parentDriver && w'.childDriver == w.childDriver && w'.published == w.published
    requires w'.deeds.pipeClosed ==> w.deeds.pipeClosed || ppc >= 9
    ensures SoundEffect(cfg, ppc, cpc, w, Moves(w'))
  {
  }

  lemma ParentEffectSound(cfg: Config, ppc: nat, cpc: nat, w: World)
    requires DriversInOrder(cfg, ppc, cpc, w)
    ensures SoundEffect(cfg, ppc, cpc, w, ParentEffect(cfg, ParentOp(ppc), w))
  {
    hide DriversInOrder, StartDriver, WaitForDriver, PublishNext;
    match ParentOp(ppc)
    case StartParentDriver => StartDriverSound(cfg, cpc, w);
    case AwaitDriver => WaitForDriverSound(cfg, cpc, w);
    case PublishPorts => PublishSound(cfg, cpc, w);
    case SetupIDMap => OtherEffectSound(cfg, ppc, cpc, w, w.(deeds := w.deeds.(idmapped := true)));
    case WriteChildPID => OtherEffectSound(cfg, ppc, cpc, w, w.(deeds := w.deeds.(pidWritten := true)));
    case ListenAPI => OtherEffectSound(cfg, ppc, cpc, w, w.(deeds := w.deeds.(apiOpen := true)));
    case ConfigureNetwork => OtherEffectSound(cfg, ppc, cpc, w, w.(deeds := w.deeds.(netConfigured := true)));
    case ClosePipe => OtherEffectSound(cfg, ppc, cpc, w, w.(deeds := w.deeds.(pipeClosed := true)));
    case _ =>
  }

  lemma ParentIdle(cfg: Config, s: State)
    requires Ordered(cfg, s) && ParentDo(cfg, s).Some?
    ensures Busy(s.down) == 0 && s.up.want == None
  {
  }

  lemma ParentSound(cfg: Config, s: State, a: ProcAction)
    requires Usable(cfg) && Healthy(cfg, s) && ParentStep(cfg, s, a).Some? && Sound(s, ByParent(a))
    ensures Better(cfg, s, ParentStep(cfg, s, a).value)
  {
    hide Healthy, Usable, Better;
    match a
    case Read(n) => ParentReadSound(cfg, s, n);
    case Do => ParentDoSound(cfg, s);
    case End =>
    case Abort =>
    case _ => ParentPipeSound(cfg, s, a);
  }

  /** A reader with anything to read finds all it asks for. */
  lemma EnoughVisible(cfg: Config, c: Chan, msgs: seq<Message>)
    requires Carries(cfg.codec, c, msgs) && Atomic(c) && c.buf != []
    ensures |c.buf| >= if c.want.Some? then c.want.value else 4
  {
    if |c.rcvd| < if c.pend == [] then |c.sent| else |c.sent| - 1 {
      WholeReadSucceeds(c);
    } else if |c.rcvd| < |c.sent| {
      NothingVisible(c);
    }
  }

  lemma ChildPipeSound(cfg: Config, s: State, a: ProcAction)
    requires Usable(cfg) && Healthy(cfg, s) && ChildStep(cfg, s, a).Some? && Sound(s, ByChild(a)) && (a == Begin || a.Flush?)
    ensures Better(cfg, s, ChildStep(cfg, s, a).value)
  {
    hide Inv, Carries, DownMsgs, UpMsgs;
    if a == Begin {
      SendBegins(cfg.codec, s.child, s.up, UpMsgs());
    } else {
      FlushAll(s.child, s.up);
    }
  }

  lemma ChildReadSound(cfg: Config, s: State, n: nat)
    requires Usable(cfg) && Healthy(cfg, s) && ChildRead(cfg, s, n).Some? && WholeRead(s.down, n)
    ensures Better(cfg, s, ChildRead(cfg, s, n).value)
  {
    hide Inv, Carries, DownMsgs, UpMsgs;
    var name := ChildOp(s.child.pc).name;
    AwaitPosition(s);
    DownNames(cfg, |s.down.rcvd|);
    AwaitedReads(cfg.codec, s.child, s.down, DownMsgs(cfg), name, n);
    EnoughVisible(cfg, s.down, DownMsgs(cfg));
    AwaitMoves(s.execs, s.child.pc, name);
  }

  /** The child takes the last message only after the parent has come to send it. */
  lemma ChildBehind(cfg: Config, s: State)
    requires Ordered(cfg, s)
    ensures s.child.pc >= 9 ==> s.parent.pc >= 8
  {
    assert |s.down.rcvd| <= |s.down.sent|;
  }

  lemma ChildDoDrivers(cfg: Config, s: State)
    requires ChildDo(cfg, s).Some? && DriversInOrder(cfg, s.parent.pc, s.child.pc, s.w)
    requires s.child.pc >= 9 ==> s.parent.pc >= 8
    requires Placed(s) && CapsAsExpected(cfg)
    ensures var s' := ChildDo(cfg, s).value;
            && DriversInOrder(cfg, s'.parent.pc, s'.child.pc, s'.w) && WorldLeft(cfg, s'.w) <= WorldLeft(cfg, s.w)
            && s'.child.fail == None && s'.parent == s.parent && s'.down == s.down && s'.up == s.up
  {
  }

  lemma ChildDoSound(cfg: Config, s: State)
    requires CapsAsExpected(cfg) && Healthy(cfg, s) && ChildDo(cfg, s).Some?
    ensures Better(cfg, s, ChildDo(cfg, s).value)
  {
    ChildBehind(cfg, s);
    ChildIdle(cfg, s);
    ChildDoDrivers(cfg, s);
    ChildDoIs(cfg, s);
    hide Ordered, Atomic, DriversInOrder, ChildDo, WorldLeft;
  }

  lemma ChildIdle(cfg: Config, s: State)
    requires Ordered(cfg, s) && ChildDo(cfg, s).Some?
    ensures Busy(s.up) == 0 && s.down.want == None && Placed(s)
  {
  }

  lemma ChildSound(cfg: Config, s: State, a: ProcAction)
    requires Usable(cfg) && CapsAsExpected(cfg) && Healthy(cfg, s)
    requires ChildStep(cfg, s, a).Some? && Sound(s, ByChild(a))
    ensures Better(cfg, s, ChildStep(cfg, s, a).value)
  {
    hide Healthy, Usable, Better;
    match a
    case Read(n) => ChildReadSound(cfg, s, n);
    case Do => ChildDoSound(cfg, s);
    case End => ChildSeesNoEnd(cfg, s);
    case Abort =>
    case _ => ChildPipeSound(cfg, s, a);
  }

  lemma SendableNext(c: Chan)
    requires Inv(c) && |c.rcvd| < |c.sent|
    ensures Sendable(c.sent[|c.rcvd|])
  {
  }

  /** What a waiting process knows: it has completed everything visible. */
  lemma WaitingSees(c: Chan)
    requires Inv(c) && Atomic(c) && c.buf == []
    ensures |c.rcvd| >= |c.sent| - Busy(c)
  {
    if |c.rcvd| < |c.sent| - Busy(c) {
      SendableNext(c);
      WholeReadSucceeds(c);
    }
  }

  /** Once the parent has closed its pipe, the child has its messages before it can see the end. */
  lemma ChildSeesNoEnd(cfg: Config, s: State)
    requires Healthy(cfg, s)
    ensures ChildEnd(s) == None
  {
  }

  lemma DriversSound(cfg: Config, s: State, a: DriverAction)
    requires Healthy(cfg, s) && DriversStep(s, a).Some? && (a == ParentAdvance || a == ChildAdvance)
    ensures Better(cfg, s, DriversStep(s, a).value)
  {
    hide Inv, Carries, DownMsgs, UpMsgs, Atomic;
  }

  /** Sound actions keep every process healthy and use up the measure. */
  lemma SoundStep(cfg: Config, s: State, a: Action)
    requires Usable(cfg) && CapsAsExpected(cfg) && Healthy(cfg, s) && Step(cfg, s, a).Some? && Sound(s, a)
    ensures Healthy(cfg, Step(cfg, s, a).value) && Measure(cfg, Step(cfg, s, a).value) < Measure(cfg, s)
  {
    hide Ordered, Usable, Atomic, ParentStep, ChildStep, DriversStep, DriversInOrder, Measure;
    StepOrdered(cfg, s, a);
    match a
    case ByParent(pa) => ParentSound(cfg, s, pa);
    case ByChild(ca) => ChildSound(cfg, s, ca);
    case ByDriver(da) => DriversSound(cfg, s, da);
  }

  // ---------------------------------------------------------------- no state is stuck

  function MostRead(c: Chan): nat {
    var most := if c.want.Some? then c.want.value else 4;
    if most <= |c.buf| then most else |c.buf|
  }

  /** What the parent does next, if it can do anything. */
  function NextParent(s: State): ProcAction {
    match ParentOp(s.parent.pc)
    case Send(_) => if s.down.pend != [] then Flush(|s.down.pend|) else Begin
    case Await(_) => Read(MostRead(s.up))
    case _ => Do
  }

  function NextChild(s: State): ProcAction {
    match ChildOp(s.child.pc)
    case Send(_) => if s.up.pend != [] then Flush(|s.up.pend|) else Begin
    case Await(_) => Read(MostRead(s.down))
    case _ => Do
  }

  predicate ParentWaits(cfg: Config, s: State) {
    match ParentOp(s.parent.pc)
    case Await(_) => s.up.buf == []
    case AwaitDriver => WaitForDriver(cfg, s.w) == Blocks
    case Done => true
    case _ => false
  }

  predicate ChildWaits(s: State) {
    match ChildOp(s.child.pc)
    case Await(_) => s.down.buf == []
    case Done => true
    case _ => false
  }

  lemma ParentCan(cfg: Config, s: State)
    requires Healthy(cfg, s) && !ParentWaits(cfg, s)
    ensures ParentStep(cfg, s, NextParent(s)).Some? && Sound(s, ByParent(NextParent(s)))
  {
    hide Ordered, DriversInOrder, ParentBegin, ParentFlush, ParentRead, ParentDo, ParentWaits, WholeRead, ParentOp;
    match ParentOp(s.parent.pc)
    case Send(_) => ParentCanSend(cfg, s);
    case Await(_) => ParentCanRead(cfg, s);
    case _ => ParentCanDo(cfg, s);
  }

  lemma ParentCanSend(cfg: Config, s: State)
    requires s.parent.fail == None && ParentOp(s.parent.pc).Send?
    ensures s.down.pend == [] ==> ParentBegin(cfg, s).Some?
    ensures s.down.pend != [] ==> ParentFlush(s, |s.down.pend|).Some?
  {
  }

  lemma ParentCanRead(cfg: Config, s: State)
    requires Ordered(cfg, s) && s.parent.fail == None && ParentOp(s.parent.pc).Await? && !ParentWaits(cfg, s)
    ensures ParentRead(cfg, s, MostRead(s.up)).Some? && WholeRead(s.up, MostRead(s.up))
  {
  }

  lemma ParentCanDo(cfg: Config, s: State)
    requires s.parent.fail == None && !ParentWaits(cfg, s) && !ParentOp(s.parent.pc).Send? && !ParentOp(s.parent.pc).Await?
    ensures ParentDo(cfg, s).Some?
  {
  }

  lemma ChildCan(cfg: Config, s: State)
    requires Healthy(cfg, s) && !ChildWaits(s)
    ensures ChildStep(cfg, s, NextChild(s)).Some? && Sound(s, ByChild(NextChild(s)))
  {
    hide Ordered, DriversInOrder, ChildBegin, ChildFlush, ChildRead, ChildDo, ChildWaits, WholeRead, ChildOp;
    match ChildOp(s.child.pc)
    case Send(_) => ChildCanSend(cfg, s);
    case Await(_) => ChildCanRead(cfg, s);
    case _ => ChildCanDo(cfg, s);
  }

  lemma ChildCanSend(cfg: Config, s: State)
    requires s.child.fail == None && ChildOp(s.child.pc).Send?
    ensures s.up.pend == [] ==> ChildBegin(cfg, s).Some?
    ensures s.up.pend != [] ==> ChildFlush(s, |s.up.pend|).Some?
  {
  }

  lemma ChildCanRead(cfg: Config, s: State)
    requires Ordered(cfg, s) && s.child.fail == None && ChildOp(s.child.pc).Await? && !ChildWaits(s)
    ensures ChildRead(cfg, s, MostRead(s.down)).Some? && WholeRead(s.down, MostRead(s.down))
  {
  }

  lemma ChildCanDo(cfg: Config, s: State)
    requires s.child.fail == None && !ChildWaits(s) && !ChildOp(s.child.pc).Send? && !ChildOp(s.child.pc).Await?
    ensures ChildDo(cfg, s).Some?
  {
  }

  /** Each waits only for what the other has not begun. */
  lemma WaitsFor(cfg: Config, s: State)
    requires Healthy(cfg, s)
    ensures ParentOp(s.parent.pc).Await? && s.up.buf == [] ==> UpBegun(s.execs, s.child.pc) <= UpTaken(s.parent.pc)
    ensures ChildOp(s.child.pc).Await? && s.down.buf == [] ==> DownBegun(s.parent.pc) <= DownTaken(s.execs, s.child.pc)
    ensures Placed(s)
  {
    if s.up.buf == [] { WaitingSees(s.up); }
    if s.down.buf == [] { WaitingSees(s.down); }
  }

  /** If both processes wait, they are done, or it is the drivers' turn. */
  lemma BothWait(cfg: Config, s: State)
    requires Healthy(cfg, s) && ParentWaits(cfg, s) && ChildWaits(s)
    ensures s.child.pc == CHILD_DONE && (s.parent.pc == PARENT_DONE || s.parent.pc == 10)
  {
    WaitsFor(cfg, s);
    hide Ordered, DriversInOrder, WaitForDriver;
  }

  lemma DriversTurn(cfg: Config, s: State)
    requires DriversInOrder(cfg, s.parent.pc, s.child.pc, s.w)
    requires s.child.pc == CHILD_DONE && s.parent.pc in {10, PARENT_DONE} && ParentWaits(cfg, s)
    requires s.parent.fail == None && s.child.fail == None
    ensures Final(cfg, s) || DriversStep(s, ParentAdvance).Some? || DriversStep(s, ChildAdvance).Some?
  {
  }

  /** No reachable state is stuck before the end. */
  lemma NotStuck(cfg: Config, s: State) returns (a: Action)
    requires Usable(cfg) && Healthy(cfg, s) && !Final(cfg, s)
    ensures Step(cfg, s, a).Some? && Sound(s, a)
  {
    hide Ordered, DriversInOrder, ParentStep, ChildStep, DriversStep, Sound, Final, ParentWaits, ChildWaits;
    if !ParentWaits(cfg, s) {
      ParentCan(cfg, s);
      a := ByParent(NextParent(s));
    } else if !ChildWaits(s) {
      ChildCan(cfg, s);
      a := ByChild(NextChild(s));
    } else {
      BothWait(cfg, s);
      DriversTurn(cfg, s);
      a := ByDriver(if DriversStep(s, ParentAdvance).Some? then ParentAdvance else ChildAdvance);
      SoundDriver(s, a);
    }
  }

  lemma SoundDriver(s: State, a: Action)
    ensures a == ByDriver(ParentAdvance) || a == ByDriver(ChildAdvance) ==> Sound(s, a)
  {
  }

  // ---------------------------------------------------------------- whole runs

  /** A run of sound actions. */
  predicate SoundRun(cfg: Config, actions: seq<Action>) {
    && Run(cfg, actions).Some?
    && (actions != [] ==>
          && SoundRun(cfg, actions[..|actions| - 1])
          && Sound(Run(cfg, actions[..|actions| - 1]).value, actions[|actions| - 1]))
  }

  lemma {:induction false} SoundRunHealthy(cfg: Config, actions: seq<Action>)
    requires Usable(cfg) && CapsAsExpected(cfg) && SoundRun(cfg, actions)
    ensures Healthy(cfg, Run(cfg, actions).value)
    ensures Measure(cfg, Run(cfg, actions).value) + |actions| <= Measure(cfg, Init(cfg))
  {
    if actions != [] {
      var front := actions[..|actions| - 1];
      SoundRunHealthy(cfg, front);
      SoundStep(cfg, Run(cfg, front).value, actions[|actions| - 1]);
      hide Healthy, Measure, Step, Sound;
    }
  }

  /**
   * Start-up completes: a sound run is never longer than a bound that depends on the number of
   * ports alone, and unless it has reached the end it can go on.
   */
  lemma {:induction false} StartupCompletes(cfg: Config, actions: seq<Action>)
    requires Usable(cfg) && CapsAsExpected(cfg) && SoundRun(cfg, actions)
    ensures |actions| <= 139 + cfg.ports
    ensures StartedUp(cfg, Run(cfg, actions).value) || exists a :: SoundRun(cfg, actions + [a])
  {
    var s := Run(cfg, actions).value;
    SoundRunHealthy(cfg, actions);
    if Final(cfg, s) { FinalIs(cfg, actions); }
    hide StartedUp;
    MeasureNonNegative(cfg, s);
    InitMeasure(cfg);
    if !Final(cfg, s) {
      var a := NotStuck(cfg, s);
      assert (actions + [a])[..|actions + [a]| - 1] == actions;
      hide Healthy, Measure, Step, Sound, Final;
      assert SoundRun(cfg, actions + [a]);
    }
  }

  /** A payload is the encoding of this message, which has this name. */
  ghost predicate Encodes(cfg: Config, payload: seq<byte>, name: Name, u: Union) {
    cfg.codec.unmarshal(payload) == Some(Message(name, u))
  }

  /** What the child has been sent: the documented messages, with what the network and port drivers gave. */
  ghost predicate ChildInformed(cfg: Config, rcvd: seq<seq<byte>>) {
    && |rcvd| == 4
    && Encodes(cfg, rcvd[0], ParentHello, EMPTY.(parentHello := true))
    && Encodes(cfg, rcvd[1], ParentInitIdmapCompleted, EMPTY.(parentInitIdmapCompleted := true))
    && Encodes(cfg, rcvd[2], ParentInitNetworkDriverCompleted, EMPTY.(network := Some(cfg.network)))
    && Encodes(cfg, rcvd[3], ParentInitPortDriverCompleted, EMPTY.(portOpaque := Some(cfg.opaque_)))
  }

  ghost predicate ParentInformed(cfg: Config, rcvd: seq<seq<byte>>) {
    && |rcvd| == 2
    && Encodes(cfg, rcvd[0], ChildHello, EMPTY.(childHello := true))
    && Encodes(cfg, rcvd[1], ChildInitUserNSCompleted, EMPTY.(childInitUserNSCompleted := true))
  }

  /**
   * The whole of what start-up is for: maps, procfs and network, every port that was asked for, both
   * files, the pipe closed at both ends, and every documented message received once and in order.
   */
  ghost predicate StartedUp(cfg: Config, s: State) {
    && s.parent.fail == None && s.child.fail == None && s.execs == 1 && s.caps
    && s.w.deeds.idmapped && s.w.deeds.procMounted && s.w.deeds.netConfigured && s.w.deeds.netReady && s.w.deeds.pidWritten && s.w.deeds.apiOpen
    && s.w.deeds.pipeClosed && s.w.deeds.pipeLeft
    && s.w.published == (if cfg.driver == NoDriver then 0 else cfg.ports)
    && (cfg.driver == Builtin ==> s.w.listened && s.w.parentDriver == PReady && s.w.childDriver == CServing)
    && ChildInformed(cfg, s.down.rcvd) && ParentInformed(cfg, s.up.rcvd)
  }

  lemma FinalIs(cfg: Config, actions: seq<Action>)
    requires Usable(cfg) && Run(cfg, actions).Some? && Final(cfg, Run(cfg, actions).value) && Ordered(cfg, Run(cfg, actions).value)
    ensures StartedUp(cfg, Run(cfg, actions).value)
  {
    RunTold(cfg, actions);
    var s := Run(cfg, actions).value;
    ChildIsInformed(cfg, s.down);
    ParentIsInformed(cfg, s.up);
    hide Carries, DownMsgs, UpMsgs, Run, ChildInformed, ParentInformed, Usable;
  }

  lemma Received(cfg: Config, c: Chan, msgs: seq<Message>, k: nat)
    requires cfg.codec.Faithful() && Carries(cfg.codec, c, msgs) && k < |c.rcvd|
    ensures |c.rcvd| <= |msgs| && cfg.codec.unmarshal(c.rcvd[k]) == Some(Named(msgs[k]))
  {
  }

  lemma ChildIsInformed(cfg: Config, c: Chan)
    requires cfg.codec.Faithful() && Carries(cfg.codec, c, DownMsgs(cfg)) && |c.rcvd| == 4
    ensures ChildInformed(cfg, c.rcvd)
  {
    forall k | 0 <= k < 4
      ensures cfg.codec.unmarshal(c.rcvd[k]) == Some(Named(DownMsgs(cfg)[k]))
    {
      Received(cfg, c, DownMsgs(cfg), k);
    }
    DownNames(cfg, 0);
    DownNames(cfg, 1);
    DownNames(cfg, 2);
    DownNames(cfg, 3);
    hide Carries, Fields, FirstSet;
  }

  lemma ParentIsInformed(cfg: Config, c: Chan)
    requires cfg.codec.Faithful() && Carries(cfg.codec, c, UpMsgs()) && |c.rcvd| == 2
    ensures ParentInformed(cfg, c.rcvd)
  {
    forall k | 0 <= k < 2
      ensures cfg.codec.unmarshal(c.rcvd[k]) == Some(Named(UpMsgs()[k]))
    {
      Received(cfg, c, UpMsgs(), k);
    }
    UpNames(0);
    UpNames(1);
    hide Carries, Fields, FirstSet;
  }

  /** The child sets up its network only after the parent has configured it. */
  lemma {:induction false} NetworkBeforeSetup(cfg: Config, actions: seq<Action>)
    requires Usable(cfg) && CapsAsExpected(cfg) && Run(cfg, actions).Some?
    ensures Run(cfg, actions).value.w.deeds.netReady ==> Run(cfg, actions).value.w.deeds.netConfigured
  {
    RunOrdered(cfg, actions);
    RunTold(cfg, actions);
    ChildBehind(cfg, Run(cfg, actions).value);
  }

  /** So there is a run to the end, with every driver and any number of ports. */
  lemma {:induction false} StartsUp(cfg: Config) returns (actions: seq<Action>)
    requires Usable(cfg) && CapsAsExpected(cfg)
    ensures SoundRun(cfg, actions) && StartedUp(cfg, Run(cfg, actions).value)
  {
    actions := StartsUpFrom(cfg, []);
  }

  lemma {:induction false} StartsUpFrom(cfg: Config, sofar: seq<Action>) returns (actions: seq<Action>)
    requires Usable(cfg) && CapsAsExpected(cfg) && SoundRun(cfg, sofar)
    ensures SoundRun(cfg, actions) && StartedUp(cfg, Run(cfg, actions).value)
    decreases 139 + cfg.ports - |sofar|
  {
    StartupCompletes(cfg, sofar);
    if StartedUp(cfg, Run(cfg, sofar).value) {
      actions := sofar;
    } else {
      var a :| SoundRun(cfg, sofar + [a]);
      StartupCompletes(cfg, sofar + [a]);
      hide SoundRun, StartedUp, Usable;
      actions := StartsUpFrom(cfg, sofar + [a]);
    }
  }

  lemma InitMeasure(cfg: Config)
    ensures Measure(cfg, Init(cfg)) == 139 + cfg.ports
  {
  }

  // ---------------------------------------------------------------- without the builtin driver

  /** While the child is at most waiting for the network message, the parent waits only for the child. */
  lemma ParentAhead(cfg: Config, s: State)
    requires Healthy(cfg, s) && cfg.driver != Builtin && s.child.pc <= 7 && s.parent.pc < PARENT_DONE
    ensures ParentWaits(cfg, s) ==> s.child.pc < 7 && !ChildWaits(s)
  {
    WaitsFor(cfg, s);
    hide Ordered;
  }

  lemma SoundRunExtends(cfg: Config, actions: seq<Action>, a: Action)
    requires SoundRun(cfg, actions)
    requires Step(cfg, Run(cfg, actions).value, a).Some? && Sound(Run(cfg, actions).value, a)
    ensures SoundRun(cfg, actions + [a]) && Run(cfg, actions + [a]) == Step(cfg, Run(cfg, actions).value, a)
  {
    hide Step, Sound;
    assert (actions + [a])[..|actions + [a]| - 1] == actions;
  }

  lemma ChildPlacesUp(cfg: Config, s: State, a: ProcAction)
    requires ChildStep(cfg, s, a).Some? && s.child.pc < 7
    ensures ChildStep(cfg, s, a).value.child.pc <= 7
  {
  }

  lemma ParentLeavesChild(cfg: Config, s: State, a: ProcAction)
    requires ParentStep(cfg, s, a).Some?
    ensures ParentStep(cfg, s, a).value.child == s.child
  {
  }

  /** The parent can be run ahead of the child to its end. */
  lemma RunParentAhead(cfg: Config, actions: seq<Action>) returns (more: seq<Action>)
    requires Usable(cfg) && CapsAsExpected(cfg) && cfg.driver != Builtin && SoundRun(cfg, actions)
    requires Run(cfg, actions).value.child.pc <= 7 && Run(cfg, actions).value.parent.pc <= PARENT_DONE
    ensures SoundRun(cfg, more)
    ensures Run(cfg, more).value.parent.pc == PARENT_DONE && Run(cfg, more).value.child.pc <= 7
    decreases 139 + cfg.ports - |actions|
  {
    hide Step, Sound, ParentWaits, ChildWaits, ParentStep, ChildStep, NextParent, NextChild, Healthy, Ordered;
    var s := Run(cfg, actions).value;
    SoundRunHealthy(cfg, actions);
    if s.parent.pc == PARENT_DONE {
      more := actions;
    } else {
      ParentAhead(cfg, s);
      var a: Action;
      if !ParentWaits(cfg, s) {
        ParentCan(cfg, s);
        ParentLeavesChild(cfg, s, NextParent(s));
        a := ByParent(NextParent(s));
      } else {
        ChildCan(cfg, s);
        ChildPlacesUp(cfg, s, NextChild(s));
        a := ByChild(NextChild(s));
      }
      StepIs(cfg, s, a);
      SoundRunExtends(cfg, actions, a);
      Bounds(cfg, actions + [a]);
      more := RunParentAhead(cfg, actions + [a]);
    }
  }

  lemma StepIs(cfg: Config, s: State, a: Action)
    ensures a.ByParent? ==> Step(cfg, s, a) == ParentStep(cfg, s, a.pa)
    ensures a.ByChild? ==> Step(cfg, s, a) == ChildStep(cfg, s, a.ca)
  {
  }

  lemma Bounds(cfg: Config, actions: seq<Action>)
    requires Usable(cfg) && CapsAsExpected(cfg) && SoundRun(cfg, actions)
    ensures |actions| <= 139 + cfg.ports && Run(cfg, actions).value.parent.pc <= PARENT_DONE
  {
    SoundRunHealthy(cfg, actions);
    MeasureNonNegative(cfg, Run(cfg, actions).value);
    InitMeasure(cfg);
  }

  /**
   * With any other port driver, or none, child_pid may be written and the API socket opened, without
   * any fault, while the child has not set up its network yet.
   */
  lemma {:induction false} NotReadyWithoutBuiltin(cfg: Config) returns (actions: seq<Action>)
    requires Usable(cfg) && CapsAsExpected(cfg) && cfg.driver != Builtin
    ensures SoundRun(cfg, actions)
    ensures var w := Run(cfg, actions).value.w; w.deeds.pidWritten && w.deeds.apiOpen && !w.deeds.netReady
  {
    actions := RunParentAhead(cfg, []);
    RunTold(cfg, actions);
  }
}
