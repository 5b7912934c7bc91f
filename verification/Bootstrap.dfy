/**
 * The start-up handshake of parent and child: two processes over two byte pipes, the child's
 * re-execution in the middle of it, and the readiness handshake of the builtin port driver.
 */
module Bootstrap {
  import opened Prelude
  import opened Framing
  import opened Messages
  import opened Channel
  import opened Endpoint

  /** The port driver: none, one that is ready at once (slirp4netns), or the builtin one. */
  datatype Driver = NoDriver | Immediate | Builtin

  /**
   * `firstCaps` and `reexecCaps`: whether the kernel gives the child capabilities on its first
   * execution, and on a re-execution after its ID maps are written.
   */
  datatype Config = Config(
    codec: Codec,
    driver: Driver,
    network: NetworkInfo,
    opaque_: map<string, string>,
    ports: nat,
    firstCaps: bool,
    reexecCaps: bool)

  /** docs/internal.md: what the parent sends, in order. */
  function DownMsgs(cfg: Config): seq<Message> {
    [ Message(NoName, EMPTY.(parentHello := true)),
      Message(NoName, EMPTY.(parentInitIdmapCompleted := true)),
      Message(NoName, EMPTY.(network := Some(cfg.network))),
      Message(NoName, EMPTY.(portOpaque := Some(cfg.opaque_))) ]
  }

  /** What the child sends, in order. */
  function UpMsgs(): seq<Message> {
    [ Message(NoName, EMPTY.(childHello := true)),
      Message(NoName, EMPTY.(childInitUserNSCompleted := true)) ]
  }

  /** The operations of both processes; Send(k) sends the sender's k-th message. */
  datatype Op =
    | Send(k: nat)
    | Await(name: Name)
    // parent only
    | SetupIDMap
    | ConfigureNetwork
    | StartParentDriver
    | ClosePipe
    | AwaitDriver
    | PublishPorts
    | WriteChildPID
    | ListenAPI
    // child only
    | CheckCaps
    | GainCaps
    | MountProcfs
    | SetupNet
    | StartChildDriver
    | Done

  const PARENT_DONE := 14
  const CHILD_DONE := 12

  function ParentOp(pc: nat): Op {
    match pc
    case 0 => Send(0)
    case 1 => Await(ChildHello)
    case 2 => SetupIDMap
    case 3 => Send(1)
    case 4 => Await(ChildInitUserNSCompleted)
    case 5 => ConfigureNetwork
    case 6 => Send(2)
    case 7 => StartParentDriver
    case 8 => Send(3)
    case 9 => ClosePipe
    case 10 => AwaitDriver
    case 11 => PublishPorts
    case 12 => WriteChildPID
    case 13 => ListenAPI
    case _ => Done
  }

  function ChildOp(pc: nat): Op {
    match pc
    case 0 => CheckCaps
    case 1 => Await(ParentHello)
    case 2 => Send(0)
    case 3 => Await(ParentInitIdmapCompleted)
    case 4 => GainCaps
    case 5 => MountProcfs
    case 6 => Send(1)
    case 7 => Await(ParentInitNetworkDriverCompleted)
    case 8 => Await(ParentInitPortDriverCompleted)
    case 9 => ClosePipe
    case 10 => SetupNet
    case 11 => StartChildDriver
    case _ => Done
  }

  /** RunParentDriver of the builtin driver. */
  datatype ParentDriver = PNotStarted | POpening | PReading | PDialing | PSignalling | PReady | PDead

  /** RunChildDriver of the builtin driver. */
  datatype ChildDriver = CNotStarted | COpening | CListening | CClosing | CServing | CDead

  /** What has been done once and for all; the parent and the child close one end each of the pipe between them. */
  datatype Deeds = Deeds(
    idmapped: bool,
    procMounted: bool,
    netConfigured: bool,   // by the parent's network driver
    pipeClosed: bool,      // the parent's write end
    pipeLeft: bool,        // the child's read end
    netReady: bool,
    pidWritten: bool,
    apiOpen: bool)

  /** What the rest of the system can see, and the two driver goroutines. */
  datatype World = World(
    deeds: Deeds,
    parentDriver: ParentDriver,
    childDriver: ChildDriver,
    listened: bool,
    published: nat)

  /** `down` is parent to child, `up` child to parent; `caps` and `execs` belong to the child. */
  datatype State = State(
    parent: Proc,
    child: Proc,
    down: Chan,
    up: Chan,
    caps: bool,
    execs: nat,
    w: World)

  function Init(cfg: Config): State {
    State(Proc(0, None), Proc(0, None), IDLE, IDLE, cfg.firstCaps, 0,
          World(Deeds(false, false, false, false, false, false, false, false), PNotStarted, CNotStarted, false, 0))
  }

  /**
   * Begin and Flush are the two halves of a write, Read is one read, Do is any other operation, End
   * is a read at the end of the pipe; Abort stands for the opaque operations, any of which may fail.
   */
  datatype ProcAction = Begin | Flush(k: nat) | Read(n: nat) | Do | End | Abort

  datatype DriverAction = ParentAdvance | ParentGiveUp | ChildAdvance | ChildGiveUp

  datatype Action = ByParent(pa: ProcAction) | ByChild(ca: ProcAction) | ByDriver(da: DriverAction)

  // ---------------------------------------------------------------- pipe steps

  function ParentBegin(cfg: Config, s: State): Option<State> {
    var op := ParentOp(s.parent.pc);
    if s.parent.fail == None && op.Send? && s.down.pend == [] && op.k < |DownMsgs(cfg)| then
      var (p, c) := BeginSend(cfg.codec, s.parent, s.down, DownMsgs(cfg)[op.k]);
      Some(s.(parent := p, down := c))
    else None
  }

  function ParentFlush(s: State, k: nat): Option<State> {
    if s.parent.fail == None && 1 <= k <= |s.down.pend| then
      var (p, c) := FlushSend(s.parent, s.down, k);
      Some(s.(parent := p, down := c))
    else None
  }

  function ParentRead(cfg: Config, s: State, n: nat): Option<State> {
    var op := ParentOp(s.parent.pc);
    if s.parent.fail == None && op.Await? && CanRead(s.up, n) then
      var (p, c) := ReadAwaited(cfg.codec, s.parent, s.up, op.name, n);
      Some(s.(parent := p, up := c))
    else None
  }

  function ChildBegin(cfg: Config, s: State): Option<State> {
    var op := ChildOp(s.child.pc);
    if s.child.fail == None && op.Send? && s.up.pend == [] && op.k < |UpMsgs()| then
      var (p, c) := BeginSend(cfg.codec, s.child, s.up, UpMsgs()[op.k]);
      Some(s.(child := p, up := c))
    else None
  }

  function ChildFlush(s: State, k: nat): Option<State> {
    if s.child.fail == None && 1 <= k <= |s.up.pend| then
      var (p, c) := FlushSend(s.child, s.up, k);
      Some(s.(child := p, up := c))
    else None
  }

  function ChildRead(cfg: Config, s: State, n: nat): Option<State> {
    var op := ChildOp(s.child.pc);
    if s.child.fail == None && op.Await? && CanRead(s.down, n) then
      var (p, c) := ReadAwaited(cfg.codec, s.child, s.down, op.name, n);
      Some(s.(child := p, down := c))
    else None
  }

  /**
   * The parent's write end is closed, by ClosePipe or by the parent's death. The other pipe never
   * ends: the parent keeps a copy of its write end.
   */
  function ChildEnd(s: State): Option<State> {
    if s.child.fail == None && ChildOp(s.child.pc).Await? && s.down.buf == []
       && (s.parent.fail.Some? || s.w.deeds.pipeClosed) then
      Some(s.(child := Fail(s.child, EndOfPipe)))
    else None
  }

  // ---------------------------------------------------------------- other operations

  /** What an operation other than Send and Await does to the world, and whether the process goes on. */
  datatype Effect = Moves(w: World) | Stays(w: World) | Fails(f: Failure) | Blocks

  function StartDriver(cfg: Config, w: World): World {
    match cfg.driver
    case NoDriver => w
    case Immediate => w.(parentDriver := PSignalling)
    case Builtin => w.(parentDriver := POpening)
  }

  /** The select on portDriverInitComplete and portDriverErr. */
  function WaitForDriver(cfg: Config, w: World): Effect {
    if cfg.driver == NoDriver then Moves(w)
    else if w.parentDriver == PSignalling then Moves(w.(parentDriver := PReady))
    else if w.parentDriver == PDead then Fails(DriverFailure)
    else Blocks
  }

  function PublishNext(cfg: Config, w: World): Effect {
    if cfg.driver != NoDriver && w.published < cfg.ports then Stays(w.(published := w.published + 1)) else Moves(w)
  }

  function ParentEffect(cfg: Config, op: Op, w: World): Effect {
    match op
    case SetupIDMap => Moves(w.(deeds := w.deeds.(idmapped := true)))
    case ConfigureNetwork => Moves(w.(deeds := w.deeds.(netConfigured := true)))
    case StartParentDriver => Moves(StartDriver(cfg, w))
    case ClosePipe => Moves(w.(deeds := w.deeds.(pipeClosed := true)))
    case AwaitDriver => WaitForDriver(cfg, w)
    case PublishPorts => PublishNext(cfg, w)
    case WriteChildPID => Moves(w.(deeds := w.deeds.(pidWritten := true)))
    case ListenAPI => Moves(w.(deeds := w.deeds.(apiOpen := true)))
    case _ => Blocks
  }

  function ParentDo(cfg: Config, s: State): Option<State> {
    if s.parent.fail != None then None
    else
      match ParentEffect(cfg, ParentOp(s.parent.pc), s.w)
      case Moves(w) => Some(s.(parent := Advance(s.parent), w := w))
      case Stays(w) => Some(s.(w := w))
      case Fails(f) => Some(s.(parent := Fail(s.parent, f)))
      case Blocks => None
  }

  function ChildDo(cfg: Config, s: State): Option<State> {
    var next := s.(child := Advance(s.child));
    if s.child.fail != None then None
    else
      match ChildOp(s.child.pc)
      case CheckCaps => Some(s.(child := Proc(if s.caps then 5 else 1, None)))
      case GainCaps =>
        if s.execs > 10 then Some(s.(child := Fail(s.child, TooManyReexecs)))
        // the process image is replaced: only the pipes and what the kernel knows survive
        else Some(s.(child := Proc(0, None), execs := s.execs + 1, caps := cfg.reexecCaps && s.w.deeds.idmapped))
      case MountProcfs => Some(next.(w := s.w.(deeds := s.w.deeds.(procMounted := true))))
      case ClosePipe => Some(next.(w := s.w.(deeds := s.w.deeds.(pipeLeft := true))))
      case SetupNet => Some(next.(w := s.w.(deeds := s.w.deeds.(netReady := true))))
      case StartChildDriver =>
        Some(next.(w := s.w.(childDriver := if cfg.driver == Builtin then COpening else CNotStarted)))
      case _ => None
  }

  /**
   * Opening the FIFO for reading waits for a writer and comes back together with the writer's open,
   * reading it ends when the writer has closed it, and the init request over the socket is answered
   * by a serving child only.
   */
  function ParentDriverStep(w: World): Option<World> {
    match w.parentDriver
    case PReading =>
      if w.childDriver == CServing || w.childDriver == CDead then Some(w.(parentDriver := PDialing)) else None
    case PDialing =>
      if w.childDriver == CServing then Some(w.(parentDriver := PSignalling))
      else if w.childDriver == CDead then Some(w.(parentDriver := PDead))
      else None
    case _ => None
  }

  /** Opening the FIFO for writing waits for a reader, which goes on as well; then the socket listens; then the FIFO is closed. */
  function ChildDriverStep(w: World): Option<World> {
    match w.childDriver
    case COpening =>
      if w.parentDriver == POpening then Some(w.(childDriver := CListening, parentDriver := PReading)) else None
    case CListening => Some(w.(childDriver := CClosing, listened := true))
    case CClosing => Some(w.(childDriver := CServing))
    case _ => None
  }

  function DriverStep(w: World, a: DriverAction): Option<World> {
    match a
    case ParentAdvance => ParentDriverStep(w)
    case ChildAdvance => ChildDriverStep(w)
    case ParentGiveUp =>
      if w.parentDriver in {POpening, PReading, PDialing} then Some(w.(parentDriver := PDead)) else None
    case ChildGiveUp => if w.childDriver == CNotStarted then None else Some(w.(childDriver := CDead))
  }

  function ParentStep(cfg: Config, s: State, a: ProcAction): Option<State> {
    match a
    case Begin => ParentBegin(cfg, s)
    case Flush(k) => ParentFlush(s, k)
    case Read(n) => ParentRead(cfg, s, n)
    case Do => ParentDo(cfg, s)
    case End => None
    case Abort => if s.parent.fail == None then Some(s.(parent := Fail(s.parent, Aborted))) else None
  }

  /** The child's driver goroutine dies with its process. */
  function ChildAbort(s: State): Option<State> {
    var driver := if s.w.childDriver == CNotStarted then CNotStarted else CDead;
    if s.child.fail == None then
      Some(s.(child := Fail(s.child, Aborted), w := s.w.(childDriver := driver)))
    else None
  }

  function ChildStep(cfg: Config, s: State, a: ProcAction): Option<State> {
    match a
    case Begin => ChildBegin(cfg, s)
    case Flush(k) => ChildFlush(s, k)
    case Read(n) => ChildRead(cfg, s, n)
    case Do => ChildDo(cfg, s)
    case End => ChildEnd(s)
    case Abort => ChildAbort(s)
  }

  function DriversStep(s: State, a: DriverAction): Option<State> {
    match DriverStep(s.w, a)
    case Some(w) => Some(s.(w := w))
    case None => None
  }

  function Step(cfg: Config, s: State, a: Action): Option<State> {
    match a
    case ByParent(pa) => ParentStep(cfg, s, pa)
    case ByChild(ca) => ChildStep(cfg, s, ca)
    case ByDriver(da) => DriversStep(s, da)
  }

  /** The state after a run, if every action of it was possible. */
  function Run(cfg: Config, actions: seq<Action>): Option<State> {
    if actions == [] then Some(Init(cfg))
    else
      match Run(cfg, actions[..|actions| - 1])
      case None => None
      case Some(s) => Step(cfg, s, actions[|actions| - 1])
  }

  /** Parent and child are through with starting up. */
  predicate Final(cfg: Config, s: State) {
    && s.parent == Proc(PARENT_DONE, None) && s.child == Proc(CHILD_DONE, None)
    && (cfg.driver == Builtin ==> s.w.parentDriver == PReady && s.w.childDriver == CServing)
  }

  /** The capability assumption: none at first, some after a re-execution that follows the ID maps. */
  predicate CapsAsExpected(cfg: Config) {
    !cfg.firstCaps && cfg.reexecCaps
  }

  /** A faithful codec, and messages that fit a frame. */
  ghost predicate Usable(cfg: Config) {
    AllUsable(cfg.codec, DownMsgs(cfg)) && AllUsable(cfg.codec, UpMsgs())
  }
}
