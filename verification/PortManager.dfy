/**
 * The builtin port driver: any number of concurrent AddPort and RemovePort calls, sharing ports,
 * stoppers and nextID under the mutex `mu`, and the goroutines that each successful AddPort leaves behind.
 */
module PortManager {
  import opened Prelude
  import opened Ports

  type Call = nat
  type Rid = nat

  /** The accept goroutine of tcp.Run; udp.Run has none. */
  datatype Acceptor = Accepting | HandingOver | AcceptorDone | NoAcceptor

  /** The goroutine that waits for the stop channel, closes the listener and reports on stoppedCh. */
  datatype Stopper = Selecting | ClosingListener | Reporting | ClosingChannel | StopperDone

  /** Who is responsible for a routine: the AddPort call that started it, an entry of stoppers, or nobody any more. */
  datatype Owner = OfCall(call: Call) | OfId(id: int) | Released

  /**
   * What one successful tcp.Run or udp.Run started. `stopCloses` counts how often routineStopCh was
   * closed and `reports` the values received from routineStoppedCh.
   */
  datatype Routine = Routine(
    spec: Spec,
    owner: Owner,
    listening: bool,
    acceptor: Acceptor,
    connsClosed: bool,
    accepted: nat,
    dispatched: nat,
    stopper: Stopper,
    stopCloses: nat,
    reports: nat,
    channelClosed: bool)

  datatype RemoveResult = Reported | TimedOut | ClosedWithoutSending

  /** A call by the next thing it does; those from Locked and Found on hold `mu`. */
  datatype CallPc =
    | AddCheck(spec: Spec)
    | AddRun(spec: Spec)
    | AddLock(spec: Spec, rid: Rid)
    | AddPutPort(spec: Spec, rid: Rid)
    | AddPutStopper(spec: Spec, rid: Rid)
    | Added(id: int)
    | AddFailed
    | RemoveLock(id: int)
    | RemoveStop(id: int, rid: Rid)
    | RemoveWait(id: int, rid: Rid)
    | RemoveStopper(id: int, rid: Rid, result: RemoveResult)
    | RemovePort(id: int, rid: Rid, result: RemoveResult)
    | Removed(id: int, rid: Rid, result: RemoveResult)
    | UnknownId(id: int)

  datatype State = State(
    mu: Option<Call>,
    ports: map<int, Status>,
    stoppers: map<int, Rid>,
    nextID: int,
    issued: seq<int>,
    calls: map<Call, CallPc>,
    routines: map<Rid, Routine>)

  const INIT: State := State(None, map[], map[], 1, [], map[], map[])

  // ---------------------------------------------------------------- what the driver is for

  /** The Manager interface: adding gives a status of an unused ID whose parent side nobody else has. */
  predicate AddsPort(before: map<int, Status>, after: map<int, Status>, st: Status) {
    st.id !in before && !Conflicts(st.spec, before) && after == before[st.id := st]
  }

  predicate RemovesPort(before: map<int, Status>, after: map<int, Status>, id: int) {
    after == before - {id}
  }

  // ---------------------------------------------------------------- calls

  datatype CallAction =
    | Start(pc: CallPc)
    | Check
    | Bind(rid: Rid)
    | BindFails
    | Lock
    | PutPort
    | PutStopper
    | TakeStopper
    | CloseStop
    | ReceiveReport
    | SeeChannelClosed
    | TimeOut
    | DeleteStopper
    | DeletePort

  predicate IsTCP(spec: Spec) {
    spec.proto == "tcp" || spec.proto == "tcp4" || spec.proto == "tcp6"
  }

  predicate IsUDP(spec: Spec) {
    spec.proto == "udp" || spec.proto == "udp4" || spec.proto == "udp6"
  }

  /** The kernel refuses to bind what is bound: no listening routine has the same protocol, address and port. */
  predicate Bindable(s: State, spec: Spec) {
    forall r | r in s.routines && s.routines[r].listening :: !SameParent(s.routines[r].spec, spec)
  }

  function Started(spec: Spec, call: Call): Routine {
    Routine(spec, OfCall(call), true, if IsTCP(spec) then Accepting else NoAcceptor, false, 0, 0, Selecting, 0, 0, false)
  }

  function At(s: State, call: Call, pc: CallPc): State {
    s.(calls := s.calls[call := pc])
  }

  /** AddPort after it was called. */
  function AddStep(validIP: string -> bool, s: State, call: Call, pc: CallPc, a: CallAction): Option<State> {
    match (pc, a)
    case (AddCheck(spec), Check) =>
      // ValidatePortSpec in a critical section of its own
      if s.mu != None then None
      else Some(At(s, call, if WellFormed(spec, validIP) && !Conflicts(spec, s.ports) then AddRun(spec) else AddFailed))
    case (AddRun(spec), Bind(rid)) =>
      if (IsTCP(spec) || IsUDP(spec)) && rid !in s.routines && Bindable(s, spec) then
        Some(At(s, call, AddLock(spec, rid)).(routines := s.routines[rid := Started(spec, call)]))
      else None
    case (AddRun(_), BindFails) => Some(At(s, call, AddFailed))
    case (AddLock(spec, rid), Lock) =>
      if s.mu == None then Some(At(s, call, AddPutPort(spec, rid)).(mu := Some(call))) else None
    case (AddPutPort(spec, rid), PutPort) =>
      Some(At(s, call, AddPutStopper(spec, rid))
           .(ports := s.ports[s.nextID := Status(s.nextID, spec)], issued := s.issued + [s.nextID]))
    case (AddPutStopper(spec, rid), PutStopper) =>
      if rid in s.routines then
        Some(At(s, call, Added(s.nextID))
             .(stoppers := s.stoppers[s.nextID := rid],
               routines := s.routines[rid := s.routines[rid].(owner := OfId(s.nextID))],
               nextID := s.nextID + 1, mu := None))
      else None
    case _ => None
  }

  /** The stop function of an entry, called by RemovePort with `mu` held. */
  function StopStep(s: State, call: Call, id: int, rid: Rid, a: CallAction): Option<State>
    requires call in s.calls
  {
    if rid !in s.routines then None
    else
      var r := s.routines[rid];
      match a
      case CloseStop =>
        if s.calls[call].RemoveStop? then
          Some(At(s, call, RemoveWait(id, rid)).(routines := s.routines[rid := r.(stopCloses := r.stopCloses + 1)]))
        else None
      case ReceiveReport =>
        // an unbuffered channel: the routine goes on together with the call
        if s.calls[call].RemoveWait? && r.stopper == Reporting then
          Some(At(s, call, RemoveStopper(id, rid, Reported))
               .(routines := s.routines[rid := r.(reports := r.reports + 1, stopper := ClosingChannel)]))
        else None
      case SeeChannelClosed =>
        if s.calls[call].RemoveWait? && r.channelClosed then Some(At(s, call, RemoveStopper(id, rid, ClosedWithoutSending)))
        else None
      case TimeOut => if s.calls[call].RemoveWait? then Some(At(s, call, RemoveStopper(id, rid, TimedOut))) else None
      case _ => None
  }

  /** RemovePort around it. */
  function RemoveStep(s: State, call: Call, pc: CallPc, a: CallAction): Option<State> {
    match (pc, a)
    case (RemoveLock(id), TakeStopper) =>
      if s.mu != None then None
      else if id in s.stoppers then Some(At(s, call, RemoveStop(id, s.stoppers[id])).(mu := Some(call)))
      else Some(At(s, call, UnknownId(id)))
    case (RemoveStopper(id, rid, result), DeleteStopper) =>
      if rid in s.routines then
        Some(At(s, call, RemovePort(id, rid, result))
             .(stoppers := s.stoppers - {id}, routines := s.routines[rid := s.routines[rid].(owner := Released)]))
      else None
    case (RemovePort(id, rid, result), DeletePort) =>
      Some(At(s, call, Removed(id, rid, result)).(ports := s.ports - {id}, mu := None))
    case _ => None
  }

  function CallStep(validIP: string -> bool, s: State, call: Call, a: CallAction): Option<State> {
    if a.Start? then
      if call !in s.calls && (a.pc.AddCheck? || a.pc.RemoveLock?) then Some(At(s, call, a.pc)) else None
    else if call !in s.calls then None
    else
      match s.calls[call]
      case RemoveStop(id, rid) => StopStep(s, call, id, rid, a)
      case RemoveWait(id, rid) => StopStep(s, call, id, rid, a)
      case pc =>
        if pc.AddCheck? || pc.AddRun? || pc.AddLock? || pc.AddPutPort? || pc.AddPutStopper? then
          AddStep(validIP, s, call, pc, a)
        else RemoveStep(s, call, pc, a)
  }

  // ---------------------------------------------------------------- routines

  /** AcceptBreaks is an Accept that fails although the listener is open. */
  datatype RoutineAction =
    | Accept
    | AcceptFails
    | AcceptBreaks
    | HandOver
    | SelectStop
    | SelectClosed
    | CloseListener
    | CloseChannel

  function RoutineStep(r: Routine, a: RoutineAction): Option<Routine> {
    match a
    case Accept =>
      if r.acceptor == Accepting && r.listening then
        Some(r.(acceptor := HandingOver, accepted := r.accepted + 1))
      else None
    case AcceptFails =>
      if r.acceptor == Accepting && !r.listening then Some(r.(acceptor := AcceptorDone, connsClosed := true)) else None
    case AcceptBreaks =>
      if r.acceptor == Accepting && r.listening then Some(r.(acceptor := AcceptorDone, connsClosed := true)) else None
    case HandOver =>
      // unbuffered, so the select loop must be there to take the connection
      if r.acceptor == HandingOver && r.stopper == Selecting then
        Some(r.(acceptor := Accepting, dispatched := r.dispatched + 1))
      else None
    case SelectStop => if r.stopper == Selecting && r.stopCloses > 0 then Some(r.(stopper := ClosingListener)) else None
    case SelectClosed => if r.stopper == Selecting && r.connsClosed then Some(r.(stopper := ClosingListener)) else None
    case CloseListener =>
      if r.stopper == ClosingListener then Some(r.(listening := false, stopper := Reporting)) else None
    case CloseChannel =>
      if r.stopper == ClosingChannel then Some(r.(channelClosed := true, stopper := StopperDone)) else None
  }

  datatype Action = InCall(call: Call, ca: CallAction) | InRoutine(rid: Rid, ra: RoutineAction)

  function Step(validIP: string -> bool, s: State, a: Action): Option<State> {
    match a
    case InCall(call, ca) => CallStep(validIP, s, call, ca)
    case InRoutine(rid, ra) =>
      if rid !in s.routines then None
      else
        match RoutineStep(s.routines[rid], ra)
        case Some(r) => Some(s.(routines := s.routines[rid := r]))
        case None => None
  }

  function Run(validIP: string -> bool, actions: seq<Action>): Option<State> {
    if actions == [] then Some(INIT)
    else
      match Run(validIP, actions[..|actions| - 1])
      case None => None
      case Some(s) => Step(validIP, s, actions[|actions| - 1])
  }
}
