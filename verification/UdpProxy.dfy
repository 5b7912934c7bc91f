/**
 * The UDP proxy: one receive loop, one reply loop for every session, and Close, sharing the session
 * table under a lock. Each step is what one of them does between two points where others can run.
 */
module UdpProxy {
  import opened Prelude
  import opened Framing
  import opened ConnTrack

  type Data = seq<byte>

  datatype Datagram = Datagram(from: Addr, data: Data)

  /** A backend connection, named by a number. */
  type Conn = nat

  /** replyLoop, by the next thing it does; from LockTable on it runs its deferred function. */
  datatype ReplyPc = ReadConn | WriteClient(data: Data) | LockTable | DeleteEntry | UnlockTable | CloseConn | Ended

  /**
   * A session's reply loop: `answers` is what has come in on its connection, of which it has read the
   * first `taken`, and `replied` what it has sent and to whom.
   */
  datatype Reply = Reply(key: Key, client: Addr, pc: ReplyPc, answers: seq<Data>, taken: nat, replied: seq<(Addr, Data)>)

  /** UDPProxy.Run; `i` is the index of the datagram it is at, among all that have arrived. */
  datatype RunPc =
    | Receiving
    | Received(i: nat)
    | LookingUp(i: nat)
    | Chosen(i: nat, conn: Conn)
    | Forwarding(i: nat, conn: Conn)
    | Stopped

  /** UDPProxy.Close; `todo` are the connections of the table that its loop has not closed yet. */
  datatype ClosePc = NotClosed | ListenerClosed | ClosingConns(todo: set<Conn>) | AllClosed

  datatype Lock = Free | ByRun | ByReply(conn: Conn) | ByClose

  /** What Run has written to a connection: which datagram, and where. */
  datatype Forwarded = Forwarded(i: nat, conn: Conn)

  /** `ipLen` is the length of the addresses that the listening socket gives: 4 bytes or 16, by its family. */
  datatype State = State(
    ipLen: nat,
    arrived: seq<Datagram>,
    run: RunPc,
    forwarded: seq<Forwarded>,
    table: map<Key, Conn>,
    sessions: map<Conn, Reply>,
    closed: set<Conn>,
    lock: Lock,
    close: ClosePc,
    atClose: set<Conn>,   // the table's connections when Close took the lock
    late: seq<Conn>)      // connections dialed after that

  function Init(ipLen: nat): State {
    State(ipLen, [], Receiving, [], map[], map[], {}, Free, NotClosed, {}, [])
  }

  predicate ListenerOpen(s: State) {
    s.close == NotClosed
  }

  // ---------------------------------------------------------------- the receive loop

  datatype RunAction = Receive(d: Datagram) | ReceiveFails | Acquire | Hit | DialFails | Dial(conn: Conn) | Release | Write | WriteFails

  function RunStep(s: State, a: RunAction): Option<State> {
    match a
    case Receive(d) =>
      if s.run == Receiving && ListenerOpen(s) && |d.from.ip| == s.ipLen && ValidAddr(d.from) then
        Some(s.(arrived := s.arrived + [d], run := Received(|s.arrived|)))
      else None
    case ReceiveFails => if s.run == Receiving then Some(s.(run := Stopped)) else None
    case Acquire =>
      if s.run.Received? && s.lock == Free then Some(s.(lock := ByRun, run := LookingUp(s.run.i))) else None
    case Hit =>
      if s.run.LookingUp? && s.run.i < |s.arrived| && ValidAddr(s.arrived[s.run.i].from)
         && NewKey(s.arrived[s.run.i].from) in s.table then
        Some(s.(run := Chosen(s.run.i, s.table[NewKey(s.arrived[s.run.i].from)])))
      else None
    case DialFails =>
      if s.run.LookingUp? && s.run.i < |s.arrived| && ValidAddr(s.arrived[s.run.i].from)
         && NewKey(s.arrived[s.run.i].from) !in s.table then
        Some(s.(lock := Free, run := Receiving))
      else None
    case Dial(conn) =>
      if s.run.LookingUp? && s.run.i < |s.arrived| && ValidAddr(s.arrived[s.run.i].from)
         && NewKey(s.arrived[s.run.i].from) !in s.table && conn !in s.sessions && conn !in s.closed then
        var from := s.arrived[s.run.i].from;
        Some(s.(table := s.table[NewKey(from) := conn],
                sessions := s.sessions[conn := Reply(NewKey(from), from, ReadConn, [], 0, [])],
                late := if s.close.ClosingConns? || s.close == AllClosed then s.late + [conn] else s.late,
                run := Chosen(s.run.i, conn)))
      else None
    case Release =>
      if s.run.Chosen? then Some(s.(lock := Free, run := Forwarding(s.run.i, s.run.conn))) else None
    case Write =>
      // an empty datagram is not written at all; the others are written in one piece
      if s.run.Forwarding? && s.run.i < |s.arrived| then
        if s.arrived[s.run.i].data == [] then Some(s.(run := Receiving))
        else if s.run.conn !in s.closed then
          Some(s.(forwarded := s.forwarded + [Forwarded(s.run.i, s.run.conn)], run := Receiving))
        else None
      else None
    case WriteFails => if s.run.Forwarding? then Some(s.(run := Receiving)) else None
  }

  // ---------------------------------------------------------------- a reply loop

  datatype ReplyAction = Read | ReadFails | SendBack | SendBackFails | Lock | Delete | Unlock | CloseBackend

  /** One step of a reply loop: its new state, the table, the lock, and whether its connection is closed now. */
  function ReplyStep(s: State, conn: Conn, a: ReplyAction): Option<State>
  {
    if conn !in s.sessions then None
    else
      var r := s.sessions[conn];
      match a
      case Read =>
        if r.pc == ReadConn && conn !in s.closed && r.taken < |r.answers| then
          Some(s.(sessions := s.sessions[conn := r.(pc := WriteClient(r.answers[r.taken]), taken := r.taken + 1)]))
        else None
      case ReadFails =>
        // the deadline, a closed connection, or any error but ECONNREFUSED, which only repeats the read
        if r.pc == ReadConn then Some(s.(sessions := s.sessions[conn := r.(pc := LockTable)])) else None
      case SendBack =>
        if !r.pc.WriteClient? then None
        else if r.pc.data == [] then Some(s.(sessions := s.sessions[conn := r.(pc := ReadConn)]))
        else if ListenerOpen(s) then
          Some(s.(sessions := s.sessions[conn := r.(pc := ReadConn, replied := r.replied + [(r.client, r.pc.data)])]))
        else None
      case SendBackFails =>
        if r.pc.WriteClient? && r.pc.data != [] then Some(s.(sessions := s.sessions[conn := r.(pc := LockTable)]))
        else None
      case Lock =>
        if r.pc == LockTable && s.lock == Free then
          Some(s.(lock := ByReply(conn), sessions := s.sessions[conn := r.(pc := DeleteEntry)]))
        else None
      case Delete =>
        if r.pc == DeleteEntry then
          Some(s.(table := s.table - {r.key}, sessions := s.sessions[conn := r.(pc := UnlockTable)]))
        else None
      case Unlock =>
        if r.pc == UnlockTable then
          Some(s.(lock := Free, sessions := s.sessions[conn := r.(pc := CloseConn)]))
        else None
      case CloseBackend =>
        if r.pc == CloseConn then
          Some(s.(closed := s.closed + {conn}, sessions := s.sessions[conn := r.(pc := Ended)]))
        else None
  }

  // ---------------------------------------------------------------- Close

  datatype CloseAction = CloseListener | TakeLock | CloseOne(conn: Conn) | ReleaseLock

  function CloseStep(s: State, a: CloseAction): Option<State> {
    match a
    case CloseListener => if s.close == NotClosed then Some(s.(close := ListenerClosed)) else None
    case TakeLock =>
      if s.close == ListenerClosed && s.lock == Free then
        Some(s.(lock := ByClose, close := ClosingConns(s.table.Values), atClose := s.table.Values))
      else None
    case CloseOne(conn) =>
      if s.close.ClosingConns? && conn in s.close.todo then
        Some(s.(closed := s.closed + {conn}, close := ClosingConns(s.close.todo - {conn})))
      else None
    case ReleaseLock =>
      if s.close.ClosingConns? && s.close.todo == {} then Some(s.(lock := Free, close := AllClosed)) else None
  }

  // ---------------------------------------------------------------- the backends

  /** A datagram comes in on a session's connection. */
  function AnswerStep(s: State, conn: Conn, data: Data): Option<State> {
    if conn in s.sessions && conn !in s.closed then
      var r := s.sessions[conn];
      Some(s.(sessions := s.sessions[conn := r.(answers := r.answers + [data])]))
    else None
  }

  datatype Action =
    | InRun(ra: RunAction) | InReply(conn: Conn, pa: ReplyAction) | InClose(ca: CloseAction)
    | Answered(conn: Conn, data: Data)

  function Step(s: State, a: Action): Option<State> {
    match a
    case InRun(ra) => RunStep(s, ra)
    case InReply(conn, pa) => ReplyStep(s, conn, pa)
    case InClose(ca) => CloseStep(s, ca)
    case Answered(conn, data) => AnswerStep(s, conn, data)
  }

  function Run(ipLen: nat, actions: seq<Action>): Option<State> {
    if actions == [] then Some(Init(ipLen))
    else
      match Run(ipLen, actions[..|actions| - 1])
      case None => None
      case Some(s) => Step(s, actions[|actions| - 1])
  }
}
