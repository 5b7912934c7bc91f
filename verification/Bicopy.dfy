/** bicopy: two brokers that copy between two connections, half-closing behind themselves, and the caller that closes both. */
module Bicopy {
  import opened Prelude
  import opened Framing

  /**
   * A connection: what has arrived from its peer and how much of it was read, whether the peer has
   * ended its side, what was written to the peer, and what has been shut down here. `tcp` is false
   * for connections that cannot be half-closed.
   */
  datatype Conn = Conn(
    tcp: bool,
    arrived: seq<byte>,
    taken: nat,
    eof: bool,
    written: seq<byte>,
    readShut: bool,
    writeShut: bool,
    closed: bool)

  /** A broker by the next thing it does; `Holding` has read data it has not written. */
  datatype Broker = Copying | Holding(data: seq<byte>) | ShuttingRead | ShuttingWrite | Leaving | Finished

  datatype Main = Selecting | ClosingX | ClosingY | AwaitingFinish | Returned

  /** `faulted`: some read or write failed on a connection that nobody here had shut down. */
  datatype State = State(
    x: Conn,
    y: Conn,
    xy: Broker,   // from x to y
    yx: Broker,   // from y to x
    quit: bool,
    finish: bool,
    main: Main,
    faulted: bool)

  function Fresh(tcp: bool): Conn {
    Conn(tcp, [], 0, false, [], false, false, false)
  }

  function Init(xTCP: bool, yTCP: bool): State {
    State(Fresh(xTCP), Fresh(yTCP), Copying, Copying, false, false, Selecting, false)
  }

  // ---------------------------------------------------------------- a broker

  datatype BrokerAction =
    | Read(n: nat)
    | ReadEOF
    | ReadFails
    | Write
    | WriteFails(k: nat)
    | ShutRead
    | ShutWrite
    | Leave

  /** One direction: where it reads, where it writes, its broker, and whether a fault has happened. */
  datatype Direction = Direction(from: Conn, to: Conn, b: Broker, faulted: bool)

  predicate Readable(c: Conn) {
    !c.closed && !c.readShut
  }

  predicate Writable(c: Conn) {
    !c.closed && !c.writeShut
  }

  function BrokerStep(d: Direction, a: BrokerAction): Option<Direction> {
    match a
    case Read(n) =>
      if d.b == Copying && Readable(d.from) && n >= 1 && d.from.taken + n <= |d.from.arrived| then
        Some(d.(b := Holding(d.from.arrived[d.from.taken..d.from.taken + n]),
                from := d.from.(taken := d.from.taken + n)))
      else None
    case ReadEOF =>
      if d.b == Copying && Readable(d.from) && d.from.eof && d.from.taken == |d.from.arrived| then
        Some(d.(b := ShuttingRead))
      else None
    case ReadFails =>
      if d.b == Copying then Some(d.(b := ShuttingRead, faulted := d.faulted || Readable(d.from))) else None
    case Write =>
      if d.b.Holding? && Writable(d.to) then
        Some(d.(b := Copying, to := d.to.(written := d.to.written + d.b.data)))
      else None
    case WriteFails(k) =>
      // a failing write may have written a part
      if d.b.Holding? && k <= |d.b.data| && (k == 0 || Writable(d.to)) then
        Some(d.(b := ShuttingRead, to := d.to.(written := d.to.written + d.b.data[..k]),
                faulted := d.faulted || Writable(d.to)))
      else None
    case ShutRead =>
      if d.b == ShuttingRead then Some(d.(b := ShuttingWrite, from := d.from.(readShut := d.from.readShut || d.from.tcp)))
      else None
    case ShutWrite =>
      if d.b == ShuttingWrite then Some(d.(b := Leaving, to := d.to.(writeShut := d.to.writeShut || d.to.tcp)))
      else None
    case Leave => if d.b == Leaving then Some(d.(b := Finished)) else None
  }

  // ---------------------------------------------------------------- all together

  datatype Action =
    | ArriveX(data: seq<byte>) | ArriveY(data: seq<byte>) | EndX | EndY | Quit
    | XY(a: BrokerAction) | YX(a: BrokerAction)
    | CloseFinish
    | Go

  function Arrive(c: Conn, data: seq<byte>): Option<Conn> {
    if c.eof then None else Some(c.(arrived := c.arrived + data))
  }

  /** The calling goroutine: select, two closes, and the receive from finish. */
  function MainStep(s: State): Option<State> {
    match s.main
    case Selecting => if s.quit || s.finish then Some(s.(main := ClosingX)) else None
    case ClosingX => Some(s.(main := ClosingY, x := s.x.(closed := true)))
    case ClosingY => Some(s.(main := AwaitingFinish, y := s.y.(closed := true)))
    case AwaitingFinish => if s.finish then Some(s.(main := Returned)) else None
    case Returned => None
  }

  function Step(s: State, a: Action): Option<State> {
    match a
    case ArriveX(data) =>
      match Arrive(s.x, data) { case Some(c) => Some(s.(x := c)) case None => None }
    case ArriveY(data) =>
      match Arrive(s.y, data) { case Some(c) => Some(s.(y := c)) case None => None }
    case EndX => Some(s.(x := s.x.(eof := true)))
    case EndY => Some(s.(y := s.y.(eof := true)))
    case Quit => Some(s.(quit := true))
    case XY(a) =>
      match BrokerStep(Direction(s.x, s.y, s.xy, s.faulted), a) {
        case Some(d) => Some(s.(x := d.from, y := d.to, xy := d.b, faulted := d.faulted))
        case None => None
      }
    case YX(a) =>
      match BrokerStep(Direction(s.y, s.x, s.yx, s.faulted), a) {
        case Some(d) => Some(s.(y := d.from, x := d.to, yx := d.b, faulted := d.faulted))
        case None => None
      }
    case CloseFinish => if s.xy == Finished && s.yx == Finished && !s.finish then Some(s.(finish := true)) else None
    case Go => MainStep(s)
  }

  function Run(s: State, actions: seq<Action>): Option<State> {
    if actions == [] then Some(s)
    else
      match Run(s, actions[..|actions| - 1])
      case None => None
      case Some(s') => Step(s', actions[|actions| - 1])
  }

  // ---------------------------------------------------------------- invariants

  predicate Ended(b: Broker) {
    b != Copying && !b.Holding?
  }

  /** What one direction has delivered, and what its broker has shut down. */
  predicate DirectionRight(from: Conn, to: Conn, b: Broker) {
    && from.taken <= |from.arrived|
    && (b == Copying ==> to.written == from.arrived[..from.taken])
    && (b.Holding? ==> b.data != [] && to.written + b.data == from.arrived[..from.taken])
    && (Ended(b) ==> to.written <= from.arrived[..from.taken])
    && (from.readShut <==> from.tcp && (b == ShuttingWrite || b == Leaving || b == Finished))
    && (to.writeShut <==> to.tcp && (b == Leaving || b == Finished))
  }

  predicate Complete(from: Conn, to: Conn) {
    from.eof && to.written == from.arrived
  }

  predicate Clean(s: State) {
    !s.quit && !s.faulted
  }

  predicate Inv(s: State) {
    && DirectionRight(s.x, s.y, s.xy) && DirectionRight(s.y, s.x, s.yx)
    && (s.finish ==> s.xy == Finished && s.yx == Finished)
    && (s.main != Selecting ==> s.quit || s.finish)
    && (s.x.closed <==> s.main != Selecting && s.main != ClosingX)
    && (s.y.closed <==> s.main == AwaitingFinish || s.main == Returned)
    && (s.main == Returned ==> s.finish)
    && (Clean(s) && Ended(s.xy) ==> Complete(s.x, s.y))
    && (Clean(s) && Ended(s.yx) ==> Complete(s.y, s.x))
  }

  /** A broker's step keeps its direction right, and leaves the other direction's data and shutdowns alone. */
  lemma BrokerKeeps(d: Direction, a: BrokerAction)
    requires DirectionRight(d.from, d.to, d.b) && BrokerStep(d, a).Some?
    ensures var d' := BrokerStep(d, a).value;
            && DirectionRight(d'.from, d'.to, d'.b)
            && d'.from == d.from.(taken := d'.from.taken, readShut := d'.from.readShut)
            && d'.to == d.to.(written := d'.to.written, writeShut := d'.to.writeShut)
            && (d.faulted ==> d'.faulted)
  {
  }

  /** Without a fault, a broker ends with everything delivered if it was not stopped by a close. */
  lemma BrokerEndsComplete(d: Direction, a: BrokerAction)
    requires DirectionRight(d.from, d.to, d.b) && BrokerStep(d, a).Some?
    requires !d.from.closed && !d.to.closed
    requires Ended(d.b) ==> Complete(d.from, d.to)
    ensures var d' := BrokerStep(d, a).value;
            !d'.faulted && Ended(d'.b) ==> Complete(d'.from, d'.to)
  {
  }

  lemma StepInv(s: State, a: Action)
    requires Inv(s) && Step(s, a).Some?
    ensures Inv(Step(s, a).value)
  {
    match a
    case XY(ba) =>
      var d := Direction(s.x, s.y, s.xy, s.faulted);
      BrokerKeeps(d, ba);
      if Clean(s) && s.main == Selecting { BrokerEndsComplete(d, ba); }
      hide DirectionRight;
      XYKeepsOther(s, ba);
    case YX(ba) =>
      var d := Direction(s.y, s.x, s.yx, s.faulted);
      BrokerKeeps(d, ba);
      if Clean(s) && s.main == Selecting { BrokerEndsComplete(d, ba); }
      hide DirectionRight;
      YXKeepsOther(s, ba);
    case ArriveX(data) => assert (s.x.arrived + data)[..s.x.taken] == s.x.arrived[..s.x.taken];
    case ArriveY(data) => assert (s.y.arrived + data)[..s.y.taken] == s.y.arrived[..s.y.taken];
    case _ =>
  }

  lemma XYKeepsOther(s: State, a: BrokerAction)
    requires DirectionRight(s.x, s.y, s.xy) && DirectionRight(s.y, s.x, s.yx) && Step(s, XY(a)).Some?
    ensures var s' := Step(s, XY(a)).value; DirectionRight(s'.y, s'.x, s'.yx)
  {
  }

  lemma YXKeepsOther(s: State, a: BrokerAction)
    requires DirectionRight(s.x, s.y, s.xy) && DirectionRight(s.y, s.x, s.yx) && Step(s, YX(a)).Some?
    ensures var s' := Step(s, YX(a)).value; DirectionRight(s'.x, s'.y, s'.xy)
  {
  }
}
