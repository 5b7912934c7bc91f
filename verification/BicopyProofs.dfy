/** What bicopy keeps in every interleaving, and that it returns. */
module BicopyProofs {
  import opened Prelude
  import opened Framing
  import opened Bicopy

  lemma {:induction false} RunInv(s: State, actions: seq<Action>)
    requires Inv(s) && Run(s, actions).Some?
    ensures Inv(Run(s, actions).value)
  {
    if actions != [] {
      var front := actions[..|actions| - 1];
      RunInv(s, front);
      StepInv(Run(s, front).value, actions[|actions| - 1]);
      hide Inv, Step;
    }
  }

  /** Reachable from two fresh connections. */
  predicate IsRun(xTCP: bool, yTCP: bool, actions: seq<Action>) {
    Run(Init(xTCP, yTCP), actions).Some?
  }

  function After(xTCP: bool, yTCP: bool, actions: seq<Action>): State
    requires IsRun(xTCP, yTCP, actions)
  {
    Run(Init(xTCP, yTCP), actions).value
  }

  lemma Reachable(xTCP: bool, yTCP: bool, actions: seq<Action>)
    requires IsRun(xTCP, yTCP, actions)
    ensures Inv(After(xTCP, yTCP, actions))
  {
    RunInv(Init(xTCP, yTCP), actions);
  }

  // ---------------------------------------------------------------- safety

  /** bicopy returns only after both brokers have ended, with both connections closed. */
  lemma ReturnsLast(xTCP: bool, yTCP: bool, actions: seq<Action>)
    requires IsRun(xTCP, yTCP, actions) && After(xTCP, yTCP, actions).main == Returned
    ensures var s := After(xTCP, yTCP, actions);
            s.xy == Finished && s.yx == Finished && s.x.closed && s.y.closed
  {
    Reachable(xTCP, yTCP, actions);
  }

  /** At any time each side has been sent a prefix of what arrived from the other. */
  lemma DeliversPrefix(xTCP: bool, yTCP: bool, actions: seq<Action>)
    requires IsRun(xTCP, yTCP, actions)
    ensures var s := After(xTCP, yTCP, actions);
            s.y.written <= s.x.arrived && s.x.written <= s.y.arrived
  {
    Reachable(xTCP, yTCP, actions);
    var s := After(xTCP, yTCP, actions);
    WrittenIsPrefix(s.x, s.y, s.xy);
    WrittenIsPrefix(s.y, s.x, s.yx);
  }

  lemma WrittenIsPrefix(from: Conn, to: Conn, b: Broker)
    requires DirectionRight(from, to, b)
    ensures to.written <= from.arrived
  {
  }

  /** If quit has not fired and no read or write failed, a direction ends only with all of its source delivered. */
  lemma DeliversAll(xTCP: bool, yTCP: bool, actions: seq<Action>)
    requires IsRun(xTCP, yTCP, actions) && Clean(After(xTCP, yTCP, actions))
    ensures var s := After(xTCP, yTCP, actions);
            && (Ended(s.xy) || s.main == Returned ==> s.x.eof && s.y.written == s.x.arrived)
            && (Ended(s.yx) || s.main == Returned ==> s.y.eof && s.x.written == s.y.arrived)
  {
    Reachable(xTCP, yTCP, actions);
  }

  /**
   * A step of one direction, its half-closes included, changes nothing the other one depends on: not
   * its broker, what it has read and written, or whether it can read and write on.
   */
  lemma XYLeavesYX(s: State, a: BrokerAction)
    requires DirectionRight(s.x, s.y, s.xy) && Step(s, XY(a)).Some?
    ensures var s' := Step(s, XY(a)).value;
            && s'.yx == s.yx && s'.y.taken == s.y.taken && s'.y.arrived == s.y.arrived && s'.x.written == s.x.written
            && Readable(s'.y) == Readable(s.y) && Writable(s'.x) == Writable(s.x)
  {
  }

  lemma YXLeavesXY(s: State, a: BrokerAction)
    requires DirectionRight(s.y, s.x, s.yx) && Step(s, YX(a)).Some?
    ensures var s' := Step(s, YX(a)).value;
            && s'.xy == s.xy && s'.x.taken == s.x.taken && s'.x.arrived == s.x.arrived && s'.y.written == s.y.written
            && Readable(s'.x) == Readable(s.x) && Writable(s'.y) == Writable(s.y)
  {
  }

  /** Until bicopy closes the connections, a broker that has not ended can read and write, however far the other one is. */
  lemma HalfCloseLeavesOther(xTCP: bool, yTCP: bool, actions: seq<Action>)
    requires IsRun(xTCP, yTCP, actions) && After(xTCP, yTCP, actions).main == Selecting
    ensures var s := After(xTCP, yTCP, actions);
            && (!Ended(s.xy) ==> Readable(s.x) && Writable(s.y))
            && (!Ended(s.yx) ==> Readable(s.y) && Writable(s.x))
  {
    Reachable(xTCP, yTCP, actions);
  }

  /**
   * In every state each broker has half-closed exactly what it should have by then, where that can be
   * half-closed: its source for reading when it has ended copying, its destination for writing after that.
   */
  lemma {:induction false} HalfCloses(xTCP: bool, yTCP: bool, actions: seq<Action>)
    requires IsRun(xTCP, yTCP, actions)
    ensures var s := After(xTCP, yTCP, actions);
            && s.x.tcp == xTCP && s.y.tcp == yTCP
            && (s.x.readShut <==> xTCP && s.xy in {ShuttingWrite, Leaving, Finished})
            && (s.y.writeShut <==> yTCP && s.xy in {Leaving, Finished})
            && (s.y.readShut <==> yTCP && s.yx in {ShuttingWrite, Leaving, Finished})
            && (s.x.writeShut <==> xTCP && s.yx in {Leaving, Finished})
  {
    Reachable(xTCP, yTCP, actions);
    TcpKept(Init(xTCP, yTCP), actions);
  }

  /** On a connection that is closed, or half-closed that way, nothing is read or written any more: the broker's next step fails. */
  lemma ClosedIsQuiet(d: Direction, a: BrokerAction)
    requires BrokerStep(d, a).Some?
    ensures d.b == Copying && (d.from.closed || d.from.readShut) ==> a == ReadFails
    ensures d.b.Holding? && (d.to.closed || d.to.writeShut) ==> a == WriteFails(0)
    ensures a == ReadFails || a.WriteFails? ==> BrokerStep(d, a).value.b == ShuttingRead
    ensures a == ReadFails && (d.from.closed || d.from.readShut) ==> BrokerStep(d, a).value.faulted == d.faulted
    ensures a.WriteFails? && (d.to.closed || d.to.writeShut) ==> BrokerStep(d, a).value == d.(b := ShuttingRead)
    ensures a == ReadFails && !d.from.closed && !d.from.readShut ==> BrokerStep(d, a).value.faulted
    ensures a.WriteFails? && !d.to.closed && !d.to.writeShut ==>
              BrokerStep(d, a).value.faulted && BrokerStep(d, a).value.to.written == d.to.written + d.b.data[..a.k]
  {
    if a == WriteFails(0) {
      assert d.to.written + d.b.data[..0] == d.to.written;
    }
  }

  lemma BrokerTcpKept(d: Direction, a: BrokerAction)
    requires BrokerStep(d, a).Some?
    ensures BrokerStep(d, a).value.from.tcp == d.from.tcp && BrokerStep(d, a).value.to.tcp == d.to.tcp
  {
  }

  lemma OneTcpKept(s: State, a: Action)
    requires Step(s, a).Some?
    ensures Step(s, a).value.x.tcp == s.x.tcp && Step(s, a).value.y.tcp == s.y.tcp
  {
    hide BrokerStep;
    match a
    case XY(ba) => BrokerTcpKept(Direction(s.x, s.y, s.xy, s.faulted), ba);
    case YX(ba) => BrokerTcpKept(Direction(s.y, s.x, s.yx, s.faulted), ba);
    case _ =>
  }

  lemma {:induction false} TcpKept(s: State, actions: seq<Action>)
    requires Run(s, actions).Some?
    ensures Run(s, actions).value.x.tcp == s.x.tcp && Run(s, actions).value.y.tcp == s.y.tcp
  {
    if actions != [] {
      var front := actions[..|actions| - 1];
      TcpKept(s, front);
      OneTcpKept(Run(s, front).value, actions[|actions| - 1]);
    }
  }

  // ---------------------------------------------------------------- progress

  /** The steps of bicopy itself; the others are those of the two peers and of the stop channel. */
  predicate Own(a: Action) {
    a.XY? || a.YX? || a == CloseFinish || a == Go
  }

  function BrokerLeft(from: Conn, b: Broker): int {
    match b
    case Copying => 2 * (|from.arrived| - from.taken) + 5
    case Holding(_) => 2 * (|from.arrived| - from.taken) + 6
    case ShuttingRead => 4
    case ShuttingWrite => 3
    case Leaving => 2
    case Finished => 1
  }

  function MainLeft(m: Main): nat {
    match m
    case Selecting => 4
    case ClosingX => 3
    case ClosingY => 2
    case AwaitingFinish => 1
    case Returned => 0
  }

  /** An upper bound on the steps bicopy can still take by itself. */
  function Left(s: State): int {
    BrokerLeft(s.x, s.xy) + BrokerLeft(s.y, s.yx) + MainLeft(s.main) + if s.finish then 0 else 1
  }

  lemma BrokerUses(d: Direction, a: BrokerAction)
    requires DirectionRight(d.from, d.to, d.b) && BrokerStep(d, a).Some?
    ensures BrokerLeft(BrokerStep(d, a).value.from, BrokerStep(d, a).value.b) < BrokerLeft(d.from, d.b)
  {
  }

  lemma OwnUses(s: State, a: Action)
    requires Inv(s) && Own(a) && Step(s, a).Some?
    ensures 0 <= Left(Step(s, a).value) < Left(s)
  {
    StepInv(s, a);
    match a
    case XY(ba) =>
      var d := Direction(s.x, s.y, s.xy, s.faulted);
      BrokerKeeps(d, ba);
      BrokerUses(d, ba);
      hide BrokerStep;
    case YX(ba) =>
      var d := Direction(s.y, s.x, s.yx, s.faulted);
      BrokerKeeps(d, ba);
      BrokerUses(d, ba);
      hide BrokerStep;
    case _ =>
  }

  /** A broker's next step that is no fault: on, if its source has ended, or out, if the connections are closed. */
  lemma BrokerCan(d: Direction) returns (a: BrokerAction)
    requires DirectionRight(d.from, d.to, d.b) && d.b != Finished
    requires (!d.from.closed && !d.to.closed && d.from.eof) || (d.from.closed && d.to.closed)
    ensures BrokerStep(d, a).Some? && BrokerStep(d, a).value.faulted == d.faulted
  {
    a := match d.b
         case Copying =>
           if d.from.closed then ReadFails else if d.from.taken < |d.from.arrived| then Read(1) else ReadEOF
         case Holding(_) => if d.to.closed then WriteFails(0) else Write
         case ShuttingRead => ShutRead
         case ShuttingWrite => ShutWrite
         case _ => Leave;
  }

  predicate MayReturn(s: State) {
    s.quit || (s.x.eof && s.y.eof)
  }

  /** Once quit has fired or both sides have ended, bicopy has a next step until it returns. */
  lemma NotStuck(s: State) returns (a: Action)
    requires Inv(s) && MayReturn(s) && s.main != Returned
    ensures Own(a) && Step(s, a).Some?
    ensures Step(s, a).value.faulted == s.faulted && Step(s, a).value.quit == s.quit && MayReturn(Step(s, a).value)
  {
    if MainStep(s).Some? {
      a := Go;
    } else if s.xy != Finished {
      var ba := BrokerCan(Direction(s.x, s.y, s.xy, s.faulted));
      a := XY(ba);
      BrokerKeeps(Direction(s.x, s.y, s.xy, s.faulted), ba);
    } else if s.yx != Finished {
      var ba := BrokerCan(Direction(s.y, s.x, s.yx, s.faulted));
      a := YX(ba);
      BrokerKeeps(Direction(s.y, s.x, s.yx, s.faulted), ba);
    } else {
      a := CloseFinish;
    }
  }

  lemma {:induction false} OwnRunBounded(s: State, actions: seq<Action>)
    requires Inv(s) && Run(s, actions).Some? && forall i | 0 <= i < |actions| :: Own(actions[i])
    ensures Left(Run(s, actions).value) + |actions| <= Left(s)
  {
    if actions != [] {
      var front := actions[..|actions| - 1];
      OwnRunBounded(s, front);
      RunInv(s, front);
      OwnUses(Run(s, front).value, actions[|actions| - 1]);
      hide Inv, Step, Left;
    }
  }

  lemma {:induction false} Continue(s: State, sofar: seq<Action>) returns (actions: seq<Action>)
    requires Inv(s) && Run(s, sofar).Some? && MayReturn(Run(s, sofar).value)
    requires forall i | 0 <= i < |sofar| :: Own(sofar[i])
    ensures Run(s, actions).Some? && Run(s, actions).value.main == Returned
    ensures Run(s, actions).value.faulted == Run(s, sofar).value.faulted && Run(s, actions).value.quit == Run(s, sofar).value.quit
    ensures forall i | 0 <= i < |actions| :: Own(actions[i])
    decreases Left(Run(s, sofar).value)
  {
    var t := Run(s, sofar).value;
    RunInv(s, sofar);
    if t.main == Returned {
      actions := sofar;
    } else {
      var a := NotStuck(t);
      OwnUses(t, a);
      assert (sofar + [a])[..|sofar + [a]| - 1] == sofar;
      hide Inv, Step, Left, MayReturn;
      actions := Continue(s, sofar + [a]);
    }
  }

  /**
   * bicopy returns: once quit has fired or both sides have ended, it can go on by itself until it has
   * returned, in no more than Left steps whichever it takes, and without quit or a fault it has then
   * delivered everything in both directions.
   */
  lemma {:induction false} Returns(xTCP: bool, yTCP: bool, actions: seq<Action>) returns (more: seq<Action>)
    requires IsRun(xTCP, yTCP, actions) && MayReturn(After(xTCP, yTCP, actions))
    ensures var s := After(xTCP, yTCP, actions);
            && Run(s, more).Some? && Run(s, more).value.main == Returned
            && (forall i | 0 <= i < |more| :: Own(more[i])) && |more| <= Left(s)
            && (Clean(s) ==>
                  && Run(s, more).value.y.written == Run(s, more).value.x.arrived
                  && Run(s, more).value.x.written == Run(s, more).value.y.arrived)
  {
    Reachable(xTCP, yTCP, actions);
    var s := After(xTCP, yTCP, actions);
    more := Continue(s, []);
    OwnRunBounded(s, more);
    RunInv(s, more);
    LeftNonNegative(Run(s, more).value);
  }

  lemma LeftNonNegative(s: State)
    requires Inv(s)
    ensures Left(s) >= 0
  {
  }

  // ---------------------------------------------------------------- one direction by itself

  /** One direction's broker, taking these steps one after the other. */
  function Broke(d: Direction, steps: seq<BrokerAction>): Option<Direction> {
    if steps == [] then Some(d)
    else
      match Broke(d, steps[..|steps| - 1])
      case None => None
      case Some(d') => BrokerStep(d', steps[|steps| - 1])
  }

  lemma Then(d: Direction, steps: seq<BrokerAction>, a: BrokerAction)
    ensures Broke(d, steps + [a]) == if Broke(d, steps) == None then None else BrokerStep(Broke(d, steps).value, a)
  {
    assert (steps + [a])[..|steps + [a]| - 1] == steps;
  }

  /** Nothing is closed, and the broker is copying. */
  predicate Alive(d: Direction) {
    DirectionRight(d.from, d.to, d.b) && !d.from.closed && !d.to.closed && !Ended(d.b)
  }

  /** What has been read is written. */
  lemma WritesHeld(d: Direction) returns (steps: seq<BrokerAction>)
    requires Alive(d)
    ensures Broke(d, steps).Some?
    ensures var d' := Broke(d, steps).value;
            && Alive(d') && d'.b == Copying && d'.faulted == d.faulted
            && d'.from == d.from && d'.to == d.to.(written := d'.to.written)
  {
    if d.b.Holding? {
      steps := [Write];
      Then(d, [], Write);
      assert [] + [Write] == [Write];
      BrokerKeeps(d, Write);
    } else {
      steps := [];
    }
  }

  /** The rest of what has arrived is read and written. */
  lemma RelaysRest(d: Direction) returns (steps: seq<BrokerAction>)
    requires Alive(d) && d.b == Copying && d.from.taken < |d.from.arrived|
    ensures |steps| == 2 && BrokerStep(d, steps[0]).Some? && BrokerStep(BrokerStep(d, steps[0]).value, steps[1]).Some?
    ensures var d' := BrokerStep(BrokerStep(d, steps[0]).value, steps[1]).value;
            && Alive(d') && d'.b == Copying && d'.faulted == d.faulted
            && d'.from == d.from.(taken := |d.from.arrived|) && d'.to == d.to.(written := d'.to.written)
  {
    var n := |d.from.arrived| - d.from.taken;
    steps := [Read(n), Write];
    BrokerKeeps(d, Read(n));
    BrokerKeeps(BrokerStep(d, Read(n)).value, Write);
  }

  /** Whatever has arrived is delivered, without waiting for its sender to end. */
  lemma Relays(d: Direction) returns (steps: seq<BrokerAction>)
    requires Alive(d)
    ensures Broke(d, steps).Some?
    ensures var d' := Broke(d, steps).value;
            && Alive(d') && d'.b == Copying && d'.to.written == d.from.arrived && d'.faulted == d.faulted
            && d'.from == d.from.(taken := |d.from.arrived|) && d'.to == d.to.(written := d'.to.written)
  {
    hide BrokerStep;
    steps := WritesHeld(d);
    var c := Broke(d, steps).value;
    if c.from.taken < |c.from.arrived| {
      var rest := RelaysRest(c);
      Then(d, steps, rest[0]);
      Then(d, steps + [rest[0]], rest[1]);
      steps := steps + [rest[0]] + [rest[1]];
      c := Broke(d, steps).value;
    }
    assert c.from.arrived[..c.from.taken] == c.from.arrived;
  }

  /** When its source has ended as well, the broker half-closes both connections, where that can be done. */
  lemma Concludes(d: Direction) returns (steps: seq<BrokerAction>)
    requires Alive(d) && d.from.eof
    ensures Broke(d, steps).Some?
    ensures var d' := Broke(d, steps).value;
            && d'.b == Finished && d'.to.written == d.from.arrived && d'.faulted == d.faulted
            && d'.from.readShut == d.from.tcp && d'.to.writeShut == d.to.tcp
  {
    steps := Relays(d);
    var c := Broke(d, steps).value;
    Then(d, steps, ReadEOF);
    Then(d, steps + [ReadEOF], ShutRead);
    Then(d, steps + [ReadEOF] + [ShutRead], ShutWrite);
    Then(d, steps + [ReadEOF] + [ShutRead] + [ShutWrite], Leave);
    steps := steps + [ReadEOF] + [ShutRead] + [ShutWrite] + [Leave];
  }

  function AsXY(steps: seq<BrokerAction>): (r: seq<Action>)
    ensures |r| == |steps|
  {
    seq(|steps|, i requires 0 <= i < |steps| => XY(steps[i]))
  }

  function AsYX(steps: seq<BrokerAction>): (r: seq<Action>)
    ensures |r| == |steps|
  {
    seq(|steps|, i requires 0 <= i < |steps| => YX(steps[i]))
  }

  /** A broker's steps by themselves are steps of the whole, and leave the rest as it is. */
  lemma {:induction false} RunXY(s: State, steps: seq<BrokerAction>)
    requires Broke(Direction(s.x, s.y, s.xy, s.faulted), steps).Some?
    ensures var d := Broke(Direction(s.x, s.y, s.xy, s.faulted), steps).value;
            Run(s, AsXY(steps)) == Some(s.(x := d.from, y := d.to, xy := d.b, faulted := d.faulted))
  {
    if steps != [] {
      var front := steps[..|steps| - 1];
      assert AsXY(steps)[..|steps| - 1] == AsXY(front);
      RunXY(s, front);
      hide BrokerStep;
    }
  }

  lemma {:induction false} RunYX(s: State, steps: seq<BrokerAction>)
    requires Broke(Direction(s.y, s.x, s.yx, s.faulted), steps).Some?
    ensures var d := Broke(Direction(s.y, s.x, s.yx, s.faulted), steps).value;
            Run(s, AsYX(steps)) == Some(s.(y := d.from, x := d.to, yx := d.b, faulted := d.faulted))
  {
    if steps != [] {
      var front := steps[..|steps| - 1];
      assert AsYX(steps)[..|steps| - 1] == AsYX(front);
      RunYX(s, front);
      hide BrokerStep;
    }
  }

  /**
   * Until bicopy closes the connections, everything that has arrived at x is delivered to y by steps
   * of that direction alone, and the end of x is passed on by half-closing y, whether or not y has
   * ended; the other direction stays where it is.
   */
  lemma {:induction false} PassesOnXY(xTCP: bool, yTCP: bool, actions: seq<Action>) returns (steps: seq<BrokerAction>)
    requires IsRun(xTCP, yTCP, actions)
    requires After(xTCP, yTCP, actions).main == Selecting && !Ended(After(xTCP, yTCP, actions).xy)
    ensures var s := After(xTCP, yTCP, actions);
            && Run(s, AsXY(steps)).Some?
            && var s' := Run(s, AsXY(steps)).value;
            && s'.y.written == s.x.arrived && s'.main == Selecting && s'.faulted == s.faulted
            && (s.x.eof ==> s'.xy == Finished && s'.y.writeShut == yTCP && s'.x.readShut == xTCP)
            && (!s.x.eof ==> s'.xy == Copying)
            && s'.yx == s.yx && s'.y.taken == s.y.taken && s'.x.written == s.x.written
  {
    var s := After(xTCP, yTCP, actions);
    var d := Direction(s.x, s.y, s.xy, s.faulted);
    Reachable(xTCP, yTCP, actions);
    HalfCloses(xTCP, yTCP, actions);
    if s.x.eof {
      steps := Concludes(d);
    } else {
      steps := Relays(d);
    }
    RunXY(s, steps);
    BrokeLeaves(d, steps);
    hide Broke, Run, Inv;
  }

  lemma {:induction false} BrokeLeaves(d: Direction, steps: seq<BrokerAction>)
    requires Broke(d, steps).Some?
    ensures Broke(d, steps).value.from.written == d.from.written && Broke(d, steps).value.to.taken == d.to.taken
  {
    if steps != [] {
      BrokeLeaves(d, steps[..|steps| - 1]);
    }
  }

  /** And so from y to x. */
  lemma {:induction false} PassesOnYX(xTCP: bool, yTCP: bool, actions: seq<Action>) returns (steps: seq<BrokerAction>)
    requires IsRun(xTCP, yTCP, actions)
    requires After(xTCP, yTCP, actions).main == Selecting && !Ended(After(xTCP, yTCP, actions).yx)
    ensures var s := After(xTCP, yTCP, actions);
            && Run(s, AsYX(steps)).Some?
            && var s' := Run(s, AsYX(steps)).value;
            && s'.x.written == s.y.arrived && s'.main == Selecting && s'.faulted == s.faulted
            && (s.y.eof ==> s'.yx == Finished && s'.x.writeShut == xTCP && s'.y.readShut == yTCP)
            && (!s.y.eof ==> s'.yx == Copying)
            && s'.xy == s.xy && s'.x.taken == s.x.taken && s'.y.written == s.y.written
  {
    var s := After(xTCP, yTCP, actions);
    var d := Direction(s.y, s.x, s.yx, s.faulted);
    Reachable(xTCP, yTCP, actions);
    HalfCloses(xTCP, yTCP, actions);
    if s.y.eof {
      steps := Concludes(d);
    } else {
      steps := Relays(d);
    }
    RunYX(s, steps);
    BrokeLeaves(d, steps);
    hide Broke, Run, Inv;
  }

  // ---------------------------------------------------------------- whole exchanges

  lemma {:induction false} RunOn(s: State, first: seq<Action>, then_: seq<Action>)
    requires Run(s, first).Some?
    ensures Run(s, first + then_) == Run(Run(s, first).value, then_)
  {
    if then_ == [] {
      assert first + then_ == first;
    } else {
      var all := first + then_;
      assert all[..|all| - 1] == first + then_[..|then_| - 1];
      RunOn(s, first, then_[..|then_| - 1]);
    }
  }

  /** What arrives from both peers, in any two portions, and then their ends. */
  function Arrivals(x: seq<byte>, y: seq<byte>): seq<Action> {
    [ArriveX(x), ArriveY(y), EndX, EndY]
  }

  lemma ArrivalsRun(xTCP: bool, yTCP: bool, x: seq<byte>, y: seq<byte>)
    ensures IsRun(xTCP, yTCP, Arrivals(x, y))
    ensures var s := After(xTCP, yTCP, Arrivals(x, y));
            s == Init(xTCP, yTCP).(x := Fresh(xTCP).(arrived := x, eof := true), y := Fresh(yTCP).(arrived := y, eof := true))
  {
    var all := Arrivals(x, y);
    assert all[..3][..2] == all[..2] && all[..2][..1] == all[..1] && all[..1][..0] == [];
    assert [] + x == x && [] + y == y;
    var s := Init(xTCP, yTCP);
    assert Run(s, all[..1]) == Step(s, all[0]);
    assert Run(s, all[..2]) == Step(Run(s, all[..1]).value, all[1]);
    assert Run(s, all[..3]) == Step(Run(s, all[..2]).value, all[2]);
  }

  /** Any two streams are exchanged as a whole, and both ends passed on. */
  lemma {:induction false} Exchanges(xTCP: bool, yTCP: bool, x: seq<byte>, y: seq<byte>) returns (actions: seq<Action>)
    ensures IsRun(xTCP, yTCP, actions)
    ensures var s := After(xTCP, yTCP, actions);
            && s.main == Returned && s.x.arrived == x && s.y.arrived == y && s.y.written == x && s.x.written == y
            && !s.quit && !s.faulted && s.y.writeShut == yTCP && s.x.writeShut == xTCP && s.x.closed && s.y.closed
  {
    ArrivalsRun(xTCP, yTCP, x, y);
    var s := After(xTCP, yTCP, Arrivals(x, y));
    Reachable(xTCP, yTCP, Arrivals(x, y));
    var again := Continue(s, []);
    RunOn(Init(xTCP, yTCP), Arrivals(x, y), again);
    actions := Arrivals(x, y) + again;
    OwnArrives(s, again);
    DeliversAll(xTCP, yTCP, actions);
    ReturnsLast(xTCP, yTCP, actions);
    HalfCloses(xTCP, yTCP, actions);
    hide Run, Inv;
  }

  lemma OneOwnArrives(s: State, a: Action)
    requires Inv(s) && Own(a) && Step(s, a).Some?
    ensures Step(s, a).value.x.arrived == s.x.arrived && Step(s, a).value.y.arrived == s.y.arrived
  {
    hide BrokerStep;
    match a
    case XY(ba) => BrokerKeeps(Direction(s.x, s.y, s.xy, s.faulted), ba);
    case YX(ba) => BrokerKeeps(Direction(s.y, s.x, s.yx, s.faulted), ba);
    case _ =>
  }

  lemma {:induction false} OwnArrives(s: State, actions: seq<Action>)
    requires Inv(s) && Run(s, actions).Some? && forall i | 0 <= i < |actions| :: Own(actions[i])
    ensures Run(s, actions).value.x.arrived == s.x.arrived && Run(s, actions).value.y.arrived == s.y.arrived
  {
    if actions != [] {
      var front := actions[..|actions| - 1];
      OwnArrives(s, front);
      RunInv(s, front);
      OneOwnArrives(Run(s, front).value, actions[|actions| - 1]);
    }
  }

  /** When the stop channel is closed, at whatever point, bicopy comes to return with both connections closed. */
  lemma {:induction false} QuitReturns(xTCP: bool, yTCP: bool, before: seq<Action>) returns (actions: seq<Action>)
    requires IsRun(xTCP, yTCP, before)
    ensures IsRun(xTCP, yTCP, before + actions) && After(xTCP, yTCP, before + actions).main == Returned
    ensures After(xTCP, yTCP, before + actions).x.closed && After(xTCP, yTCP, before + actions).y.closed
    ensures actions != [] && actions[0] == Quit && forall i | 0 < i < |actions| :: Own(actions[i])
  {
    var s := After(xTCP, yTCP, before);
    Reachable(xTCP, yTCP, before);
    assert [Quit][..0] == [];
    assert Run(s, [Quit]) == Some(s.(quit := true));
    StepInv(s, Quit);
    var more := Continue(s.(quit := true), []);
    RunOn(s, [Quit], more);
    actions := [Quit] + more;
    RunOn(Init(xTCP, yTCP), before, actions);
    ReturnsLast(xTCP, yTCP, before + actions);
  }
}
