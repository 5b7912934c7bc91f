/** What the loops of the UDP proxy get done: datagrams both ways, the end of a session, and the shut-down. */
module UdpProxyProgress {
  import opened Prelude
  import opened Framing
  import opened ConnTrack
  import opened UdpProxy
  import opened UdpProxyProofs

  // ---------------------------------------------------------------- back to the client

  /** What comes in on an open session's connection is sent to its client by the loop's own steps, unless it is empty. */
  lemma {:induction false} Relays(ipLen: nat, actions: seq<Action>, c: Conn) returns (more: seq<Action>)
    requires Run(ipLen, actions).Some? && c in Run(ipLen, actions).value.sessions
    requires var s := Run(ipLen, actions).value;
             && s.close == NotClosed && c !in s.closed
             && s.sessions[c].pc == ReadConn && s.sessions[c].taken < |s.sessions[c].answers|
    ensures Run(ipLen, more).Some?
    ensures var s, s' := Run(ipLen, actions).value, Run(ipLen, more).value;
            var r := s.sessions[c];
            var data := r.answers[r.taken];
            && c in s'.sessions && s' == s.(sessions := s.sessions[c := s'.sessions[c]])
            && s'.sessions[c] == r.(taken := r.taken + 1,
                                    replied := if data == [] then r.replied else r.replied + [(r.client, data)])
  {
    more := TakeStep(ipLen, actions, InReply(c, Read));
    more := TakeStep(ipLen, more, InReply(c, SendBack));
  }

  /** An empty datagram is not sent at all, so sending it cannot fail either. */
  lemma EmptyIsSkipped(s: State, c: Conn, a: ReplyAction)
    requires c in s.sessions && s.sessions[c].pc == WriteClient([])
    ensures ReplyStep(s, c, a).Some? <==> a == SendBack
    ensures ReplyStep(s, c, SendBack).value == s.(sessions := s.sessions[c := s.sessions[c].(pc := ReadConn)])
  {
  }

  /** So an answer to an idle session reaches its client next. */
  lemma {:induction false} AnswerReachesClient(ipLen: nat, actions: seq<Action>, c: Conn, data: Data) returns (more: seq<Action>)
    requires Run(ipLen, actions).Some? && c in Run(ipLen, actions).value.sessions
    requires var s := Run(ipLen, actions).value;
             && s.close == NotClosed && c !in s.closed
             && s.sessions[c].pc == ReadConn && s.sessions[c].taken == |s.sessions[c].answers|
    ensures Run(ipLen, more).Some? && c in Run(ipLen, more).value.sessions
    ensures var r, r' := Run(ipLen, actions).value.sessions[c], Run(ipLen, more).value.sessions[c];
            && r'.answers == r.answers + [data] && r'.pc == ReadConn && r'.client == r.client
            && r'.replied == if data == [] then r.replied else r.replied + [(r.client, data)]
  {
    more := TakeStep(ipLen, actions, Answered(c, data));
    more := Relays(ipLen, more, c);
  }

  // ---------------------------------------------------------------- to the backend

  /** The session a sender's datagrams go to: that of its key, or a new one on a connection dialed for it. */
  function SessionFor(s: State, from: Addr, dialed: Conn): Conn
    requires ValidAddr(from)
  {
    if NewKey(from) in s.table then s.table[NewKey(from)] else dialed
  }

  lemma Acquires(ipLen: nat, actions: seq<Action>, d: Datagram, dialed: Conn) returns (more: seq<Action>)
    requires Run(ipLen, actions).Some? && ValidAddr(d.from)
    requires var s := Run(ipLen, actions).value;
             && s.close == NotClosed && s.run == Receiving && s.lock == Free && |d.from.ip| == s.ipLen
             && dialed !in s.sessions && dialed !in s.closed
    ensures Run(ipLen, more).Some?
    ensures var s, s' := Run(ipLen, actions).value, Run(ipLen, more).value;
            var conn := SessionFor(s, d.from, dialed);
            && s'.run == Chosen(|s.arrived|, conn) && s'.lock == ByRun && s'.close == NotClosed
            && s'.arrived == s.arrived + [d] && s'.forwarded == s.forwarded && s'.closed == s.closed
            && s'.table == s.table[NewKey(d.from) := conn]
            && s'.sessions == if NewKey(d.from) in s.table then s.sessions
                              else s.sessions[dialed := Reply(NewKey(d.from), d.from, ReadConn, [], 0, [])]
  {
    hide NewKey;
    var s := Run(ipLen, actions).value;
    more := TakeStep(ipLen, actions, InRun(Receive(d)));
    more := TakeStep(ipLen, more, InRun(Acquire));
    if NewKey(d.from) in s.table {
      more := TakeStep(ipLen, more, InRun(Hit));
    } else {
      more := TakeStep(ipLen, more, InRun(Dial(dialed)));
    }
  }

  lemma Writes(ipLen: nat, actions: seq<Action>) returns (more: seq<Action>)
    requires Run(ipLen, actions).Some?
    requires var s := Run(ipLen, actions).value; s.run.Chosen? && s.run.i < |s.arrived| && s.run.conn !in s.closed
    ensures Run(ipLen, more).Some?
    ensures var s, s' := Run(ipLen, actions).value, Run(ipLen, more).value;
            s' == s.(run := Receiving, lock := Free,
                     forwarded := if s.arrived[s.run.i].data == [] then s.forwarded
                                  else s.forwarded + [Forwarded(s.run.i, s.run.conn)])
  {
    more := TakeStep(ipLen, actions, InRun(Release));
    more := TakeStep(ipLen, more, InRun(Write));
  }

  lemma TableIsOpen(s: State, k: Key)
    requires Inv(s) && s.close == NotClosed && k in s.table
    ensures s.table[k] !in s.closed
  {
    assert Active(s.sessions[s.table[k]].pc);
  }

  /**
   * With the listener open, the receive loop's own steps take the next datagram to the backend, unless
   * it is empty: on the connection of its sender's session, or of a new session if dialing succeeds.
   */
  lemma {:induction false} Forwards(ipLen: nat, actions: seq<Action>, d: Datagram, dialed: Conn) returns (more: seq<Action>)
    requires Run(ipLen, actions).Some? && ValidAddr(d.from) && |d.from.ip| == ipLen
    requires var s := Run(ipLen, actions).value;
             s.close == NotClosed && s.run == Receiving && s.lock == Free && dialed !in s.sessions
    ensures Run(ipLen, more).Some?
    ensures var s, s' := Run(ipLen, actions).value, Run(ipLen, more).value;
            var conn := SessionFor(s, d.from, dialed);
            && s'.arrived == s.arrived + [d] && s'.run == Receiving && s'.lock == Free
            && s'.forwarded == (if d.data == [] then s.forwarded else s.forwarded + [Forwarded(|s.arrived|, conn)])
            && s'.table == s.table[NewKey(d.from) := conn]
            && s'.sessions == if NewKey(d.from) in s.table then s.sessions
                              else s.sessions[dialed := Reply(NewKey(d.from), d.from, ReadConn, [], 0, [])]
  {
    ReachableInv(ipLen, actions);
    var s := Run(ipLen, actions).value;
    if NewKey(d.from) in s.table {
      TableIsOpen(s, NewKey(d.from));
    }
    hide Inv, NewKey, Step;
    more := Acquires(ipLen, actions, d, dialed);
    more := Writes(ipLen, more);
  }

  /** A dial or a write that fails drops the datagram and nothing else; only a sender without a session is dialed for. */
  lemma FailureDrops(s: State)
    requires AtLast(s)
    ensures RunStep(s, DialFails).Some? <==> s.run.LookingUp? && NewKey(s.arrived[s.run.i].from) !in s.table
    ensures RunStep(s, DialFails).Some? ==> RunStep(s, DialFails).value == s.(run := Receiving, lock := Free)
    ensures RunStep(s, WriteFails).Some? <==> s.run.Forwarding?
    ensures RunStep(s, WriteFails).Some? ==> RunStep(s, WriteFails).value == s.(run := Receiving)
  {
    hide NewKey;
  }

  // ---------------------------------------------------------------- the end of a session

  /** With the lock free, a session's own steps end it: its entry goes and its connection is closed. */
  lemma {:induction false} SessionEnds(ipLen: nat, actions: seq<Action>, c: Conn) returns (more: seq<Action>)
    requires Run(ipLen, actions).Some? && c in Run(ipLen, actions).value.sessions && Run(ipLen, actions).value.lock == Free
    ensures Run(ipLen, more).Some?
    ensures var s, s' := Run(ipLen, actions).value, Run(ipLen, more).value;
            && s'.sessions.Keys == s.sessions.Keys && s'.sessions[c].pc == Ended && s'.lock == Free && s'.close == s.close
            && c in s'.closed && s'.closed <= s.closed + {c}
            && (forall d | d in s.sessions && d != c :: s'.sessions[d] == s.sessions[d])
            && s'.table == if Active(s.sessions[c].pc) then s.table - {s.sessions[c].key} else s.table
  {
    LockIsElsewhere(ipLen, actions, c);
    hide Run, Step, Inv;
    more := actions;
    if Active(Run(ipLen, actions).value.sessions[c].pc) {
      more := StopsReading(ipLen, more, c);
      more := Deletes(ipLen, more, c);
    }
    if Run(ipLen, more).value.sessions[c].pc == CloseConn {
      more := ClosesBackend(ipLen, more, c);
    }
  }

  lemma LockIsElsewhere(ipLen: nat, actions: seq<Action>, c: Conn)
    requires Run(ipLen, actions).Some? && c in Run(ipLen, actions).value.sessions && Run(ipLen, actions).value.lock == Free
    ensures var s := Run(ipLen, actions).value;
            !HoldsLock(s.sessions[c].pc) && (s.sessions[c].pc == Ended ==> c in s.closed)
  {
    ReachableInv(ipLen, actions);
  }

  lemma ClosesBackend(ipLen: nat, actions: seq<Action>, c: Conn) returns (more: seq<Action>)
    requires Run(ipLen, actions).Some? && c in Run(ipLen, actions).value.sessions
    requires Run(ipLen, actions).value.sessions[c].pc == CloseConn
    ensures Run(ipLen, more).Some?
    ensures var s, s' := Run(ipLen, actions).value, Run(ipLen, more).value;
            s' == s.(closed := s.closed + {c}, sessions := s.sessions[c := s.sessions[c].(pc := Ended)])
  {
    more := TakeStep(ipLen, actions, InReply(c, CloseBackend));
  }

  lemma StopsReading(ipLen: nat, actions: seq<Action>, c: Conn) returns (more: seq<Action>)
    requires Run(ipLen, actions).Some? && c in Run(ipLen, actions).value.sessions
    requires var pc := Run(ipLen, actions).value.sessions[c].pc; pc == ReadConn || pc.WriteClient? || pc == LockTable
    ensures Run(ipLen, more).Some?
    ensures var s, s' := Run(ipLen, actions).value, Run(ipLen, more).value;
            s' == s.(sessions := s.sessions[c := s.sessions[c].(pc := LockTable)])
  {
    more := actions;
    var s := Run(ipLen, actions).value;
    if s.sessions[c].pc.WriteClient? {
      if s.sessions[c].pc.data == [] {
        more := TakeStep(ipLen, more, InReply(c, SendBack));
      } else {
        more := TakeStep(ipLen, more, InReply(c, SendBackFails));
      }
    }
    if Run(ipLen, more).value.sessions[c].pc == ReadConn {
      more := TakeStep(ipLen, more, InReply(c, ReadFails));
    }
    assert Run(ipLen, more).value.sessions == s.sessions[c := s.sessions[c].(pc := LockTable)];
  }

  lemma Deletes(ipLen: nat, actions: seq<Action>, c: Conn) returns (more: seq<Action>)
    requires Run(ipLen, actions).Some? && c in Run(ipLen, actions).value.sessions
    requires Run(ipLen, actions).value.lock == Free && Run(ipLen, actions).value.sessions[c].pc == LockTable
    ensures Run(ipLen, more).Some?
    ensures var s, s' := Run(ipLen, actions).value, Run(ipLen, more).value;
            s' == s.(table := s.table - {s.sessions[c].key}, sessions := s.sessions[c := s.sessions[c].(pc := CloseConn)])
  {
    more := TakeStep(ipLen, actions, InReply(c, Lock));
    more := TakeStep(ipLen, more, InReply(c, Delete));
    more := TakeStep(ipLen, more, InReply(c, Unlock));
    var s := Run(ipLen, actions).value;
    assert Run(ipLen, more).value.sessions == s.sessions[c := s.sessions[c].(pc := CloseConn)];
  }

  // ---------------------------------------------------------------- the shut-down

  /** Once the listener is closed, the receive loop can only stop; on a closed connection a reply loop can only end. */
  lemma OnlyTheEnd(s: State, c: Conn)
    ensures s.run == Receiving && s.close != NotClosed ==> forall a :: RunStep(s, a).Some? <==> a == ReceiveFails
    ensures c in s.sessions && c in s.closed && s.sessions[c].pc == ReadConn ==>
              forall a :: ReplyStep(s, c, a).Some? <==> a == ReadFails
    ensures c in s.sessions && s.close != NotClosed && s.sessions[c].pc.WriteClient? && s.sessions[c].pc.data != [] ==>
              forall a :: ReplyStep(s, c, a).Some? <==> a == SendBackFails
    ensures c in s.closed ==> forall data :: AnswerStep(s, c, data) == None
  {
  }

  /** When receiving fails the receive loop stops, and then it takes no step any more. */
  lemma StoppedStays(s: State, a: RunAction)
    ensures s.run == Stopped ==> RunStep(s, a) == None
    ensures a == ReceiveFails && RunStep(s, a).Some? ==> RunStep(s, a).value == s.(run := Stopped)
  {
  }

  /** With the lock free, Close goes through to its end. */
  lemma {:induction false} CloseCompletes(ipLen: nat, actions: seq<Action>) returns (more: seq<Action>)
    requires Run(ipLen, actions).Some? && Run(ipLen, actions).value.lock == Free
    requires Run(ipLen, actions).value.close == NotClosed || Run(ipLen, actions).value.close == ListenerClosed
    ensures Run(ipLen, more).Some?
    ensures var s, s' := Run(ipLen, actions).value, Run(ipLen, more).value;
            s' == s.(close := AllClosed, closed := s.closed + s.table.Values, atClose := s.table.Values)
  {
    more := actions;
    if Run(ipLen, more).value.close == NotClosed {
      more := TakeStep(ipLen, more, InClose(CloseListener));
    }
    more := TakeStep(ipLen, more, InClose(TakeLock));
    more := ClosesAll(ipLen, more);
  }

  lemma {:induction false} ClosesAll(ipLen: nat, actions: seq<Action>) returns (more: seq<Action>)
    requires Run(ipLen, actions).Some? && Run(ipLen, actions).value.close.ClosingConns?
    ensures Run(ipLen, more).Some?
    ensures var s, s' := Run(ipLen, actions).value, Run(ipLen, more).value;
            s' == s.(close := AllClosed, lock := Free, closed := s.closed + s.close.todo)
    decreases |Run(ipLen, actions).value.close.todo|
  {
    var s := Run(ipLen, actions).value;
    if s.close.todo == {} {
      more := TakeStep(ipLen, actions, InClose(ReleaseLock));
    } else {
      var c := AnElement(s.close.todo);
      more := TakeStep(ipLen, actions, InClose(CloseOne(c)));
      var s1 := Run(ipLen, more).value;
      assert s1 == s.(closed := s.closed + {c}, close := ClosingConns(s.close.todo - {c}));
      hide Run, Step;
      more := ClosesAll(ipLen, more);
      assert s1.closed + s1.close.todo == s.closed + s.close.todo;
    }
  }

  function Unended(s: State): set<Conn> {
    set c | c in s.sessions && s.sessions[c].pc != Ended
  }

  /** From any state with the lock free, all sessions can end, and then nothing is left. */
  lemma {:induction false} WindsDown(ipLen: nat, actions: seq<Action>) returns (more: seq<Action>)
    requires Run(ipLen, actions).Some? && Run(ipLen, actions).value.lock == Free
    ensures Run(ipLen, more).Some?
    ensures var s' := Run(ipLen, more).value; s'.table == map[] && s'.closed == s'.sessions.Keys
    decreases |Unended(Run(ipLen, actions).value)|
  {
    var s := Run(ipLen, actions).value;
    if Unended(s) == {} {
      assert forall c | c in s.sessions :: c !in Unended(s);
      NothingLeft(ipLen, actions);
      more := actions;
    } else {
      var c := AnElement(Unended(s));
      more := SessionEnds(ipLen, actions, c);
      var s1 := Run(ipLen, more).value;
      assert Unended(s1) == Unended(s) - {c};
      hide Run, Step;
      more := WindsDown(ipLen, more);
    }
  }
}
