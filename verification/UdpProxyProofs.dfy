/** What every interleaving of the UDP proxy's loops keeps. */
module UdpProxyProofs {
  import opened Prelude
  import opened Framing
  import opened ConnTrack
  import opened UdpProxy

  // ---------------------------------------------------------------- session ownership

  /** A reply loop that has not deleted its entry yet. */
  predicate Active(pc: ReplyPc) {
    pc == ReadConn || pc.WriteClient? || pc == LockTable || pc == DeleteEntry
  }

  predicate HoldsLock(pc: ReplyPc) {
    pc == DeleteEntry || pc == UnlockTable
  }

  /** The table's entries are exactly the reply loops that have not deleted theirs. */
  predicate Owned(s: State) {
    && (forall k | k in s.table :: s.table[k] in s.sessions && s.sessions[s.table[k]].key == k && Active(s.sessions[s.table[k]].pc))
    && (forall c | c in s.sessions && Active(s.sessions[c].pc) :: s.sessions[c].key in s.table && s.table[s.sessions[c].key] == c)
  }

  /** Whoever is inside a critical section holds the lock, and nobody else is. */
  predicate Locked(s: State) {
    && (s.lock == ByRun <==> s.run.LookingUp? || s.run.Chosen?)
    && (s.lock == ByClose <==> s.close.ClosingConns?)
    && (forall c | c in s.sessions :: HoldsLock(s.sessions[c].pc) <==> s.lock == ByReply(c))
    && (s.lock.ByReply? ==> s.lock.conn in s.sessions)
  }

  // ---------------------------------------------------------------- datagrams

  function At(run: RunPc): Option<nat> {
    match run
    case Received(i) => Some(i)
    case LookingUp(i) => Some(i)
    case Chosen(i, _) => Some(i)
    case Forwarding(i, _) => Some(i)
    case _ => None
  }

  /** Run is at the last datagram that arrived, and has chosen a session of its sender's key. */
  predicate AtLast(s: State) {
    && (forall i | 0 <= i < |s.arrived| :: |s.arrived[i].from.ip| == s.ipLen && ValidAddr(s.arrived[i].from))
    && (At(s.run).Some? ==> At(s.run).value + 1 == |s.arrived|)
    && (s.run.Chosen? || s.run.Forwarding? ==>
          s.run.conn in s.sessions && s.sessions[s.run.conn].key == NewKey(s.arrived[s.run.i].from))
  }

  /** Datagrams are forwarded in the order of arrival, none twice, to a session of the sender's key. */
  predicate InOrder(s: State) {
    && (forall j, k | 0 <= j < k < |s.forwarded| :: s.forwarded[j].i < s.forwarded[k].i)
    && (forall j | 0 <= j < |s.forwarded| ::
          s.forwarded[j].i < |s.arrived| - if At(s.run).Some? then 1 else 0)
    && (forall j | 0 <= j < |s.forwarded| :: ForwardedRight(s, s.forwarded[j]))
  }

  predicate ForwardedRight(s: State, f: Forwarded) {
    && f.i < |s.arrived| && ValidAddr(s.arrived[f.i].from) && s.arrived[f.i].data != []
    && f.conn in s.sessions && s.sessions[f.conn].key == NewKey(s.arrived[f.i].from)
  }

  function NonEmpty(ds: seq<Data>): seq<Data> {
    if ds == [] then []
    else
      var front := NonEmpty(ds[..|ds| - 1]);
      if ds[|ds| - 1] == [] then front else front + [ds[|ds| - 1]]
  }

  function Addressed(client: Addr, ds: seq<Data>): seq<(Addr, Data)> {
    if ds == [] then [] else Addressed(client, ds[..|ds| - 1]) + [(client, ds[|ds| - 1])]
  }

  /** What a client is sent when `count` of the answers have been passed on: the non-empty ones, in order, to it alone. */
  function Passed(r: Reply, count: nat): seq<(Addr, Data)>
    requires count <= |r.answers|
  {
    Addressed(r.client, NonEmpty(r.answers[..count]))
  }

  /**
   * A reply loop passes on what comes in on its own connection, in order, to its own client, all that
   * it has read; at the end the last one may be missing.
   */
  predicate RepliesRight(r: Reply) {
    && ValidAddr(r.client) && r.key == NewKey(r.client)
    && r.taken <= |r.answers|
    && (r.pc == ReadConn ==> r.replied == Passed(r, r.taken))
    && (r.pc.WriteClient? ==> r.taken > 0 && r.answers[r.taken - 1] == r.pc.data && r.replied == Passed(r, r.taken - 1))
    && (!r.pc.WriteClient? && r.pc != ReadConn ==>
          r.replied == Passed(r, r.taken) || (r.taken > 0 && r.replied == Passed(r, r.taken - 1)))
  }

  predicate AllRepliesRight(s: State) {
    forall c | c in s.sessions :: RepliesRight(s.sessions[c])
  }

  // ---------------------------------------------------------------- shutdown

  predicate ClosedRight(s: State) {
    && (forall c | c in s.sessions && s.sessions[c].pc == Ended :: c in s.closed)
    && (forall c | c in s.closed :: c in s.sessions)
    && (s.close == NotClosed || s.close == ListenerClosed ==> forall c | c in s.closed :: s.sessions[c].pc == Ended)
    && (s.close == NotClosed || s.close == ListenerClosed ==> s.late == [])
    && (s.close.ClosingConns? ==> s.late == [] && s.close.todo <= s.atClose && s.atClose - s.close.todo <= s.closed)
    && (s.close.ClosingConns? ==> s.table.Values == s.atClose)
    && (s.close == AllClosed ==> s.atClose <= s.closed && |s.late| <= 1)
    && (s.close == AllClosed && |s.late| == 1 ==> !s.run.Received? && !s.run.LookingUp?)
    && (s.close == AllClosed ==> forall c | c in s.table.Values :: c in s.closed || c in s.late)
  }

  /** Every session was dialed for the sender of some datagram. */
  predicate ClientsArrived(s: State) {
    forall c | c in s.sessions :: FromArrival(s.arrived, s.sessions[c].client)
  }

  predicate FromArrival(arrived: seq<Datagram>, client: Addr) {
    exists i :: 0 <= i < |arrived| && arrived[i].from == client
  }

  predicate Inv(s: State) {
    ClientsArrived(s) && Owned(s) && Locked(s) && AtLast(s) && InOrder(s) && AllRepliesRight(s) && ClosedRight(s)
  }

  // ---------------------------------------------------------------- steps of the receive loop

  lemma RunOwned(s: State, a: RunAction)
    requires Owned(s) && RunStep(s, a).Some?
    ensures Owned(RunStep(s, a).value)
  {
  }

  lemma RunLocked(s: State, a: RunAction)
    requires Locked(s) && RunStep(s, a).Some?
    ensures Locked(RunStep(s, a).value)
  {
  }

  lemma RunAtLast(s: State, a: RunAction)
    requires Owned(s) && AtLast(s) && RunStep(s, a).Some?
    ensures AtLast(RunStep(s, a).value)
  {
  }

  lemma RunInOrder(s: State, a: RunAction)
    requires AtLast(s) && InOrder(s) && RunStep(s, a).Some?
    ensures InOrder(RunStep(s, a).value)
  {
    hide NewKey;
    RunIs(s, a);
    hide RunStep;
    var s' := RunStep(s, a).value;
    assert forall f | ForwardedRight(s, f) :: ForwardedRight(s', f);
  }

  /** What the receive loop's steps do to the datagrams and the sessions. */
  lemma RunIs(s: State, a: RunAction)
    requires RunStep(s, a).Some?
    ensures var s' := RunStep(s, a).value;
            && s.arrived <= s'.arrived
            && (forall c | c in s.sessions :: c in s'.sessions && s'.sessions[c] == s.sessions[c])
            && (At(s.run).Some? && At(s'.run) != At(s.run) ==> At(s'.run) == None && s'.arrived == s.arrived)
            && (At(s.run) == None ==> |s'.arrived| == |s.arrived| + if At(s'.run).Some? then 1 else 0)
            && (At(s.run).Some? ==> s'.arrived == s.arrived)
            && (s'.forwarded == s.forwarded
                || (s.run.Forwarding? && At(s'.run) == None && s.run.i < |s.arrived| && s.arrived[s.run.i].data != []
                    && s'.forwarded == s.forwarded + [Forwarded(s.run.i, s.run.conn)]))
  {
  }

  lemma RunReplies(s: State, a: RunAction)
    requires AllRepliesRight(s) && RunStep(s, a).Some?
    ensures AllRepliesRight(RunStep(s, a).value)
  {
  }

  lemma RunClosed(s: State, a: RunAction)
    requires Locked(s) && ClosedRight(s) && RunStep(s, a).Some?
    ensures ClosedRight(RunStep(s, a).value)
  {
  }

  lemma RunClients(s: State, a: RunAction)
    requires ClientsArrived(s) && RunStep(s, a).Some?
    ensures ClientsArrived(RunStep(s, a).value)
  {
    hide NewKey;
    var s' := RunStep(s, a).value;
    forall c | c in s'.sessions
      ensures FromArrival(s'.arrived, s'.sessions[c].client)
    {
      if c in s.sessions {
        assert FromArrival(s.arrived, s.sessions[c].client);
        var i :| 0 <= i < |s.arrived| && s.arrived[i].from == s.sessions[c].client;
        assert s'.arrived[i] == s.arrived[i];
      } else {
        assert s.arrived[s.run.i].from == s'.sessions[c].client;
      }
    }
  }

  lemma RunInv(s: State, a: RunAction)
    requires Inv(s) && RunStep(s, a).Some?
    ensures Inv(RunStep(s, a).value)
  {
    RunClients(s, a);
    hide ClientsArrived, Owned, Locked, AtLast, InOrder, AllRepliesRight, ClosedRight, RunStep;
    RunOwned(s, a);
    RunLocked(s, a);
    RunAtLast(s, a);
    RunInOrder(s, a);
    RunReplies(s, a);
    RunClosed(s, a);
  }

  // ---------------------------------------------------------------- steps of a reply loop

  lemma ReplyOwned(s: State, c: Conn, a: ReplyAction)
    requires Owned(s) && ReplyStep(s, c, a).Some?
    ensures Owned(ReplyStep(s, c, a).value)
  {
  }

  lemma ReplyLocked(s: State, c: Conn, a: ReplyAction)
    requires Locked(s) && ReplyStep(s, c, a).Some?
    ensures Locked(ReplyStep(s, c, a).value)
  {
  }

  /** A reply loop leaves everything else alone. */
  lemma ReplyIs(s: State, c: Conn, a: ReplyAction)
    requires ReplyStep(s, c, a).Some?
    ensures var s' := ReplyStep(s, c, a).value;
            && c in s.sessions && s' == s.(table := s'.table, sessions := s.sessions[c := s'.sessions[c]], closed := s'.closed, lock := s'.lock)
            && s'.sessions[c].key == s.sessions[c].key && s'.sessions[c].client == s.sessions[c].client
            && s'.table.Values <= s.table.Values && (s'.table != s.table ==> s.sessions[c].pc == DeleteEntry)
            && (s'.sessions[c].pc == Ended ==> c in s'.closed)
            && (s'.closed == s.closed || s'.closed == s.closed + {c})
  {
  }

  lemma ReplyOthers(s: State, c: Conn, a: ReplyAction)
    requires ClientsArrived(s) && AtLast(s) && InOrder(s) && ReplyStep(s, c, a).Some?
    ensures AtLast(ReplyStep(s, c, a).value) && InOrder(ReplyStep(s, c, a).value)
    ensures ClientsArrived(ReplyStep(s, c, a).value)
  {
    ReplyIs(s, c, a);
    hide ReplyStep, NewKey;
    var s' := ReplyStep(s, c, a).value;
    assert forall f | ForwardedRight(s, f) :: ForwardedRight(s', f);
  }

  lemma ReadReply(r: Reply)
    requires RepliesRight(r) && r.pc == ReadConn && r.taken < |r.answers|
    ensures RepliesRight(r.(pc := WriteClient(r.answers[r.taken]), taken := r.taken + 1))
  {
    hide NewKey, NonEmpty, Addressed;
  }

  lemma SendReply(r: Reply)
    requires RepliesRight(r) && r.pc.WriteClient?
    ensures r.pc.data == [] ==> RepliesRight(r.(pc := ReadConn))
    ensures r.pc.data != [] ==> RepliesRight(r.(pc := ReadConn, replied := r.replied + [(r.client, r.pc.data)]))
    ensures RepliesRight(r.(pc := LockTable))
  {
    PassedNext(r, r.taken - 1);
    hide NewKey, NonEmpty, Addressed;
  }

  /** One more answer is passed on unless it is empty. */
  lemma PassedNext(r: Reply, n: nat)
    requires n < |r.answers|
    ensures Passed(r, n + 1) == Passed(r, n) + if r.answers[n] == [] then [] else [(r.client, r.answers[n])]
  {
    assert r.answers[..n + 1][..n] == r.answers[..n];
    var front := NonEmpty(r.answers[..n]);
    var more := front + [r.answers[n]];
    assert more[..|more| - 1] == front;
  }

  /** An answer that comes in changes nothing about those before it. */
  lemma AnswerReply(r: Reply, data: Data)
    requires RepliesRight(r)
    ensures RepliesRight(r.(answers := r.answers + [data]))
  {
    hide NewKey, NonEmpty, Addressed;
    assert (r.answers + [data])[..r.taken] == r.answers[..r.taken];
    assert r.taken > 0 ==> (r.answers + [data])[..r.taken - 1] == r.answers[..r.taken - 1];
  }

  lemma MoveReply(r: Reply, pc: ReplyPc)
    requires RepliesRight(r) && !pc.WriteClient? && pc != ReadConn && !r.pc.WriteClient?
    ensures RepliesRight(r.(pc := pc))
  {
  }

  lemma ReplyReplies(s: State, c: Conn, a: ReplyAction)
    requires AllRepliesRight(s) && ReplyStep(s, c, a).Some?
    ensures AllRepliesRight(ReplyStep(s, c, a).value)
  {
    hide RepliesRight;
    var r := s.sessions[c];
    match a
    case Read => ReadReply(r);
    case SendBack => SendReply(r);
    case SendBackFails => SendReply(r);
    case ReadFails => MoveReply(r, LockTable);
    case Lock => MoveReply(r, DeleteEntry);
    case Delete => MoveReply(r, UnlockTable);
    case Unlock => MoveReply(r, CloseConn);
    case CloseBackend => MoveReply(r, Ended);
  }

  lemma ReplyClosed(s: State, c: Conn, a: ReplyAction)
    requires Locked(s) && ClosedRight(s) && ReplyStep(s, c, a).Some?
    ensures ClosedRight(ReplyStep(s, c, a).value)
  {
  }

  lemma ReplyInv(s: State, c: Conn, a: ReplyAction)
    requires Inv(s) && ReplyStep(s, c, a).Some?
    ensures Inv(ReplyStep(s, c, a).value)
  {
    hide ClientsArrived, Owned, Locked, AtLast, InOrder, AllRepliesRight, ClosedRight, ReplyStep;
    ReplyOwned(s, c, a);
    ReplyLocked(s, c, a);
    ReplyOthers(s, c, a);
    ReplyReplies(s, c, a);
    ReplyClosed(s, c, a);
  }

  // ---------------------------------------------------------------- steps of Close

  lemma CloseIs(s: State, a: CloseAction)
    requires CloseStep(s, a).Some?
    ensures var s' := CloseStep(s, a).value;
            s' == s.(closed := s'.closed, lock := s'.lock, close := s'.close, atClose := s'.atClose)
  {
  }

  lemma CloseInv(s: State, a: CloseAction)
    requires Inv(s) && CloseStep(s, a).Some?
    ensures Inv(CloseStep(s, a).value)
  {
    CloseLockedClosed(s, a);
    CloseIs(s, a);
    hide ClientsArrived, Owned, Locked, AtLast, InOrder, AllRepliesRight, ClosedRight, CloseStep;
    CloseOthers(s, CloseStep(s, a).value);
  }

  lemma CloseOthers(s: State, s': State)
    requires Inv(s) && s' == s.(closed := s'.closed, lock := s'.lock, close := s'.close, atClose := s'.atClose)
    ensures ClientsArrived(s') && Owned(s') && AtLast(s') && InOrder(s') && AllRepliesRight(s')
  {
  }

  lemma CloseLockedClosed(s: State, a: CloseAction)
    requires Owned(s) && Locked(s) && ClosedRight(s) && CloseStep(s, a).Some?
    ensures Locked(CloseStep(s, a).value) && ClosedRight(CloseStep(s, a).value)
  {
  }

  // ---------------------------------------------------------------- an answer that comes in

  lemma AnswerIs(s: State, c: Conn, data: Data)
    requires AnswerStep(s, c, data).Some?
    ensures var s' := AnswerStep(s, c, data).value;
            && s' == s.(sessions := s'.sessions) && s'.sessions.Keys == s.sessions.Keys && c in s.sessions
            && (forall d | d in s.sessions ::
                  && s'.sessions[d].key == s.sessions[d].key && s'.sessions[d].pc == s.sessions[d].pc
                  && s'.sessions[d].client == s.sessions[d].client)
            && (forall d | d in s.sessions && d != c :: s'.sessions[d] == s.sessions[d])
            && s'.sessions[c] == s.sessions[c].(answers := s.sessions[c].answers + [data])
  {
  }

  lemma AnswerInv(s: State, c: Conn, data: Data)
    requires Inv(s) && AnswerStep(s, c, data).Some?
    ensures Inv(AnswerStep(s, c, data).value)
  {
    AnswerIs(s, c, data);
    AnswerReply(s.sessions[c], data);
    hide NewKey, RepliesRight, AnswerStep;
    AnswerOthers(s, AnswerStep(s, c, data).value);
    hide ClientsArrived, Owned, Locked, AtLast, InOrder, ClosedRight;
  }

  lemma AnswerOthers(s: State, s': State)
    requires Inv(s) && s' == s.(sessions := s'.sessions) && s'.sessions.Keys == s.sessions.Keys
    requires forall d | d in s.sessions ::
               && s'.sessions[d].key == s.sessions[d].key && s'.sessions[d].pc == s.sessions[d].pc
               && s'.sessions[d].client == s.sessions[d].client
    ensures ClientsArrived(s') && Owned(s') && Locked(s') && AtLast(s') && InOrder(s') && ClosedRight(s')
  {
    hide NewKey, AllRepliesRight;
    assert forall d :: d in s'.sessions <==> d in s.sessions;
    assert forall f | ForwardedRight(s, f) :: ForwardedRight(s', f);
  }

  lemma StepInv(s: State, a: Action)
    requires Inv(s) && Step(s, a).Some?
    ensures Inv(Step(s, a).value)
  {
    hide Inv, RunStep, ReplyStep, CloseStep, AnswerStep;
    match a
    case InRun(ra) => RunInv(s, ra);
    case InReply(c, pa) => ReplyInv(s, c, pa);
    case InClose(ca) => CloseInv(s, ca);
    case Answered(c, data) => AnswerInv(s, c, data);
  }

  lemma LenKept(s: State, a: Action)
    requires Step(s, a).Some?
    ensures Step(s, a).value.ipLen == s.ipLen
  {
    hide NewKey;
  }

  lemma {:induction false} ReachableInv(ipLen: nat, actions: seq<Action>)
    requires Run(ipLen, actions).Some?
    ensures Inv(Run(ipLen, actions).value) && Run(ipLen, actions).value.ipLen == ipLen
  {
    if actions != [] {
      var front := actions[..|actions| - 1];
      ReachableInv(ipLen, front);
      StepInv(Run(ipLen, front).value, actions[|actions| - 1]);
      LenKept(Run(ipLen, front).value, actions[|actions| - 1]);
      hide Inv, Step;
    }
  }

  // ---------------------------------------------------------------- main results

  /**
   * In every reachable state the table's entries and the reply loops that have not deleted theirs
   * correspond one to one, so a delete removes the loop's own entry and never another session.
   */
  lemma {:induction false} SessionOwnership(ipLen: nat, actions: seq<Action>)
    requires Run(ipLen, actions).Some?
    ensures var s := Run(ipLen, actions).value;
            && (forall k | k in s.table ::
                  s.table[k] in s.sessions && s.sessions[s.table[k]].key == k && Active(s.sessions[s.table[k]].pc))
            && (forall c | c in s.sessions && Active(s.sessions[c].pc) ::
                  s.sessions[c].key in s.table && s.table[s.sessions[c].key] == c)
            && (forall c, d | c in s.sessions && d in s.sessions && c != d
                              && Active(s.sessions[c].pc) && Active(s.sessions[d].pc) ::
                  s.sessions[c].key != s.sessions[d].key)
  {
    ReachableInv(ipLen, actions);
  }

  lemma DeleteIsOwn(ipLen: nat, actions: seq<Action>, c: Conn)
    requires Run(ipLen, actions).Some? && ReplyStep(Run(ipLen, actions).value, c, Delete).Some?
    ensures var s := Run(ipLen, actions).value;
            var s' := ReplyStep(s, c, Delete).value;
            && s.sessions[c].key in s.table && s.table[s.sessions[c].key] == c
            && (forall k | k in s.table && s.table[k] != c :: k in s'.table && s'.table[k] == s.table[k])
            && s'.table.Keys == s.table.Keys - {s.sessions[c].key}
  {
    ReachableInv(ipLen, actions);
    DeletesOwn(Run(ipLen, actions).value, c);
    hide Run, ClientsArrived, Owned, Locked, AtLast, InOrder, AllRepliesRight, ClosedRight, ReplyStep;
  }

  lemma DeletesOwn(s: State, c: Conn)
    requires Owned(s) && ReplyStep(s, c, Delete).Some?
    ensures var table := ReplyStep(s, c, Delete).value.table;
            && s.sessions[c].key in s.table && s.table[s.sessions[c].key] == c
            && (forall k | k in s.table && s.table[k] != c :: k in table && table[k] == s.table[k])
            && table.Keys == s.table.Keys - {s.sessions[c].key}
  {
  }

  /**
   * Over whole runs: datagrams are forwarded in arrival order, each to a session whose client has
   * the sender's key, and what a session has sent back is to its own client, and in order the first
   * of the non-empty datagrams that came in on its connection.
   */
  lemma {:induction false} RepliesStayWithClient(ipLen: nat, actions: seq<Action>)
    requires Run(ipLen, actions).Some?
    ensures var s := Run(ipLen, actions).value;
            && (forall j, k | 0 <= j < k < |s.forwarded| :: s.forwarded[j].i < s.forwarded[k].i)
            && (forall j | 0 <= j < |s.forwarded| ::
                  var f := s.forwarded[j];
                  && f.i < |s.arrived| && s.arrived[f.i].data != [] && f.conn in s.sessions
                  && ValidAddr(s.arrived[f.i].from) && ValidAddr(s.sessions[f.conn].client)
                  && NewKey(s.arrived[f.i].from) == NewKey(s.sessions[f.conn].client))
            && (forall c | c in s.sessions ::
                  exists n: nat | n <= |s.sessions[c].answers| ::
                    s.sessions[c].replied == Addressed(s.sessions[c].client, NonEmpty(s.sessions[c].answers[..n])))
  {
    ReachableInv(ipLen, actions);
    var s := Run(ipLen, actions).value;
    hide NewKey, NonEmpty, Addressed, Step;
    forall j | 0 <= j < |s.forwarded|
      ensures ForwardedRight(s, s.forwarded[j]) && RepliesRight(s.sessions[s.forwarded[j].conn])
    {
    }
    forall c | c in s.sessions
      ensures exists n: nat | n <= |s.sessions[c].answers| ::
                s.sessions[c].replied == Addressed(s.sessions[c].client, NonEmpty(s.sessions[c].answers[..n]))
    {
      var r := s.sessions[c];
      assert RepliesRight(r);
      var n := if r.replied == Passed(r, r.taken) then r.taken else r.taken - 1;
      assert r.replied == Addressed(r.client, NonEmpty(r.answers[..n]));
    }
  }

  /**
   * When no two senders differ in their zones only, a datagram reaches only a connection dialed for
   * its own sender.
   */
  lemma NoCrossing(ipLen: nat, actions: seq<Action>, f: Forwarded)
    requires Run(ipLen, actions).Some? && f in Run(ipLen, actions).value.forwarded
    requires var s := Run(ipLen, actions).value;
             forall i, j | 0 <= i < |s.arrived| && 0 <= j < |s.arrived| && s.arrived[i].from.ip == s.arrived[j].from.ip ::
               s.arrived[i].from.zone == s.arrived[j].from.zone
    ensures var s := Run(ipLen, actions).value;
            f.i < |s.arrived| && f.conn in s.sessions && s.sessions[f.conn].client == s.arrived[f.i].from
  {
    ReachableInv(ipLen, actions);
    var s := Run(ipLen, actions).value;
    assert ForwardedRight(s, f) && RepliesRight(s.sessions[f.conn]);
    assert FromArrival(s.arrived, s.sessions[f.conn].client);
    var k :| 0 <= k < |s.arrived| && s.arrived[k].from == s.sessions[f.conn].client;
    KeyIdentifiesClient(s.arrived[f.i].from, s.arrived[k].from);
  }

  lemma Extend(ipLen: nat, actions: seq<Action>, a: Action)
    requires Run(ipLen, actions).Some?
    ensures Run(ipLen, actions + [a]) == Step(Run(ipLen, actions).value, a)
  {
  }

  /** A datagram of each of two clients: the second one's goes to the first one's session if they differ in their zones only. */
  lemma SharedKeyCrosses(ipLen: nat, a: Addr, b: Addr, data: Data) returns (actions: seq<Action>)
    requires ValidAddr(a) && |a.ip| == |b.ip| == ipLen && NewKey(a) == NewKey(b) && data != []
    ensures Run(ipLen, actions).Some?
    ensures var s := Run(ipLen, actions).value;
            && s.arrived == [Datagram(a, data), Datagram(b, data)]
            && s.forwarded == [Forwarded(0, 0), Forwarded(1, 0)]
            && 0 in s.sessions && s.sessions[0].client == a
  {
    hide NewKey;
    actions := FirstForwarded(ipLen, a, data);
    actions := TakeStep(ipLen, actions, InRun(Receive(Datagram(b, data))));
    actions := TakeStep(ipLen, actions, InRun(Acquire));
    actions := TakeStep(ipLen, actions, InRun(Hit));
    actions := TakeStep(ipLen, actions, InRun(Release));
    actions := TakeStep(ipLen, actions, InRun(Write));
  }

  lemma FirstForwarded(ipLen: nat, a: Addr, data: Data) returns (actions: seq<Action>)
    requires ValidAddr(a) && |a.ip| == ipLen && data != []
    ensures Run(ipLen, actions).Some?
    ensures var s := Run(ipLen, actions).value;
            && s.ipLen == ipLen && s.arrived == [Datagram(a, data)] && s.forwarded == [Forwarded(0, 0)]
            && NewKey(a) in s.table && s.table[NewKey(a)] == 0 && 0 in s.sessions && s.sessions[0].client == a
            && s.run == Receiving && s.lock == Free && s.close == NotClosed && s.closed == {}
  {
    hide NewKey;
    actions := [];
    actions := TakeStep(ipLen, actions, InRun(Receive(Datagram(a, data))));
    actions := TakeStep(ipLen, actions, InRun(Acquire));
    actions := TakeStep(ipLen, actions, InRun(Dial(0)));
    actions := TakeStep(ipLen, actions, InRun(Release));
    actions := TakeStep(ipLen, actions, InRun(Write));
  }

  lemma TakeStep(ipLen: nat, actions: seq<Action>, a: Action) returns (more: seq<Action>)
    requires Run(ipLen, actions).Some? && Step(Run(ipLen, actions).value, a).Some?
    ensures Run(ipLen, more) == Step(Run(ipLen, actions).value, a)
  {
    Extend(ipLen, actions, a);
    more := actions + [a];
  }

  /** Some run on a socket forwards a datagram of `b` to the connection dialed for `a`. */
  ghost predicate Crosses(ipLen: nat, a: Addr, b: Addr) {
    exists actions: seq<Action>, f: Forwarded ::
      && Run(ipLen, actions).Some? && f in Run(ipLen, actions).value.forwarded
      && f.i < |Run(ipLen, actions).value.arrived| && Run(ipLen, actions).value.arrived[f.i].from == b
      && f.conn in Run(ipLen, actions).value.sessions && Run(ipLen, actions).value.sessions[f.conn].client == a
  }

  /**
   * On one socket two clients can be taken for each other exactly when their ports and IPs agree:
   * only clients that differ in their zones are.
   */
  lemma CrossingIff(ipLen: nat, a: Addr, b: Addr)
    requires ValidAddr(a) && |a.ip| == |b.ip| == ipLen
    ensures Crosses(ipLen, a, b) <==> a.port == b.port && a.ip == b.ip
  {
    KeysOfOneLength(a, b);
    if NewKey(a) == NewKey(b) {
      var actions := SharedKeyCrosses(ipLen, a, b, [0]);
      assert Forwarded(1, 0) in Run(ipLen, actions).value.forwarded;
    }
    if Crosses(ipLen, a, b) {
      var actions, f :|
        && Run(ipLen, actions).Some? && f in Run(ipLen, actions).value.forwarded
        && f.i < |Run(ipLen, actions).value.arrived| && Run(ipLen, actions).value.arrived[f.i].from == b
        && f.conn in Run(ipLen, actions).value.sessions && Run(ipLen, actions).value.sessions[f.conn].client == a;
      RepliesStayWithClient(ipLen, actions);
    }
  }

  /**
   * Close closes every connection that was in the table when it took the lock, and at most one
   * session is inserted afterwards; the table then holds no other open connection.
   */
  lemma BoundedLeftovers(ipLen: nat, actions: seq<Action>)
    requires Run(ipLen, actions).Some? && Run(ipLen, actions).value.close == AllClosed
    ensures var s := Run(ipLen, actions).value;
            && s.atClose <= s.closed && |s.late| <= 1
            && (forall k | k in s.table && s.table[k] !in s.closed :: s.late == [s.table[k]])
  {
    ReachableInv(ipLen, actions);
    ClosedLeftovers(Run(ipLen, actions).value);
    hide Run, ClientsArrived, Owned, Locked, AtLast, InOrder, AllRepliesRight, ClosedRight;
  }

  lemma ClosedLeftovers(s: State)
    requires ClosedRight(s) && s.close == AllClosed
    ensures s.atClose <= s.closed && |s.late| <= 1
    ensures forall k | k in s.table && s.table[k] !in s.closed :: s.late == [s.table[k]]
  {
  }

  /** When every reply loop has ended, nothing is left: no entry and no open connection. */
  lemma NothingLeft(ipLen: nat, actions: seq<Action>)
    requires Run(ipLen, actions).Some?
    requires forall c | c in Run(ipLen, actions).value.sessions :: Run(ipLen, actions).value.sessions[c].pc == Ended
    ensures Run(ipLen, actions).value.table == map[]
    ensures Run(ipLen, actions).value.closed == Run(ipLen, actions).value.sessions.Keys
  {
    ReachableInv(ipLen, actions);
    var s := Run(ipLen, actions).value;
    assert forall k :: k !in s.table;
  }

  // ---------------------------------------------------------------- the lock

  predicate ByHolder(lock: Lock, a: Action) {
    match lock
    case ByRun => a.InRun?
    case ByReply(c) => a.InReply? && a.conn == c
    case ByClose => a.InClose?
    case Free => false
  }

  lemma AnswerHolds(s: State, c: Conn, data: Data)
    requires AnswerStep(s, c, data).Some?
    ensures ReleasesOrNears(s, AnswerStep(s, c, data).value, false)
  {
  }

  /** How many steps the lock's holder takes before it has released the lock. */
  function HoldLeft(s: State): nat {
    match s.lock
    case ByRun => if s.run.LookingUp? then 2 else 1
    case ByReply(c) => if c in s.sessions && s.sessions[c].pc == DeleteEntry then 2 else 1
    case ByClose => if s.close.ClosingConns? then |s.close.todo| + 1 else 0
    case Free => 0
  }

  predicate ReleasesOrNears(s: State, s': State, holder: bool) {
    if holder then s'.lock == Free || (s'.lock == s.lock && HoldLeft(s') < HoldLeft(s))
    else s'.lock == s.lock && HoldLeft(s') == HoldLeft(s)
  }

  lemma RunHolds(s: State, a: RunAction)
    requires Locked(s) && s.lock != Free && RunStep(s, a).Some?
    ensures ReleasesOrNears(s, RunStep(s, a).value, s.lock == ByRun)
  {
    hide NewKey;
  }

  lemma ReplyHolds(s: State, c: Conn, a: ReplyAction)
    requires Locked(s) && s.lock != Free && ReplyStep(s, c, a).Some?
    ensures ReleasesOrNears(s, ReplyStep(s, c, a).value, s.lock == ByReply(c))
  {
  }

  lemma CloseHolds(s: State, a: CloseAction)
    requires Locked(s) && s.lock != Free && CloseStep(s, a).Some?
    ensures ReleasesOrNears(s, CloseStep(s, a).value, s.lock == ByClose)
  {
    if a.CloseOne? {
      assert s.close.todo == (s.close.todo - {a.conn}) + {a.conn};
      assert |s.close.todo| == |s.close.todo - {a.conn}| + 1;
    }
  }

  /** Every step of the holder releases the lock or brings the release nearer, and no other step touches either. */
  lemma HolderReleases(ipLen: nat, actions: seq<Action>, a: Action)
    requires Run(ipLen, actions).Some? && Step(Run(ipLen, actions).value, a).Some?
    requires Run(ipLen, actions).value.lock != Free
    ensures var s := Run(ipLen, actions).value; ReleasesOrNears(s, Step(s, a).value, ByHolder(s.lock, a))
  {
    ReachableInv(ipLen, actions);
    var s := Run(ipLen, actions).value;
    hide Run, ClientsArrived, Owned, Locked, AtLast, InOrder, AllRepliesRight, ClosedRight, ReleasesOrNears, RunStep, ReplyStep, CloseStep, AnswerStep;
    match a
    case InRun(ra) => RunHolds(s, ra);
    case InReply(c, pa) => ReplyHolds(s, c, pa);
    case InClose(ca) => CloseHolds(s, ca);
    case Answered(c, data) => AnswerHolds(s, c, data);
  }

  /** And the holder always has a step; under the lock dialing may always fail, where there is no session yet. */
  lemma HolderGoesOn(ipLen: nat, actions: seq<Action>) returns (a: Action)
    requires Run(ipLen, actions).Some? && Run(ipLen, actions).value.lock != Free
    ensures Step(Run(ipLen, actions).value, a).Some?
    ensures ByHolder(Run(ipLen, actions).value.lock, a)
  {
    ReachableInv(ipLen, actions);
    var s := Run(ipLen, actions).value;
    hide Owned, AtLast, InOrder, AllRepliesRight, ClosedRight, ClientsArrived, RunStep, ReplyStep, CloseStep;
    match s.lock
    case ByRun =>
      var ra := RunGoesOn(s);
      a := InRun(ra);
    case ByReply(c) => a := InReply(c, if s.sessions[c].pc == DeleteEntry then Delete else Unlock); ReplyGoesOn(s, c);
    case ByClose =>
      var ca := CloseGoesOn(s);
      a := InClose(ca);
  }

  lemma RunGoesOn(s: State) returns (a: RunAction)
    requires AtLast(s) && (s.run.LookingUp? || s.run.Chosen?)
    ensures RunStep(s, a).Some?
  {
    hide NewKey;
    a := if s.run.Chosen? then Release else if NewKey(s.arrived[s.run.i].from) in s.table then Hit else DialFails;
  }

  lemma ReplyGoesOn(s: State, c: Conn)
    requires c in s.sessions && HoldsLock(s.sessions[c].pc)
    ensures ReplyStep(s, c, if s.sessions[c].pc == DeleteEntry then Delete else Unlock).Some?
  {
  }

  lemma CloseGoesOn(s: State) returns (a: CloseAction)
    requires s.close.ClosingConns?
    ensures CloseStep(s, a).Some?
  {
    if s.close.todo == {} {
      a := ReleaseLock;
    } else {
      var c := AnElement(s.close.todo);
      a := CloseOne(c);
    }
  }
}
