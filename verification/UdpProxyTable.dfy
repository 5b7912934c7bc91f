/** The critical sections of the UDP proxy as operations on its fields, and that the step system performs no others. */
module UdpProxyTable {
  import opened Prelude
  import opened ConnTrack
  import opened UdpProxy
  import opened UdpProxyProofs

  /** The reply loops that have not deleted their entry, with the key of each. */
  type Live = map<Conn, Key>

  /** Table entries and live reply loops correspond one to one. */
  predicate OneToOne(table: map<Key, Conn>, live: Live) {
    && (forall k | k in table :: table[k] in live && live[table[k]] == k)
    && (forall c | c in live :: live[c] in table && table[live[c]] == c)
  }

  /** A session of `key` begins on `conn`: there was none of that key, and the connection is new. */
  ghost predicate Begins(table: map<Key, Conn>, live: Live, table': map<Key, Conn>, live': Live, key: Key, conn: Conn) {
    && key !in live.Values && conn !in live
    && table' == table[key := conn] && live' == live[conn := key]
  }

  /** The session on `conn` ends: the entry that goes is its own, and every other entry stays as it is. */
  ghost predicate Ends(table: map<Key, Conn>, live: Live, table': map<Key, Conn>, live': Live, conn: Conn) {
    && conn in live && live' == live - {conn}
    && (forall k :: k in table' <==> k in table && table[k] != conn)
    && (forall k | k in table' :: table'[k] == table[k])
  }

  class Proxy {
    var table: map<Key, Conn>
    var closed: set<Conn>
    ghost var live: Live

    ghost predicate Valid()
      reads this
    {
      OneToOne(table, live) && live.Keys !! closed
    }

    constructor ()
      ensures Valid() && table == map[] && closed == {} && live == map[]
    {
      table := map[];
      closed := {};
      live := map[];
    }

    /** Run under the lock: `dialed` is what dialing gives, if it comes to that, and is then a new connection. */
    method Session(from: Addr, dialed: Option<Conn>) returns (conn: Option<Conn>, started: bool)
      requires OneToOne(table, live) && ValidAddr(from)
      requires dialed.Some? ==> dialed.value !in live && dialed.value !in closed
      modifies this`table, this`live
      ensures OneToOne(table, live) && (old(Valid()) ==> Valid())
      // the connection is that of the one live session of the sender's key
      ensures conn.Some? ==> conn.value in live && live[conn.value] == NewKey(from)
      ensures conn == None <==> dialed == None && NewKey(from) !in old(live).Values
      ensures started <==> conn.Some? && conn.value !in old(live)
      ensures started ==> Begins(old(table), old(live), table, live, NewKey(from), conn.value)
      ensures !started ==> table == old(table) && live == old(live)
    {
      var key := NewKey(from);
      hide NewKey;
      if key in table {
        return Some(table[key]), false;
      }
      if dialed == None {
        return None, false;
      }
      table := table[key := dialed.value];
      live := live[dialed.value := key];
      return dialed, true;
    }

    /** The deferred function of a live session's reply loop: its entry goes, then its connection is closed. */
    method EndSession(key: Key, conn: Conn)
      requires OneToOne(table, live) && conn in live && live[conn] == key
      modifies this
      ensures OneToOne(table, live) && (old(Valid()) ==> Valid())
      ensures Ends(old(table), old(live), table, live, conn)
      ensures closed == old(closed) + {conn}
    {
      table := table - {key};
      live := live - {conn};
      closed := closed + {conn};
    }

    /** Close under the lock: exactly the live sessions' connections are closed, and the entries stay until they end. */
    method CloseAll()
      requires OneToOne(table, live)
      modifies this`closed
      ensures closed == old(closed) + live.Keys
    {
      var todo := table.Keys;
      while todo != {}
        invariant todo <= table.Keys
        invariant closed == old(closed) + (set k | k in table && k !in todo :: table[k])
        decreases |todo|
      {
        ghost var some := AnElement(todo);
        var key :| key in todo;
        closed := closed + {table[key]};
        todo := todo - {key};
      }
      assert forall c | c in live :: c == table[live[c]];
    }
  }

  // ---------------------------------------------------------------- the step system

  function LiveLoops(s: State): Live {
    map c | c in s.sessions && Active(s.sessions[c].pc) :: s.sessions[c].key
  }

  lemma OwnedIsOneToOne(s: State)
    requires Owned(s)
    ensures OneToOne(s.table, LiveLoops(s))
  {
  }

  /** Whether a step of the proxy leaves table and live loops alone, begins a session as Session does, or ends one as EndSession does. */
  ghost predicate IsTableStep(s: State, s': State, a: Action) {
    match a
    case InRun(Dial(conn)) =>
      && s.run.LookingUp? && s.run.i < |s.arrived| && ValidAddr(s.arrived[s.run.i].from)
      && Begins(s.table, LiveLoops(s), s'.table, LiveLoops(s'), NewKey(s.arrived[s.run.i].from), conn)
    case InReply(conn, Delete) => Ends(s.table, LiveLoops(s), s'.table, LiveLoops(s'), conn)
    case _ => s'.table == s.table && LiveLoops(s') == LiveLoops(s)
  }

  lemma RunIsTableStep(s: State, a: RunAction)
    requires Owned(s) && RunStep(s, a).Some?
    ensures IsTableStep(s, RunStep(s, a).value, InRun(a))
  {
    hide NewKey;
    OwnedIsOneToOne(s);
    var s' := RunStep(s, a).value;
    if a.Dial? {
      assert s'.run.Chosen? && LiveLoops(s') == LiveLoops(s)[a.conn := NewKey(s.arrived[s.run.i].from)];
    } else {
      assert s'.sessions == s.sessions;
    }
  }

  lemma ReplyMoves(s: State, c: Conn, a: ReplyAction)
    requires ReplyStep(s, c, a).Some?
    ensures var s' := ReplyStep(s, c, a).value;
            && c in s.sessions && s'.sessions == s.sessions[c := s'.sessions[c]]
            && s'.sessions[c].key == s.sessions[c].key
            && (Active(s'.sessions[c].pc) <==> Active(s.sessions[c].pc) && a != Delete)
            && (a == Delete ==> Active(s.sessions[c].pc))
            && s'.table == if a == Delete then s.table - {s.sessions[c].key} else s.table
  {
  }

  lemma ReplyIsTableStep(s: State, c: Conn, a: ReplyAction)
    requires Owned(s) && ReplyStep(s, c, a).Some?
    ensures IsTableStep(s, ReplyStep(s, c, a).value, InReply(c, a))
  {
    OwnedIsOneToOne(s);
    ReplyMoves(s, c, a);
    hide ReplyStep, Active, Owned;
    var s' := ReplyStep(s, c, a).value;
    assert LiveLoops(s') == if a == Delete then LiveLoops(s) - {c} else LiveLoops(s);
  }

  lemma AnswerIsTableStep(s: State, c: Conn, data: Data)
    requires AnswerStep(s, c, data).Some?
    ensures IsTableStep(s, AnswerStep(s, c, data).value, Answered(c, data))
  {
    var s' := AnswerStep(s, c, data).value;
    assert forall d :: d in s'.sessions <==> d in s.sessions;
    assert forall d | d in s.sessions :: s'.sessions[d].key == s.sessions[d].key && s'.sessions[d].pc == s.sessions[d].pc;
  }

  /** In every run, table and live loops change only as the two operations of the class change them. */
  lemma {:induction false} StepsAreOperations(ipLen: nat, actions: seq<Action>, a: Action)
    requires Run(ipLen, actions).Some? && Step(Run(ipLen, actions).value, a).Some?
    ensures var s := Run(ipLen, actions).value;
            OneToOne(s.table, LiveLoops(s)) && IsTableStep(s, Step(s, a).value, a)
  {
    ReachableInv(ipLen, actions);
    var s := Run(ipLen, actions).value;
    OwnedIsOneToOne(s);
    hide Run, Owned, RunStep, ReplyStep, AnswerStep, OneToOne, NewKey;
    match a
    case InRun(ra) => RunIsTableStep(s, ra);
    case InReply(c, pa) => ReplyIsTableStep(s, c, pa);
    case InClose(ca) => CloseIs(s, ca);
    case Answered(c, data) => AnswerIsTableStep(s, c, data);
  }
}
