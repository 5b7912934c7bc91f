/** What one process does with a pipe: write a message in pieces, or wait for one of a given name. */
module Endpoint {
  import opened Prelude
  import opened Framing
  import opened Messages
  import opened Channel

  datatype Failure =
    | StreamFailure(error: StreamError)
    | BadPayload
    | WrongName(got: Message)
    | CannotSend
    | EndOfPipe
    | DriverFailure
    | TooManyReexecs
    | Aborted

  /** A process: the operation it is at, and why it gave up, if it did. */
  datatype Proc = Proc(pc: nat, fail: Option<Failure>)

  function Advance(p: Proc): Proc {
    p.(pc := p.pc + 1)
  }

  function Fail(p: Proc, f: Failure): Proc {
    p.(fail := Some(f))
  }

  /** messages.Send up to its Write call. */
  function BeginSend(codec: Codec, p: Proc, c: Chan, m: Message): (Proc, Chan)
    requires c.pend == []
  {
    if codec.CanSend(m) && |codec.Payload(m)| >= 1 then (p, Begin(c, codec.Payload(m))) else (Fail(p, CannotSend), c)
  }

  /** Part of the Write call; the process goes on when all of it is in the pipe. */
  function FlushSend(p: Proc, c: Chan, k: nat): (Proc, Chan)
    requires k <= |c.pend|
  {
    var c' := Flush(c, k);
    (if c'.pend == [] then Advance(p) else p, c')
  }

  /** The failure WaitFor returns for a payload, if it is not a message of the expected name. */
  function Refused(codec: Codec, payload: seq<byte>, name: Name): Option<Failure> {
    match codec.Received(payload)
    case None => Some(BadPayload)
    case Some(m) => if m.name != name then Some(WrongName(m)) else None
  }

  /** One Read call of messages.WaitFor. */
  function ReadAwaited(codec: Codec, p: Proc, c: Chan, name: Name, n: nat): (Proc, Chan)
    requires CanRead(c, n)
  {
    match Read(c, n)
    case Failed(e) => (Fail(p, StreamFailure(e)), c)
    case Advanced(c') => (p, c')
    case Delivered(c', payload) =>
      match Refused(codec, payload, name)
      case Some(f) => (Fail(p, f), c')
      case None => (Advance(p), c')
  }

  // ---------------------------------------------------------------- a pipe that carries given messages

  /** The messages begun so far are the first ones of `msgs`, in order. */
  ghost predicate Carries(codec: Codec, c: Chan, msgs: seq<Message>) {
    && Inv(c)
    && |c.sent| <= |msgs|
    && forall k | 0 <= k < |c.sent| :: c.sent[k] == codec.Payload(msgs[k])
  }

  ghost predicate AllUsable(codec: Codec, msgs: seq<Message>) {
    codec.Faithful() && forall k | 0 <= k < |msgs| :: codec.CanSend(msgs[k])
  }

  function Busy(c: Chan): nat {
    if c.pend == [] then 0 else 1
  }

  /** A message that cannot be named or is too long fails its sender, and nothing of it is written. */
  lemma SendRefused(codec: Codec, p: Proc, c: Chan, m: Message)
    requires c.pend == [] && p.fail == None
    ensures var (p', c') := BeginSend(codec, p, c, m);
            if Named(m).name != NoName && 1 <= |codec.marshal(Named(m))| <= 65536 then
              p' == p && c'.pend == Frame(codec.marshal(Named(m))) && c'.buf == c.buf
            else p' == Proc(p.pc, Some(CannotSend)) && c' == c
  {
  }

  /** What a payload that was taken makes of the one who waits for a message of a given name. */
  lemma TakenIs(codec: Codec, p: Proc, c: Chan, name: Name, n: nat)
    requires CanRead(c, n) && Read(c, n).Delivered? && p.fail == None
    ensures var (p', c') := ReadAwaited(codec, p, c, name, n);
            c' == Read(c, n).chan
            && match codec.unmarshal(Read(c, n).payload)
               case None => p' == Proc(p.pc, Some(BadPayload))
               case Some(m) =>
                 if m.name == NoName then p' == Proc(p.pc, Some(BadPayload))
                 else if m.name != name then p' == Proc(p.pc, Some(WrongName(m)))
                 else p' == Proc(p.pc + 1, None)
  {
  }

  lemma SendBegins(codec: Codec, p: Proc, c: Chan, msgs: seq<Message>)
    requires AllUsable(codec, msgs) && Carries(codec, c, msgs) && c.pend == [] && |c.sent| < |msgs|
    ensures var (p', c') := BeginSend(codec, p, c, msgs[|c.sent|]);
            && p' == p && Carries(codec, c', msgs)
            && |c'.sent| == |c.sent| + 1 && Busy(c') == 1 && c'.rcvd == c.rcvd && c'.want == c.want && Atomic(c')
  {
    var m := msgs[|c.sent|];
    assert codec.CanSend(m);
    assert |codec.marshal(Named(m))| >= 1;
    BeginInv(c, codec.Payload(m));
  }

  lemma SendFlushes(codec: Codec, p: Proc, c: Chan, msgs: seq<Message>, k: nat)
    requires Carries(codec, c, msgs) && 1 <= k <= |c.pend|
    ensures var (p', c') := FlushSend(p, c, k);
            && Carries(codec, c', msgs) && c'.sent == c.sent && c'.rcvd == c.rcvd && c'.want == c.want
            && p' == if Busy(c') == 0 then Advance(p) else p
  {
  }

  /** A read gives a short-read failure, or half of the next message, or all of it under its own name. */
  lemma AwaitedReads(codec: Codec, p: Proc, c: Chan, msgs: seq<Message>, name: Name, n: nat)
    requires AllUsable(codec, msgs) && Carries(codec, c, msgs) && CanRead(c, n)
    requires |c.rcvd| < |msgs| && Named(msgs[|c.rcvd|]).name == name
    ensures var (p', c') := ReadAwaited(codec, p, c, name, n);
            && Carries(codec, c', msgs) && c'.sent == c.sent && c'.pend == c.pend
            && match Read(c, n)
               case Failed(_) => p' == Fail(p, StreamFailure(ShortRead)) && c' == c && n < (if c.want.Some? then c.want.value else 4)
               case Advanced(_) => p' == p && c.want == None && c'.want.Some? && c'.rcvd == c.rcvd && |c.rcvd| < |c.sent|
               case Delivered(_, _) => p' == Advance(p) && c'.want == None && |c'.rcvd| == |c.rcvd| + 1 <= |c.sent|
  {
    ReadInv(c, n);
    if Read(c, n).Delivered? {
      var m := msgs[|c.rcvd|];
      assert codec.CanSend(m);
      assert codec.unmarshal(codec.marshal(Named(m))) == Some(Named(m));
      assert Refused(codec, codec.Payload(m), name) == None;
    }
  }
}
