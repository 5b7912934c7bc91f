/** One pipe with its framing writer and reader, at the granularity of single reads and partial writes. */
module Channel {
  import opened Prelude
  import opened Framing

  /**
   * `sent`: payloads whose write has begun; `rcvd`: payloads the reader has completed; `pend`: bytes
   * of the current write that are not in the pipe yet; `buf`: bytes in the pipe; `want`: the length
   * in the header the reader has taken, if it still has to read the body.
   */
  datatype Chan = Chan(sent: seq<seq<byte>>, rcvd: seq<seq<byte>>, pend: seq<byte>, buf: seq<byte>, want: Option<nat>)

  const IDLE: Chan := Chan([], [], [], [], None)

  datatype Outcome = Advanced(chan: Chan) | Delivered(chan: Chan, payload: seq<byte>) | Failed(error: StreamError)

  function Begin(c: Chan, payload: seq<byte>): Chan
    requires Sendable(payload) && c.pend == []
  {
    c.(sent := c.sent + [payload], pend := Frame(payload))
  }

  /** The next `k` bytes of the current write become visible. */
  function Flush(c: Chan, k: nat): Chan
    requires k <= |c.pend|
  {
    c.(buf := c.buf + c.pend[..k], pend := c.pend[k..])
  }

  predicate CanRead(c: Chan, n: nat) {
    1 <= n <= |c.buf| && n <= if c.want.Some? then c.want.value else 4
  }

  /** A read that returns `n` bytes: of a header, or of a body once the header is there. */
  function Read(c: Chan, n: nat): Outcome
    requires CanRead(c, n)
  {
    match c.want
    case None =>
      if n != 4 then Failed(ShortRead)
      else
        var len := Uint32(c.buf[..4]);
        if len > MAX_LENGTH || len < 1 then Failed(BadLength)
        else Advanced(c.(buf := c.buf[4..], want := Some(len)))
    case Some(len) =>
      if n != len then Failed(ShortRead)
      else Delivered(c.(buf := c.buf[n..], want := None, rcvd := c.rcvd + [c.buf[..n]]), c.buf[..n])
  }

  function Taken(want: Option<nat>): seq<byte> {
    match want
    case None => []
    case Some(n) => if n < 0x1_0000_0000 then PutUint32(n) else []
  }

  /** What the reader has not completed is, with the header it took, exactly the frames still to come. */
  ghost predicate Inv(c: Chan) {
    && AllSendable(c.sent)
    && c.rcvd <= c.sent
    && (c.want.Some? ==> |c.rcvd| < |c.sent| && c.want.value == |c.sent[|c.rcvd|]|)
    && Taken(c.want) + c.buf + c.pend == Frames(c.sent[|c.rcvd|..])
  }

  /** Nothing is half written: the current write is wholly invisible or wholly visible. */
  ghost predicate Atomic(c: Chan) {
    c.pend != [] ==> c.sent != [] && Sendable(c.sent[|c.sent| - 1]) && c.pend == Frame(c.sent[|c.sent| - 1])
  }

  /** A read of everything asked for that is there. */
  predicate WholeRead(c: Chan, n: nat) {
    var most := if c.want.Some? then c.want.value else 4;
    n == if most <= |c.buf| then most else |c.buf|
  }

  lemma {:induction false} FramesAppend(a: seq<seq<byte>>, b: seq<seq<byte>>)
    requires AllSendable(a) && AllSendable(b)
    ensures AllSendable(a + b) && Frames(a + b) == Frames(a) + Frames(b)
  {
    assert AllSendable(a + b);
    if a == [] {
      assert a + b == b;
    } else {
      FramesAppend(a[1..], b);
      assert (a + b)[1..] == a[1..] + b;
    }
  }

  lemma BeginInv(c: Chan, payload: seq<byte>)
    requires Inv(c) && c.pend == [] && Sendable(payload)
    ensures Inv(Begin(c, payload)) && Atomic(Begin(c, payload))
  {
    var rest := c.sent[|c.rcvd|..];
    FramesAppend(rest, [payload]);
    assert Frames([payload]) == Frame(payload) + [];
    assert (c.sent + [payload])[|c.rcvd|..] == rest + [payload];
    assert Taken(c.want) + c.buf + Frame(payload) == Taken(c.want) + c.buf + c.pend + Frame(payload);
  }

  lemma FlushInv(c: Chan, k: nat)
    requires Inv(c) && k <= |c.pend|
    ensures Inv(Flush(c, k))
  {
  }

  /** However a read comes out, it is a short-read error or the next part of the next frame that was sent. */
  lemma ReadInv(c: Chan, n: nat)
    requires Inv(c) && CanRead(c, n)
    ensures match Read(c, n)
            case Failed(e) => e == ShortRead && n < if c.want.Some? then c.want.value else 4
            case Advanced(c') => Inv(c') && c' == c.(buf := c.buf[4..], want := c'.want) && c'.want.Some?
            case Delivered(c', p) =>
              && Inv(c') && |c.rcvd| < |c.sent|
              && p == c.sent[|c.rcvd|] && c' == c.(buf := c.buf[n..], want := None, rcvd := c.sent[..|c.rcvd| + 1])
  {
    if c.want == None {
      if n == 4 {
        HeaderInv(c);
      }
    } else if n == c.want.value {
      BodyInv(c);
    }
  }

  lemma HeaderInv(c: Chan)
    requires Inv(c) && c.want == None && |c.buf| >= 4
    ensures |c.rcvd| < |c.sent| && Sendable(c.sent[|c.rcvd|]) && Uint32(c.buf[..4]) == |c.sent[|c.rcvd|]|
    ensures Inv(c.(buf := c.buf[4..], want := Some(Uint32(c.buf[..4]))))
  {
    var rest := c.sent[|c.rcvd|..];
    assert |c.buf + c.pend| == |Frames(rest)|;
    assert rest != [];
    assert rest[0] == c.sent[|c.rcvd|];
    assert Sendable(rest[0]);
    Uint32RoundTrip(|rest[0]|);
    assert Frames(rest)[..4] == PutUint32(|rest[0]|);
    assert ([] + c.buf + c.pend)[..4] == c.buf[..4];
    assert PutUint32(|rest[0]|) + c.buf[4..] + c.pend == [] + c.buf + c.pend;
  }

  lemma BodyInv(c: Chan)
    requires Inv(c) && c.want.Some? && |c.buf| >= c.want.value
    ensures c.buf[..c.want.value] == c.sent[|c.rcvd|]
    ensures c.rcvd + [c.sent[|c.rcvd|]] == c.sent[..|c.rcvd| + 1]
    ensures Inv(c.(buf := c.buf[c.want.value..], want := None, rcvd := c.sent[..|c.rcvd| + 1]))
  {
    var rest, n := c.sent[|c.rcvd|..], c.want.value;
    assert rest[0] == c.sent[|c.rcvd|] && Sendable(rest[0]);
    var all := Taken(c.want) + c.buf + c.pend;
    assert all == PutUint32(n) + rest[0] + Frames(rest[1..]);
    assert all[4..4 + n] == c.buf[..n] && all[4..4 + n] == rest[0];
    assert all[4 + n..] == c.buf[n..] + c.pend && all[4 + n..] == Frames(rest[1..]);
    assert c.sent[|c.rcvd| + 1..] == rest[1..];
    assert [] + c.buf[n..] + c.pend == c.buf[n..] + c.pend;
  }

  /** With atomic writes a reader that is behind what is visible finds all of the bytes it asks for. */
  lemma WholeReadSucceeds(c: Chan)
    requires Inv(c) && Atomic(c)
    requires |c.rcvd| < if c.pend == [] then |c.sent| else |c.sent| - 1
    ensures |c.buf| >= if c.want.Some? then c.want.value else 4
  {
    var rest := c.sent[|c.rcvd|..];
    assert Sendable(rest[0]) && Frame(rest[0]) == PutUint32(|rest[0]|) + rest[0];
    var all := Taken(c.want) + c.buf + c.pend;
    if c.pend != [] {
      var last := c.sent[|c.sent| - 1];
      var front := rest[..|rest| - 1];
      assert AllSendable(front) && AllSendable([last]);
      assert rest == front + [last];
      FramesAppend(front, [last]);
      assert Frames([last]) == Frame(last) + [];
      assert |Taken(c.want) + c.buf| == |Frames(front)|;
      assert front[0] == rest[0];
    }
  }

  /** A reader that has completed everything visible finds nothing in the pipe. */
  lemma NothingVisible(c: Chan)
    requires Inv(c) && Atomic(c)
    requires |c.rcvd| == if c.pend == [] then |c.sent| else |c.sent| - 1
    ensures c.buf == [] && c.want == None
  {
    if c.pend != [] {
      assert c.sent[|c.rcvd|..] == [c.sent[|c.sent| - 1]];
      assert Frames([c.sent[|c.sent| - 1]]) == c.pend + [];
    }
  }
}
