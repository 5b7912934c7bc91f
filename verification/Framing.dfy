/** Length-prefixed frames over byte streams whose reads may come short. */
module Framing {
  import opened Prelude

  type byte = b: int | 0 <= b < 0x100

  const MAX_LENGTH: int := 0x1_0000

  /** binary.LittleEndian.PutUint32. */
  function PutUint32(n: nat): (h: seq<byte>)
    requires n < 0x1_0000_0000
    ensures |h| == 4
  {
    var n1 := n / 0x100;
    var n2 := n1 / 0x100;
    [n % 0x100, n1 % 0x100, n2 % 0x100, n2 / 0x100]
  }

  function Uint32(h: seq<byte>): nat
    requires |h| == 4
  {
    var (b0: int, b1: int, b2: int, b3: int) := (h[0], h[1], h[2], h[3]);
    b0 + 0x100 * (b1 + 0x100 * (b2 + 0x100 * b3))
  }

  lemma Uint32RoundTrip(n: nat)
    requires n < 0x1_0000_0000
    ensures Uint32(PutUint32(n)) == n
  {
  }

  /** What MarshalToWriter writes in its one Write call. */
  function Frame(payload: seq<byte>): seq<byte>
    requires |payload| <= MAX_LENGTH
  {
    PutUint32(|payload|) + payload
  }

  predicate Sendable(payload: seq<byte>) {
    1 <= |payload| <= MAX_LENGTH
  }

  /** The first frame of a stream and the rest of it, if the stream holds a whole frame of legal length. */
  function Decode(s: seq<byte>): Option<(seq<byte>, seq<byte>)> {
    if |s| < 4 then None
    else
      var n := Uint32(s[..4]);
      if 1 <= n <= MAX_LENGTH && 4 + n <= |s| then Some((s[4..4 + n], s[4 + n..])) else None
  }

  /** The length is written with its lowest byte first, and legal from 1 to 65536. */
  lemma HeaderIs(payload: seq<byte>)
    requires |payload| < 0x1_0000_0000
    ensures var h, n := PutUint32(|payload|), |payload|;
            && h[0] == n % 0x100 && h[1] == n / 0x100 % 0x100 && h[2] == n / 0x1_0000 % 0x100 && h[3] == n / 0x100_0000
            && Decode(h + payload) == if 1 <= n <= 65536 then Some((payload, [])) else None
  {
    var h := PutUint32(|payload|);
    Uint32RoundTrip(|payload|);
    assert (h + payload)[..4] == h && (h + payload)[4..4 + |payload|] == payload && (h + payload)[4 + |payload|..] == [];
  }

  /** Decoding a stream that starts with a frame gives that frame's payload and everything after it. */
  lemma DecodeFrame(payload: seq<byte>, rest: seq<byte>)
    requires Sendable(payload)
    ensures Decode(Frame(payload) + rest) == Some((payload, rest))
  {
  }

  lemma Uint32Inverse(h: seq<byte>)
    requires |h| == 4
    ensures Uint32(h) < 0x1_0000_0000 && PutUint32(Uint32(h)) == h
  {
  }

  /** Conversely, whatever is decoded was the first frame of the stream. */
  lemma DecodeInverts(s: seq<byte>)
    requires Decode(s).Some?
    ensures Sendable(Decode(s).value.0)
    ensures s == Frame(Decode(s).value.0) + Decode(s).value.1
  {
    Uint32Inverse(s[..4]);
    var n := Uint32(s[..4]);
    assert s == s[..4] + s[4..4 + n] + s[4 + n..];
  }

  predicate AllSendable(payloads: seq<seq<byte>>) {
    forall i | 0 <= i < |payloads| :: Sendable(payloads[i])
  }

  function Frames(payloads: seq<seq<byte>>): seq<byte>
    requires AllSendable(payloads)
  {
    if payloads == [] then []
    else
      assert Sendable(payloads[0]);
      Frame(payloads[0]) + Frames(payloads[1..])
  }

  /** Decodes until the stream is empty; None if it does not end at the end of a frame. */
  function DecodeAll(s: seq<byte>): Option<seq<seq<byte>>>
    decreases |s|
  {
    if s == [] then Some([])
    else
      match Decode(s)
      case None => None
      case Some((payload, rest)) =>
        match DecodeAll(rest)
        case None => None
        case Some(payloads) => Some([payload] + payloads)
  }

  /** Any list of frames is decoded to that list. */
  lemma {:induction false} DecodeAllFrames(payloads: seq<seq<byte>>)
    requires AllSendable(payloads)
    ensures DecodeAll(Frames(payloads)) == Some(payloads)
  {
    if payloads != [] {
      DecodeFrame(payloads[0], Frames(payloads[1..]));
      DecodeAllFrames(payloads[1..]);
      assert Frames(payloads) != [] && [payloads[0]] + payloads[1..] == payloads;
    }
  }

  /** A stream cut anywhere inside its first frame does not decode. */
  lemma TruncatedFrame(payload: seq<byte>, k: nat)
    requires Sendable(payload) && k < |Frame(payload)|
    ensures Decode(Frame(payload)[..k]) == None
  {
  }

  // ---------------------------------------------------------------- streams

  datatype StreamError = EOF | ShortRead | BadLength

  /**
   * A pipe. `whole` says that a read returns all it was asked for when that much is there; without
   * it any read may return fewer bytes, but never none before the end.
   */
  class Stream {
    var data: seq<byte>
    const whole: bool

    constructor (whole: bool)
      ensures data == [] && this.whole == whole
    {
      this.whole := whole;
      data := [];
    }

    method Write(b: seq<byte>)
      modifies this
      ensures data == old(data) + b
    {
      data := data + b;
    }

    /** Reads at most `want` bytes; an empty chunk is the end of the stream. */
    method Read(want: nat) returns (chunk: seq<byte>)
      modifies this
      ensures old(data) == chunk + data
      ensures |chunk| <= want
      ensures chunk == [] <==> want == 0 || old(data) == []
      ensures whole ==> |chunk| == if want <= |old(data)| then want else |old(data)|
    {
      var most := if want <= |data| then want else |data|;
      var n: nat := most;
      if !whole && most > 0 {
        n :| 1 <= n <= most;
      }
      chunk := data[..n];
      data := data[n..];
    }
  }

  /** Writes one frame, or nothing when the payload is too long. */
  method MarshalToWriter(w: Stream, payload: seq<byte>) returns (r: Result<nat, StreamError>)
    modifies w
    ensures r.Ok? <==> |payload| <= 65536
    ensures r.Ok? ==> r.value == 4 + |payload| && w.data == old(w.data) + Frame(payload)
    ensures r.Err? ==> r.error == BadLength && w.data == old(w.data)
  {
    if |payload| > MAX_LENGTH {
      return Err(BadLength);
    }
    var h := PutUint32(|payload|);
    w.Write(h + payload);
    return Ok(4 + |payload|);
  }

  /**
   * Reads one frame with two reads. Success means that exactly the first frame was consumed,
   * however short reads may come; with whole reads it succeeds whenever the stream has one.
   */
  method UnmarshalFromReader(r: Stream) returns (n: nat, res: Result<seq<byte>, StreamError>)
    modifies r
    ensures |old(r.data)| == n + |r.data| && old(r.data)[n..] == r.data
    ensures res.Ok? ==> Decode(old(r.data)) == Some((res.value, r.data))
    ensures r.whole ==> (res.Ok? <==> Decode(old(r.data)).Some?)
    // the errors: an empty read, a length that is not legal, or fewer bytes than asked for
    ensures res == Err(EOF) <==> n == 0 || (n == 4 && |old(r.data)| == 4 && 1 <= Uint32(old(r.data)[..4]) <= 65536)
    ensures res == Err(BadLength) <==> n == 4 && !(1 <= Uint32(old(r.data)[..4]) <= 65536)
    ensures res == Err(ShortRead) ==> 0 < n < if n < 4 then 4 else 4 + Uint32(old(r.data)[..4])
    ensures n <= 4 || (|old(r.data)| >= 4 && n <= 4 + Uint32(old(r.data)[..4]))
  {
    var hdr := r.Read(4);
    n := |hdr|;
    if n == 0 {
      return n, Err(EOF);
    }
    if n != 4 {
      return n, Err(ShortRead);
    }
    assert old(r.data)[..4] == hdr && old(r.data)[4..] == r.data;
    var bLen := Uint32(hdr);
    if bLen > MAX_LENGTH || bLen < 1 {
      return n, Err(BadLength);
    }
    label body:
    var b := r.Read(bLen);
    assert old(r.data)[4..] == b + r.data;
    n := 4 + |b|;
    assert old(r.data)[n..] == old@body(r.data)[|b|..] == r.data;
    if |b| == 0 {
      return n, Err(EOF);
    }
    if |b| != bLen {
      return n, Err(ShortRead);
    }
    assert old(r.data)[4..n] == b;
    return n, Ok(b);
  }

  /** Unmarshal from a byte slice, whose reader always reads whole: accepts exactly one frame and nothing after it. */
  method Unmarshal(b: seq<byte>) returns (res: Option<seq<byte>>)
    ensures res.Some? ==> Sendable(res.value) && b == Frame(res.value)
    ensures forall p | Sendable(p) && b == Frame(p) :: res == Some(p)
  {
    var r := new Stream(true);
    r.Write(b);
    var n, x := UnmarshalFromReader(r);
    forall p | Sendable(p) && b == Frame(p)
      ensures Decode(b) == Some((p, []))
    {
      assert b == Frame(p) + [];
      DecodeFrame(p, []);
    }
    if n != |b| || x.Err? {
      return None;
    }
    DecodeInverts(b);
    assert b == Frame(x.value) + [];
    return Some(x.value);
  }
}
