/** Tagged messages between parent and child, one a frame. */
module Messages {
  import opened Prelude
  import opened Framing

  /** A message's Name field: empty, or the name of one of the union's field types. */
  datatype Name =
    | NoName
    | ParentHello
    | ChildHello
    | ParentInitIdmapCompleted
    | ChildInitUserNSCompleted
    | ParentInitNetworkDriverCompleted
    | ParentInitPortDriverCompleted

  datatype NetworkInfo = NetworkInfo(dev: string, ip: string, netmask: int, gateway: string, dns: seq<string>, mtu: int, opaque_: map<string, string>)

  /** The union U: six pointers of which a sender sets one. The four empty messages carry nothing. */
  datatype Union = Union(
    parentHello: bool,
    childHello: bool,
    parentInitIdmapCompleted: bool,
    childInitUserNSCompleted: bool,
    network: Option<NetworkInfo>,
    portOpaque: Option<map<string, string>>)

  datatype Message = Message(name: Name, u: Union)

  const EMPTY := Union(false, false, false, false, None, None)

  /** The union's fields in declaration order: the name of each and whether it is set. */
  function Fields(u: Union): seq<(Name, bool)> {
    [ (ParentHello, u.parentHello),
      (ChildHello, u.childHello),
      (ParentInitIdmapCompleted, u.parentInitIdmapCompleted),
      (ChildInitUserNSCompleted, u.childInitUserNSCompleted),
      (ParentInitNetworkDriverCompleted, u.network.Some?),
      (ParentInitPortDriverCompleted, u.portOpaque.Some?) ]
  }

  /** The name of the first field that is set. */
  function FirstSet(fields: seq<(Name, bool)>): Name {
    if fields == [] then NoName
    else if fields[0].1 then fields[0].0
    else FirstSet(fields[1..])
  }

  /** A message as Send leaves it. */
  function Named(m: Message): Message {
    if m.name != NoName then m else m.(name := FirstSet(Fields(m.u)))
  }

  method FulfillName(m: Message) returns (r: Option<Message>)
    ensures r == if FirstSet(Fields(m.u)) == NoName then None else Some(m.(name := FirstSet(Fields(m.u))))
  {
    var fields := Fields(m.u);
    for i := 0 to |fields|
      invariant FirstSet(fields[i..]) == FirstSet(fields)
    {
      assert fields[i..][1..] == fields[i + 1..];
      if fields[i].1 {
        assert fields[i].0 != NoName;
        return Some(m.(name := fields[i].0));
      }
    }
    return None;
  }

  /** With exactly one field set, the name identifies that field. */
  lemma NameIdentifiesField(u: Union, i: nat)
    requires i < 6 && forall j | 0 <= j < 6 :: Fields(u)[j].1 <==> j == i
    ensures FirstSet(Fields(u)) == Fields(u)[i].0
  {
    var f := Fields(u);
    assert f[1..][1..] == f[2..] && f[2..][1..] == f[3..] && f[3..][1..] == f[4..] && f[4..][1..] == f[5..] && f[5..][1..] == [];
    assert FirstSet(f[5..]) == (if f[5].1 then f[5].0 else NoName);
    assert FirstSet(f[4..]) == (if f[4].1 then f[4].0 else FirstSet(f[5..]));
    assert FirstSet(f[3..]) == (if f[3].1 then f[3].0 else FirstSet(f[4..]));
    assert FirstSet(f[2..]) == (if f[2].1 then f[2].0 else FirstSet(f[3..]));
    assert FirstSet(f[1..]) == (if f[1].1 then f[1].0 else FirstSet(f[2..]));
  }

  /** JSON, as far as the protocol uses it. */
  datatype Codec = Codec(marshal: Message -> seq<byte>, unmarshal: seq<byte> -> Option<Message>) {
    /** Unmarshalling inverts marshalling, whose result is never empty. */
    ghost predicate Faithful() {
      forall m :: unmarshal(marshal(m)) == Some(m) && |marshal(m)| >= 1
    }

    /** What Send writes for a message, and what it takes for Send to succeed. */
    function Payload(m: Message): seq<byte> {
      marshal(Named(m))
    }

    predicate CanSend(m: Message) {
      Named(m).name != NoName && |Payload(m)| <= MAX_LENGTH
    }

    function Received(payload: seq<byte>): Option<Message> {
      match unmarshal(payload)
      case Some(m) => if m.name == NoName then None else Some(m)
      case None => None
    }
  }

  datatype MessageError = StreamFailed(error: StreamError) | Unnamed | BadMessage | Unexpected(got: Message)

  method Send(codec: Codec, w: Stream, m: Message) returns (r: Result<Message, MessageError>)
    modifies w
    ensures r.Ok? <==> codec.CanSend(m)
    ensures r.Ok? ==> r.value == Named(m) && w.data == old(w.data) + Frame(codec.Payload(m))
    ensures r.Err? ==> w.data == old(w.data)
    ensures r.Err? ==> r.error == if Named(m).name == NoName then Unnamed else StreamFailed(BadLength)
  {
    var named := m;
    if m.name == NoName {
      var fulfilled := FulfillName(m);
      if fulfilled == None {
        return Err(Unnamed);
      }
      named := fulfilled.value;
    }
    var written := MarshalToWriter(w, codec.marshal(named));
    if written.Err? {
      return Err(StreamFailed(written.error));
    }
    return Ok(named);
  }

  /** The message at the head of a stream and what follows its frame. */
  function Head(codec: Codec, s: seq<byte>): Option<(Message, seq<byte>)> {
    match Decode(s)
    case None => None
    case Some((payload, rest)) =>
      match codec.Received(payload)
      case None => None
      case Some(m) => Some((m, rest))
  }

  /** What Send wrote is at the head of the stream, and only its frame is taken off. */
  lemma HeadSent(codec: Codec, m: Message, rest: seq<byte>)
    requires codec.Faithful() && codec.CanSend(m)
    ensures Head(codec, Frame(codec.Payload(m)) + rest) == Some((Named(m), rest))
  {
  }

  /** Success is the stream's head message, short reads or not; with whole reads there is no other failure. */
  method Recv(codec: Codec, r: Stream) returns (res: Result<Message, MessageError>)
    modifies r
    ensures res.Ok? ==> Head(codec, old(r.data)) == Some((res.value, r.data))
    ensures r.whole ==> (res.Ok? <==> Head(codec, old(r.data)).Some?)
    ensures res.Err? ==> res.error.StreamFailed? || res.error == BadMessage
    ensures r.whole ==> (res.Err? && res.error.StreamFailed? <==> Decode(old(r.data)) == None)
  {
    var n, payload := UnmarshalFromReader(r);
    if payload.Err? {
      return Err(StreamFailed(payload.error));
    }
    var m := codec.unmarshal(payload.value);
    if m == None {
      return Err(BadMessage);
    }
    if m.value.name == NoName {
      return Err(BadMessage);
    }
    return Ok(m.value);
  }

  /** Refuses the head message exactly when its name is not the expected one; its frame is consumed either way. */
  method WaitFor(codec: Codec, r: Stream, name: Name) returns (res: Result<Message, MessageError>)
    modifies r
    ensures res.Ok? ==> res.value.name == name && Head(codec, old(r.data)) == Some((res.value, r.data))
    ensures res.Err? && res.error.Unexpected? ==>
              res.error.got.name != name && Head(codec, old(r.data)) == Some((res.error.got, r.data))
    ensures r.whole && Head(codec, old(r.data)).Some? ==>
              (res.Ok? <==> Head(codec, old(r.data)).value.0.name == name)
  {
    var msg := Recv(codec, r);
    if msg.Err? {
      return msg;
    }
    if msg.value.name != name {
      return Err(Unexpected(msg.value));
    }
    return msg;
  }
}
