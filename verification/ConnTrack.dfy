/** The connection-tracking key of the UDP proxy: which client addresses share one. */
module ConnTrack {
  import opened Framing

  /** net.UDPAddr; the kernel gives 4-byte addresses on IPv4 sockets and 16-byte ones on IPv6 sockets. */
  datatype Addr = Addr(ip: seq<byte>, port: int, zone: string)

  predicate ValidAddr(a: Addr) {
    |a.ip| == 4 || |a.ip| == 16
  }

  datatype Key = Key(ipHigh: nat, ipLow: nat, port: int)

  /** binary.BigEndian, for any number of bytes. */
  function BigEndian(s: seq<byte>): nat {
    if s == [] then 0 else 0x100 * BigEndian(s[..|s| - 1]) + s[|s| - 1]
  }

  function NewKey(addr: Addr): Key
    requires ValidAddr(addr)
  {
    if |addr.ip| == 4 then Key(0, BigEndian(addr.ip), addr.port)
    else Key(BigEndian(addr.ip[..8]), BigEndian(addr.ip[8..]), addr.port)
  }

  lemma {:induction false} BigEndianInjective(a: seq<byte>, b: seq<byte>)
    requires |a| == |b|
    ensures BigEndian(a) == BigEndian(b) <==> a == b
  {
    if a != [] {
      var n := |a| - 1;
      BigEndianInjective(a[..n], b[..n]);
      assert a == a[..n] + [a[n]] && b == b[..n] + [b[n]];
    }
  }

  function Zeros(n: nat): seq<byte> {
    seq(n, _ => 0)
  }

  lemma {:induction false} BigEndianPadded(n: nat, s: seq<byte>)
    ensures BigEndian(Zeros(n) + s) == BigEndian(s)
  {
    var t := Zeros(n) + s;
    if s != [] {
      assert t[..|t| - 1] == Zeros(n) + s[..|s| - 1];
      BigEndianPadded(n, s[..|s| - 1]);
    } else if n > 0 {
      assert t[..|t| - 1] == Zeros(n - 1) + [];
      BigEndianPadded(n - 1, []);
    }
  }

  /** The IPv4-compatible form of an IPv4 address, section 2.5.5.1 of RFC 4291. */
  predicate Compatible(v4: seq<byte>, v6: seq<byte>) {
    |v4| == 4 && v6 == Zeros(12) + v4
  }

  /** Two clients share a key exactly when port and IP agree, up to zones and the IPv4-compatible form. */
  lemma KeysAgree(a: Addr, b: Addr)
    requires ValidAddr(a) && ValidAddr(b)
    ensures NewKey(a) == NewKey(b) <==>
              a.port == b.port && (a.ip == b.ip || Compatible(a.ip, b.ip) || Compatible(b.ip, a.ip))
  {
    if |a.ip| == |b.ip| {
      BigEndianInjective(a.ip, b.ip);
      if |a.ip| == 16 {
        BigEndianInjective(a.ip[..8], b.ip[..8]);
        BigEndianInjective(a.ip[8..], b.ip[8..]);
        assert a.ip == a.ip[..8] + a.ip[8..] && b.ip == b.ip[..8] + b.ip[8..];
      }
    } else if |a.ip| == 4 {
      MixedKeys(a, b);
    } else {
      MixedKeys(b, a);
    }
  }

  lemma MixedKeys(v4: Addr, v6: Addr)
    requires |v4.ip| == 4 && |v6.ip| == 16
    ensures NewKey(v4) == NewKey(v6) <==> v4.port == v6.port && Compatible(v4.ip, v6.ip)
  {
    BigEndianPadded(8, []);
    assert Zeros(8) + [] == Zeros(8);
    BigEndianInjective(v6.ip[..8], Zeros(8));
    BigEndianPadded(4, v4.ip);
    BigEndianInjective(v6.ip[8..], Zeros(4) + v4.ip);
    assert v6.ip == v6.ip[..8] + v6.ip[8..];
    assert Zeros(12) + v4.ip == Zeros(8) + (Zeros(4) + v4.ip);
    assert (Zeros(12) + v4.ip)[..8] == Zeros(8) && (Zeros(12) + v4.ip)[8..] == Zeros(4) + v4.ip;
  }

  /** Clients of one socket, whose addresses have one length, share a key exactly when ports and IPs agree. */
  lemma KeysOfOneLength(a: Addr, b: Addr)
    requires ValidAddr(a) && |a.ip| == |b.ip|
    ensures NewKey(a) == NewKey(b) <==> a.port == b.port && a.ip == b.ip
  {
    KeysAgree(a, b);
  }

  /** When their zones do not tell them apart either, the key identifies the client. */
  lemma KeyIdentifiesClient(a: Addr, b: Addr)
    requires ValidAddr(a) && |a.ip| == |b.ip| && (a.ip == b.ip ==> a.zone == b.zone)
    ensures NewKey(a) == NewKey(b) <==> a == b
  {
    KeysOfOneLength(a, b);
  }
}
