/** packetproto.h: packets on a byte stream, each behind its length in two bytes, the low byte first. */
module Framing {
  import opened Basics

  const MAX_PAYLOAD := 65535

  function Header(n: nat): (r: seq<Byte>)
    requires n <= MAX_PAYLOAD
    ensures |r| == 2 && Length(r[0], r[1]) == n
  {
    [n % 256, n / 256]
  }

  function Length(low: Byte, high: Byte): nat {
    low as int + 256 * high as int
  }

  function Encode(p: Packet): (r: seq<Byte>)
    requires |p| <= MAX_PAYLOAD
    ensures |r| == 2 + |p|
  {
    Header(|p|) + p
  }

  ghost predicate Fits(ps: seq<Packet>, mtu: nat) {
    forall p :: p in ps ==> |p| <= mtu
  }

  /** The bytes that stand for a list of packets. */
  ghost function Stream(ps: seq<Packet>): seq<Byte>
    requires Fits(ps, MAX_PAYLOAD)
  {
    if ps == [] then [] else Encode(ps[0]) + Stream(ps[1..])
  }

  /** What a reader with no buffer and no chunks would make of the bytes: the packets in front, the
      bytes after them, and whether it stopped at a header that announces more than mtu. */
  datatype Reading = Reading(packets: seq<Packet>, rest: seq<Byte>, tooLong: bool)

  ghost function Read(s: seq<Byte>, mtu: nat): Reading
    decreases |s|
  {
    if |s| < 2 then Reading([], s, false)
    else
      var n := Length(s[0], s[1]);
      if n > mtu then Reading([], s, true)
      else if |s| < 2 + n then Reading([], s, false)
      else
        var r := Read(s[2 + n..], mtu);
        Reading([s[2..2 + n]] + r.packets, r.rest, r.tooLong)
  }

  /** The bytes on the wire: a 16-bit length, the low byte first, and the packet. */
  lemma EncodeIs(p: Packet)
    requires |p| <= MAX_PAYLOAD
    ensures MAX_PAYLOAD == 0xffff
    ensures Encode(p)[0] as int + 256 * Encode(p)[1] as int == |p| && Encode(p)[2..] == p
  {
    assert Header(|p|)[0] == Encode(p)[0] && Header(|p|)[1] == Encode(p)[1];
  }

  /** What the two bytes in front of any stream mean to a reader. */
  lemma ReadIs(s: seq<Byte>, mtu: nat)
    requires |s| >= 2
    ensures var n := s[0] as int + 256 * s[1] as int;
            if n > mtu then Read(s, mtu) == Reading([], s, true)
            else if |s| < 2 + n then Read(s, mtu) == Reading([], s, false)
            else Read(s, mtu).packets != [] && Read(s, mtu).packets[0] == s[2..2 + n]
  {
  }

  lemma {:induction false} StreamAppend(ps: seq<Packet>, qs: seq<Packet>)
    requires Fits(ps, MAX_PAYLOAD) && Fits(qs, MAX_PAYLOAD)
    ensures Fits(ps + qs, MAX_PAYLOAD) && Stream(ps + qs) == Stream(ps) + Stream(qs)
  {
    hide Encode;
    if ps == [] {
      assert ps + qs == qs;
    } else {
      assert Fits(ps[1..], MAX_PAYLOAD);
      StreamAppend(ps[1..], qs);
      assert (ps + qs)[1..] == ps[1..] + qs && (ps + qs)[0] == ps[0];
      var e := Encode(ps[0]);
      assert Fits(ps + qs, MAX_PAYLOAD);
      assert Stream(ps + qs) == e + (Stream(ps[1..]) + Stream(qs));
    }
  }

  lemma EncodeFirst(p: Packet, s: seq<Byte>)
    requires |p| <= MAX_PAYLOAD
    ensures var e := Encode(p) + s;
            |e| >= 2 + |p| && Length(e[0], e[1]) == |p| && e[2..2 + |p|] == p && e[2 + |p|..] == s
  {
  }

  lemma ReadFirst(p: Packet, s: seq<Byte>, mtu: nat)
    requires |p| <= MAX_PAYLOAD && |p| <= mtu
    ensures var r := Read(s, mtu);
            Read(Encode(p) + s, mtu) == Reading([p] + r.packets, r.rest, r.tooLong)
  {
    hide Encode, Length, Header;
    EncodeFirst(p, s);
  }

  /** Nothing is read while no whole packet is there, or the header is refused. */
  lemma ReadNone(s: seq<Byte>, mtu: nat)
    requires |s| >= 2 ==> Length(s[0], s[1]) > mtu || |s| < 2 + Length(s[0], s[1])
    ensures Read(s, mtu) == Reading([], s, |s| >= 2 && Length(s[0], s[1]) > mtu)
  {
    hide Length;
  }

  /** Bytes that hold a whole packet start with its encoding. */
  lemma FirstEncoded(s: seq<Byte>)
    requires |s| >= 2 && |s| >= 2 + Length(s[0], s[1])
    ensures var n := Length(s[0], s[1]);
            n <= MAX_PAYLOAD && s == Encode(s[2..2 + n]) + s[2 + n..]
  {
    var n := Length(s[0], s[1]);
    HeaderIs(s[0], s[1]);
    assert s == s[..2] + s[2..2 + n] + s[2 + n..];
  }

  lemma HeaderIs(low: Byte, high: Byte)
    ensures Length(low, high) <= MAX_PAYLOAD && Header(Length(low, high)) == [low, high]
  {
  }

  /** Encoded packets are read back, whatever follows them. */
  lemma {:induction false} ReadStream(ps: seq<Packet>, s: seq<Byte>, mtu: nat)
    requires Fits(ps, MAX_PAYLOAD) && Fits(ps, mtu)
    ensures var r := Read(s, mtu);
            Read(Stream(ps) + s, mtu) == Reading(ps + r.packets, r.rest, r.tooLong)
  {
    hide Read, Encode;
    if ps == [] {
      assert Stream(ps) + s == s;
      assert ps + Read(s, mtu).packets == Read(s, mtu).packets;
    } else {
      var rest := Stream(ps[1..]) + s;
      assert Stream(ps) + s == Encode(ps[0]) + rest;
      ReadFirst(ps[0], rest, mtu);
      ReadStream(ps[1..], s, mtu);
      assert ps == [ps[0]] + ps[1..];
      assert [ps[0]] + (ps[1..] + Read(s, mtu).packets) == ps + Read(s, mtu).packets;
    }
  }

  lemma StreamFirst(p: Packet, ps: seq<Packet>)
    requires |p| <= MAX_PAYLOAD && Fits(ps, MAX_PAYLOAD)
    ensures Fits([p] + ps, MAX_PAYLOAD) && Stream([p] + ps) == Encode(p) + Stream(ps)
  {
    assert ([p] + ps)[1..] == ps;
  }

  /** Reading loses nothing. */
  lemma {:induction false} ReadIsExact(s: seq<Byte>, mtu: nat)
    ensures var r := Read(s, mtu);
            Fits(r.packets, mtu) && Fits(r.packets, MAX_PAYLOAD) && Stream(r.packets) + r.rest == s
    decreases |s|
  {
    hide Length, Encode, Stream, Read;
    if |s| >= 2 && Length(s[0], s[1]) <= mtu && |s| >= 2 + Length(s[0], s[1]) {
      var n := Length(s[0], s[1]);
      FirstEncoded(s);
      var p, t := s[2..2 + n], s[2 + n..];
      ReadIsExact(t, mtu);
      ReadFirst(p, t, mtu);
      StreamFirst(p, Read(t, mtu).packets);
    } else {
      ReadNone(s, mtu);
      StreamNone();
    }
  }

  lemma StreamNone()
    ensures Stream([]) == []
  {
  }

  lemma StreamOne(p: Packet)
    requires |p| <= MAX_PAYLOAD
    ensures Fits([p], MAX_PAYLOAD) && Stream([p]) == Encode(p)
  {
    StreamNone();
    StreamFirst(p, []);
  }

  /** Packets read from the start of an encoding are the first packets that were encoded. */
  lemma {:induction false} ReadPrefix(ps: seq<Packet>, s: seq<Byte>, mtu: nat)
    requires Fits(ps, MAX_PAYLOAD) && Fits(ps, mtu) && s <= Stream(ps)
    ensures var r := Read(s, mtu);
            !r.tooLong && r.packets <= ps && (s == Stream(ps) ==> r.packets == ps && r.rest == [])
    decreases ps
  {
    hide Length, Encode, Read;
    if ps == [] || |s| < 2 {
      ReadNone(s, mtu);
    } else {
      var e := Encode(ps[0]);
      EncodeFirst(ps[0], Stream(ps[1..]));
      var n := |ps[0]|;
      assert s[0] == Stream(ps)[0] && s[1] == Stream(ps)[1];
      if |s| >= 2 + n {
        var t := s[2 + n..];
        assert s[..2 + n] == e;
        assert s == e + t;
        assert t <= Stream(ps[1..]) by { assert t == Stream(ps)[2 + n..][..|t|]; }
        ReadFirst(ps[0], t, mtu);
        ReadPrefix(ps[1..], t, mtu);
        assert ps == [ps[0]] + ps[1..];
      } else {
        ReadNone(s, mtu);
      }
    }
  }
}
