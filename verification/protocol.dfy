// Packets as bytes on a stream: the fixed header in network byte order followed by the payload,
// sent and received by loops that put up with short transfers.
module Protocol {
  import opened Prelude

  newtype uint16 = x: int | 0 <= x < 0x1_0000
  newtype uint32 = x: int | 0 <= x < 0x1_0000_0000

  const HEADER_SIZE: nat := 16

  // The header as it lies in memory, with the three bytes of padding that its layout has.
  datatype Header = Header(
    kind: byte, id: byte, role: byte, pad0: byte, size: uint16, pad1: byte, pad2: byte, sec: uint32, nsec: uint32)

  datatype Frame = Frame(header: Header, payload: seq<byte>)

  // The payload is as long as the header says.
  predicate Fits(f: Frame) { |f.payload| == f.header.size as int }

  function Bytes16(n: uint16): seq<byte> { [(n / 256) as byte, (n % 256) as byte] }

  function Bytes32(n: uint32): seq<byte>
  {
    [(n / 0x100_0000) as byte, (n / 0x1_0000 % 256) as byte, (n / 256 % 256) as byte, (n % 256) as byte]
  }

  function Number16(b: seq<byte>): uint16
    requires |b| == 2
  {
    b[0] as uint16 * 256 + b[1] as uint16
  }

  function Number32(b: seq<byte>): uint32
    requires |b| == 4
  {
    ((b[0] as uint32 * 256 + b[1] as uint32) * 256 + b[2] as uint32) * 256 + b[3] as uint32
  }

  function Encode(h: Header): (b: seq<byte>)
    ensures |b| == HEADER_SIZE
  {
    [h.kind, h.id, h.role, h.pad0] + Bytes16(h.size) + [h.pad1, h.pad2] + Bytes32(h.sec) + Bytes32(h.nsec)
  }

  function Parse(b: seq<byte>): Header
    requires |b| == HEADER_SIZE
  {
    Header(b[0], b[1], b[2], b[3], Number16(b[4..6]), b[6], b[7], Number32(b[8..12]), Number32(b[12..16]))
  }

  lemma Numbers16(n: uint16, b: seq<byte>)
    requires |b| == 2
    ensures Number16(Bytes16(n)) == n && Bytes16(Number16(b)) == b
  {
  }

  lemma Numbers32(n: uint32)
    ensures Number32(Bytes32(n)) == n
  {
    var a, r := n / 0x100_0000, n % 0x100_0000;
    assert n / 0x1_0000 == a * 256 + r / 0x1_0000;
    assert n / 256 == n / 0x1_0000 * 256 + n / 256 % 256;
  }

  lemma Digits32(b: seq<byte>)
    requires |b| == 4
    ensures Bytes32(Number32(b)) == b
  {
    var n := Number32(b);
    var x := b[0] as uint32 * 256 + b[1] as uint32;
    var y := x * 256 + b[2] as uint32;
    assert n / 256 == y && n % 256 == b[3] as uint32;
    assert y / 256 == x && n / 0x1_0000 == x;
    assert x / 256 == b[0] as uint32 && n / 0x100_0000 == b[0] as uint32;
  }

  // Headers and strings of sixteen bytes correspond one to one.
  lemma HeaderRoundTrip(h: Header, b: seq<byte>)
    requires |b| == HEADER_SIZE
    ensures Parse(Encode(h)) == h && Encode(Parse(b)) == b
  {
    var e := Encode(h);
    assert e[4..6] == Bytes16(h.size) && e[8..12] == Bytes32(h.sec) && e[12..16] == Bytes32(h.nsec);
    Numbers16(h.size, b[4..6]);
    Numbers32(h.sec);
    Numbers32(h.nsec);
    Digits32(b[8..12]);
    Digits32(b[12..16]);
    assert b == b[..4] + b[4..6] + b[6..8] + b[8..12] + b[12..16];
    assert b[..4] == [b[0], b[1], b[2], b[3]] && b[6..8] == [b[6], b[7]];
  }

  // What stands where: numbers go out with the high byte first.
  lemma NetworkOrder(h: Header)
    ensures var e := Encode(h);
      && |e| == 16 && e[0] == h.kind && e[1] == h.id && e[2] == h.role
      && e[4] as int == h.size as int / 0x100 && e[5] as int == h.size as int % 0x100
      && h.sec as int == 0x100_0000 * e[8] as int + 0x1_0000 * e[9] as int + 0x100 * e[10] as int + e[11] as int
      && h.nsec as int == 0x100_0000 * e[12] as int + 0x1_0000 * e[13] as int + 0x100 * e[14] as int + e[15] as int
  {
    var e := Encode(h);
    assert e[4..6] == Bytes16(h.size) && e[8..12] == Bytes32(h.sec) && e[12..16] == Bytes32(h.nsec);
    assert e[4] == e[4..6][0] && e[5] == e[4..6][1];
    HighFirst(h.sec, e[8..12]);
    HighFirst(h.nsec, e[12..16]);
  }

  lemma HighFirst(n: uint32, b: seq<byte>)
    requires b == Bytes32(n)
    ensures n as int == 0x100_0000 * b[0] as int + 0x1_0000 * b[1] as int + 0x100 * b[2] as int + b[3] as int
  {
    Numbers32(n);
  }

  // --- Streams of packets ------------------------------------------------------------------

  function Wire(f: Frame): seq<byte> { Encode(f.header) + f.payload }

  function Stream(fs: seq<Frame>): seq<byte>
  {
    if fs == [] then [] else Stream(fs[..|fs| - 1]) + Wire(fs[|fs| - 1])
  }

  // The first packet of a stream and what follows it, if the stream holds all of it.
  function Decode(s: seq<byte>): (r: Option<(Frame, seq<byte>)>)
    ensures r.Some? ==> Fits(r.value.0) && |r.value.1| < |s|
  {
    if |s| < HEADER_SIZE then None
    else
      var h := Parse(s[..HEADER_SIZE]);
      var end := HEADER_SIZE + h.size as int;
      if |s| < end then None else Some((Frame(h, s[HEADER_SIZE..end]), s[end..]))
  }

  // All complete packets of a stream, and what is left over.
  function DecodeAll(s: seq<byte>): (seq<Frame>, seq<byte>)
    decreases |s|
  {
    match Decode(s)
    case None => ([], s)
    case Some((f, rest)) =>
      var (fs, left) := DecodeAll(rest);
      ([f] + fs, left)
  }

  lemma DecodeParts(hdr: seq<byte>, payload: seq<byte>, rest: seq<byte>)
    requires |hdr| == HEADER_SIZE && |payload| == Parse(hdr).size as int
    ensures Decode(hdr + payload + rest) == Some((Frame(Parse(hdr), payload), rest))
  {
    var s := hdr + payload + rest;
    assert s[..HEADER_SIZE] == hdr && s[HEADER_SIZE..HEADER_SIZE + |payload|] == payload;
    assert s[HEADER_SIZE + |payload|..] == rest;
  }

  lemma DecodeShort(s: seq<byte>)
    requires |s| < HEADER_SIZE
    ensures Decode(s + []) == None
  {
  }

  lemma DecodeCutShort(hdr: seq<byte>, payload: seq<byte>)
    requires |hdr| == HEADER_SIZE && |payload| < Parse(hdr).size as int
    ensures Decode(hdr + payload + []) == None
  {
    assert (hdr + payload + [])[..HEADER_SIZE] == hdr;
  }

  lemma DecodeFirst(f: Frame, s: seq<byte>)
    requires Fits(f)
    ensures Decode(Wire(f) + s) == Some((f, s))
  {
    var w := Wire(f) + s;
    assert w[..HEADER_SIZE] == Encode(f.header);
    HeaderRoundTrip(f.header, Encode(f.header));
    assert w[HEADER_SIZE..HEADER_SIZE + |f.payload|] == f.payload;
    assert w[HEADER_SIZE + |f.payload|..] == s;
  }

  // A packet is found only in full: no packet is a proper beginning of another.
  lemma DecodePart(f: Frame, k: nat)
    requires Fits(f) && k < |Wire(f)|
    ensures Decode(Wire(f)[..k]) == None
  {
    if k >= HEADER_SIZE {
      assert Wire(f)[..k][..HEADER_SIZE] == Encode(f.header);
      HeaderRoundTrip(f.header, Encode(f.header));
    }
  }

  // Decoding is the inverse of sending: from the bytes of some packets and a part of a further
  // one, the receiver gets exactly those packets, and the part is left over.
  lemma {:induction false} StreamRoundTrip(fs: seq<Frame>, f: Frame, k: nat)
    requires (forall j :: 0 <= j < |fs| ==> Fits(fs[j])) && Fits(f) && k < |Wire(f)|
    ensures DecodeAll(Stream(fs) + Wire(f)[..k]) == (fs, Wire(f)[..k])
  {
    hide Wire, Stream, DecodeAll;
    if fs == [] {
      StreamEmpty();
      assert Stream(fs) + Wire(f)[..k] == Wire(f)[..k];
      NothingWhole(f, k);
    } else {
      StreamSplit(fs);
      var s := Stream(fs[1..]) + Wire(f)[..k];
      assert Stream(fs) + Wire(f)[..k] == Wire(fs[0]) + s;
      FirstThenRest(fs[0], s);
      StreamRoundTrip(fs[1..], f, k);
      assert [fs[0]] + fs[1..] == fs;
    }
  }

  lemma NothingWhole(f: Frame, k: nat)
    requires Fits(f) && k < |Wire(f)|
    ensures DecodeAll(Wire(f)[..k]) == ([], Wire(f)[..k])
  {
    DecodePart(f, k);
  }

  lemma FirstThenRest(f: Frame, s: seq<byte>)
    requires Fits(f)
    ensures DecodeAll(Wire(f) + s) == ([f] + DecodeAll(s).0, DecodeAll(s).1)
  {
    hide Wire, Decode;
    DecodeFirst(f, s);
  }

  lemma {:induction false} StreamSplit(fs: seq<Frame>)
    requires fs != []
    ensures Stream(fs) == Wire(fs[0]) + Stream(fs[1..])
  {
    hide Wire, Stream;
    var n := |fs| - 1;
    StreamLast(fs);
    StreamEmpty();
    if n == 0 {
      assert fs[..0] == [] && fs[1..] == [];
    } else {
      StreamSplit(fs[..n]);
      StreamLast(fs[1..]);
      assert fs[..n][1..] == fs[1..][..n - 1];
    }
  }

  lemma StreamLast(fs: seq<Frame>)
    requires fs != []
    ensures Stream(fs) == Stream(fs[..|fs| - 1]) + Wire(fs[|fs| - 1])
  {
  }

  // What decoding finds is what was there.
  lemma {:induction false} DecodeIsFaithful(s: seq<byte>)
    ensures var (fs, left) := DecodeAll(s);
      s == Stream(fs) + left && Decode(left) == None && forall j :: 0 <= j < |fs| ==> Fits(fs[j])
    decreases |s|
  {
    hide Wire, Stream, Decode, Fits;
    if Decode(s).Some? {
      var (f, rest) := Decode(s).value;
      DecodeIsFaithful(rest);
      var (fs, left) := DecodeAll(rest);
      DecodeCuts(s);
      StreamFront(f, fs);
      assert Wire(f) + (Stream(fs) + left) == (Wire(f) + Stream(fs)) + left;
    } else {
      assert Stream([]) == [] by { StreamEmpty(); }
    }
  }

  lemma StreamEmpty()
    ensures Stream([]) == []
  {
  }

  lemma StreamFront(f: Frame, fs: seq<Frame>)
    ensures Stream([f] + fs) == Wire(f) + Stream(fs)
  {
    assert ([f] + fs)[1..] == fs && ([f] + fs)[0] == f;
    StreamSplit([f] + fs);
  }

  lemma DecodeCuts(s: seq<byte>)
    requires Decode(s).Some?
    ensures s == Wire(Decode(s).value.0) + Decode(s).value.1
  {
    var (f, rest) := Decode(s).value;
    var end := HEADER_SIZE + f.header.size as int;
    HeaderRoundTrip(f.header, s[..HEADER_SIZE]);
    assert s == s[..HEADER_SIZE] + s[HEADER_SIZE..end] + s[end..];
  }

  // --- Sockets -----------------------------------------------------------------------------

  lemma WireParts(f: Frame)
    ensures |Wire(f)| == HEADER_SIZE + |f.payload|
    ensures Wire(f)[..HEADER_SIZE] == Encode(f.header) && Wire(f)[HEADER_SIZE..] == f.payload
  {
  }

  lemma MoreSent(all: seq<byte>, at: nat, part: seq<byte>, n: nat)
    requires at + |part| <= |all| && part == all[at..at + |part|] && n <= |part|
    ensures all[..at] + part[..n] == all[..at + n]
  {
  }

  // The sending end: send accepts some of the bytes, or fails.
  class Sender {
    var wire: seq<byte>

    method Send(buf: seq<byte>) returns (n: int)
      requires buf != []
      modifies this
      ensures n <= |buf|
      ensures wire == if n > 0 then old(wire) + buf[..n] else old(wire)
    {
      n :| n <= |buf|;
      if n > 0 {
        wire := wire + buf[..n];
      }
    }

    // All of the packet goes out, or a proper beginning of it.
    method SendPacket(h: Header, data: seq<byte>) returns (res: int)
      requires |data| >= h.size as int
      modifies this
      ensures res == 0 || res == -1
      ensures res == 0 ==> wire == old(wire) + Wire(Frame(h, data[..h.size]))
      ensures res == -1 ==> exists k ::
        0 <= k < HEADER_SIZE + h.size as int && wire == old(wire) + Wire(Frame(h, data[..h.size]))[..k]
    {
      hide Wire, Encode;
      ghost var all := Wire(Frame(h, data[..h.size]));
      WireParts(Frame(h, data[..h.size]));
      var hdr := Encode(h);
      var left := HEADER_SIZE;
      assert all[..0] == [];
      while left != 0
        invariant 0 <= left <= HEADER_SIZE
        invariant wire == old(wire) + all[..HEADER_SIZE - left]
      {
        var wbytes := Send(hdr[HEADER_SIZE - left..]);
        if wbytes <= 0 {
          return -1;
        }
        MoreSent(all, HEADER_SIZE - left, hdr[HEADER_SIZE - left..], wbytes);
        left := left - wbytes;
      }
      left := h.size as int;
      var at := 0;
      while left != 0
        invariant 0 <= left && at + left == h.size as int && 0 <= at
        invariant wire == old(wire) + all[..HEADER_SIZE + at]
      {
        var wbytes := Send(data[at..at + left]);
        if wbytes <= 0 {
          return -1;
        }
        MoreSent(all, HEADER_SIZE + at, data[at..at + left], wbytes);
        left := left - wbytes;
        at := at + wbytes;
      }
      assert all[..HEADER_SIZE + at] == all;
      return 0;
    }
  }

  // The receiving end: recv takes some of the bytes that are still to come, up to a number;
  // nothing at the end of the stream; and it may fail, unless the connection is reliable.
  class Receiver {
    const reliable: bool
    var rest: seq<byte>

    method Recv(n: nat) returns (buf: seq<byte>, r: int)
      requires n > 0
      modifies this`rest
      ensures r <= n && (r <= 0 ==> buf == [] && rest == old(rest))
      ensures r > 0 ==> |buf| == r && old(rest) == buf + rest
      ensures reliable ==> (r > 0 <==> old(rest) != [])
    {
      if rest == [] {
        return [], 0;
      }
      r :| r <= n && r <= |rest| && (reliable ==> r > 0);
      if r <= 0 {
        return [], r;
      }
      buf := rest[..r];
      rest := rest[r..];
    }

    // The next packet of the stream, or failure when the stream ends or breaks before its end.
    method RecvPacket() returns (res: int, f: Frame)
      modifies this`rest
      ensures res == 0 || res == -1
      ensures res == 0 ==> Decode(old(rest)) == Some((f, rest))
      ensures reliable ==> (res == 0 <==> Decode(old(rest)).Some?)
    {
      hide Decode, Parse;
      f := Frame(Header(0, 0, 0, 0, 0, 0, 0, 0, 0), []);
      ghost var all := rest;
      var hdr: seq<byte> := [];
      var left := HEADER_SIZE;
      while left != 0
        invariant 0 <= left && |hdr| + left == HEADER_SIZE
        invariant all == hdr + rest
      {
        var buf, rbytes := Recv(left);
        if rbytes <= 0 {
          assert rest == [] ==> Decode(all) == None by { DecodeShort(hdr); }
          return -1, f;
        }
        hdr := hdr + buf;
        left := left - rbytes;
      }
      var h := Parse(hdr);
      left := h.size as int;
      var payload: seq<byte> := [];
      while left != 0
        invariant 0 <= left && |payload| + left == h.size as int
        invariant all == hdr + payload + rest
      {
        var buf, rbytes := Recv(left);
        if rbytes <= 0 {
          assert rest == [] ==> Decode(all) == None by { DecodeCutShort(hdr, payload); }
          return -1, f;
        }
        payload := payload + buf;
        left := left - rbytes;
      }
      DecodeParts(hdr, payload, rest);
      assert all == hdr + payload + rest;
      return 0, Frame(h, payload);
    }

    // Packet after packet until one fails, as a service thread receives them.
    method RecvAll() returns (fs: seq<Frame>)
      modifies this`rest
      ensures exists more :: DecodeAll(old(rest)).0 == fs + more
      ensures reliable ==> fs == DecodeAll(old(rest)).0
    {
      fs := [];
      while true
        invariant var (all, end) := DecodeAll(old(rest));
          var (more, left) := DecodeAll(rest);
          all == fs + more && end == left
        decreases |rest|
      {
        ghost var before := rest;
        var res, f := RecvPacket();
        if res == -1 {
          assert reliable ==> Decode(before) == None && DecodeAll(before).0 == [];
          return;
        }
        assert DecodeAll(before).0 == [f] + DecodeAll(rest).0;
        fs := fs + [f];
      }
    }
  }
}
