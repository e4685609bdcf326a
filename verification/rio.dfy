// Buffered reading: a reader that keeps a block of the input in memory delivers the same bytes
// as one that reads the plain stream, however the blocks fall.
module Rio {
  import opened Prelude

  const RIO_BUFSIZE: nat := 8192
  const NEWLINE: byte := 10

  // What read does: some bytes, the end of the file, an interruption, or an error. There are
  // only so many interruptions, and no errors if the file is reliable.
  class Descriptor {
    const reliable: bool
    var rest: seq<byte>
    var interruptions: nat

    method Read(n: nat) returns (buf: seq<byte>, r: int, interrupted: bool)
      requires n > 0
      modifies this
      ensures r <= n && old(rest) == buf + rest
      ensures r >= 0 ==> |buf| == r && interruptions == old(interruptions) && (r == 0 <==> old(rest) == [])
      ensures r < 0 ==> buf == []
      ensures r < 0 && interrupted ==> interruptions < old(interruptions)
      ensures r < 0 && !interrupted ==> !reliable
    {
      buf, interrupted := [], false;
      var most := Min(n, |rest|);
      assert most == 0 <==> rest == [];
      r :| r <= most && (r == 0 ==> rest == []) && (r < 0 && reliable ==> interruptions > 0);
      if r < 0 {
        interrupted := interruptions > 0;
        if interrupted {
          interruptions := interruptions - 1;
        }
      } else {
        buf := rest[..r];
        rest := rest[r..];
      }
    }
  }

  // The length of the first line of s, cut off after max bytes or at the end.
  function LineLength(s: seq<byte>, max: nat): (k: nat)
    ensures k <= max && k <= |s|
  {
    if s == [] || max == 0 then 0
    else if s[0] == NEWLINE then 1
    else 1 + LineLength(s[1..], max - 1)
  }

  // One more byte of a line.
  lemma LineStep(s: seq<byte>, at: nat, max: nat)
    requires at < |s| && max > 0
    ensures LineLength(s[at..], max) == if s[at] == NEWLINE then 1 else 1 + LineLength(s[at + 1..], max - 1)
  {
    assert s[at..][1..] == s[at + 1..];
  }

  lemma LineStops(s: seq<byte>, max: nat)
    requires s == [] || max == 0
    ensures LineLength(s, max) == 0
  {
  }

  function Min(a: nat, b: nat): nat { if a < b then a else b }

  // Puts t into s at a place.
  function Spliced(s: seq<byte>, at: nat, t: seq<byte>): seq<byte>
    requires at + |t| <= |s|
  {
    s[..at] + t + s[at + |t|..]
  }

  // A buffer whose first k bytes are those of s.
  function Filled(s: seq<byte>, before: seq<byte>, k: nat): seq<byte>
    requires k <= |s| && k <= |before|
  {
    s[..k] + before[k..]
  }

  lemma FilledMore(s: seq<byte>, before: seq<byte>, k: nat, r: nat)
    requires k + r <= |s| && k + r <= |before|
    ensures var f := Filled(s, before, k);
      Spliced(f, k, s[k..][..r]) == Filled(s, before, k + r)
    ensures s[k..][r..] == s[k + r..]
  {
    var f := Filled(s, before, k);
    assert f[..k] == s[..k] && f[k + r..] == before[k + r..];
    assert s[..k] + s[k..][..r] == s[..k + r];
  }

  lemma FilledOne(s: seq<byte>, before: seq<byte>, k: nat)
    requires k < |s| && k < |before|
    ensures Filled(s, before, k)[k := s[k]] == Filled(s, before, k + 1) && s[k..][1..] == s[k + 1..]
  {
  }

  lemma FilledNone(s: seq<byte>, before: seq<byte>)
    ensures s[0..] == s && Filled(s, before, 0) == before
  {
  }

  lemma FilledParts(s: seq<byte>, before: seq<byte>, k: nat)
    requires k <= |s| && k <= |before|
    ensures Filled(s, before, k) == s[..k] + before[k..]
  {
  }

  lemma FilledEnd(s: seq<byte>, before: seq<byte>, k: nat)
    requires k <= |s| && k < |before|
    ensures var f := Filled(s, before, k)[k := 0];
      f[..k] == s[..k] && f[k] == 0 && f[k + 1..] == before[k + 1..]
  {
  }

  lemma LeftOver(block: seq<byte>, rest: seq<byte>, k: nat)
    requires k <= |block|
    ensures (block + rest)[k..] == block[k..] + rest
  {
  }

  class Reader {
    const fd: Descriptor
    const buf: array<byte>
    var cnt: int
    var ptr: nat

    ghost predicate Valid()
      reads this
    {
      buf.Length == RIO_BUFSIZE && ptr <= RIO_BUFSIZE && (cnt > 0 ==> ptr + cnt <= RIO_BUFSIZE)
    }

    // The bytes that have not been delivered: what is left in the buffer and in the file.
    ghost function Unread(): seq<byte>
      requires Valid()
      reads this, buf, fd
    {
      (if cnt > 0 then buf[ptr..ptr + cnt] else []) + fd.rest
    }

    constructor (fd: Descriptor)
      ensures Valid() && this.fd == fd && fresh(buf) && Unread() == fd.rest
    {
      this.fd := fd;
      buf := new byte[RIO_BUFSIZE](_ => 0);
      cnt := 0;
      ptr := 0;
    }

    // Fills the buffer when it is empty.
    method Refill() returns (res: int)
      requires Valid()
      modifies this`cnt, this`ptr, buf, fd
      ensures Valid() && Unread() == old(Unread())
      ensures res > 0 ==> cnt > 0
      ensures res == 0 ==> Unread() == []
      ensures res < 0 ==> !fd.reliable
    {
      while cnt <= 0
        invariant Valid() && Unread() == old(Unread())
        decreases fd.interruptions, if cnt <= 0 then 1 else 0
      {
        var block, r, interrupted := fd.Read(RIO_BUFSIZE);
        cnt := r;
        if r < 0 {
          if !interrupted {
            return -1;
          }
        } else if r == 0 {
          return 0;
        } else {
          forall k | 0 <= k < r {
            buf[k] := block[k];
          }
          ptr := 0;
          assert buf[ptr..ptr + cnt] == block;
        }
      }
      return 1;
    }

    method Copy(usr: array<byte>, at: nat, count: nat)
      requires Valid() && cnt > 0 && count <= cnt && at + count <= usr.Length && usr != buf
      modifies usr
      ensures usr[..] == Spliced(old(usr[..]), at, old(Unread())[..count])
    {
      ghost var s := Unread();
      assert s[..count] == buf[ptr..ptr + count];
      forall k | 0 <= k < count {
        usr[at + k] := buf[ptr + k];
      }
      assert forall k :: 0 <= k < usr.Length ==> usr[k] == if at <= k < at + count then buf[ptr + (k - at)] else old(usr[k]);
    }

    // Copies at most n bytes to the place "at" of the user's buffer.
    method Read(usr: array<byte>, at: nat, n: nat) returns (res: int)
      requires Valid() && n > 0 && at + n <= usr.Length && usr != buf
      modifies this`cnt, this`ptr, buf, fd, usr
      ensures Valid() && res <= n
      ensures res > 0 ==> res <= |old(Unread())| && Unread() == old(Unread())[res..]
      ensures res > 0 ==> usr[..] == Spliced(old(usr[..]), at, old(Unread())[..res])
      ensures res <= 0 ==> Unread() == old(Unread()) && usr[..] == old(usr[..])
      ensures res == 0 ==> Unread() == []
      ensures res < 0 ==> !fd.reliable
    {
      hide Spliced;
      res := Refill();
      if res <= 0 {
        return;
      }
      var count := n;
      if cnt < n {
        count := cnt;
      }
      Copy(usr, at, count);
      ghost var block := buf[ptr..ptr + cnt];
      LeftOver(block, fd.rest, count);
      ptr := ptr + count;
      cnt := cnt - count;
      assert block[count..] == buf[ptr..ptr + cnt];
      return count;
    }

    // The next byte, if there is one.
    method ReadByte() returns (rc: int, c: byte)
      requires Valid()
      modifies this`cnt, this`ptr, buf, fd
      ensures Valid() && rc <= 1
      ensures rc > 0 ==> old(Unread()) != [] && c == old(Unread())[0] && Unread() == old(Unread())[1..]
      ensures rc <= 0 ==> Unread() == old(Unread())
      ensures rc == 0 ==> Unread() == []
      ensures rc < 0 ==> !fd.reliable
    {
      var one := new byte[1];
      rc := Read(one, 0, 1);
      assert one[..][0] == one[0];
      c := one[0];
    }

    // n bytes, or all there are.
    method ReadN(usr: array<byte>, n: nat) returns (res: int)
      requires Valid() && n <= usr.Length && usr != buf
      modifies this`cnt, this`ptr, buf, fd, usr
      ensures Valid() && (res < 0 ==> res == -1 && !fd.reliable)
      ensures res >= 0 ==>
        && res == Min(n, |old(Unread())|) && Unread() == old(Unread())[res..]
        && usr[..] == old(Unread())[..res] + old(usr[..])[res..]
    {
      hide Filled, Spliced, Reader.Unread, Reader.Valid;
      var left, at := n, 0;
      ghost var s, before := Unread(), usr[..];
      assert s[0..] == s && usr[..] == Filled(s, before, 0) by { FilledNone(s, before); }
      while left > 0
        invariant 0 <= left && at + left == n && 0 <= at <= |s|
        invariant Valid() && Unread() == s[at..] && usr[..] == Filled(s, before, at)
        decreases left
      {
        var r := Read(usr, at, left);
        if r < 0 {
          return -1;
        } else if r == 0 {
          break;
        }
        FilledMore(s, before, at, r);
        left := left - r;
        at := at + r;
      }
      FilledParts(s, before, at);
      return n - left;
    }

    // A line with its newline, as much of one as fits, or what is left; and a null byte behind
    // it, except when there is nothing to read.
    method ReadLine(usr: array<byte>, maxlen: nat) returns (res: int)
      requires Valid() && 1 <= maxlen <= usr.Length && usr != buf
      modifies this`cnt, this`ptr, buf, fd, usr
      ensures Valid() && (res < 0 ==> res == -1 && !fd.reliable)
      ensures res >= 0 ==>
        && res == LineLength(old(Unread()), maxlen - 1) && Unread() == old(Unread())[res..]
        && usr[..res] == old(Unread())[..res]
        && (if old(Unread()) == [] && maxlen > 1 then usr[..] == old(usr[..])
            else usr[res] == 0 && usr[res + 1..] == old(usr[res + 1..]))
    {
      hide Filled, LineLength, Reader.Unread, Reader.Valid;
      var n := 1;
      ghost var s, before := Unread(), usr[..];
      assert s[0..] == s && usr[..] == Filled(s, before, 0) by { FilledNone(s, before); }
      while n < maxlen
        invariant 1 <= n <= maxlen && n - 1 <= |s|
        invariant Valid() && Unread() == s[n - 1..] && usr[..] == Filled(s, before, n - 1)
        invariant LineLength(s, maxlen - 1) == n - 1 + LineLength(s[n - 1..], maxlen - n)
      {
        var rc, c := ReadByte();
        if rc == 1 {
          FilledOne(s, before, n - 1);
          LineStep(s, n - 1, maxlen - n);
          usr[n - 1] := c;
          if c == NEWLINE {
            n := n + 1;
            break;
          }
          n := n + 1;
        } else if rc == 0 {
          LineStops(s[n - 1..], maxlen - n);
          if n == 1 {
            return 0;
          } else {
            break;
          }
        } else {
          return -1;
        }
      }
      LineStops(s[n - 1..], 0);
      Terminate(usr, n - 1, s, before);
      return n - 1;
    }
  }

  method Terminate(usr: array<byte>, k: nat, ghost s: seq<byte>, ghost before: seq<byte>)
    requires k < usr.Length == |before| && k <= |s| && usr[..] == Filled(s, before, k)
    modifies usr
    ensures usr[..k] == s[..k] && usr[k] == 0 && usr[k + 1..] == before[k + 1..]
  {
    FilledEnd(s, before, k);
    ghost var full := usr[..];
    usr[k] := 0;
    assert usr[..] == full[k := 0];
    assert usr[..k] == usr[..][..k] && usr[k + 1..] == usr[..][k + 1..];
  }

  // --- Any mix of calls --------------------------------------------------------------------

  datatype Call = Bytes(n: nat) | Line(maxlen: nat)

  // The length of the piece that a call takes off the plain stream s.
  function Taken(s: seq<byte>, c: Call): (k: nat)
    ensures k <= |s|
  {
    match c
    case Bytes(n) => Min(n, |s|)
    case Line(maxlen) => if maxlen == 0 then 0 else LineLength(s, maxlen - 1)
  }

  // The pieces that the calls take off the plain stream, and what is left.
  function Pieces(s: seq<byte>, calls: seq<Call>): (seq<seq<byte>>, seq<byte>)
  {
    if calls == [] then ([], s)
    else
      var n := |calls| - 1;
      var (before, rest) := Pieces(s, calls[..n]);
      var k := Taken(rest, calls[n]);
      (before + [rest[..k]], rest[k..])
  }

  function Joined(pieces: seq<seq<byte>>): seq<byte>
  {
    if pieces == [] then [] else Joined(pieces[..|pieces| - 1]) + pieces[|pieces| - 1]
  }

  // No byte is lost, doubled or moved.
  lemma {:induction false} NothingLost(s: seq<byte>, calls: seq<Call>)
    ensures Joined(Pieces(s, calls).0) + Pieces(s, calls).1 == s
  {
    if calls != [] {
      var n := |calls| - 1;
      NothingLost(s, calls[..n]);
      var (before, rest) := Pieces(s, calls[..n]);
      var k := Taken(rest, calls[n]);
      assert (before + [rest[..k]])[..|before|] == before;
      assert Joined(before) + rest == (Joined(before) + rest[..k]) + rest[k..];
    }
  }

  // A line ends with the first newline, unless it is cut off or the stream ends first.
  lemma {:induction false} LineEnds(s: seq<byte>, max: nat)
    ensures var k := LineLength(s, max);
      && k <= max && k <= |s|
      && (forall j :: 0 <= j < k - 1 ==> s[j] != 10)
      && (k < max && k < |s| ==> k > 0 && s[k - 1] == 10)
  {
    if s != [] && max > 0 && s[0] != NEWLINE {
      LineEnds(s[1..], max - 1);
    }
  }

  method ReadOne(reader: Reader, call: Call) returns (piece: seq<byte>)
    requires reader.Valid() && reader.fd.reliable && (call.Line? ==> call.maxlen >= 1)
    modifies reader`cnt, reader`ptr, reader.buf, reader.fd
    ensures reader.Valid()
    ensures var k := Taken(old(reader.Unread()), call);
      piece == old(reader.Unread())[..k] && reader.Unread() == old(reader.Unread())[k..]
  {
    var res;
    var usr;
    match call {
      case Bytes(n) =>
        usr := new byte[n](_ => 0);
        res := reader.ReadN(usr, n);
      case Line(maxlen) =>
        usr := new byte[maxlen](_ => 0);
        res := reader.ReadLine(usr, maxlen);
    }
    piece := usr[..res];
  }

  // A call for a line into maxlen bytes leaves one for the null byte, and stops short of that
  // only after a newline or at the end.
  lemma LineFits(s: seq<byte>, maxlen: nat)
    requires maxlen > 0
    ensures var k := Taken(s, Line(maxlen));
      && k < maxlen && k <= |s|
      && (forall j :: 0 <= j < k - 1 ==> s[j] != 10)
      && (k == maxlen - 1 || k == |s| || (k > 0 && s[k - 1] == 10))
  {
    LineEnds(s, maxlen - 1);
  }

  // However the blocks fall and whenever reads are interrupted, a reader without read errors
  // delivers what the calls take off the plain stream.
  method ReadAll(reader: Reader, calls: seq<Call>) returns (pieces: seq<seq<byte>>)
    requires reader.Valid() && reader.fd.reliable
    requires forall k :: 0 <= k < |calls| && calls[k].Line? ==> calls[k].maxlen >= 1
    modifies reader`cnt, reader`ptr, reader.buf, reader.fd
    ensures reader.Valid() && (pieces, reader.Unread()) == Pieces(old(reader.Unread()), calls)
  {
    pieces := [];
    var k := 0;
    while k < |calls|
      invariant 0 <= k <= |calls| && reader.Valid()
      invariant (pieces, reader.Unread()) == Pieces(old(reader.Unread()), calls[..k])
    {
      assert calls[..k + 1][..k] == calls[..k];
      var piece := ReadOne(reader, calls[k]);
      pieces := pieces + [piece];
      k := k + 1;
    }
    assert calls[..k] == calls;
  }
}
