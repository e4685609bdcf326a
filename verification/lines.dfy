// The connection of one client, written by any number of threads: a packet goes out under the
// client's mutex, in as many short sends as it takes.
module Lines {
  import opened Prelude
  import opened Protocol

  // The packet that the holder of the mutex is sending, and how much of it is out.
  datatype Turn = Turn(thread: nat, frame: Frame, count: nat)

  datatype Line = Line(
    wire: seq<byte>,
    turn: Option<Turn>,
    sent: seq<Frame>,            // the packets sent in full, in the order of the mutex
    broken: bool)                // a send has failed inside a packet

  datatype Act =
    | Lock(thread: nat, frame: Frame)
    | Send(thread: nat, count: nat)
    | Unlock(thread: nat)
    | Fail(thread: nat)

  predicate Holds(l: Line, t: nat) { l.turn.Some? && l.turn.value.thread == t }

  // A thread that must wait for the mutex, or has nothing to send or to unlock, does nothing.
  function Next(l: Line, a: Act): Line
  {
    match a
    case Lock(t, f) => if l.turn == None && Fits(f) then l.(turn := Some(Turn(t, f, 0))) else l
    case Send(t, n) =>
      if Holds(l, t) && l.turn.value.count + n <= |Wire(l.turn.value.frame)| then
        var (f, k) := (l.turn.value.frame, l.turn.value.count);
        l.(wire := l.wire + Wire(f)[k..k + n], turn := Some(Turn(t, f, k + n)))
      else l
    case Unlock(t) =>
      if Holds(l, t) && l.turn.value.count == |Wire(l.turn.value.frame)|
      then l.(turn := None, sent := l.sent + [l.turn.value.frame])
      else l
    case Fail(t) =>
      if Holds(l, t) && l.turn.value.count < |Wire(l.turn.value.frame)|
      then l.(turn := None, broken := l.broken || l.turn.value.count > 0)
      else l
  }

  function Run(acts: seq<Act>): Line
  {
    if acts == [] then Line([], None, [], false) else Next(Run(acts[..|acts| - 1]), acts[|acts| - 1])
  }

  // Unless a send has failed inside a packet, the bytes are those of complete packets in the
  // order of the mutex, followed by a beginning of the packet of its holder; otherwise there are
  // more.
  ghost predicate Whole(l: Line)
  {
    && (forall j :: 0 <= j < |l.sent| ==> Fits(l.sent[j]))
    && (l.turn.Some? ==> Fits(l.turn.value.frame) && l.turn.value.count <= |Wire(l.turn.value.frame)|)
    && if l.broken then |l.wire| > |Stream(l.sent)| + |Begun(l.turn)| else l.wire == Stream(l.sent) + Begun(l.turn)
  }

  function Begun(turn: Option<Turn>): seq<byte>
  {
    if turn.Some? && turn.value.count <= |Wire(turn.value.frame)| then Wire(turn.value.frame)[..turn.value.count] else []
  }

  lemma NextWhole(l: Line, a: Act)
    requires Whole(l)
    ensures Whole(Next(l, a))
  {
    hide Wire, Stream, Fits;
    match a
    case Lock(t, f) => assert Wire(f)[..0] == [];
    case Send(t, n) =>
      if Holds(l, t) && l.turn.value.count + n <= |Wire(l.turn.value.frame)| {
        Extended(l.wire, Stream(l.sent), Wire(l.turn.value.frame), l.turn.value.count, n);
      }
    case Unlock(t) =>
      if Holds(l, t) && l.turn.value.count == |Wire(l.turn.value.frame)| {
        OneMore(l.sent, l.turn.value.frame);
      }
    case Fail(t) =>
  }

  lemma Extended(wire: seq<byte>, before: seq<byte>, w: seq<byte>, k: nat, n: nat)
    requires k + n <= |w|
    ensures wire == before + w[..k] ==> wire + w[k..k + n] == before + w[..k + n]
  {
  }

  lemma OneMore(fs: seq<Frame>, f: Frame)
    ensures Stream(fs + [f]) == Stream(fs) + Wire(f) && Wire(f)[..|Wire(f)|] == Wire(f)
  {
  }

  lemma {:induction false} RunsWhole(acts: seq<Act>)
    ensures Whole(Run(acts))
  {
    if acts != [] {
      RunsWhole(acts[..|acts| - 1]);
      NextWhole(Run(acts[..|acts| - 1]), acts[|acts| - 1]);
    }
  }

  // What the receiver has of the packets: those that are complete.
  function Complete(l: Line): seq<Frame>
  {
    l.sent + (if l.turn.Some? && l.turn.value.count == |Wire(l.turn.value.frame)| then [l.turn.value.frame] else [])
  }

  // However many threads send and however their sends are cut, the receiver decodes exactly
  // the packets that have been written in full, in the order in which the threads had the
  // mutex.
  lemma ReceivedInOrder(acts: seq<Act>)
    ensures !Run(acts).broken ==> DecodeAll(Run(acts).wire).0 == Complete(Run(acts))
  {
    hide Run, Wire, Stream, DecodeAll, Fits;
    RunsWhole(acts);
    var l := Run(acts);
    if !l.broken {
      if l.turn == None {
        assert l.wire == Stream(l.sent) + [] == Stream(l.sent);
        NothingMore(l.sent);
      } else {
        var f, k := l.turn.value.frame, l.turn.value.count;
        if k < |Wire(f)| {
          StreamRoundTrip(l.sent, f, k);
        } else {
          OneMore(l.sent, f);
          NothingMore(l.sent + [f]);
        }
      }
    }
  }

  // --- A send that fails inside a packet ----------------------------------------------------

  // What the receiver would have of a packet sent next, after those already sent in full.
  ghost predicate ReadsNext(l: Line, g: Frame) { DecodeAll(l.wire + Wire(g)).0 == l.sent + [g] }

  // While nobody is sending, the next packet, whichever it is, is read as it was sent after all
  // those before it exactly if no send has ever failed inside a packet.
  lemma BrokenForGood(acts: seq<Act>)
    requires Run(acts).turn == None
    ensures !Run(acts).broken <==> forall g | Fits(g) :: ReadsNext(Run(acts), g)
  {
    hide Run, Wire, Stream, DecodeAll, Fits, ReadsNext;
    RunsWhole(acts);
    var l := Run(acts);
    if l.broken {
      var g, h := Short(0), Short(1);
      assert Fits(g) && Fits(h) && g.header.kind != h.header.kind by { TwoKinds(); }
      NotBoth(l, g, h);
    } else {
      forall g | Fits(g)
        ensures ReadsNext(l, g)
      {
        assert l.wire == Stream(l.sent) + [] == Stream(l.sent);
        OneMore(l.sent, g);
        NothingMore(l.sent + [g]);
        NextRead(l, g);
      }
    }
  }

  // A packet without a payload.
  function Short(kind: byte): Frame { Frame(Header(kind, 0, 0, 0, 0, 0, 0, 0, 0), []) }

  lemma TwoKinds()
    ensures Fits(Short(0)) && Fits(Short(1))
  {
  }

  lemma NextRead(l: Line, g: Frame)
    requires DecodeAll(l.wire + Wire(g)).0 == l.sent + [g]
    ensures ReadsNext(l, g)
  {
  }

  // On a line with too many bytes the first byte of the next packet stands where one of those
  // does, so of two packets of different kinds at most one can be read.
  lemma NotBoth(l: Line, g: Frame, h: Frame)
    requires |l.wire| > |Stream(l.sent)| && g.header.kind != h.header.kind
    ensures !ReadsNext(l, g) || !ReadsNext(l, h)
  {
    hide Stream, DecodeAll, Wire;
    if ReadsNext(l, g) && ReadsNext(l, h) {
      KindThere(l.wire, l.sent, g);
      KindThere(l.wire, l.sent, h);
    }
  }

  lemma KindThere(wire: seq<byte>, sent: seq<Frame>, g: Frame)
    requires |wire| > |Stream(sent)| && DecodeAll(wire + Wire(g)).0 == sent + [g]
    ensures wire[|Stream(sent)|] == g.header.kind
  {
    hide Stream, DecodeAll;
    var left := DecodeAll(wire + Wire(g)).1;
    DecodeIsFaithful(wire + Wire(g));
    OneMore(sent, g);
    assert wire + Wire(g) == Stream(sent) + Wire(g) + left;
    assert (wire + Wire(g))[|Stream(sent)|] == wire[|Stream(sent)|];
    assert (Stream(sent) + Wire(g) + left)[|Stream(sent)|] == Wire(g)[0];
  }

  lemma RunMore(acts: seq<Act>, a: Act)
    ensures Run(acts + [a]) == Next(Run(acts), a)
  {
  }

  // For instance: the packet g, sent in full after one byte of a packet of another kind, is not
  // what the receiver reads.
  lemma BrokenLine(f: Frame, g: Frame)
    requires Fits(f) && Fits(g) && f.header.kind != g.header.kind
    ensures var l := Run([Lock(0, f)] + [Send(0, 1)] + [Fail(0)]);
      l.broken && l.turn == None && l.sent == [] && !ReadsNext(l, g)
  {
    hide Run, Decode, DecodeAll, Fits;
    assert Run([]) == Line([], None, [], false) by { EmptyRun(); }
    RunMore([], Lock(0, f));
    assert [] + [Lock(0, f)] == [Lock(0, f)];
    RunMore([Lock(0, f)], Send(0, 1));
    RunMore([Lock(0, f)] + [Send(0, 1)], Fail(0));
    var first := Wire(f)[0..1];
    assert first == [f.header.kind] && [] + first == first;
    WrongKind(f.header.kind, g);
  }

  lemma EmptyRun()
    ensures Run([]) == Line([], None, [], false)
  {
  }

  lemma WrongKind(kind: byte, g: Frame)
    requires kind != g.header.kind
    ensures DecodeAll([kind] + Wire(g)).0 != [g]
  {
    var s := [kind] + Wire(g);
    if Decode(s).Some? {
      assert s[..HEADER_SIZE][0] == kind;
      assert DecodeAll(s).0[0] == Decode(s).value.0;
    }
  }

  lemma NothingMore(fs: seq<Frame>)
    requires forall j :: 0 <= j < |fs| ==> Fits(fs[j])
    ensures DecodeAll(Stream(fs)).0 == fs
  {
    var f := Frame(Header(0, 0, 0, 0, 0, 0, 0, 0, 0), []);
    StreamRoundTrip(fs, f, 0);
    assert Stream(fs) + Wire(f)[..0] == Stream(fs);
  }
}
