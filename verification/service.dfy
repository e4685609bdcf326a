// The server at work: connections are opened, served and lost in any order.
module Services {
  import opened Players
  import opened Objects
  import opened Packets
  import opened Lobbies
  import opened Requests
  import opened Keeping
  import opened Worlds
  import opened Sessions
  import opened Runs
  import opened Answers
  import opened Servers

  // A world that has come about by the events, from a lobby l and after the packets in sent.
  // After a crash nothing is said about its memory.
  ghost predicate After(w: World, l: Lobby, sent: seq<Sent>, events: seq<Event>, crashed: bool)
    reads w, w.Repr
  {
    var done := RunFrom(w.curve, l, events);
    && AtRest(l) && Possible(w.curve, l, events)
    && crashed == done.crashed && w.sent == sent + done.sent
    && (!crashed ==> w.Valid() && w.held == NOTHING && w.lobby == done.lobby && AtRest(w.lobby))
  }

  method OpenOne(w: World, fd: int, ghost l: Lobby, ghost sent: seq<Sent>, ghost events: seq<Event>) returns (c: Client?)
    requires After(w, l, sent, events, false)
    modifies w.Repr
    ensures fresh(w.Repr - old(w.Repr))
    ensures c != null <==> null in old(w.lobby).registry
    ensures c == null ==> After(w, l, sent, events, false) && w.lobby == old(w.lobby)
    ensures c != null ==>
      && After(w, l, sent, events + [Connect(c)], false)
      && c !in old(w.lobby).members && w.lobby.loops.Keys == old(w.lobby).loops.Keys + {c}
  {
    hide World.Valid, AtRest, Possible, Connected, RunFrom;
    ghost var before := w.lobby;
    c := RegisterClient(w, fd);
    if c != null {
      OneMoreEvent(w.curve, l, events, Connect(c));
      ConnectedKeeps(before, c);
      assert sent + RunFrom(w.curve, l, events).sent + [] == sent + (RunFrom(w.curve, l, events).sent + []);
    }
  }

  method ServeOne(w: World, c: Client, r: Request, address: nat, ghost l: Lobby, ghost sent: seq<Sent>, ghost events: seq<Event>)
    returns (crashed: bool, ghost p: Player?, ghost i: Invitation?)
    requires After(w, l, sent, events, false) && c in w.lobby.loops
    modifies w.Repr
    ensures fresh(w.Repr - old(w.Repr))
    ensures After(w, l, sent, events + [Serve(c, r, p, i)], crashed)
    ensures !crashed ==> w.lobby.loops.Keys == old(w.lobby).loops.Keys
  {
    hide World.Valid, AtRest, Possible, Handled, RunFrom, Supplied, Settled, Means;
    hide LoginMeans, UsersMeans, InviteMeans, RevokeMeans, DeclineMeans, AcceptMeans, MoveMeans, ResignMeans;
    ghost var before := w.lobby;
    crashed, p, i := Handle(w, c, r, address);
    ghost var done := Handled(w.curve, before, c, r, p, i);
    ServeStep(w.curve, l, events, before, c, r, p, i);
    assert sent + RunFrom(w.curve, l, events).sent + done.sent == sent + (RunFrom(w.curve, l, events).sent + done.sent);
  }

  lemma ServeStep(
    curve: Curve, l: Lobby, events: seq<Event>, before: Lobby, c: Client, r: Request, p: Player?, i: Invitation?)
    requires Possible(curve, l, events) && !RunFrom(curve, l, events).crashed && RunFrom(curve, l, events).lobby == before
    requires AtRest(before) && c in before.loops && Supplied(before, c, r, p, i)
    ensures Settled(before) && c in before.members && (before.loops[c] != null ==> Playing(before, c))
    ensures Possible(curve, l, events + [Serve(c, r, p, i)])
    ensures var done := Handled(curve, before, c, r, p, i);
      && RunFrom(curve, l, events + [Serve(c, r, p, i)]) ==
           Done(done.lobby, 0, RunFrom(curve, l, events).sent + done.sent, done.crashed)
      && AtRest(done.lobby) && done.lobby.loops.Keys == before.loops.Keys
  {
    hide AtRest, Possible, Handled, RunFrom, Supplied, Settled;
    OneMoreEvent(curve, l, events, Serve(c, r, p, i));
    HandledKeeps(curve, before, c, r, p, i);
  }

  method LoseOne(w: World, c: Client, ghost l: Lobby, ghost sent: seq<Sent>, ghost events: seq<Event>) returns (crashed: bool)
    requires After(w, l, sent, events, false) && c in w.lobby.loops
    modifies w.Repr
    ensures fresh(w.Repr - old(w.Repr))
    ensures After(w, l, sent, events + [HangUp(c)], crashed)
    ensures !crashed ==> w.lobby.loops.Keys == old(w.lobby).loops.Keys - {c}
  {
    hide World.Valid, AtRest, Possible, HungUp, RunFrom, Remains;
    ghost var before := w.lobby;
    HungUpKeeps(w.curve, before, c);
    crashed := Exit(w, c);
    OneMoreEvent(w.curve, l, events, HangUp(c));
  }

  lemma Begins(w: World)
    requires w.Valid() && w.held == NOTHING && AtRest(w.lobby)
    ensures After(w, w.lobby, w.sent, [], false)
  {
    hide World.Valid, AtRest;
    NoEvents(w.curve, w.lobby);
  }

  // --- One service thread -------------------------------------------------------------------

  // The events are those of one connection with the packets, as far as they go.
  ghost predicate Conversation(c: Client, packets: seq<Request>, events: seq<Event>)
  {
    && |events| <= |packets| + 2
    && forall k :: 0 <= k < |events| ==>
         if k == 0 then events[k] == Connect(c)
         else if k <= |packets| then events[k].Serve? && events[k].client == c && events[k].request == packets[k - 1]
         else events[k] == HangUp(c)
  }

  // The loop of a service thread, up to the end of its packets or a crash.
  method Converse(w: World, c: Client, packets: seq<Request>, ghost l: Lobby, ghost sent: seq<Sent>, ghost start: seq<Event>)
    returns (crashed: bool, ghost events: seq<Event>)
    requires After(w, l, sent, start, false) && start == [Connect(c)] && c in w.lobby.loops
    modifies w.Repr
    ensures fresh(w.Repr - old(w.Repr)) && After(w, l, sent, events, crashed)
    ensures Conversation(c, packets, events) && |events| <= |packets| + 1 && (!crashed ==> |events| == |packets| + 1)
    ensures !crashed ==> w.lobby.loops.Keys == old(w.lobby).loops.Keys
  {
    hide After;
    crashed, events := false, start;
    var k := 0;
    while k < |packets|
      invariant 0 <= k <= |packets|
      invariant fresh(w.Repr - old(w.Repr)) && After(w, l, sent, events, false)
      invariant w.lobby.loops.Keys == old(w.lobby).loops.Keys
      invariant Conversation(c, packets, events) && |events| == k + 1
    {
      ghost var p, i;
      crashed, p, i := ServeOne(w, c, packets[k], k, l, sent, events);
      events := events + [Serve(c, packets[k], p, i)];
      if crashed {
        return;
      }
      k := k + 1;
    }
  }

  // A service thread whose packets arrive without others in between: it registers its client,
  // does what each packet asks for, and hangs up; without a free slot it does nothing.
  method Service(w: World, fd: int, packets: seq<Request>) returns (c: Client?, crashed: bool, ghost events: seq<Event>)
    requires w.Valid() && AtRest(w.lobby) && w.held == NOTHING
    modifies w.Repr
    ensures fresh(w.Repr - old(w.Repr)) && After(w, old(w.lobby), old(w.sent), events, crashed)
    ensures c != null <==> null in old(w.lobby).registry
    ensures c == null ==> events == [] && !crashed
    ensures c != null ==> Conversation(c, packets, events) && (!crashed ==> |events| == |packets| + 2)
    ensures !crashed ==> w.lobby.loops.Keys == old(w.lobby).loops.Keys
  {
    hide After;
    ghost var l, sent := w.lobby, w.sent;
    LoopsIn(l);
    Begins(w);
    crashed, events := false, [];
    c := OpenOne(w, fd, l, sent, events);
    if c == null {
      return;
    }
    events := [] + [Connect(c)];
    crashed, events := Converse(w, c, packets, l, sent, events);
    if crashed {
      return;
    }
    crashed := LoseOne(w, c, l, sent, events);
    events := events + [HangUp(c)];
  }

  lemma LoopsIn(l: Lobby)
    requires AtRest(l)
    ensures forall c | c in l.loops :: c in l.members
  {
    hide Served;
    LoopsAreMembers(l);
  }

  // --- The whole server ---------------------------------------------------------------------

  // What comes in from the network; connections are numbered by their place in a list.
  datatype Command = Open(fd: int) | Incoming(which: nat, packet: Request) | Lost(which: nat)

  // All the events of the steps that the server has taken.
  ghost function Flat(steps: seq<seq<Event>>): seq<Event>
  {
    if steps == [] then [] else Flat(steps[..|steps| - 1]) + steps[|steps| - 1]
  }

  // What a step does to the list of open connections.
  ghost function Opened(conns: seq<Client>, command: Command, step: seq<Event>): seq<Client>
  {
    if command.Open? && step != [] then conns + [step[0].client]
    else if command.Lost? && command.which < |conns| then conns[..command.which] + conns[command.which + 1..]
    else conns
  }

  // The connections that are open after the steps, in the order in which they were accepted.
  ghost function OpenAfter(commands: seq<Command>, steps: seq<seq<Event>>): seq<Client>
    requires |steps| <= |commands|
  {
    if steps == [] then []
    else
      var n := |steps| - 1;
      Opened(OpenAfter(commands, steps[..n]), commands[n], steps[n])
  }

  // The step that a command stands for: a connection is accepted if there is a free slot, and
  // a packet is served and a hang-up is one if its connection is open. Only the objects that
  // are allocated are left open.
  ghost predicate Means(l: Lobby, conns: seq<Client>, command: Command, step: seq<Event>)
  {
    match command
    case Open(_) => if null in l.registry then |step| == 1 && step[0].Connect? else step == []
    case Incoming(which, packet) =>
      if which < |conns|
      then |step| == 1 && step[0].Serve? && step[0].client == conns[which] && step[0].request == packet
      else step == []
    case Lost(which) => step == if which < |conns| then [HangUp(conns[which])] else []
  }

  // The steps are those of the commands, one after the other, and none follows a crash.
  ghost predicate Follows(curve: Curve, commands: seq<Command>, steps: seq<seq<Event>>)
  {
    && |steps| <= |commands|
    && (steps != [] ==>
          var n := |steps| - 1;
          var before := Run(curve, Flat(steps[..n]));
          && Follows(curve, commands, steps[..n]) && !before.crashed
          && Means(before.lobby, OpenAfter(commands, steps[..n]), commands[n], steps[n]))
  }

  lemma FollowsMore(curve: Curve, commands: seq<Command>, steps: seq<seq<Event>>, step: seq<Event>)
    requires Follows(curve, commands, steps) && |steps| < |commands| && !Run(curve, Flat(steps)).crashed
    requires Means(Run(curve, Flat(steps)).lobby, OpenAfter(commands, steps), commands[|steps|], step)
    ensures Follows(curve, commands, steps + [step]) && Flat(steps + [step]) == Flat(steps) + step
    ensures OpenAfter(commands, steps + [step]) == Opened(OpenAfter(commands, steps), commands[|steps|], step)
  {
    hide Run, Means;
    assert (steps + [step])[..|steps|] == steps;
  }

  // One command: its step is taken, and the list of open connections brought up to date.
  method Obey(w: World, conns: seq<Client>, command: Command, address: nat, ghost events: seq<Event>)
    returns (crashed: bool, after: seq<Client>, ghost step: seq<Event>)
    requires After(w, Empty(), [], events, false) && Connected(conns, w.lobby)
    modifies w.Repr
    ensures fresh(w.Repr - old(w.Repr)) && After(w, Empty(), [], events + step, crashed)
    ensures Means(old(w.lobby), conns, command, step) && after == Opened(conns, command, step)
    ensures !crashed ==> Connected(after, w.lobby)
  {
    hide After;
    LoopsNow(w, events);
    crashed, after, step := false, conns, [];
    assert events + [] == events;
    match command {
      case Open(fd) =>
        var c := OpenOne(w, fd, Empty(), [], events);
        if c != null {
          after, step := conns + [c], [Connect(c)];
        }
      case Incoming(which, packet) =>
        if which < |conns| {
          ghost var p, i;
          crashed, p, i := ServeOne(w, conns[which], packet, address, Empty(), [], events);
          step := [Serve(conns[which], packet, p, i)];
        }
      case Lost(which) =>
        if which < |conns| {
          crashed := LoseOne(w, conns[which], Empty(), [], events);
          Apart(conns, which);
          after, step := conns[..which] + conns[which + 1..], [HangUp(conns[which])];
        }
    }
  }

  // Any number of connections, opened, served and lost in any order: the events are those that
  // the commands stand for; after each of them the records in memory are those of the lobby
  // that the events lead to, with exact reference counts, and the packets sent are those that
  // the events call for. The server crashes exactly where the run of the events does;
  // otherwise it carries out all commands.
  method RunServer(curve: Curve, commands: seq<Command>) returns (w: World, crashed: bool, ghost steps: seq<seq<Event>>)
    ensures fresh(w) && w.curve == curve
    ensures After(w, Empty(), [], Flat(steps), crashed) && Follows(curve, commands, steps)
    ensures crashed || |steps| == |commands|
  {
    hide After, Run, Flat, Follows, OpenAfter, Means, Opened;
    w := new World(curve);
    crashed, steps := false, [];
    NobodyThere();
    Begins(w);
    NoSteps(curve, commands);
    var conns: seq<Client> := [];
    var k := 0;
    while k < |commands|
      invariant 0 <= k <= |commands|
      invariant fresh(w) && fresh(w.Repr) && w.curve == curve && After(w, Empty(), [], Flat(steps), false)
      invariant Connected(conns, w.lobby)
      invariant |steps| == k && Follows(curve, commands, steps) && conns == OpenAfter(commands, steps)
    {
      ghost var step;
      ghost var events := Flat(steps);
      AfterRuns(w, events);
      crashed, conns, step := Obey(w, conns, commands[k], k, events);
      FollowsMore(curve, commands, steps, step);
      steps := steps + [step];
      k := k + 1;
      if crashed {
        return;
      }
    }
  }

  lemma NoSteps(curve: Curve, commands: seq<Command>)
    ensures Flat([]) == [] && Follows(curve, commands, []) && OpenAfter(commands, []) == []
  {
  }

  // The connections are all different and served.
  ghost predicate Connected(conns: seq<Client>, l: Lobby)
  {
    && (forall c | c in conns :: c in l.loops)
    && (forall i, j :: 0 <= i < j < |conns| ==> conns[i] != conns[j])
  }

  lemma AfterRuns(w: World, events: seq<Event>)
    requires After(w, Empty(), [], events, false)
    ensures !Run(w.curve, events).crashed && Run(w.curve, events).lobby == w.lobby
  {
    hide World.Valid, AtRest, Possible, RunFrom;
  }

  lemma LoopsNow(w: World, events: seq<Event>)
    requires After(w, Empty(), [], events, false)
    ensures forall c | c in w.lobby.loops :: c in w.lobby.members
  {
    hide World.Valid, AtRest, Possible, RunFrom;
    LoopsIn(w.lobby);
  }

  lemma Apart(conns: seq<Client>, which: nat)
    requires which < |conns| && forall i, j :: 0 <= i < j < |conns| ==> conns[i] != conns[j]
    ensures var others := conns[..which] + conns[which + 1..];
      && (forall c | c in others :: c in conns && c != conns[which])
      && (forall i, j :: 0 <= i < j < |others| ==> others[i] != others[j])
  {
  }

  // The end of the server, when the last client has gone: every player is freed, once.
  method Finalize(w: World) returns (freed: seq<Player>)
    requires w.Valid() && AtRest(w.lobby) && w.lobby.loops == map[] && w.held == NOTHING
    modifies w.Repr
    ensures freed == old(w.lobby).roll && forall p | p in old(w.lobby).accounts :: p in freed && p.refs == 0
  {
    hide World.Valid, Linked, PlayerCount;
    NothingLeaks(w.lobby);
    freed := w.PlayersFini();
  }
}
