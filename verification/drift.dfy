// The ratings of the whole population over any run of the server.
module Drift {
  import opened Prelude
  import opened Games
  import opened GameRuns
  import opened Players
  import opened Objects
  import opened Packets
  import opened Lobbies
  import opened Links
  import opened Requests
  import opened Keeping
  import opened Sessions
  import opened Runs
  import opened Ratings
  import opened Outcomes

  // The points that the players have together beyond what they started with.
  function Excess(l: Lobby): int
  {
    Total(l.accounts, l.roll) - INITIAL_RATING * |l.roll|
  }

  // Two ENDED packets announce the end of one game; the excess moves by at most one per game.
  ghost predicate Steady(l: Lobby, l': Lobby, sent: seq<Sent>)
  {
    var d := Excess(l') - Excess(l);
    -|Endings(sent)| <= 2 * d <= |Endings(sent)|
  }

  lemma SteadyOn(l: Lobby, m: Lobby, l': Lobby, a: seq<Sent>, b: seq<Sent>)
    requires Steady(l, m, a) && Steady(m, l', b)
    ensures Steady(l, l', a + b)
  {
    EndingsJoin(a, b);
  }

  lemma SteadyMore(l: Lobby, l': Lobby, sent: seq<Sent>, more: seq<Sent>)
    requires Steady(l, l', sent)
    ensures Steady(l, l', sent + more)
  {
    EndingsJoin(sent, more);
  }

  // Nobody's rating has changed and nobody is new.
  predicate SameRatings(l: Lobby, l': Lobby) { l'.accounts == l.accounts && l'.roll == l.roll }

  lemma SameSteady(l: Lobby, l': Lobby, sent: seq<Sent>)
    requires SameRatings(l, l')
    ensures Steady(l, l', sent)
  {
  }

  lemma FinishedSteady(curve: Curve, l: Lobby, c: Client, id: nat, i: Invitation, winner: nat, result: nat)
    requires Rest(l) && Settled(l) && c in l.members && i in l.offers && Names(l.offers[i], c) && result <= 2
    ensures var end := Finished(curve, l, c, id, i, winner, result);
      Steady(l, end.lobby, end.sent)
  {
    hide Rest, Sound, Agreed, Total, Posted, Dropped, IdOf, OfferAgreed, OfferLinked, NamesDiffer;
    var d := Opponent(l.offers[i], c);
    PartyPlays(l, i);
    var p, q := l.members[c].player, l.members[d].player;
    if p != null && q != null {
      RollNames(l, p);
      RollNames(l, q);
      PostedTotal(curve, l.accounts, l.roll, p, q, result);
      DroppedRoll(l, i);
      BothEndings(Finished(curve, l, c, id, i, winner, result).sent);
    }
  }

  lemma BothEndings(sent: seq<Sent>)
    requires |sent| == 2 && sent[0].packet.kind == EndedPkt && sent[1].packet.kind == EndedPkt
    ensures Endings(sent) == sent
  {
  }

  lemma DroppedRoll(l: Lobby, i: Invitation)
    requires i in l.offers && l.offers[i].source in l.members && l.offers[i].target in l.members
    ensures Dropped(l, i).roll == l.roll && Dropped(l, i).accounts == l.accounts
  {
  }

  lemma RollNames(l: Lobby, p: Player)
    requires Rest(l) && p in l.accounts
    ensures p in l.roll && forall j, k :: 0 <= j < k < |l.roll| ==> l.roll[j] != l.roll[k]
  {
  }

  lemma GameSteady(curve: Curve, l: Lobby, c: Client, id: nat, text: string)
    requires Rest(l) && Settled(l) && c in l.members
    ensures Steady(l, Resigns(curve, l, c, id).lobby, Resigns(curve, l, c, id).sent)
    ensures Steady(l, Moves(curve, l, c, id, text).lobby, Moves(curve, l, c, id, text).sent)
  {
    hide Rest, Sound, Agreed, Steady, Finished, ParseMove, Applied, Unparse, InPlay;
    var i := SlotOf(l, c, id);
    SameSteady(l, l, []);
    if i != null {
      ListedOffer(l, c, id);
      var o := l.offers[i];
      var d := Opponent(o, c);
      var role := RoleOf(o, c);
      FinishedSteady(curve, l, c, id, i, Other(role), SECOND_WINS);
      var first := [Sent(d, Packet(ResignedPkt, Byte(IdOf(l, d, i)), 0, Nothing))];
      SameSteady(l, l, first);
      var end := Finished(curve, l, c, id, i, Other(role), SECOND_WINS);
      SteadyOn(l, l, end.lobby, first, end.sent);
      var pos := ParseMove(role, text);
      if o.game.Some? && pos.Some? && Applied(o.game.value, role, pos.value).Some? {
        var g := Applied(o.game.value, role, pos.value).value;
        MoveOutcome(o.game.value, role, pos.value);
        var moved := [Sent(d, Packet(MovedPkt, Byte(IdOf(l, d, i)), 0, Text(Unparse(g))))];
        SameSteady(l, l, moved);
        SameSteady(l, WithOffer(l, i, o.(game := Some(g))), moved);
        FinishedSteady(curve, l, c, id, i, g.winner, ResultFor(role, g.winner));
        end := Finished(curve, l, c, id, i, g.winner, ResultFor(role, g.winner));
        SteadyOn(l, l, end.lobby, moved, end.sent);
      }
    }
  }

  lemma QuietRequests(l: Lobby, c: Client, id: nat)
    requires Settled(l) && c in l.members
    ensures SameRatings(l, Revoked(l, c, id).lobby) && SameRatings(l, Declined(l, c, id).lobby)
    ensures SameRatings(l, Accepts(l, c, id).0.lobby)
  {
    hide Sound, Agreed, Dropped, Byte, Unparse;
    if SlotOf(l, c, id) != null {
      ListedOffer(l, c, id);
      DroppedRoll(l, SlotOf(l, c, id));
    }
  }

  lemma TurnSteady(curve: Curve, l: Lobby, c: Client, id: nat)
    requires Rest(l) && Settled(l) && c in l.members
    ensures Steady(l, CloseSlot(curve, l, c, id).lobby, CloseSlot(curve, l, c, id).sent)
  {
    hide Rest, Sound, Agreed, Steady, Revoked, Declined, Resigns;
    QuietRequests(l, c, id);
    GameSteady(curve, l, c, id, "");
    SameSteady(l, l, []);
    SameSteady(l, Revoked(l, c, id).lobby, Revoked(l, c, id).sent);
    SameSteady(l, Declined(l, c, id).lobby, Declined(l, c, id).sent);
  }

  lemma {:induction false} TurnsSteady(curve: Curve, l: Lobby, c: Client, k: nat)
    requires Rest(l) && c in l.members && k <= |l.members[c].slots|
    ensures Steady(l, LogoutTurns(curve, l, c, k).lobby, LogoutTurns(curve, l, c, k).sent)
  {
    hide Rest, Settled, Steady, CloseSlot, Cleared;
    SameSteady(l, l, LogoutTurns(curve, l, c, k).sent);
    if k > 0 {
      TurnsSteady(curve, l, c, k - 1);
      TurnsClear(curve, l, c, k - 1);
      var before := LogoutTurns(curve, l, c, k - 1);
      if !before.crashed {
        StillAtRest(l, c, k - 1, before.lobby);
        TurnSteady(curve, before.lobby, c, k - 1);
        var last := CloseSlot(curve, before.lobby, c, k - 1);
        SteadyOn(l, before.lobby, last.lobby, before.sent, last.sent);
      }
    }
  }

  // A new player starts with the initial rating.
  lemma LoginSteady(l: Lobby, c: Client, name: string, made: Player?)
    requires Rest(l) && c in l.members && (FindPlayer(l, name, 0) == null ==> made != null && made !in l.accounts)
    ensures Excess(LoggedIn(l, c, name, made).0) == Excess(l)
  {
    hide Rest, Logins;
    if FindPlayer(l, name, 0) == null {
      NewcomerSteady(l, made, name);
    }
  }

  lemma NewcomerSteady(l: Lobby, p: Player, name: string)
    requires Rest(l) && p !in l.accounts
    ensures Excess(WithAccount(l, p, name)) == Excess(l)
  {
    NotOnTheRoll(l, p);
    hide Linked, Agreed;
    var l1 := WithAccount(l, p, name);
    assert l1.roll[..|l1.roll| - 1] == l.roll;
    TotalSame(l.accounts, l1.accounts, l.roll);
  }

  lemma NotOnTheRoll(l: Lobby, p: Player)
    requires Linked(l, NOTHING) && p !in l.accounts
    ensures p !in l.roll
  {
  }

  lemma AnsweredSteady(l: Lobby, done: Done, reply: Sent)
    requires Steady(l, done.lobby, done.sent)
    ensures Steady(l, Answered(done, reply).lobby, Answered(done, reply).sent)
  {
    SteadyMore(l, done.lobby, done.sent, [reply]);
  }

  lemma HandledSteady(curve: Curve, l: Lobby, c: Client, r: Request, p: Player?, i: Invitation?)
    requires AtRest(l) && c in l.loops && Supplied(l, c, r, p, i)
    ensures Settled(l) && c in l.members && (l.loops[c] != null ==> Playing(l, c))
    ensures var done := Handled(curve, l, c, r, p, i); Steady(l, done.lobby, done.sent)
  {
    hide Rest, Served, Sound, Agreed, LoggedIn, Invites, Revoked, Declined, Accepts, Resigns, Moves, Steady;
    AtRestSettled(l, c);
    SameSteady(l, l, Handled(curve, l, c, r, p, i).sent);
    match r.kind
    case LoginPkt =>
      if l.loops[c] == null && r.data != "" {
        RestOf(l);
        LoginSteady(l, c, r.Name(), p);
        ExcessSame(l, Handled(curve, l, c, r, p, i).lobby, Handled(curve, l, c, r, p, i).sent);
      }
    case InvitePkt =>
      if l.loops[c] != null && r.data != "" {
        var done := Invites(l, c, r.Name(), r.role, i);
        InvitesQuiet(l, c, r.Name(), r.role, i);
        SameSteady(l, done.lobby, done.sent);
      }
    case MovePkt =>
      RestOf(l);
      GameSteady(curve, l, c, r.id, r.Name());
      var done := Moves(curve, l, c, r.id, r.Name());
      AnsweredSteady(l, done, Reply(c, done.res));
    case ResignPkt =>
      RestOf(l);
      GameSteady(curve, l, c, r.id, "");
      var done := Resigns(curve, l, c, r.id);
      AnsweredSteady(l, done, Reply(c, done.res));
    case _ =>
      QuietRequests(l, c, r.id);
      var done := Handled(curve, l, c, r, p, i);
      assert SameRatings(l, done.lobby);
      SameSteady(l, done.lobby, done.sent);
  }

  lemma ExcessSame(l: Lobby, l': Lobby, sent: seq<Sent>)
    requires Excess(l') == Excess(l)
    ensures Steady(l, l', sent)
  {
  }

  lemma InvitesQuiet(l: Lobby, c: Client, name: string, role: nat, i: Invitation?)
    requires Settled(l) && c in l.members && Playing(l, c)
    requires FindClient(l, name, 0) != null && FindClient(l, name, 0) != c ==> i != null
    ensures SameRatings(l, Invites(l, c, name, role, i).lobby)
  {
  }

  lemma HungUpSteady(curve: Curve, l: Lobby, c: Client)
    requires AtRest(l) && c in l.loops
    ensures c in l.members && Steady(l, HungUp(curve, l, c).lobby, HungUp(curve, l, c).sent)
  {
    hide Rest, Served, Settled, Steady, LogoutTurns, Cleared, Busy;
    AtRestSettled(l, c);
    var done := HungUp(curve, l, c);
    SameSteady(l, l, done.sent);
    if l.loops[c] == null {
      SameSteady(l, done.lobby, done.sent);
    } else if !done.crashed {
      var l0 := WithLoop(l, c, null);
      ForgottenKeeps(l, c);
      var n := |l0.members[c].slots|;
      TurnsSteady(curve, l0, c, n);
      SameSteady(l, l0, []);
      var turns := LogoutTurns(curve, l0, c, n);
      TurnsClear(curve, l0, c, n);
      StillAtRest(l0, c, n, turns.lobby);
      SteadyOn(l, l0, turns.lobby, [], turns.sent);
      assert [] + turns.sent == turns.sent;
      SameSteady(turns.lobby, done.lobby, []);
      SteadyOn(l, turns.lobby, done.lobby, turns.sent, []);
      assert turns.sent + [] == turns.sent;
    }
  }

  lemma StepSteady(curve: Curve, l: Lobby, e: Event)
    requires AtRest(l) && Enabled(l, e)
    ensures Steady(l, Step(curve, l, e).lobby, Step(curve, l, e).sent)
  {
    hide AtRest, Settled, Steady, Handled, HungUp;
    match e
    case Connect(c) => SameSteady(l, Connected(l, c), []);
    case Serve(c, r, p, i) => HandledSteady(curve, l, c, r, p, i);
    case HangUp(c) => HungUpSteady(curve, l, c);
  }

  // In every run, the ratings of all players together differ from the initial ratings by at
  // most one point for every game that has ended.
  lemma {:induction false} RatingsDrift(curve: Curve, events: seq<Event>)
    requires Possible(curve, Empty(), events)
    ensures var done := Runs.Run(curve, events);
      var excess := Total(done.lobby.accounts, done.lobby.roll) - INITIAL_RATING * |done.lobby.roll|;
      -|Endings(done.sent)| <= 2 * excess <= |Endings(done.sent)|
  {
    hide AtRest, Step, Enabled, Empty;
    if events != [] {
      var n := |events| - 1;
      RatingsDrift(curve, events[..n]);
      NobodyThere();
      RunsRest(curve, Empty(), events[..n]);
      var before := Runs.Run(curve, events[..n]);
      StepSteady(curve, before.lobby, events[n]);
      EndingsJoin(before.sent, Step(curve, before.lobby, events[n]).sent);
    } else {
      NobodyRated();
    }
  }

  lemma NobodyRated()
    ensures Excess(Empty()) == 0
  {
  }
}
