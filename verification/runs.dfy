// Runs of the server, one request at a time: what all of them keep, and when the server crashes.
module Runs {
  import opened Prelude
  import opened Games
  import opened Players
  import opened Objects
  import opened Packets
  import opened Lobbies
  import opened Links
  import opened Requests
  import opened Keeping
  import opened Sessions

  // What can happen next. Objects allocated by a step are named by the step; any object that
  // is not in use will do, even one that was in use before.
  datatype Event =
    | Connect(client: Client)
    | Serve(client: Client, request: Request, player: Player?, inv: Invitation?)
    | HangUp(client: Client)

  ghost predicate Enabled(l: Lobby, e: Event)
  {
    match e
    case Connect(c) => c !in l.members
    case Serve(c, r, p, i) => c in l.loops && Supplied(l, c, r, p, i)
    case HangUp(c) => c in l.loops
  }

  ghost function Step(curve: Curve, l: Lobby, e: Event): Done
  {
    match e
    case Connect(c) => Done(Connected(l, c), 0, [])
    case Serve(c, r, p, i) =>
      if Settled(l) && c in l.members && c in l.loops && (l.loops[c] != null ==> Playing(l, c)) && Supplied(l, c, r, p, i)
      then Handled(curve, l, c, r, p, i) else Done(l, 0, [])
    case HangUp(c) => if c in l.members && c in l.loops then HungUp(curve, l, c) else Done(l, 0, [])
  }

  // The lobby and everything sent after the events, up to a crash.
  ghost function RunFrom(curve: Curve, l: Lobby, events: seq<Event>): Done
  {
    if events == [] then Done(l, 0, [])
    else
      var n := |events| - 1;
      var before := RunFrom(curve, l, events[..n]);
      if before.crashed then before
      else
        var last := Step(curve, before.lobby, events[n]);
        Done(last.lobby, 0, before.sent + last.sent, last.crashed)
  }

  // From the empty server.
  ghost function Run(curve: Curve, events: seq<Event>): Done { RunFrom(curve, Empty(), events) }

  // Nothing happens after a crash.
  ghost predicate Possible(curve: Curve, l: Lobby, events: seq<Event>)
  {
    events != [] ==>
      var n := |events| - 1;
      var before := RunFrom(curve, l, events[..n]);
      Possible(curve, l, events[..n]) && !before.crashed && Enabled(before.lobby, events[n])
  }

  lemma OneMoreEvent(curve: Curve, l: Lobby, events: seq<Event>, e: Event)
    requires Possible(curve, l, events) && !RunFrom(curve, l, events).crashed && Enabled(RunFrom(curve, l, events).lobby, e)
    ensures Possible(curve, l, events + [e])
    ensures var before := RunFrom(curve, l, events);
      var last := Step(curve, before.lobby, e);
      RunFrom(curve, l, events + [e]) == Done(last.lobby, 0, before.sent + last.sent, last.crashed)
  {
    hide Enabled, Step;
    assert (events + [e])[..|events + [e]| - 1] == events;
  }

  lemma NoEvents(curve: Curve, l: Lobby)
    ensures Possible(curve, l, []) && RunFrom(curve, l, []) == Done(l, 0, [])
  {
  }

  lemma StepKeeps(curve: Curve, l: Lobby, e: Event)
    requires AtRest(l) && Enabled(l, e)
    ensures AtRest(Step(curve, l, e).lobby)
  {
    hide AtRest, Settled, Handled, HungUp, Connected, Supplied;
    match e
    case Connect(c) => ConnectedKeeps(l, c);
    case Serve(c, r, p, i) => HandledKeeps(curve, l, c, r, p, i);
    case HangUp(c) => HungUpKeeps(curve, l, c);
  }

  // Every run leaves the server at rest, whatever the bytes of the packets.
  lemma {:induction false} RunsRest(curve: Curve, l: Lobby, events: seq<Event>)
    requires AtRest(l) && Possible(curve, l, events)
    ensures AtRest(RunFrom(curve, l, events).lobby)
  {
    hide AtRest, Step, Enabled;
    if events != [] {
      var n := |events| - 1;
      RunsRest(curve, l, events[..n]);
      StepKeeps(curve, RunFrom(curve, l, events[..n]).lobby, events[n]);
    }
  }

  // --- Crashes ------------------------------------------------------------------------------

  // The client is in a game that its opponent has left without being able to resign it.
  predicate Deserted(l: Lobby, c: Client, k: nat)
    requires c in l.members
  {
    var i := SlotOf(l, c, k);
    && i != null && i in l.offers && l.offers[i].state == Accepted
    && var d := Opponent(l.offers[i], c);
       d in l.members && l.members[d].player == null
  }

  // Only the source of a game can be deserted, and only by a target without a role.
  lemma DesertedBy(l: Lobby, c: Client, k: nat)
    requires Settled(l) && c in l.members && l.members[c].player != null && Deserted(l, c, k)
    ensures var o := l.offers[SlotOf(l, c, k)];
      o.source == c && o.targetRole == NULL_ROLE && RoleOf(o, c) == FIRST_PLAYER_ROLE && StuckFor(o, o.target)
  {
    hide Sound, Agreed, OfferAgreed;
    ListedOffer(l, c, k);
    PartyPlays(l, SlotOf(l, c, k));
    OnlyTargets(l, SlotOf(l, c, k));
  }

  lemma OnlyTargets(l: Lobby, i: Invitation)
    requires Settled(l) && i in l.offers
    ensures l.offers[i].sourceRole == Other(l.offers[i].targetRole) && !StuckFor(l.offers[i], l.offers[i].source)
  {
    assert OfferAgreed(l, i);
  }

  // A resignation follows a null pointer exactly if the client has been deserted.
  lemma ResigningCrashes(curve: Curve, l: Lobby, c: Client, id: nat)
    requires Settled(l) && c in l.members && l.members[c].player != null
    ensures Resigns(curve, l, c, id).crashed <==> Deserted(l, c, id)
  {
    hide Sound, Agreed, Dropped, Posted, InPlay;
    if SlotOf(l, c, id) != null {
      ListedOffer(l, c, id);
      PartyPlays(l, SlotOf(l, c, id));
    }
  }

  lemma MovingNeverCrashes(curve: Curve, l: Lobby, c: Client, id: nat, text: string)
    requires Settled(l) && c in l.members && l.members[c].player != null
    ensures !Moves(curve, l, c, id, text).crashed
  {
    hide Sound, Agreed, Dropped, Posted, InPlay, Applied, ParseMove, Unparse, HardlyBegun;
    var i := SlotOf(l, c, id);
    if i != null {
      ListedOffer(l, c, id);
      PartyPlays(l, i);
      var o := l.offers[i];
      var role := RoleOf(o, c);
      var pos := ParseMove(role, text);
      if o.game.Some? && !RolesOk(o) && pos.Some? && Applied(o.game.value, role, pos.value).Some? {
        HardlyMoves(o, o.game.value, role, pos.value);
      }
    }
  }

  // Of all requests only RESIGN can crash the server, and only when the client is deserted.
  lemma HandledCrashes(curve: Curve, l: Lobby, c: Client, r: Request, p: Player?, i: Invitation?)
    requires AtRest(l) && c in l.loops && Supplied(l, c, r, p, i)
    ensures Settled(l) && c in l.members && (l.loops[c] != null ==> Playing(l, c))
    ensures Handled(curve, l, c, r, p, i).crashed <==>
      r.kind == ResignPkt && l.loops[c] != null && r.data == "" && Deserted(l, c, r.id)
  {
    hide Rest, Sound, Agreed, LoggedIn, Resigns, Moves, Deserted, Dropped;
    AtRestSettled(l, c);
    if l.loops[c] != null {
      ResigningCrashes(curve, l, c, r.id);
      MovingNeverCrashes(curve, l, c, r.id, r.Name());
    }
  }

  lemma SlotCrashes(curve: Curve, l: Lobby, c: Client, k: nat)
    requires Settled(l) && c in l.members && l.members[c].player != null
    ensures CloseSlot(curve, l, c, k).crashed <==> Deserted(l, c, k)
  {
    hide Agreed, Dropped, Resigns;
    ResigningCrashes(curve, l, c, k);
    if SlotOf(l, c, k) != null {
      ListedOffer(l, c, k);
    }
  }

  lemma SameDesertion(l: Lobby, c: Client, k: nat, l': Lobby)
    requires Sound(l') && Fewer(l, l') && c in l.members && k < |l.members[c].slots|
    requires |l'.members[c].slots| == |l.members[c].slots| && l'.members[c].slots[k] == l.members[c].slots[k]
    ensures Deserted(l', c, k) <==> Deserted(l, c, k)
  {
    hide OfferLinked;
    assert MemberLinked(l', c);
  }

  lemma {:induction false} TurnsCrash(curve: Curve, l: Lobby, c: Client, k: nat)
    requires Rest(l) && c in l.members && l.members[c].player != null && k <= |l.members[c].slots|
    ensures LogoutTurns(curve, l, c, k).crashed <==> exists j :: 0 <= j < k && Deserted(l, c, j)
  {
    hide Rest, Sound, Agreed, CloseSlot, Deserted, Left;
    if k > 0 {
      TurnsCrash(curve, l, c, k - 1);
      TurnsClear(curve, l, c, k - 1);
      var before := LogoutTurns(curve, l, c, k - 1);
      if !before.crashed {
        RestSettled(before.lobby);
        LeftStep(l, c, k - 1);
        SlotCrashes(curve, before.lobby, c, k - 1);
        SameDesertion(l, c, k - 1, before.lobby);
      }
    }
  }

  // Hanging up crashes the server exactly if the client has been deserted in some game.
  lemma HangingUpCrashes(curve: Curve, l: Lobby, c: Client)
    requires AtRest(l) && c in l.loops
    ensures c in l.members
    ensures HungUp(curve, l, c).crashed <==> exists k: nat :: Deserted(l, c, k)
  {
    hide Rest, LogoutTurns, Deserted;
    AtRestSettled(l, c);
    LoopPlays(l, c);
    if l.loops[c] != null {
      var l0 := WithLoop(l, c, null);
      ForgottenKeeps(l, c);
      TurnsCrash(curve, l0, c, |l.members[c].slots|);
      LoggedOutKeeps(curve, l0, c);
      SameSlots(l, c, l0);
    } else {
      NobodyDeserted(l, c);
    }
  }

  lemma SameSlots(l: Lobby, c: Client, l0: Lobby)
    requires c in l.members && l0.members == l.members && l0.offers == l.offers
    ensures forall k: nat :: Deserted(l0, c, k) <==> Deserted(l, c, k)
    ensures forall k: nat :: Deserted(l, c, k) ==> k < |l.members[c].slots|
  {
  }

  lemma NobodyDeserted(l: Lobby, c: Client)
    requires Served(l) && c in l.members && c in l.loops && l.loops[c] == null
    ensures forall k: nat :: !Deserted(l, c, k)
  {
  }

  // --- Runs in which every role byte names a player -----------------------------------------

  predicate Proper(e: Event)
  {
    e.Serve? && e.request.kind == InvitePkt ==> e.request.role in {FIRST_PLAYER_ROLE, SECOND_PLAYER_ROLE}
  }

  // Every invitation is between two different roles.
  ghost predicate AllRolesOk(l: Lobby) { forall i | i in l.offers :: RolesOk(l.offers[i]) }

  lemma NobodyIsStuck(l: Lobby, c: Client, k: nat)
    requires Settled(l) && AllRolesOk(l) && c in l.members
    ensures !Remains(l, c, k) && (l.members[c].player != null ==> !Deserted(l, c, k))
  {
    if l.members[c].player != null && Deserted(l, c, k) {
      DesertedBy(l, c, k);
    }
  }

  // No operation changes the roles of an invitation.
  ghost predicate RolesKept(l: Lobby, l': Lobby)
  {
    forall i | i in l'.offers :: i in l.offers
      && l'.offers[i].sourceRole == l.offers[i].sourceRole && l'.offers[i].targetRole == l.offers[i].targetRole
  }

  lemma RequestRoles(curve: Curve, l: Lobby, c: Client, id: nat, text: string)
    requires Settled(l) && c in l.members
    ensures RolesKept(l, Revoked(l, c, id).lobby) && RolesKept(l, Declined(l, c, id).lobby)
    ensures RolesKept(l, Accepts(l, c, id).0.lobby) && RolesKept(l, Resigns(curve, l, c, id).lobby)
    ensures RolesKept(l, Moves(curve, l, c, id, text).lobby)
  {
    hide Sound, Agreed, Posted, Unparse, Applied, ParseMove, OfferAgreed, Dropped, Byte;
    if SlotOf(l, c, id) != null {
      ListedOffer(l, c, id);
      DroppedOffers(l, SlotOf(l, c, id));
    }
  }

  lemma DroppedOffers(l: Lobby, i: Invitation)
    requires i in l.offers && l.offers[i].source in l.members && l.offers[i].target in l.members
    ensures Dropped(l, i).offers == l.offers - {i}
  {
  }

  lemma HandledRoles(curve: Curve, l: Lobby, e: Event)
    requires AtRest(l) && AllRolesOk(l) && e.Serve? && Enabled(l, e) && Proper(e)
    ensures AllRolesOk(Step(curve, l, e).lobby)
  {
    hide Rest, Sound, Agreed, Revoked, Declined, Accepts, Moves, Resigns;
    var c, r := e.client, e.request;
    AtRestSettled(l, c);
    RequestRoles(curve, l, c, r.id, r.Name());
    if r.kind == InvitePkt && l.loops[c] != null && r.data != "" {
      InviteRoles(l, c, r.Name(), r.role, e.inv);
    }
  }

  lemma InviteRoles(l: Lobby, c: Client, name: string, role: nat, i: Invitation?)
    requires Settled(l) && AllRolesOk(l) && c in l.members && Playing(l, c)
    requires FindClient(l, name, 0) != null && FindClient(l, name, 0) != c ==> i != null && i !in l.offers
    requires role in {FIRST_PLAYER_ROLE, SECOND_PLAYER_ROLE}
    ensures AllRolesOk(Invites(l, c, name, role, i).lobby)
  {
    hide Settled;
    FoundClient(l, name, 0);
  }

  // With proper requests the server never crashes, and whoever hangs up is freed.
  lemma ProperStep(curve: Curve, l: Lobby, e: Event)
    requires AtRest(l) && AllRolesOk(l) && Enabled(l, e) && Proper(e)
    ensures var done := Step(curve, l, e);
      && !done.crashed && AtRest(done.lobby) && AllRolesOk(done.lobby)
      && (e.HangUp? ==> done.lobby.members.Keys == l.members.Keys - {e.client})
  {
    hide Rest, Served, Settled, Handled, HungUp, Supplied, AllRolesOk, Deserted, Remains, Proper;
    StepKeeps(curve, l, e);
    RestOf(l);
    match e
    case Connect(c) => SameOffers(l, Connected(l, c));
    case Serve(c, r, p, i) =>
      HandledCrashes(curve, l, c, r, p, i);
      LoopPlays(l, c);
      NobodyIsStuck(l, c, r.id);
      HandledRoles(curve, l, e);
    case HangUp(c) =>
      HangingUpCrashes(curve, l, c);
      HungUpKeeps(curve, l, c);
      LoopPlays(l, c);
      forall k: nat
        ensures !Remains(l, c, k) && (l.members[c].player != null ==> !Deserted(l, c, k))
      {
        NobodyIsStuck(l, c, k);
      }
      if l.members[c].player == null {
        NobodyDeserted(l, c);
      }
      HungUpRoles(curve, l, c);
  }

  lemma RestOf(l: Lobby)
    requires AtRest(l)
    ensures Rest(l) && Served(l) && Settled(l)
  {
  }

  lemma SameOffers(l: Lobby, l': Lobby)
    requires AllRolesOk(l) && l'.offers == l.offers
    ensures AllRolesOk(l')
  {
  }

  lemma HungUpRoles(curve: Curve, l: Lobby, c: Client)
    requires AtRest(l) && AllRolesOk(l) && c in l.loops
    ensures c in l.members && AllRolesOk(HungUp(curve, l, c).lobby)
  {
    hide Rest, Served, Sound, Agreed, LoggedOut, RolesOk, Busy, Left;
    AtRestSettled(l, c);
    LoopPlays(l, c);
    if l.loops[c] != null {
      ForgottenKeeps(l, c);
      LoggedOutKeeps(curve, WithLoop(l, c, null), c);
    }
  }

  lemma {:induction false} ProperRuns(curve: Curve, l: Lobby, events: seq<Event>)
    requires AtRest(l) && AllRolesOk(l) && Possible(curve, l, events) && forall e | e in events :: Proper(e)
    ensures var done := RunFrom(curve, l, events);
      !done.crashed && AtRest(done.lobby) && AllRolesOk(done.lobby)
  {
    hide AtRest, Step, Enabled, AllRolesOk;
    if events != [] {
      var n := |events| - 1;
      assert events[n] in events && forall e | e in events[..n] :: e in events;
      ProperRuns(curve, l, events[..n]);
      ProperStep(curve, RunFrom(curve, l, events[..n]).lobby, events[n]);
    }
  }

  // --- Room ---------------------------------------------------------------------------------

  function SeatSet(s: seq<Client?>): set<Client> { set c: Client | c in s }

  lemma LastSeat(s: seq<Client?>)
    requires s != []
    ensures var c := s[|s| - 1];
      SeatSet(s) == SeatSet(s[..|s| - 1]) + (if c == null then {} else {c})
  {
    assert s == s[..|s| - 1] + [s[|s| - 1]];
  }

  lemma {:induction false} SeatsTaken(s: seq<Client?>)
    requires forall j, k :: 0 <= j < k < |s| && s[k] != null ==> s[j] != s[k]
    ensures |SeatSet(s)| == InUse(s, null)
  {
    if s != [] {
      SeatsTaken(s[..|s| - 1]);
      LastSeat(s);
    }
  }

  // The server takes a further connection exactly while it serves fewer than 64.
  lemma RoomIff(l: Lobby)
    requires AtRest(l)
    ensures null in l.registry <==> |l.loops| < 64
    ensures |l.loops| <= 64
  {
    RestTables(l);
    Seated(l);
    hide AtRest;
    SeatsTaken(l.registry);
    RoomLeft(l.registry, null);
    assert SeatSet(l.registry) == l.loops.Keys;
  }

  lemma Seated(l: Lobby)
    requires AtRest(l)
    ensures forall c: Client :: c in l.registry <==> c in l.loops
  {
    hide Agreed;
    LoopsAreMembers(l);
  }

  // --- Counts -------------------------------------------------------------------------------

  // Between requests the reference counts are: two for an invitation, one for each list that
  // has it; for a client, one for the registry while it is connected and one for each
  // invitation that names it; for a player, one for the player registry and, if somebody is
  // logged in as him, one for that client and one for its thread.
  lemma CountsAtRest(l: Lobby)
    requires AtRest(l)
    ensures forall i | i in l.offers :: InvCount(l, NOTHING, i) == 2
    ensures forall c | c in l.members ::
      ClientCount(l, NOTHING, c) == (if c in l.loops then 1 else 0) + |SourceOf(l, c)| + |TargetOf(l, c)|
    ensures forall p | p in l.accounts ::
      PlayerCount(l, NOTHING, p) == if exists c :: c in l.members && l.members[c].player == p then 3 else 1
  {
    hide Linked, InPlay, Busy;
    forall i | i in l.offers
      ensures InvCount(l, NOTHING, i) == 2
    {
      assert OfferAgreed(l, i);
    }
    forall p | p in l.accounts
      ensures PlayerCount(l, NOTHING, p) == if exists c :: c in l.members && l.members[c].player == p then 3 else 1
    {
      PlayerAtRest(l, p);
    }
  }

  lemma PlayerAtRest(l: Lobby, p: Player)
    requires AtRest(l) && p in l.accounts
    ensures PlayerCount(l, NOTHING, p) == if exists c :: c in l.members && l.members[c].player == p then 3 else 1
  {
    LoopsAreMembers(l);
    hide Linked, Busy;
    assert LoopsOf(l, p) == LoginsOf(l, p);
    if c :| c in l.members && l.members[c].player == p {
      assert LoginsOf(l, p) == {c};
    } else {
      assert LoginsOf(l, p) == {};
    }
  }

  lemma SourcesServed(l: Lobby)
    requires AtRest(l)
    ensures forall i | i in l.offers :: l.offers[i].source in l.loops
  {
    hide Linked, InPlay, Busy;
    forall i | i in l.offers
      ensures l.offers[i].source in l.loops
    {
      assert OfferAgreed(l, i);
    }
  }

  lemma MembersServed(l: Lobby)
    requires AtRest(l)
    ensures forall c | c in l.members :: c in l.loops || l.offers != map[]
  {
    hide Agreed;
    forall c | c in l.members
      ensures c in l.loops || l.offers != map[]
    {
      assert MemberLinked(l, c);
    }
  }

  // When the last client has hung up nothing is left but the players, each with the one
  // pointer of the player registry.
  lemma NothingLeaks(l: Lobby)
    requires AtRest(l) && l.loops == map[]
    ensures l.members == map[] && l.offers == map[]
    ensures |l.registry| == MAX_CLIENTS && forall k :: 0 <= k < MAX_CLIENTS ==> l.registry[k] == null
    ensures forall p | p in l.accounts :: PlayerCount(l, NOTHING, p) == 1
  {
    SourcesServed(l);
    assert l.offers.Keys == {};
    MembersServed(l);
    assert l.members.Keys == {};
    forall p | p in l.accounts
      ensures PlayerCount(l, NOTHING, p) == 1
    {
      PlayerAtRest(l, p);
    }
  }
}
