// The registries and the service thread: the code that turns packets into requests.
module Servers {
  import opened Prelude
  import opened Games
  import opened ArrayLists
  import opened Players
  import opened Objects
  import opened Packets
  import opened Lobbies
  import opened Links
  import opened Requests
  import opened Keeping
  import opened Worlds
  import opened Engine
  import opened Sessions
  import opened Answers

  function KeepAll(h: Held, players: seq<Player?>): Held
    requires forall k :: 0 <= k < |players| ==> players[k] != null
  {
    h.(players := h.players + Pointers(players))
  }

  function Pointers(players: seq<Player?>): multiset<Player>
    requires forall k :: 0 <= k < |players| ==> players[k] != null
  {
    if players == [] then multiset{}
    else Pointers(players[..|players| - 1]) + multiset{players[|players| - 1]}
  }

  // --- The client registry ----------------------------------------------------------------

  // The players of all logged-in clients, in the order of the slots, ended by null; the caller
  // holds a pointer to each of them.
  method AllPlayers(w: World) returns (players: array<Player?>)
    requires w.Valid()
    modifies w.Repr
    ensures w.Valid() && w.Repr == old(w.Repr) && w.lobby == old(w.lobby) && w.sent == old(w.sent)
    ensures |w.lobby.registry| == MAX_CLIENTS && fresh(players)
    ensures players[..] == Logins(w.lobby, MAX_CLIENTS) + [null]
    ensures w.held == KeepAll(old(w.held), Logins(w.lobby, MAX_CLIENTS))
  {
    hide World.Valid, Linked, Logins, KeepAll, ArrayList.Contents;
    ghost var l, h := w.lobby, w.held;
    w.LobbyLinked();
    RegistryFacts(l, h);
    NoLogins(l, h);
    var plist := new ArrayList<Player?>(null);
    var i := 0;
    while i < MAX_CLIENTS
      invariant 0 <= i <= MAX_CLIENTS == |l.registry|
      invariant w.Valid() && w.Repr == old(w.Repr) && w.lobby == l && w.sent == old(w.sent)
      invariant plist.Valid() && plist.nil == null && fresh(plist) && fresh(plist.data)
      invariant plist.Contents() == Logins(l, i) && w.held == KeepAll(h, Logins(l, i))
    {
      AddPlayerAt(w, plist, i, h);
      i := i + 1;
    }
    players := plist.ToArray();
  }

  lemma NoLogins(l: Lobby, h: Held)
    ensures Logins(l, 0) == [] && KeepAll(h, []) == h
  {
  }

  // One turn of the loop.
  method AddPlayerAt(w: World, plist: ArrayList<Player?>, i: nat, ghost h: Held)
    requires w.Valid() && plist.Valid() && plist.nil == null && {plist, plist.data} !! w.Repr
    requires i < MAX_CLIENTS == |w.lobby.registry|
    requires plist.Contents() == Logins(w.lobby, i) && w.held == KeepAll(h, Logins(w.lobby, i))
    modifies w.Repr, plist, plist.data
    ensures w.Valid() && w.Repr == old(w.Repr) && w.lobby == old(w.lobby) && w.sent == old(w.sent)
    ensures plist.Valid() && (plist.data == old(plist.data) || fresh(plist.data))
    ensures plist.Contents() == Logins(w.lobby, i + 1) && w.held == KeepAll(h, Logins(w.lobby, i + 1))
  {
    hide World.Valid, Linked;
    var p := PlayerAt(w, i);
    if p != null {
      plist.Push(p);
    }
  }

  // The player of the client in the slot, if one is logged in there, with a pointer to him.
  method PlayerAt(w: World, i: nat) returns (p: Player?)
    requires w.Valid() && i < MAX_CLIENTS
    modifies w.Repr
    ensures w.Valid() && w.Repr == old(w.Repr) && w.lobby == old(w.lobby) && w.sent == old(w.sent)
    ensures |w.lobby.registry| == MAX_CLIENTS
    ensures var c := w.lobby.registry[i];
      p == if c != null && c in w.lobby.members then w.lobby.members[c].player else null
    ensures w.held == if p == null then old(w.held) else KeepPlayer(old(w.held), p)
  {
    hide World.Valid, Linked;
    w.LobbyLinked();
    RegistryFacts(w.lobby, w.held);
    p := null;
    var c := w.SeatAt(i);
    if c != null {
      p := w.ClientGetPlayer(c);
      if p != null {
        w.PlayerRef(p);
      }
    }
  }

  lemma RegistryFacts(l: Lobby, h: Held)
    requires Linked(l, h)
    ensures |l.registry| == MAX_CLIENTS
    ensures forall k :: 0 <= k < MAX_CLIENTS && l.registry[k] != null ==>
      && l.registry[k] in l.members
      && (l.members[l.registry[k]].player != null ==> l.members[l.registry[k]].player in l.accounts)
  {
  }

  // The first registered client that is logged in under the name, with a pointer to it.
  method Lookup(w: World, name: string) returns (found: Client?)
    requires w.Valid()
    modifies w.Repr
    ensures w.Valid() && w.Repr == old(w.Repr) && w.lobby == old(w.lobby) && w.sent == old(w.sent)
    ensures found == FindClient(w.lobby, name, 0)
    ensures found != null ==> found in w.lobby.members
    ensures w.held == if found == null then old(w.held) else KeepClient(old(w.held), found)
  {
    hide World.Valid, Linked;
    w.LobbyLinked();
    RegistryFacts(w.lobby, w.held);
    var i := 0;
    while i < MAX_CLIENTS
      invariant 0 <= i <= MAX_CLIENTS
      invariant w.Valid() && w.Repr == old(w.Repr) && w.lobby == old(w.lobby) && w.sent == old(w.sent)
      invariant w.held == old(w.held)
      invariant FindClient(w.lobby, name, 0) == FindClient(w.lobby, name, i)
    {
      var c := w.SeatAt(i);
      if c != null {
        var p := w.ClientGetPlayer(c);
        if p != null {
          var other := w.PlayerGetName(p);
          if name == other {
            w.ClientRef(c);
            return c;
          }
        }
      }
      i := i + 1;
    }
    return null;
  }

  // The player with the name, created if there is none; the caller holds a pointer to it.
  method RegisterPlayer(w: World, name: string, address: nat) returns (p: Player, ghost made: Player?)
    requires w.Valid()
    modifies w.Repr
    ensures w.Valid() && fresh(w.Repr - old(w.Repr)) && w.sent == old(w.sent)
    ensures FindPlayer(old(w.lobby), name, 0) == null ==> made != null && made !in old(w.lobby).accounts
    ensures (w.lobby, p) == Registered(old(w.lobby), name, made)
    ensures w.held == KeepPlayer(old(w.held), p) && p in w.lobby.accounts
  {
    hide World.Valid, Linked;
    ghost var l := w.lobby;
    w.LobbyLinked();
    RollFacts(l, w.held);
    made := null;
    var n := w.RollCount();
    var i := 0;
    while i < n
      invariant 0 <= i <= n == |l.roll|
      invariant w.Valid() && w.Repr == old(w.Repr) && w.lobby == l && w.sent == old(w.sent) && w.held == old(w.held)
      invariant FindPlayer(l, name, 0) == FindPlayer(l, name, i)
    {
      var q := w.RollAt(i);
      var other := w.PlayerGetName(q);
      if name == other {
        w.PlayerRef(q);
        return q, made;
      }
      i := i + 1;
    }
    p := w.PlayerNew(name, address);
    made := p;
  }

  lemma RollFacts(l: Lobby, h: Held)
    requires Linked(l, h)
    ensures forall k :: 0 <= k < |l.roll| ==> l.roll[k] != null && l.roll[k] in l.accounts
  {
  }

  // --- Logging in --------------------------------------------------------------------------

  lemma {:induction false} PointersSplit(players: seq<Player?>, k: nat)
    requires k < |players| && forall j :: 0 <= j < |players| ==> players[j] != null
    ensures Pointers(players[k..]) == multiset{players[k]} + Pointers(players[k + 1..])
  {
    var s := players[k..];
    var n := |s| - 1;
    if n == 0 {
      assert players[k + 1..] == [];
      assert s[..0] == [];
    } else {
      var shorter := players[..|players| - 1];
      PointersSplit(shorter, k);
      assert s[..n] == shorter[k..];
      assert players[k + 1..][..n - 1] == shorter[k + 1..];
    }
  }

  // Lets go of every player of a list that ends with null, and tells whether p was among them.
  method DropAll(w: World, plist: array<Player?>, p: Player, ghost logins: seq<Player?>, ghost h: Held) returns (logged: bool)
    requires w.Valid() && plist !in w.Repr && plist[..] == logins + [null]
    requires forall j :: 0 <= j < |logins| ==> logins[j] != null
    requires w.held == KeepAll(h, logins)
    modifies w.Repr
    ensures w.Valid() && w.Repr == old(w.Repr) && w.lobby == old(w.lobby) && w.sent == old(w.sent) && w.held == h
    ensures logged <==> p in logins
  {
    hide World.Valid, KeepAll, Pointers;
    logged := false;
    var k := 0;
    assert logins[0..] == logins;
    while plist[k] != null
      invariant 0 <= k <= |logins| && plist[..] == logins + [null]
      invariant w.Valid() && w.Repr == old(w.Repr) && w.lobby == old(w.lobby) && w.sent == old(w.sent)
      invariant w.held == KeepAll(h, logins[k..])
      invariant logged <==> p in logins[..k]
      decreases |logins| - k
    {
      assert plist[k] == plist[..][k] == logins[k];
      logged := logged || plist[k] == p;
      NextDropped(h, logins, k);
      w.PlayerUnref(plist[k]);
      assert logins[..k + 1] == logins[..k] + [logins[k]];
      k := k + 1;
    }
    assert plist[k] == plist[..][k];
    assert logins[..k] == logins;
    NoneLeft(h, logins[k..]);
  }

  lemma NextDropped(h: Held, players: seq<Player?>, k: nat)
    requires k < |players| && forall j :: 0 <= j < |players| ==> players[j] != null
    ensures players[k] in KeepAll(h, players[k..]).players
    ensures DropPlayer(KeepAll(h, players[k..]), players[k]) == KeepAll(h, players[k + 1..])
  {
    PointersSplit(players, k);
  }

  lemma NoneLeft(h: Held, players: seq<Player?>)
    requires players == []
    ensures KeepAll(h, players) == h
  {
  }

  // A login fails if the client is logged in, or if anybody is logged in as the player.
  method ClientLogin(w: World, c: Client, p: Player) returns (res: int)
    requires w.Valid() && c in w.lobby.members && c in w.lobby.registry && p in w.held.players && p in w.lobby.accounts
    modifies w.Repr
    ensures w.Valid() && fresh(w.Repr - old(w.Repr)) && w.sent == old(w.sent) && w.held == old(w.held)
    ensures |old(w.lobby).registry| == MAX_CLIENTS
    ensures var l := old(w.lobby);
      if l.members[c].player == null && p !in Logins(l, MAX_CLIENTS)
      then res == 0 && w.lobby == WithMember(l, c, l.members[c].(player := p))
      else res == -1 && w.lobby == l
  {
    hide World.Valid, Linked;
    res := -1;
    ghost var l, h := w.lobby, w.held;
    var plist := AllPlayers(w);
    var logged := DropAll(w, plist, p, Logins(l, MAX_CLIENTS), h);
    var player := w.ClientGetPlayer(c);
    if player == null && !logged {
      w.PlayerRef(p);
      w.LoginAs(c, p);
      assert DropPlayer(KeepPlayer(h, p), p) == h;
      res := 0;
    }
  }

  // --- The service thread ------------------------------------------------------------------

  // Name and rating of every player of the list; the pointers are let go of one by one.
  method ListUsers(w: World, plist: array<Player?>, ghost logins: seq<Player>, ghost h: Held) returns (rows: seq<(string, int)>)
    requires w.Valid() && plist !in w.Repr && plist[..] == logins + [null]
    requires w.held == KeepAll(h, logins)
    modifies w.Repr
    ensures w.Valid() && w.Repr == old(w.Repr) && w.lobby == old(w.lobby) && w.sent == old(w.sent) && w.held == h
    ensures rows == RosterOf(w.lobby, logins)
  {
    hide World.Valid, KeepAll, Pointers, Linked;
    rows := [];
    var k := 0;
    assert logins[0..] == logins;
    while plist[k] != null
      invariant 0 <= k <= |logins| && plist[..] == logins + [null]
      invariant w.Valid() && w.Repr == old(w.Repr) && w.lobby == old(w.lobby) && w.sent == old(w.sent)
      invariant w.held == KeepAll(h, logins[k..])
      invariant rows == RosterOf(w.lobby, logins[..k])
      decreases |logins| - k
    {
      assert plist[k] == plist[..][k] == logins[k];
      NextDropped(h, logins, k);
      w.LobbyLinked();
      HeldPlayer(w.lobby, w.held, plist[k]);
      var name := w.PlayerGetName(plist[k]);
      var rating := w.PlayerGetRating(plist[k]);
      rows := rows + [(name, rating)];
      w.PlayerUnref(plist[k]);
      assert logins[..k + 1][..k] == logins[..k];
      k := k + 1;
    }
    assert plist[k] == plist[..][k];
    assert logins[..k] == logins;
    NoneLeft(h, logins[k..]);
  }

  lemma HeldPlayer(l: Lobby, h: Held, p: Player)
    requires Linked(l, h) && p in h.players
    ensures p in l.accounts
  {
  }

  method SendReply(w: World, c: Client, res: int)
    requires w.Valid() && c in w.lobby.members
    modifies w.Repr
    ensures w.Valid() && w.Repr == old(w.Repr) && w.lobby == old(w.lobby) && w.held == old(w.held)
    ensures w.sent == old(w.sent) + [Reply(c, res)]
  {
    hide World.Valid;
    if res != -1 {
      w.SendPacket(c, Packet(AckPkt, 0, 0, Nothing));
    } else {
      w.SendPacket(c, Packet(NackPkt, 0, 0, Nothing));
    }
  }

  // LOGIN: the thread keeps the player only if the login succeeds.
  method HandleLogin(w: World, c: Client, name: string, address: nat) returns (ghost made: Player?)
    requires w.Valid() && AtRest(w.lobby) && c in w.lobby.members && w.held == NOTHING
    requires c in w.lobby.loops && w.lobby.loops[c] == null
    modifies w.Repr
    ensures w.Valid() && fresh(w.Repr - old(w.Repr)) && w.held == NOTHING
    ensures FindPlayer(old(w.lobby), name, 0) == null ==> made != null && made !in old(w.lobby).accounts
    ensures var (l, ok) := LoggedIn(old(w.lobby), c, name, made);
      w.lobby == l && w.sent == old(w.sent) + [if ok then Ack(c, 0, Nothing) else Nack(c)]
  {
    hide World.Valid, Rest, Linked, Logins;
    var p;
    p, made := RegisterPlayer(w, name, address);
    ghost var h := KeepPlayer(NOTHING, p);
    assert DropPlayer(h, p) == NOTHING;
    var res := ClientLogin(w, c, p);
    if res != -1 {
      w.LoopSet(c, p);
      w.SendPacket(c, Packet(AckPkt, 0, 0, Nothing));
    } else {
      w.PlayerUnref(p);
      w.SendPacket(c, Packet(NackPkt, 0, 0, Nothing));
    }
  }

  // INVITE: the looked-up client is held for as long as the request runs.
  method HandleInvite(w: World, c: Client, name: string, role: nat) returns (ghost i: Invitation?)
    requires w.Valid() && Settled(w.lobby) && Playing(w.lobby, c) && w.held == NOTHING
    requires c in w.lobby.registry
    modifies w.Repr
    ensures w.Valid() && fresh(w.Repr - old(w.Repr)) && w.held == NOTHING
    ensures var d := FindClient(old(w.lobby), name, 0);
      d != null && d != c ==> i != null && i !in old(w.lobby).offers
    ensures var done := Invites(old(w.lobby), c, name, role, i);
      !done.crashed && w.lobby == done.lobby && w.sent == old(w.sent) + done.sent
  {
    hide World.Valid, Linked, Settled, Made;
    i := null;
    FoundClient(w.lobby, name, 0);
    var d := Lookup(w, name);
    if d == null {
      w.SendPacket(c, Packet(NackPkt, 0, 0, Nothing));
    } else {
      i := InviteClient(w, c, d, role);
    }
  }

  // The invitation to a client that has been looked up; its pointer is dropped.
  method InviteClient(w: World, c: Client, d: Client, role: nat) returns (ghost i: Invitation?)
    requires w.Valid() && Playing(w.lobby, c) && Playing(w.lobby, d) && d in w.lobby.registry
    requires w.held == KeepClient(NOTHING, d)
    modifies w.Repr
    ensures w.Valid() && fresh(w.Repr - old(w.Repr)) && w.held == NOTHING
    ensures c == d ==> w.lobby == old(w.lobby) && w.sent == old(w.sent) + [Nack(c)]
    ensures c != d ==>
      && i != null && i !in old(w.lobby).offers
      && var done := Made(old(w.lobby), c, d, Other(role), role, i);
        && !done.crashed && w.lobby == done.lobby
        && w.sent == old(w.sent) + (done.sent + [if done.res >= 0 then Ack(c, Byte(done.res), Nothing) else Nack(c)])
  {
    hide World.Valid, Linked, Made, Playing;
    ghost var l := w.lobby;
    var id;
    PlayingThere(l, c, d);
    id, i := ClientMakeInvitation(w, c, d, Other(role), role);
    if c != d {
      MadeShape(l, c, d, Other(role), role, i);
    }
    if id >= 0 {
      w.SendPacket(c, Packet(AckPkt, Byte(id), 0, Nothing));
    } else {
      w.SendPacket(c, Packet(NackPkt, 0, 0, Nothing));
    }
    StillRegistered(w.lobby, w.held, d);
    ClientUnref(w, d);
  }

  lemma PlayingThere(l: Lobby, c: Client, d: Client)
    requires Playing(l, c) && Playing(l, d)
    ensures c in l.members && d in l.members
  {
  }

  lemma MadeShape(l: Lobby, c: Client, d: Client, sourceRole: nat, targetRole: nat, i: Invitation)
    requires Playing(l, c) && Playing(l, d)
    ensures var done := Made(l, c, d, sourceRole, targetRole, i);
      !done.crashed && done.lobby.members.Keys == l.members.Keys && done.lobby.registry == l.registry
  {
  }

  lemma StillRegistered(l: Lobby, h: Held, c: Client)
    requires c in l.registry && c in h.clients
    ensures ReleaseClient(l, h, c) == l
  {
  }

  // One turn of the service loop: a packet, and everything that is done about it.
  method Handle(w: World, c: Client, r: Request, address: nat)
    returns (crashed: bool, ghost p: Player?, ghost i: Invitation?)
    requires w.Valid() && AtRest(w.lobby) && c in w.lobby.loops && w.held == NOTHING
    modifies w.Repr
    ensures w.Valid() && fresh(w.Repr - old(w.Repr))
    ensures var l := old(w.lobby);
      && Settled(l) && c in l.members && (l.loops[c] != null ==> Playing(l, c)) && Supplied(l, c, r, p, i)
      && var done := Handled(w.curve, l, c, r, p, i);
      && Means(w.curve, l, c, r, i, done)
      && crashed == done.crashed && w.sent == old(w.sent) + done.sent
      && (!crashed ==> w.held == NOTHING && w.lobby == done.lobby)
  {
    hide World.Valid, Linked, Settled, LoggedIn, Invites, Revoked, Declined, Accepts, Moves, Resigns, Rest, Logins, RosterOf, Means;
    ghost var l := w.lobby;
    crashed, p, i := false, null, null;
    AtRestSettled(w.lobby, c);
    LoopPlays(w.lobby, c);
    var player := w.LoopPlayer(c);
    match r.kind {
      case LoginPkt =>
        if player == null && r.data != "" {
          p := HandleLogin(w, c, r.Name(), address);
        } else {
          SendReply(w, c, -1);
        }
      case UsersPkt =>
        if player != null && r.data == "" {
          HandleUsers(w, c);
        } else {
          SendReply(w, c, -1);
        }
      case InvitePkt =>
        if player != null && r.data != "" {
          i := HandleInvite(w, c, r.Name(), r.role);
        } else {
          SendReply(w, c, -1);
        }
      case RevokePkt =>
        if player != null && r.data == "" {
          HandleRevoke(w, c, r.id);
        } else {
          SendReply(w, c, -1);
        }
      case DeclinePkt =>
        if player != null && r.data == "" {
          HandleDecline(w, c, r.id);
        } else {
          SendReply(w, c, -1);
        }
      case AcceptPkt =>
        if player != null && r.data == "" {
          HandleAccept(w, c, r.id);
        } else {
          SendReply(w, c, -1);
        }
      case MovePkt =>
        if player != null && r.data != "" {
          crashed := HandleMove(w, c, r.id, r.Name());
        } else {
          SendReply(w, c, -1);
        }
      case ResignPkt =>
        if player != null && r.data == "" {
          crashed := HandleResign(w, c, r.id);
        } else {
          SendReply(w, c, -1);
        }
      case _ =>
    }
    PacketsMean(w.curve, l, c, r, p, i);
  }

  method HandleUsers(w: World, c: Client)
    requires w.Valid() && c in w.lobby.members && w.held == NOTHING
    modifies w.Repr
    ensures w.Valid() && w.Repr == old(w.Repr) && w.lobby == old(w.lobby) && w.held == NOTHING
    ensures |w.lobby.registry| == MAX_CLIENTS
    ensures w.sent == old(w.sent) + [Ack(c, 0, Roster(RosterOf(w.lobby, Logins(w.lobby, |w.lobby.registry|))))]
  {
    hide World.Valid, Linked, Logins, Pointers, ArrayList.Valid;
    var plist := AllPlayers(w);
    var rows := ListUsers(w, plist, Logins(w.lobby, MAX_CLIENTS), NOTHING);
    w.SendPacket(c, Packet(AckPkt, 0, 0, Roster(rows)));
  }

  method HandleRevoke(w: World, c: Client, id: nat)
    requires w.Valid() && Settled(w.lobby) && c in w.lobby.members && w.held == NOTHING
    modifies w.Repr
    ensures w.Valid() && fresh(w.Repr - old(w.Repr)) && w.held == NOTHING
    ensures var done := Revoked(old(w.lobby), c, id);
      !done.crashed && w.lobby == done.lobby && w.sent == old(w.sent) + (done.sent + [Reply(c, done.res)])
  {
    hide World.Valid, Linked, Settled, Revoked;
    ghost var l := w.lobby;
    NeverCrash(l, c, id);
    OfferOutline(l, c, id);
    var res := ClientRevokeInvitation(w, c, id);
    SendReply(w, c, res);
  }

  method HandleDecline(w: World, c: Client, id: nat)
    requires w.Valid() && Settled(w.lobby) && c in w.lobby.members && w.held == NOTHING
    modifies w.Repr
    ensures w.Valid() && fresh(w.Repr - old(w.Repr)) && w.held == NOTHING
    ensures var done := Declined(old(w.lobby), c, id);
      !done.crashed && w.lobby == done.lobby && w.sent == old(w.sent) + (done.sent + [Reply(c, done.res)])
  {
    hide World.Valid, Linked, Settled, Declined;
    ghost var l := w.lobby;
    NeverCrash(l, c, id);
    OfferOutline(l, c, id);
    var res := ClientDeclineInvitation(w, c, id);
    SendReply(w, c, res);
  }

  method HandleAccept(w: World, c: Client, id: nat)
    requires w.Valid() && Settled(w.lobby) && c in w.lobby.members && w.held == NOTHING
    modifies w.Repr
    ensures w.Valid() && fresh(w.Repr - old(w.Repr)) && w.held == NOTHING
    ensures var (done, text) := Accepts(old(w.lobby), c, id);
      && !done.crashed && w.lobby == done.lobby
      && w.sent == old(w.sent) + (done.sent + [if done.res != -1 then Ack(c, 0, text) else Nack(c)])
  {
    hide World.Valid, Linked, Settled, Accepts;
    AcceptsThere(w.lobby, c, id);
    var res, text := ClientAcceptInvitation(w, c, id);
    if res != -1 {
      w.SendPacket(c, Packet(AckPkt, 0, 0, text));
    } else {
      w.SendPacket(c, Packet(NackPkt, 0, 0, Nothing));
    }
  }

  lemma AcceptsThere(l: Lobby, c: Client, id: nat)
    requires Settled(l) && c in l.members
    ensures !Accepts(l, c, id).0.crashed && c in Accepts(l, c, id).0.lobby.members
  {
    hide Settled, Accepts;
    NeverCrash(l, c, id);
    OfferOutline(l, c, id);
  }

  method HandleMove(w: World, c: Client, id: nat, move: string) returns (crashed: bool)
    requires w.Valid() && Settled(w.lobby) && c in w.lobby.members && w.held == NOTHING
    modifies w.Repr
    ensures w.Valid() && fresh(w.Repr - old(w.Repr))
    ensures var done := Moves(w.curve, old(w.lobby), c, id, move);
      && crashed == done.crashed
      && (crashed ==> w.sent == old(w.sent) + done.sent)
      && (!crashed ==> w.held == NOTHING && w.lobby == done.lobby && w.sent == old(w.sent) + (done.sent + [Reply(c, done.res)]))
  {
    hide World.Valid, Linked, Settled, Moves;
    GameOutline(w.curve, w.lobby, c, id, move);
    var res;
    res, crashed := ClientMakeMove(w, c, id, move);
    if !crashed {
      SendReply(w, c, res);
    }
  }

  method HandleResign(w: World, c: Client, id: nat) returns (crashed: bool)
    requires w.Valid() && Settled(w.lobby) && c in w.lobby.members && w.held == NOTHING
    modifies w.Repr
    ensures w.Valid() && fresh(w.Repr - old(w.Repr))
    ensures var done := Resigns(w.curve, old(w.lobby), c, id);
      && crashed == done.crashed
      && (crashed ==> w.sent == old(w.sent) + done.sent)
      && (!crashed ==> w.held == NOTHING && w.lobby == done.lobby && w.sent == old(w.sent) + (done.sent + [Reply(c, done.res)]))
  {
    hide World.Valid, Linked, Settled, Resigns;
    GameOutline(w.curve, w.lobby, c, id, "");
    var res;
    res, crashed := ClientResignGame(w, c, id);
    if !crashed {
      SendReply(w, c, res);
    }
  }

  // --- The life of a connection ------------------------------------------------------------

  // Registers a new client in the first free slot, if there is one.
  method RegisterClient(w: World, fd: int) returns (c: Client?)
    requires w.Valid() && AtRest(w.lobby) && w.held == NOTHING
    modifies w.Repr
    ensures w.Valid() && fresh(w.Repr - old(w.Repr)) && w.held == NOTHING && w.sent == old(w.sent)
    ensures c != null <==> null in old(w.lobby).registry
    ensures c == null ==> w.lobby == old(w.lobby)
    ensures c != null ==> c !in old(w.lobby).members && c in w.lobby.members && w.lobby == Connected(old(w.lobby), c)
  {
    hide World.Valid, Linked, Rest;
    c := null;
    ghost var l := w.lobby;
    var room := w.HasRoom();
    if room {
      FirstIndexFinds(l.registry, null);
      c := w.ClientNew(fd);
      w.LobbyLinked();
      Unseated(w.lobby, w.held, l, c);
      w.Seat(c);
      assert DropClient(KeepClient(NOTHING, c), c) == NOTHING;
    }
  }

  lemma Unseated(l1: Lobby, h: Held, l: Lobby, c: Client)
    requires Rest(l) && c !in l.members && l1.registry == l.registry
    ensures c !in l1.registry
  {
  }

  // Takes a logged-out client out of the registry, which frees it unless a game names it; a
  // client that is not registered is none of the registry's business.
  method UnregisterClient(w: World, c: Client) returns (res: int)
    requires w.Valid() && Rest(w.lobby) && w.held == NOTHING
    requires c in w.lobby.members && w.lobby.members[c].player == null
    requires c in w.lobby.registry ==> c in w.lobby.loops && w.lobby.loops[c] == null
    modifies w.Repr
    ensures w.Valid() && fresh(w.Repr - old(w.Repr)) && w.held == NOTHING && w.sent == old(w.sent)
    ensures if c in old(w.lobby).registry
      then res == 0 && w.lobby == Unregistered(old(w.lobby), c)
      else res == -1 && w.lobby == old(w.lobby)
  {
    hide World.Valid, Rest, Linked, Unregistered;
    if c in w.lobby.registry {
      UnregisteredKeeps(w.lobby, c);
    }
    res := w.Unseat(c);
    if res == 0 {
      assert DropClient(KeepClient(NOTHING, c), c) == NOTHING;
      ClientUnref(w, c);
    }
    w.WakeWaiters();
  }

  // The end of a service thread.
  method Exit(w: World, c: Client) returns (crashed: bool)
    requires w.Valid() && AtRest(w.lobby) && c in w.lobby.loops && w.held == NOTHING
    modifies w.Repr
    ensures w.Valid() && fresh(w.Repr - old(w.Repr))
    ensures c in old(w.lobby).members
    ensures var done := HungUp(w.curve, old(w.lobby), c);
      && crashed == done.crashed && w.sent == old(w.sent) + done.sent
      && (!crashed ==> w.held == NOTHING && w.lobby == done.lobby)
    ensures !crashed ==> AtRest(w.lobby) && (c in w.lobby.members <==> exists k: nat :: Remains(old(w.lobby), c, k))
  {
    hide World.Valid, Rest, Linked, LoggedOut, Unregistered, PlayerCount, Replace, Left, Busy, Remains, Served;
    HungUpKeeps(w.curve, w.lobby, c);
    AtRestSettled(w.lobby, c);
    LoopPlays(w.lobby, c);
    LoopsServed(w.lobby, c);
    crashed := false;
    var player := w.LoopPlayer(c);
    if player != null {
      ForgottenKeeps(w.lobby, c);
      w.LoopClear(c, player);
      w.PlayerUnref(player);
      assert w.held == NOTHING;
      LoggedOutKeeps(w.curve, w.lobby, c);
      var res;
      res, crashed := ClientLogout(w, c);
      if crashed {
        return;
      }
    }
    var _ := UnregisterClient(w, c);
  }
}
