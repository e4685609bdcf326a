// The server's memory: the records themselves, tied to the lobby they represent, and the
// primitive operations that read and write them. Every record carries exactly the reference
// count that the lobby and the pointers held by the running request account for.
module Worlds {
  import opened Prelude
  import opened Games
  import opened ArrayLists
  import opened Players
  import opened Objects
  import opened Lobbies
  import opened Registries
  import opened Links
  import opened Packets

  class World {
    ghost var Repr: set<object>
    ghost var lobby: Lobby
    ghost var held: Held
    const curve: Curve
    const creg: ClientRegistry
    const players: ArrayList<Player?>
    var loops: map<Client, Player?>
    var sent: seq<Sent>

    ghost predicate ClientOk(c: Client)
      requires c in lobby.members
      reads this, Repr
    {
      && c in Repr && c.invitations in Repr && c.invitations.data in Repr
      && c.player == lobby.members[c].player
      && c.invitations.Valid() && c.invitations.nil == null
      && c.invitations.Contents() == lobby.members[c].slots
    }

    ghost predicate InvOk(i: Invitation)
      requires i in lobby.offers
      reads this, Repr
    {
      var o := lobby.offers[i];
      && i in Repr
      && i.source == o.source && i.target == o.target
      && i.sourceRole == o.sourceRole && i.targetRole == o.targetRole && i.state == o.state
      && (i.game == null ==> o.game == None)
      && (i.game != null ==>
            && i.game in Repr && i.game.board in Repr
            && i.game.Valid() && i.game.refs == 1
            && o.game == Some(i.game.State()))
    }

    ghost predicate PlayerOk(p: Player)
      requires p in lobby.accounts
      reads this, Repr
    {
      p in Repr && lobby.accounts[p] == Account(p.name, p.rating)
    }

    ghost predicate ClientsOk()
      reads this, Repr
    {
      forall c | c in lobby.members :: ClientOk(c)
    }

    ghost predicate InvsOk()
      reads this, Repr
    {
      forall i | i in lobby.offers :: InvOk(i)
    }

    ghost predicate PlayersOk()
      reads this, Repr
    {
      forall p | p in lobby.accounts :: PlayerOk(p)
    }

    ghost predicate TablesOk()
      reads this, Repr
    {
      && creg in Repr && creg.clients in Repr && players in Repr && players.data in Repr
      && creg.Valid() && creg.clients[..] == lobby.registry
      && players.Valid() && players.nil == null && players.Contents() == lobby.roll
      && loops == lobby.loops
    }

    // No two clients share a list, and no two invitations a game.
    ghost predicate ListsApart()
      reads this, Repr
    {
      forall c, d | c in lobby.members && d in lobby.members && c != d && c in Repr && d in Repr ::
        && c.invitations != d.invitations
        && (c.invitations in Repr && d.invitations in Repr ==> c.invitations.data != d.invitations.data)
    }

    ghost predicate GamesApart()
      reads this, Repr
    {
      forall i, j | i in lobby.offers && j in lobby.offers && i != j && i in Repr && j in Repr ::
        i.game != null && j.game != null ==> i.game != j.game && i.game.board != j.game.board
    }

    // Every reference count is exact.
    ghost predicate Counted()
      reads this, Repr
    {
      && (forall c | c in lobby.members :: c in Repr && c.refs == ClientCount(lobby, held, c))
      && (forall i | i in lobby.offers :: i in Repr && i.refs == InvCount(lobby, held, i))
      && (forall p | p in lobby.accounts :: p in Repr && p.refs == PlayerCount(lobby, held, p))
    }

    ghost predicate Valid()
      reads this, Repr
    {
      && this in Repr && TablesOk() && Linked(lobby, held) && Counted()
      && ClientsOk() && InvsOk() && PlayersOk() && ListsApart() && GamesApart()
    }

    lemma LobbyLinked()
      requires Valid()
      ensures Linked(lobby, held)
    {
    }

    // --- What a step that leaves the records alone keeps -----------------------------------

    twostate lemma ClientsKept(new c0: Client?)
      requires old(ClientsOk() && ListsApart()) && old(Repr) <= Repr
      requires forall c | c in lobby.members && c != c0 ::
        && c in old(lobby.members) && lobby.members[c] == old(lobby.members[c])
        && unchanged(c`player) && unchanged(c.invitations) && unchanged(c.invitations.data)
      requires c0 != null && c0 in lobby.members ==> ClientOk(c0)
      requires forall c | c in lobby.members && c0 != null && c != c0 ::
        c.invitations != c0.invitations && c.invitations.data != c0.invitations.data
      ensures ClientsOk() && ListsApart()
    {
      hide Linked;
      forall c | c in lobby.members && c != c0
        ensures ClientOk(c)
      {
        assert old(ClientOk(c));
      }
    }

    twostate lemma InvsKept(new i0: Invitation?)
      requires old(InvsOk() && GamesApart()) && old(Repr) <= Repr
      requires forall i | i in lobby.offers && i != i0 ::
        && i in old(lobby.offers) && lobby.offers[i] == old(lobby.offers[i])
        && unchanged(i`state) && unchanged(i`game)
        && (i.game != null ==> unchanged(i.game) && unchanged(i.game.board))
      requires i0 != null && i0 in lobby.offers ==> InvOk(i0)
      requires forall i | i in lobby.offers && i0 != null && i != i0 && i.game != null && i0.game != null ::
        i.game != i0.game && i.game.board != i0.game.board
      ensures InvsOk() && GamesApart()
    {
      hide Linked;
      forall i | i in lobby.offers && i != i0
        ensures InvOk(i)
      {
        assert old(InvOk(i));
      }
    }

    twostate lemma TablesKept()
      requires old(TablesOk()) && old(Repr) <= Repr
      requires lobby.registry == old(lobby.registry) && lobby.roll == old(lobby.roll) && lobby.loops == old(lobby.loops)
      requires loops == old(loops)
      requires unchanged(creg`size) && unchanged(creg.clients) && unchanged(players) && unchanged(players.data)
      ensures TablesOk()
    {
      hide Linked;
      assert creg.clients[..] == old(creg.clients[..]);
      assert players.Contents() == old(players.Contents());
    }

    twostate lemma PlayersKept(new p0: Player?)
      requires old(PlayersOk()) && old(Repr) <= Repr
      requires forall p | p in lobby.accounts && p != p0 ::
        && p in old(lobby.accounts) && lobby.accounts[p] == old(lobby.accounts[p])
        && unchanged(p`rating)
      requires p0 != null && p0 in lobby.accounts ==> PlayerOk(p0)
      ensures PlayersOk()
    {
      hide Linked;
      forall p | p in lobby.accounts && p != p0
        ensures PlayerOk(p)
      {
        assert old(PlayerOk(p));
      }
    }

    twostate lemma CountsKept()
      requires old(Counted()) && old(Repr) <= Repr
      requires SameCounts(old(lobby), old(held), lobby, held)
      requires forall c | c in lobby.members :: c in old(lobby.members) && unchanged(c`refs)
      requires forall i | i in lobby.offers :: i in old(lobby.offers) && unchanged(i`refs)
      requires forall p | p in lobby.accounts :: p in old(lobby.accounts) && unchanged(p`refs)
      ensures Counted()
    {
      hide Linked, ClientCount, InvCount, PlayerCount;
    }

    twostate lemma CountsBut(new o: object)
      requires old(Counted()) && old(Repr) <= Repr
      requires forall c | c in lobby.members ::
        if c == o then c in Repr && c.refs == ClientCount(lobby, held, c)
        else c in old(lobby.members) && unchanged(c`refs) && ClientCount(lobby, held, c) == old(ClientCount(lobby, held, c))
      requires forall i | i in lobby.offers ::
        if i == o then i in Repr && i.refs == InvCount(lobby, held, i)
        else i in old(lobby.offers) && unchanged(i`refs) && InvCount(lobby, held, i) == old(InvCount(lobby, held, i))
      requires forall p | p in lobby.accounts ::
        if p == o then p in Repr && p.refs == PlayerCount(lobby, held, p)
        else p in old(lobby.accounts) && unchanged(p`refs) && PlayerCount(lobby, held, p) == old(PlayerCount(lobby, held, p))
      ensures Counted()
    {
      hide Linked, ClientCount, InvCount, PlayerCount;
    }

    // --- Counting --------------------------------------------------------------------------

    lemma CountOfClient(c: Client)
      requires Counted() && c in lobby.members
      ensures c in Repr && c.refs == ClientCount(lobby, held, c)
    {
    }

    lemma CountOfInv(i: Invitation)
      requires Counted() && i in lobby.offers
      ensures i in Repr && i.refs == InvCount(lobby, held, i)
    {
    }

    lemma CountOfPlayer(p: Player)
      requires Counted() && p in lobby.accounts
      ensures p in Repr && p.refs == PlayerCount(lobby, held, p)
    {
    }

    constructor (curve: Curve)
      ensures Valid() && fresh(Repr) && this.curve == curve
      ensures sent == [] && held == NOTHING && lobby == Empty()
    {
      hide Linked, ClientCount, InvCount, PlayerCount;
      this.curve := curve;
      creg := new ClientRegistry();
      players := new ArrayList<Player?>(null);
      loops := map[];
      sent := [];
      held := NOTHING;
      lobby := Empty();
      new;
      Repr := {this, creg, creg.clients, players, players.data};
      assert creg.clients[..] == Empty().registry;
      EmptyLinked();
    }

    lemma EmptyLinked()
      ensures Linked(Empty(), NOTHING)
    {
    }

    method ClientRef(c: Client)
      requires Valid() && c in lobby.members
      modifies Repr
      ensures Valid() && Repr == old(Repr)
      ensures lobby == old(lobby) && held == KeepClient(old(held), c) && sent == old(sent)
    {
      hide Linked, TablesOk, ClientsOk, InvsOk, PlayersOk, ListsApart, GamesApart, ClientCount, InvCount, PlayerCount, Counted;
      CountOfClient(c);
      c.refs := c.refs + 1;
      held := KeepClient(held, c);
      HoldClient(lobby, old(held), c);
      CountsBut(c);
      TablesKept();
      ClientsKept(null);
      InvsKept(null);
      PlayersKept(null);
    }

    method InvRef(i: Invitation)
      requires Valid() && i in lobby.offers
      modifies Repr
      ensures Valid() && Repr == old(Repr)
      ensures lobby == old(lobby) && held == KeepInv(old(held), i) && sent == old(sent)
    {
      hide Linked, TablesOk, ClientsOk, InvsOk, PlayersOk, ListsApart, GamesApart, ClientCount, InvCount, PlayerCount, Counted;
      CountOfInv(i);
      i.refs := i.refs + 1;
      held := KeepInv(held, i);
      HoldInv(lobby, old(held), i);
      CountsBut(i);
      TablesKept();
      ClientsKept(null);
      InvsKept(null);
      PlayersKept(null);
    }

    method PlayerRef(p: Player)
      requires Valid() && p in lobby.accounts
      modifies Repr
      ensures Valid() && Repr == old(Repr)
      ensures lobby == old(lobby) && held == KeepPlayer(old(held), p) && sent == old(sent)
    {
      hide Linked, TablesOk, ClientsOk, InvsOk, PlayersOk, ListsApart, GamesApart, ClientCount, InvCount, PlayerCount, Counted;
      CountOfPlayer(p);
      p.refs := p.refs + 1;
      held := KeepPlayer(held, p);
      HoldPlayer(lobby, old(held), p);
      CountsBut(p);
      TablesKept();
      ClientsKept(null);
      InvsKept(null);
      PlayersKept(null);
    }

    // The decrement of client_unref: what is left is what the rest of the graph accounts for.
    method ClientDec(c: Client) returns (refs: nat)
      requires Valid() && c in held.clients
      modifies Repr
      ensures Valid() && Repr == old(Repr)
      ensures lobby == old(lobby) && held == DropClient(old(held), c) && sent == old(sent)
      ensures c in lobby.members && refs == ClientCount(lobby, held, c)
    {
      hide Linked, TablesOk, ClientsOk, InvsOk, PlayersOk, ListsApart, GamesApart, ClientCount, InvCount, PlayerCount, Counted;
      LooseClient(lobby, held, c);
      CountOfClient(c);
      HoldClient(lobby, DropClient(held, c), c);
      c.refs := c.refs - 1;
      held := DropClient(held, c);
      CountsBut(c);
      TablesKept();
      ClientsKept(null);
      InvsKept(null);
      PlayersKept(null);
      refs := c.refs;
    }

    method InvDec(i: Invitation) returns (refs: nat)
      requires Valid() && i in held.invs
      modifies Repr
      ensures Valid() && Repr == old(Repr)
      ensures lobby == old(lobby) && held == DropInv(old(held), i) && sent == old(sent)
      ensures i in lobby.offers && refs == InvCount(lobby, held, i)
    {
      hide Linked, TablesOk, ClientsOk, InvsOk, PlayersOk, ListsApart, GamesApart, ClientCount, InvCount, PlayerCount, Counted;
      LooseInv(lobby, held, i);
      CountOfInv(i);
      HoldInv(lobby, DropInv(held, i), i);
      i.refs := i.refs - 1;
      held := DropInv(held, i);
      CountsBut(i);
      TablesKept();
      ClientsKept(null);
      InvsKept(null);
      PlayersKept(null);
      refs := i.refs;
    }

    // The player registry keeps every player alive, so this never frees one.
    method PlayerUnref(p: Player)
      requires Valid() && p in held.players
      modifies Repr
      ensures Valid() && Repr == old(Repr)
      ensures lobby == old(lobby) && held == DropPlayer(old(held), p) && sent == old(sent)
      ensures p.refs > 0
    {
      hide Linked, TablesOk, ClientsOk, InvsOk, PlayersOk, ListsApart, GamesApart, ClientCount, InvCount, PlayerCount, Counted;
      LoosePlayer(lobby, held, p);
      CountOfPlayer(p);
      HoldPlayer(lobby, DropPlayer(held, p), p);
      p.refs := p.refs - 1;
      held := DropPlayer(held, p);
      CountsBut(p);
      TablesKept();
      ClientsKept(null);
      InvsKept(null);
      PlayersKept(null);
    }

    // Frees a client that nothing points to any more, and with it its list: they leave the
    // memory that any later operation may touch.
    method ClientFree(c: Client)
      requires Valid() && c in lobby.members && ClientCount(lobby, held, c) == 0
      modifies Repr
      ensures Valid() && Repr == old(Repr) - {c, c.invitations, c.invitations.data}
      ensures lobby == old(lobby).(members := old(lobby).members - {c}) && held == old(held) && sent == old(sent)
    {
      hide Linked, TablesOk, ClientsOk, InvsOk, PlayersOk, ListsApart, GamesApart, ClientCount, InvCount, PlayerCount, Counted;
      ListOf(c);
      ghost var l' := lobby.(members := lobby.members - {c});
      FreeClient(lobby, held, c, l');
      lobby := l';
      CountsKept();
      TablesKept();
      ClientsKept(null);
      InvsKept(null);
      PlayersKept(null);
      ForgetClient(c);
    }

    ghost method ForgetClient(c: Client)
      requires Valid() && c !in lobby.members
      requires forall d | d in lobby.members :: d.invitations != c.invitations && d.invitations.data != c.invitations.data
      modifies this`Repr
      ensures Valid() && Repr == old(Repr) - {c, c.invitations, c.invitations.data}
    {
      hide Linked, TablesOk, ClientsOk, InvsOk, PlayersOk, ListsApart, GamesApart, Counted;
      Repr := Repr - {c, c.invitations, c.invitations.data};
      assert this in Repr;
      WithoutClientTables(c);
      WithoutClientRecords(c);
      WithoutClientLists(c);
    }

    twostate lemma WithoutClientTables(c: Client)
      requires old(TablesOk() && PlayersOk()) && Repr == old(Repr) - {c, c.invitations, c.invitations.data}
      requires lobby == old(lobby) && loops == old(loops)
      requires forall o | o in old(Repr) && o != this :: unchanged(o)
      ensures TablesOk() && PlayersOk()
    {
      hide Linked;
      assert creg.clients[..] == old(creg.clients[..]) && players.Contents() == old(players.Contents());
      forall p | p in lobby.accounts
        ensures PlayerOk(p)
      {
        assert old(PlayerOk(p));
      }
    }

    twostate lemma WithoutClientRecords(c: Client)
      requires old(InvsOk() && GamesApart() && Counted()) && Repr == old(Repr) - {c, c.invitations, c.invitations.data}
      requires lobby == old(lobby) && held == old(held) && c !in lobby.members
      requires forall o | o in old(Repr) && o != this :: unchanged(o)
      ensures InvsOk() && GamesApart() && Counted()
    {
      hide Linked, ClientCount, InvCount, PlayerCount;
      forall i | i in lobby.offers
        ensures InvOk(i)
      {
        assert old(InvOk(i));
      }
    }

    twostate lemma WithoutClientLists(c: Client)
      requires old(ClientsOk() && ListsApart()) && Repr == old(Repr) - {c, c.invitations, c.invitations.data}
      requires lobby == old(lobby) && c !in lobby.members
      requires forall d | d in lobby.members :: d.invitations != c.invitations && d.invitations.data != c.invitations.data
      requires forall o | o in old(Repr) && o != this :: unchanged(o)
      ensures ClientsOk() && ListsApart()
    {
      hide Linked;
      forall d | d in lobby.members
        ensures ClientOk(d)
      {
        assert old(ClientOk(d));
      }
    }

    // Frees an invitation that nothing points to any more. Its pointers to the two clients pass
    // to the caller, which has read them and still has to drop them, and so does its game.
    method InvFree(i: Invitation) returns (game: Game?)
      requires Valid() && i in lobby.offers && InvCount(lobby, held, i) == 0
      modifies Repr
      ensures Valid() && Repr < old(Repr) && i !in Repr
      ensures lobby == old(lobby).(offers := old(lobby).offers - {i}) && sent == old(sent)
      ensures held == HandedOver(old(lobby), old(held), i)
      ensures game != null ==> game in old(Repr) && game !in Repr && game.refs == 1
    {
      hide Linked, TablesOk, ClientsOk, InvsOk, PlayersOk, ListsApart, GamesApart, ClientCount, InvCount, PlayerCount, Counted;
      RecordOf(i);
      game := i.game;
      ghost var l' := lobby.(offers := lobby.offers - {i});
      ghost var h' := HandedOver(lobby, held, i);
      FreeInv(lobby, held, i, l', h');
      lobby, held := l', h';
      CountsKept();
      TablesKept();
      ClientsKept(null);
      InvsKept(null);
      PlayersKept(null);
      ForgetInv(i);
    }

    ghost method ForgetInv(i: Invitation)
      requires Valid() && i !in lobby.offers && i in Repr
      requires forall j | j in lobby.offers && j.game != null && i.game != null ::
        j.game != i.game && j.game.board != i.game.board
      modifies this`Repr
      ensures Valid() && Repr == old(Repr) - {i} - (if i.game == null then {} else {i.game, i.game.board})
    {
      hide Linked, TablesOk, ClientsOk, InvsOk, PlayersOk, ListsApart, GamesApart, Counted;
      Repr := Repr - {i} - (if i.game == null then {} else {i.game, i.game.board});
      assert this in Repr;
      WithoutInvTables(i);
      WithoutInvClients(i);
      WithoutInvGames(i);
    }

    twostate lemma WithoutInvTables(i: Invitation)
      requires old(TablesOk() && PlayersOk() && Counted())
      requires Repr == old(Repr) - {i} - (if i.game == null then {} else {i.game, i.game.board})
      requires lobby == old(lobby) && held == old(held) && loops == old(loops) && i !in lobby.offers
      requires forall o | o in old(Repr) && o != this :: unchanged(o)
      ensures TablesOk() && PlayersOk() && Counted()
    {
      hide Linked, ClientCount, InvCount, PlayerCount;
      assert creg.clients[..] == old(creg.clients[..]) && players.Contents() == old(players.Contents());
      forall p | p in lobby.accounts
        ensures PlayerOk(p)
      {
        assert old(PlayerOk(p));
      }
    }

    twostate lemma WithoutInvClients(i: Invitation)
      requires old(ClientsOk() && ListsApart())
      requires Repr == old(Repr) - {i} - (if i.game == null then {} else {i.game, i.game.board})
      requires lobby == old(lobby)
      requires forall o | o in old(Repr) && o != this :: unchanged(o)
      ensures ClientsOk() && ListsApart()
    {
      hide Linked;
      forall d | d in lobby.members
        ensures ClientOk(d)
      {
        assert old(ClientOk(d));
      }
    }

    twostate lemma WithoutInvGames(i: Invitation)
      requires old(InvsOk() && GamesApart()) && i !in lobby.offers
      requires Repr == old(Repr) - {i} - (if i.game == null then {} else {i.game, i.game.board})
      requires lobby == old(lobby)
      requires forall j | j in lobby.offers && j.game != null && i.game != null ::
        j.game != i.game && j.game.board != i.game.board
      requires forall o | o in old(Repr) && o != this :: unchanged(o)
      ensures InvsOk() && GamesApart()
    {
      hide Linked;
      forall j | j in lobby.offers
        ensures InvOk(j)
      {
        assert old(InvOk(j));
      }
    }

    // --- Reading ---------------------------------------------------------------------------

    method ClientGetPlayer(c: Client) returns (p: Player?)
      requires Valid() && c in lobby.members
      ensures p == lobby.members[c].player
    {
      hide Linked, TablesOk, InvsOk, PlayersOk, ListsApart, GamesApart, Counted;
      p := c.player;
    }

    method InvGetSource(i: Invitation) returns (c: Client)
      requires Valid() && i in lobby.offers
      ensures c == lobby.offers[i].source
    {
      hide Linked, TablesOk, ClientsOk, PlayersOk, ListsApart, GamesApart, Counted;
      c := i.source;
    }

    method InvGetTarget(i: Invitation) returns (c: Client)
      requires Valid() && i in lobby.offers
      ensures c == lobby.offers[i].target
    {
      hide Linked, TablesOk, ClientsOk, PlayersOk, ListsApart, GamesApart, Counted;
      c := i.target;
    }

    method InvGetSourceRole(i: Invitation) returns (role: nat)
      requires Valid() && i in lobby.offers
      ensures role == lobby.offers[i].sourceRole
    {
      hide Linked, TablesOk, ClientsOk, PlayersOk, ListsApart, GamesApart, Counted;
      role := i.sourceRole;
    }

    method InvGetTargetRole(i: Invitation) returns (role: nat)
      requires Valid() && i in lobby.offers
      ensures role == lobby.offers[i].targetRole
    {
      hide Linked, TablesOk, ClientsOk, PlayersOk, ListsApart, GamesApart, Counted;
      role := i.targetRole;
    }

    method InvHasGame(i: Invitation) returns (yes: bool)
      requires Valid() && i in lobby.offers
      ensures yes <==> lobby.offers[i].game.Some?
    {
      hide Linked, TablesOk, ClientsOk, PlayersOk, ListsApart, GamesApart, Counted;
      yes := i.game != null;
    }

    method SlotCount(c: Client) returns (n: nat)
      requires Valid() && c in lobby.members
      ensures n == |lobby.members[c].slots|
    {
      hide Linked, TablesOk, InvsOk, PlayersOk, ListsApart, GamesApart, Counted;
      n := c.invitations.size;
    }

    method SlotGet(c: Client, id: nat) returns (i: Invitation?)
      requires Valid() && c in lobby.members
      ensures i == if id < |lobby.members[c].slots| then lobby.members[c].slots[id] else null
    {
      hide Linked, TablesOk, InvsOk, PlayersOk, ListsApart, GamesApart, Counted;
      i := c.invitations.Get(id);
    }

    method SlotFind(c: Client, i: Invitation?) returns (id: nat)
      requires Valid() && c in lobby.members
      ensures id == FirstIndex(lobby.members[c].slots, i)
    {
      hide Linked, TablesOk, InvsOk, PlayersOk, ListsApart, GamesApart, Counted;
      id := c.invitations.Find(i);
    }

    // What the client's list and the lists of the others are, before a change.
    lemma ListOf(c: Client)
      requires Counted() && ClientsOk() && ListsApart() && c in lobby.members
      ensures c in Repr && c.invitations in Repr && c.invitations.data in Repr
      ensures c.invitations.Valid() && c.invitations.nil == null
      ensures c.invitations.Contents() == lobby.members[c].slots && c.player == lobby.members[c].player
      ensures forall d | d in lobby.members && d != c ::
        && d in Repr && d.invitations in Repr && d.invitations.data in Repr
        && d.invitations != c.invitations && d.invitations.data != c.invitations.data
    {
    }

    // A changed client is tied to its new entry in the lobby, and its list stays its own.
    twostate lemma Retied(c: Client)
      requires old(ClientsOk()) && old(Repr) <= Repr && c in lobby.members
      requires c in Repr && c.invitations in Repr && c.invitations.data in Repr
      requires c.invitations.Valid() && c.invitations.nil == null
      requires lobby.members[c] == Member(c.player, c.invitations.Contents())
      ensures ClientOk(c)
    {
    }

    // A change inside one client's list touches no other record.
    twostate lemma OnlyTheList(c: Client)
      requires old(TablesOk() && InvsOk() && GamesApart() && PlayersOk()) && old(Repr) <= Repr
      requires old(c in Repr) && old(c.invitations in Repr && c.invitations.data in Repr)
      requires lobby == old(lobby).(members := lobby.members) && loops == old(loops)
      requires forall o | o in old(Repr) && o != this && o != c.invitations && o != old(c.invitations.data) :: unchanged(o)
      ensures TablesOk() && InvsOk() && GamesApart() && PlayersOk()
    {
      hide Linked;
      OnlyTheListInvs(c);
      hide InvsOk, GamesApart;
      TablesKept();
      PlayersKept(null);
    }

    twostate lemma OnlyTheListInvs(c: Client)
      requires old(InvsOk() && GamesApart()) && old(Repr) <= Repr
      requires lobby == old(lobby).(members := lobby.members)
      requires forall o | o in old(Repr) && o != this && o != c.invitations && o != old(c.invitations.data) :: unchanged(o)
      ensures InvsOk() && GamesApart()
    {
      hide Linked;
      forall i | i in lobby.offers
        ensures unchanged(i`state) && unchanged(i`game)
        ensures i.game != null ==> unchanged(i.game) && unchanged(i.game.board)
      {
        assert old(InvOk(i));
      }
      InvsKept(null);
    }

    // --- Writing one client ----------------------------------------------------------------

    // Stores a held pointer in an unused slot.
    method SlotStore(c: Client, id: nat, i: Invitation)
      requires Valid() && c in lobby.members && i in held.invs && i in lobby.offers && Names(lobby.offers[i], c)
      requires id < |lobby.members[c].slots| ==> lobby.members[c].slots[id] == null
      modifies Repr
      ensures Valid() && fresh(Repr - old(Repr)) && sent == old(sent)
      ensures lobby == WithSlots(old(lobby), c, SetAt(old(lobby).members[c].slots, id, i))
      ensures held == DropInv(old(held), i)
    {
      hide Linked, TablesOk, ClientsOk, InvsOk, PlayersOk, ListsApart, GamesApart, ClientCount, InvCount, PlayerCount, Counted;
      ghost var l' := WithSlots(lobby, c, SetAt(lobby.members[c].slots, id, i));
      StoreSlot(lobby, held, c, id, i, l');
      SetSlot(c, id, i, l', DropInv(held, i));
    }

    // Takes the pointer back out of a slot.
    method SlotClear(c: Client, id: nat, ghost i: Invitation)
      requires Valid() && c in lobby.members
      requires id < |lobby.members[c].slots| && lobby.members[c].slots[id] == i
      modifies Repr
      ensures Valid() && fresh(Repr - old(Repr)) && sent == old(sent)
      ensures lobby == WithSlots(old(lobby), c, old(lobby).members[c].slots[id := null])
      ensures held == KeepInv(old(held), i)
    {
      hide Linked, TablesOk, ClientsOk, InvsOk, PlayersOk, ListsApart, GamesApart, ClientCount, InvCount, PlayerCount, Counted;
      ghost var l' := WithSlots(lobby, c, lobby.members[c].slots[id := null]);
      ClearSlot(lobby, held, c, id, i, l');
      SetSlot(c, id, null, l', KeepInv(held, i));
    }

    method SetSlot(c: Client, id: nat, i: Invitation?, ghost l': Lobby, ghost h': Held)
      requires Valid() && c in lobby.members
      requires l' == WithSlots(lobby, c, SetAt(lobby.members[c].slots, id, i))
      requires Linked(l', h') && SameCounts(lobby, held, l', h')
      modifies Repr
      ensures Valid() && fresh(Repr - old(Repr)) && sent == old(sent)
      ensures lobby == l' && held == h'
    {
      hide Linked, TablesOk, ClientsOk, InvsOk, PlayersOk, ListsApart, GamesApart, Counted, SameCounts;
      ListOf(c);
      c.invitations.Set(id, i);
      Repr := Repr + {c.invitations.data};
      lobby, held := l', h';
      Retied(c);
      CountsKept();
      OnlyTheList(c);
      ClientsKept(c);
    }

    method LoginAs(c: Client, p: Player)
      requires Valid() && c in lobby.members && c in lobby.registry && lobby.members[c].player == null && p in held.players
      modifies Repr
      ensures Valid() && Repr == old(Repr) && sent == old(sent)
      ensures lobby == WithMember(old(lobby), c, old(lobby).members[c].(player := p))
      ensures held == DropPlayer(old(held), p)
    {
      hide Linked, TablesOk, ClientsOk, InvsOk, PlayersOk, ListsApart, GamesApart, ClientCount, InvCount, PlayerCount, Counted;
      ghost var l' := WithMember(lobby, c, lobby.members[c].(player := p));
      LogIn(lobby, held, c, p, l');
      SetPlayer(c, p, l', DropPlayer(held, p));
    }

    method LogoutFrom(c: Client, ghost p: Player)
      requires Valid() && c in lobby.members && lobby.members[c].player == p
      modifies Repr
      ensures Valid() && Repr == old(Repr) && sent == old(sent)
      ensures lobby == WithMember(old(lobby), c, old(lobby).members[c].(player := null))
      ensures held == KeepPlayer(old(held), p)
    {
      hide Linked, TablesOk, ClientsOk, InvsOk, PlayersOk, ListsApart, GamesApart, ClientCount, InvCount, PlayerCount, Counted;
      ghost var l' := WithMember(lobby, c, lobby.members[c].(player := null));
      LogOut(lobby, held, c, p, l');
      SetPlayer(c, null, l', KeepPlayer(held, p));
    }

    method SetPlayer(c: Client, p: Player?, ghost l': Lobby, ghost h': Held)
      requires Valid() && c in lobby.members
      requires l' == WithMember(lobby, c, lobby.members[c].(player := p))
      requires Linked(l', h') && SameCounts(lobby, held, l', h')
      modifies Repr
      ensures Valid() && Repr == old(Repr) && sent == old(sent)
      ensures lobby == l' && held == h'
    {
      hide Linked, TablesOk, ClientsOk, InvsOk, PlayersOk, ListsApart, GamesApart, Counted, SameCounts;
      ListOf(c);
      c.player := p;
      lobby, held := l', h';
      Retied(c);
      CountsKept();
      TablesKept();
      ClientsKept(c);
      InvsKept(null);
      PlayersKept(null);
    }

    // --- Writing one invitation ------------------------------------------------------------

    // What the invitation's record and the games of the others are, before a change.
    lemma RecordOf(i: Invitation)
      requires InvsOk() && GamesApart() && Linked(lobby, held) && i in lobby.offers
      ensures InvOk(i) && OfferLinked(lobby, lobby.offers[i]) && i.Valid()
      ensures forall j | j in lobby.offers && j != i ::
        && j in Repr && (j.game != null ==> j.game in Repr && j.game.board in Repr)
        && (j.game != null && i.game != null ==> j.game != i.game && j.game.board != i.game.board)
    {
    }

    // A changed invitation record leaves all other records as they were.
    twostate lemma OnlyTheInv(i: Invitation)
      requires old(TablesOk() && ClientsOk() && ListsApart() && PlayersOk()) && old(Repr) <= Repr
      requires lobby == old(lobby).(offers := lobby.offers) && loops == old(loops)
      requires forall o | o in old(Repr) && o != this && o != i && o != old(i.game)
                          && (old(i.game) != null ==> o != old(i.game).board) :: unchanged(o)
      ensures TablesOk() && ClientsOk() && ListsApart() && PlayersOk()
    {
      hide Linked;
      OnlyTheInvClients(i);
      hide ClientsOk, ListsApart;
      TablesKept();
      PlayersKept(null);
    }

    twostate lemma OnlyTheInvClients(i: Invitation)
      requires old(ClientsOk() && ListsApart()) && old(Repr) <= Repr
      requires lobby == old(lobby).(offers := lobby.offers)
      requires forall o | o in old(Repr) && o != this && o != i && o != old(i.game)
                          && (old(i.game) != null ==> o != old(i.game).board) :: unchanged(o)
      ensures ClientsOk() && ListsApart()
    {
      hide Linked;
      forall c | c in lobby.members
        ensures unchanged(c`player) && unchanged(c.invitations) && unchanged(c.invitations.data)
      {
        assert old(ClientOk(c));
      }
      ClientsKept(null);
    }

    // Creates an invitation out of a held pointer to each of its two clients.
    method InvNew(source: Client, target: Client, sourceRole: nat, targetRole: nat) returns (i: Invitation)
      requires Valid() && source != target && source in held.clients && target in held.clients
      modifies Repr
      ensures Valid() && fresh(Repr - old(Repr)) && sent == old(sent)
      ensures i !in old(lobby).offers
      ensures lobby == WithOffer(old(lobby), i, Offer(source, target, sourceRole, targetRole, Open, None))
      ensures held == KeepInv(DropClient(DropClient(old(held), source), target), i)
    {
      hide Linked, TablesOk, ClientsOk, InvsOk, PlayersOk, ListsApart, GamesApart, Counted, ClientCount, InvCount, PlayerCount;
      i := new Invitation(source, target, sourceRole, targetRole);
      AdoptInv(i);
    }

    // A new record, with the two pointers it holds, becomes part of the memory.
    ghost method AdoptInv(i: Invitation)
      requires Valid() && i !in lobby.offers && i !in Repr && i.refs == 1 && i.state == Open && i.game == null
      requires i.source != i.target && i.source in held.clients && i.target in held.clients
      modifies this`lobby, this`held, this`Repr
      ensures Valid() && Repr == old(Repr) + {i}
      ensures lobby == WithOffer(old(lobby), i, Offer(i.source, i.target, i.sourceRole, i.targetRole, Open, None))
      ensures held == KeepInv(DropClient(DropClient(old(held), i.source), i.target), i)
    {
      hide Valid, DropClient, KeepInv, WithOffer;
      lobby, held :=
        WithOffer(lobby, i, Offer(i.source, i.target, i.sourceRole, i.targetRole, Open, None)),
        KeepInv(DropClient(DropClient(held, i.source), i.target), i);
      Repr := Repr + {i};
      Adopted(i);
    }

    twostate lemma Adopted(i: Invitation)
      requires old(Valid()) && Repr == old(Repr) + {i} && i !in old(lobby.offers) && loops == old(loops)
      requires i.refs == 1 && i.state == Open && i.game == null && i.source != i.target
      requires i.source in old(held.clients) && i.target in old(held.clients)
      requires lobby == WithOffer(old(lobby), i, Offer(i.source, i.target, i.sourceRole, i.targetRole, Open, None))
      requires held == KeepInv(DropClient(DropClient(old(held), i.source), i.target), i)
      requires old(i.game) == null && forall o: object | o in old(Repr) && o != this :: unchanged(o)
      ensures Valid()
    {
      hide Linked, TablesOk, ClientsOk, InvsOk, PlayersOk, ListsApart, GamesApart, Counted, ClientCount, InvCount, PlayerCount;
      NewOffer(old(lobby), old(held), i, lobby.offers[i], held);
      RecordsUntouched();
      CountsBut(i);
      OnlyTheInv(i);
      InvRecordsUntouched();
      InvsKept(i);
    }

    twostate lemma InvRecordsUntouched()
      requires old(InvsOk()) && forall o: object | o in old(Repr) && o != this :: unchanged(o)
      ensures forall i | i in old(lobby.offers) ::
        unchanged(i`state) && unchanged(i`game) && (i.game != null ==> unchanged(i.game) && unchanged(i.game.board))
    {
      hide Linked;
      forall i | i in old(lobby.offers)
        ensures unchanged(i`state) && unchanged(i`game) && (i.game != null ==> unchanged(i.game) && unchanged(i.game.board))
      {
        assert old(InvOk(i));
      }
    }

    method InvAccept(i: Invitation) returns (res: int)
      requires Valid() && i in lobby.offers
      modifies Repr
      ensures Valid() && fresh(Repr - old(Repr)) && sent == old(sent) && held == old(held)
      ensures var after := AcceptedOffer(old(lobby).offers[i]);
        if after.Some? then res == 0 && lobby == WithOffer(old(lobby), i, after.value)
        else res == -1 && lobby == old(lobby)
    {
      hide Linked, TablesOk, ClientsOk, InvsOk, PlayersOk, ListsApart, GamesApart, Counted, SameCounts;
      RecordOf(i);
      SameAsBefore(lobby, held);
      ghost var o := lobby.offers[i];
      res := i.Accept();
      if res == 0 {
        ghost var o' := o.(state := Accepted, game := Some(INITIAL));
        OfferChanged(lobby, held, i, o');
        lobby := WithOffer(lobby, i, o');
        Repr := Repr + {i.game, i.game.board};
      }
      OnlyTheInv(i);
      InvsKept(i);
      CountsKept();
    }

    method InvClose(i: Invitation, role: nat) returns (res: int)
      requires Valid() && i in lobby.offers
      modifies Repr
      ensures Valid() && Repr == old(Repr) && sent == old(sent) && held == old(held)
      ensures var after := ClosedOffer(old(lobby).offers[i], role);
        if after.Some? then res == 0 && lobby == WithOffer(old(lobby), i, after.value)
        else res == -1 && lobby == old(lobby)
    {
      hide Linked, TablesOk, ClientsOk, InvsOk, PlayersOk, ListsApart, GamesApart, Counted, SameCounts;
      RecordOf(i);
      SameAsBefore(lobby, held);
      ghost var o := lobby.offers[i];
      res := i.Close(role);
      if res == 0 {
        ghost var o' := ClosedOffer(o, role).value;
        OfferChanged(lobby, held, i, o');
        lobby := WithOffer(lobby, i, o');
      }
      OnlyTheInv(i);
      InvsKept(i);
      CountsKept();
    }

    // --- The game of an invitation ---------------------------------------------------------

    method GameApplyMove(i: Invitation, role: nat, pos: int) returns (res: int)
      requires Valid() && i in lobby.offers && lobby.offers[i].game.Some? && 1 <= pos <= 9
      requires |lobby.offers[i].game.value.board| == 9
      modifies Repr
      ensures Valid() && Repr == old(Repr) && sent == old(sent) && held == old(held)
      ensures var o := old(lobby).offers[i];
        var after := Applied(o.game.value, role, pos);
        if after.Some? then res == 0 && lobby == WithOffer(old(lobby), i, o.(game := after))
        else res == -1 && lobby == old(lobby)
    {
      hide Linked, TablesOk, ClientsOk, InvsOk, PlayersOk, ListsApart, GamesApart, Counted, SameCounts;
      RecordOf(i);
      SameAsBefore(lobby, held);
      ghost var o := lobby.offers[i];
      res := i.game.ApplyMove(role, pos);
      if res == 0 {
        ghost var o' := o.(game := Applied(o.game.value, role, pos));
        OfferChanged(lobby, held, i, o');
        lobby := WithOffer(lobby, i, o');
      }
      OnlyTheInv(i);
      InvsKept(i);
      CountsKept();
    }

    method GameIsOver(i: Invitation) returns (over: bool)
      requires Valid() && i in lobby.offers && lobby.offers[i].game.Some?
      ensures over <==> lobby.offers[i].game.value.turn == NULL_ROLE
    {
      hide TablesOk, ClientsOk, PlayersOk, ListsApart, Counted;
      RecordOf(i);
      over := i.game.turn == NULL_ROLE;
    }

    method GameGetWinner(i: Invitation) returns (winner: nat)
      requires Valid() && i in lobby.offers && lobby.offers[i].game.Some?
      ensures winner == lobby.offers[i].game.value.winner
    {
      hide TablesOk, ClientsOk, PlayersOk, ListsApart, Counted;
      RecordOf(i);
      winner := i.game.winner;
    }

    method GameUnparseState(i: Invitation) returns (text: string)
      requires Valid() && i in lobby.offers && lobby.offers[i].game.Some?
      requires |lobby.offers[i].game.value.board| == 9
      ensures text == Unparse(lobby.offers[i].game.value)
    {
      hide TablesOk, ClientsOk, PlayersOk, ListsApart, Counted;
      RecordOf(i);
      text := i.game.UnparseState();
    }

    // --- Players ---------------------------------------------------------------------------

    method PlayerGetName(p: Player) returns (name: string)
      requires Valid() && p in lobby.accounts
      ensures name == lobby.accounts[p].name
    {
      hide Linked, TablesOk, ClientsOk, InvsOk, ListsApart, GamesApart, Counted;
      assert PlayerOk(p);
      name := p.name;
    }

    method PlayerGetRating(p: Player) returns (rating: int)
      requires Valid() && p in lobby.accounts
      ensures rating == lobby.accounts[p].rating
    {
      hide Linked, TablesOk, ClientsOk, InvsOk, ListsApart, GamesApart, Counted;
      assert PlayerOk(p);
      rating := p.rating;
    }

    lemma AccountOf(p: Player)
      requires PlayersOk() && p in lobby.accounts
      ensures PlayerOk(p)
    {
    }

    method PlayerPostResult(p: Player, q: Player, result: nat)
      requires Valid() && p in lobby.accounts && q in lobby.accounts && p != q && result <= 2
      modifies Repr
      ensures Valid() && Repr == old(Repr) && sent == old(sent) && held == old(held)
      ensures lobby == old(lobby).(accounts := Posted(curve, old(lobby).accounts, p, q, result))
    {
      hide Linked, TablesOk, ClientsOk, InvsOk, PlayersOk, ListsApart, GamesApart, Counted, SameCounts;
      AccountOf(p);
      AccountOf(q);
      PostResult(curve, p, q, result);
      ghost var l' := lobby.(accounts := Posted(curve, lobby.accounts, p, q, result));
      AccountsChanged(lobby, held, l');
      lobby := l';
      Reposted(p);
      OnlyThePlayers();
      CountsKept();
    }

    // Changed ratings leave all other records as they were.
    twostate lemma OnlyThePlayers()
      requires old(TablesOk() && ClientsOk() && ListsApart() && InvsOk() && GamesApart()) && Repr == old(Repr)
      requires lobby == old(lobby).(accounts := lobby.accounts) && loops == old(loops)
      requires forall o: object | o in old(Repr) && o != this && !(o is Player) :: unchanged(o)
      ensures TablesOk() && ClientsOk() && ListsApart() && InvsOk() && GamesApart()
    {
      hide Linked;
      forall c | c in lobby.members
        ensures unchanged(c`player) && unchanged(c.invitations) && unchanged(c.invitations.data)
      {
        assert old(ClientOk(c));
      }
      forall i | i in lobby.offers
        ensures unchanged(i`state) && unchanged(i`game) && (i.game != null ==> unchanged(i.game) && unchanged(i.game.board))
      {
        assert old(InvOk(i));
      }
      TablesKept();
      ClientsKept(null);
      InvsKept(null);
    }

    twostate lemma Reposted(p: Player)
      requires old(PlayersOk()) && Repr == old(Repr) && lobby.accounts.Keys == old(lobby.accounts.Keys)
      requires forall q | q in lobby.accounts ::
        || (lobby.accounts[q] == old(lobby.accounts[q]) && unchanged(q`rating))
        || lobby.accounts[q] == old(lobby.accounts[q]).(rating := q.rating)
      ensures PlayersOk()
    {
      hide Linked;
      forall q | q in lobby.accounts
        ensures PlayerOk(q)
      {
        assert old(PlayerOk(q));
      }
    }

    // Creates a player and enters it in the player registry; the caller holds a pointer too.
    method PlayerNew(name: string, address: nat) returns (p: Player)
      requires Valid()
      modifies Repr
      ensures Valid() && fresh(Repr - old(Repr)) && sent == old(sent)
      ensures p !in old(lobby).accounts && lobby == WithAccount(old(lobby), p, name)
      ensures held == KeepPlayer(old(held), p)
    {
      hide Linked, TablesOk, ClientsOk, InvsOk, PlayersOk, ListsApart, GamesApart, Counted, ClientCount, InvCount, PlayerCount;
      Tables();

      p := new Player(name, address);
      p.refs := p.refs + 1;
      RollEnd(lobby, held);
      Enter(p);
      Repr := Repr + {p, players.data};
      lobby, held := WithAccount(lobby, p, name), KeepPlayer(held, p);
      Entered(p);
    }

    // The new record is accounted for, and no other has changed.
    twostate lemma Entered(new p: Player)
      requires old(Valid()) && old(Repr) <= Repr && p in Repr && p !in old(lobby.accounts)
      requires lobby == WithAccount(old(lobby), p, p.name) && held == KeepPlayer(old(held), p) && loops == old(loops)
      requires p.refs == 2 && p.rating == INITIAL_RATING
      requires players.data in Repr && players.Valid() && players.Contents() == lobby.roll
      requires forall o | o in old(Repr) && o != this && o != players && o != old(players.data) :: unchanged(o)
      ensures Valid()
    {
      hide Linked, TablesOk, ClientsOk, InvsOk, PlayersOk, ListsApart, GamesApart, Counted, ClientCount, InvCount, PlayerCount;
      NewAccount(old(lobby), old(held), p, p.name);
      OnlyTheRoll();
      RecordsUntouched();
      CountsBut(p);
      PlayersKept(p);
    }

    twostate lemma RecordsUntouched()
      requires old(Counted())
      requires forall o | o in old(Repr) && o != this && o != players && o != old(players.data) :: unchanged(o)
      ensures forall c | c in old(lobby.members) :: unchanged(c`refs)
      ensures forall i | i in old(lobby.offers) :: unchanged(i`refs)
      ensures forall p | p in old(lobby.accounts) :: unchanged(p)
    {
      hide Linked, ClientCount, InvCount, PlayerCount;
    }

    // Stores the player in the first free slot of the registry's list.
    method Enter(p: Player)
      requires players.Valid() && players.nil == null && FirstIndex(players.Contents(), null) == |players.Contents()|
      modifies players, players.data
      ensures players.Valid() && players.Contents() == old(players.Contents()) + [p]
      ensures players.data == old(players.data) || fresh(players.data)
    {
      var end := players.Find(null);
      players.Set(end, p);
    }

    lemma Tables()
      requires TablesOk()
      ensures creg in Repr && creg.clients in Repr && players in Repr && players.data in Repr
      ensures creg.Valid() && creg.clients[..] == lobby.registry
      ensures players.Valid() && players.nil == null && players.Contents() == lobby.roll
      ensures loops == lobby.loops
    {
    }

    // The end of the player registry: it lets go of every player, and the count tells whether
    // to free him.
    method PlayersFini() returns (freed: seq<Player>)
      requires Valid() && forall p | p in lobby.accounts :: PlayerCount(lobby, held, p) == 1
      modifies Repr
      ensures freed == old(lobby).roll
      ensures forall p | p in old(lobby).accounts :: p in freed && p.refs == 0
    {
      LastPointers();
      Tables();
      RollNames(lobby, held);
      hide Valid, Linked, TablesOk, ArrayList.Valid, ArrayList.Contents;
      ghost var roll := lobby.roll;
      freed := [];
      var i := 0;
      while i < players.size
        invariant 0 <= i <= players.size == |roll|
        invariant players in old(Repr) && players.Valid() && players.Contents() == roll
        invariant freed == roll[..i]
        invariant forall k :: 0 <= k < |roll| ==>
          roll[k] != null && roll[k] in old(Repr) && roll[k].refs == if k < i then 0 else 1
      {
        var player := players.Get(i);
        if player != null {
          assert forall k | 0 <= k < |roll| && k != i :: roll[k] != player;
          player.refs := player.refs - 1;
          if player.refs == 0 {
            freed := freed + [player];
          }
        }
        i := i + 1;
      }
    }

    lemma LastPointers()
      requires Valid() && forall p | p in lobby.accounts :: PlayerCount(lobby, held, p) == 1
      ensures forall p | p in lobby.accounts :: p in Repr && p.refs == 1
    {
      hide Linked, TablesOk, ClientsOk, InvsOk, PlayersOk, ListsApart, GamesApart, PlayerCount, InvCount, ClientCount;
    }

    lemma RollNames(l: Lobby, h: Held)
      requires Linked(l, h)
      ensures forall k :: 0 <= k < |l.roll| ==> l.roll[k] != null && l.roll[k] in l.accounts
      ensures forall j, k :: 0 <= j < k < |l.roll| ==> l.roll[j] != l.roll[k]
      ensures forall p | p in l.accounts :: p in l.roll
    {
    }

    // A change inside the player registry touches no other record.
    twostate lemma OnlyTheRoll()
      requires old(TablesOk() && ClientsOk() && ListsApart() && InvsOk() && GamesApart()) && old(Repr) <= Repr
      requires lobby == old(lobby).(accounts := lobby.accounts, roll := lobby.roll) && loops == old(loops)
      requires players.data in Repr && players.Valid() && players.Contents() == lobby.roll
      requires forall o | o in old(Repr) && o != this && o != players && o != old(players.data) :: unchanged(o)
      ensures TablesOk() && ClientsOk() && ListsApart() && InvsOk() && GamesApart()
    {
      hide Linked;
      OnlyTheRollTables();
      hide TablesOk;
      OnlyTheRollClients();
      hide ClientsOk, ListsApart;
      OnlyTheRollInvs();
    }

    twostate lemma OnlyTheRollTables()
      requires old(TablesOk()) && old(Repr) <= Repr
      requires lobby.registry == old(lobby.registry) && lobby.loops == old(lobby.loops) && loops == old(loops)
      requires players.data in Repr && players.Valid() && players.Contents() == lobby.roll
      requires forall o | o in old(Repr) && o != this && o != players && o != old(players.data) :: unchanged(o)
      ensures TablesOk()
    {
      assert creg.clients[..] == old(creg.clients[..]);
    }

    twostate lemma OnlyTheRollClients()
      requires old(ClientsOk() && ListsApart()) && old(Repr) <= Repr
      requires lobby.members == old(lobby.members)
      requires forall o | o in old(Repr) && o != this && o != players && o != old(players.data) :: unchanged(o)
      ensures ClientsOk() && ListsApart()
    {
      hide Linked;
      forall c | c in lobby.members
        ensures unchanged(c`player) && unchanged(c.invitations) && unchanged(c.invitations.data)
      {
        assert old(ClientOk(c));
      }
      ClientsKept(null);
    }

    twostate lemma OnlyTheRollInvs()
      requires old(InvsOk() && GamesApart()) && old(Repr) <= Repr
      requires lobby.offers == old(lobby.offers)
      requires forall o | o in old(Repr) && o != this && o != players && o != old(players.data) :: unchanged(o)
      ensures InvsOk() && GamesApart()
    {
      hide Linked;
      forall i | i in lobby.offers
        ensures unchanged(i`state) && unchanged(i`game)
        ensures i.game != null ==> unchanged(i.game) && unchanged(i.game.board)
      {
        assert old(InvOk(i));
      }
      InvsKept(null);
    }

    method SendPacket(c: Client, packet: Packet)
      requires Valid() && c in lobby.members
      modifies Repr
      ensures Valid() && Repr == old(Repr) && lobby == old(lobby) && held == old(held)
      ensures sent == old(sent) + [Sent(c, packet)]
    {
      hide Linked, TablesOk, ClientsOk, InvsOk, PlayersOk, ListsApart, GamesApart, Counted, SameCounts;
      SameAsBefore(lobby, held);
      sent := sent + [Sent(c, packet)];
      CountsKept();
      TablesKept();
      ClientsKept(null);
      InvsKept(null);
      PlayersKept(null);
    }

    // --- The table of connected clients ----------------------------------------------------

    method ClientNew(fd: int) returns (c: Client)
      requires Valid()
      modifies Repr
      ensures Valid() && fresh(Repr - old(Repr)) && sent == old(sent)
      ensures c !in old(lobby).members && lobby == WithMember(old(lobby), c, Member(null, []))
      ensures held == KeepClient(old(held), c)
    {
      hide Linked, TablesOk, ClientsOk, InvsOk, PlayersOk, ListsApart, GamesApart, Counted, ClientCount, InvCount, PlayerCount;
      c := new Client(fd);
      AdoptClient(c);
    }

    // A new record, with its list, becomes part of the memory.
    ghost method AdoptClient(c: Client)
      requires Valid() && c !in lobby.members && {c, c.invitations, c.invitations.data} !! Repr
      requires c.refs == 1 && c.player == null
      requires c.invitations.Valid() && c.invitations.nil == null && c.invitations.Contents() == []
      modifies this`lobby, this`held, this`Repr
      ensures Valid() && Repr == old(Repr) + {c, c.invitations, c.invitations.data}
      ensures lobby == WithMember(old(lobby), c, Member(null, [])) && held == KeepClient(old(held), c)
    {
      hide Linked, TablesOk, ClientsOk, InvsOk, PlayersOk, ListsApart, GamesApart, Counted, ClientCount, InvCount, PlayerCount;
      ghost var l' := WithMember(lobby, c, Member(null, []));
      NewMember(lobby, held, c, l');
      lobby, held := l', KeepClient(held, c);
      Repr := Repr + {c, c.invitations, c.invitations.data};
      CountsBut(c);
      NewClientTied(c);
      TablesKept();
      ClientsKept(c);
      InvsKept(null);
      PlayersKept(null);
    }

    twostate lemma NewClientTied(new c: Client)
      requires old(ClientsOk()) && old(Repr) <= Repr && c in lobby.members
      requires c in Repr && c.invitations in Repr && c.invitations.data in Repr
      requires c.invitations !in old(Repr) && c.invitations.data !in old(Repr)
      requires c.invitations.Valid() && c.invitations.nil == null
      requires lobby.members[c] == Member(c.player, c.invitations.Contents())
      requires forall d | d in lobby.members && d != c :: d in old(lobby.members)
      requires forall d | d in old(lobby.members) :: unchanged(d) && unchanged(d.invitations)
      ensures ClientOk(c)
      ensures forall d | d in lobby.members && d != c ::
        d.invitations != c.invitations && d.invitations.data != c.invitations.data
    {
      hide Linked;
      forall d | d in lobby.members && d != c
        ensures d.invitations != c.invitations && d.invitations.data != c.invitations.data
      {
        assert old(ClientOk(d));
      }
    }

    method HasRoom() returns (yes: bool)
      requires Valid()
      ensures yes <==> null in lobby.registry
    {
      hide Linked, ClientsOk, InvsOk, PlayersOk, ListsApart, GamesApart, Counted;
      Tables();
      RoomLeft(creg.clients[..], null);
      yes := creg.size < MAX_CLIENTS;
    }

    method SeatAt(k: nat) returns (c: Client?)
      requires Valid() && k < MAX_CLIENTS
      ensures |lobby.registry| == MAX_CLIENTS && c == lobby.registry[k]
    {
      hide Linked, ClientsOk, InvsOk, PlayersOk, ListsApart, GamesApart, Counted;
      Tables();
      c := creg.clients[k];
    }

    // Seats a held client in the first empty slot; its service thread starts, logged out.
    method Seat(c: Client)
      requires Valid() && c in held.clients && c !in lobby.registry && null in lobby.registry
      modifies Repr
      ensures Valid() && Repr == old(Repr) && sent == old(sent)
      ensures FirstIndex(old(lobby).registry, null) < |old(lobby).registry|
      ensures lobby == WithRegistry(old(lobby),
        old(lobby).registry[FirstIndex(old(lobby).registry, null) := c], old(lobby).loops[c := null])
      ensures held == DropClient(old(held), c)
    {
      hide Linked, TablesOk, ClientsOk, InvsOk, PlayersOk, ListsApart, GamesApart, Counted, SameCounts;
      Tables();
      ghost var k := FirstIndex(lobby.registry, null);
      FirstIndexFinds(lobby.registry, null);
      RoomLeft(lobby.registry, null);
      ghost var l' := WithRegistry(lobby, lobby.registry[k := c], lobby.loops[c := null]);
      TakeSeat(lobby, held, c, k, l');
      creg.Insert(c);
      loops := loops[c := null];
      lobby, held := l', DropClient(held, c);
      OnlyTheRegistry();
      CountsKept();
    }

    // The reverse: the thread ends, and the registry's pointer passes to the caller.
    method Unseat(c: Client) returns (res: int)
      requires Valid() && c in lobby.members && lobby.members[c].player == null
      requires c in lobby.registry ==> c in lobby.loops && lobby.loops[c] == null
      modifies Repr
      ensures Valid() && Repr == old(Repr) && sent == old(sent)
      ensures var l := old(lobby);
        if c in l.registry
        then res == 0 && lobby == WithRegistry(l, Replace(l.registry, c, null), l.loops - {c}) && held == KeepClient(old(held), c)
        else res == -1 && lobby == l && held == old(held)
    {
      hide Linked, TablesOk, ClientsOk, InvsOk, PlayersOk, ListsApart, GamesApart, Counted, SameCounts;
      Tables();
      FirstIndexFinds(lobby.registry, c);
      SameAsBefore(lobby, held);
      ghost var l, k := lobby, FirstIndex(lobby.registry, c);
      res := creg.Remove(c);
      if res == 0 {
        ghost var l' := WithRegistry(l, l.registry[k := null], l.loops - {c});
        LeaveSeat(l, held, c, k, l');
        loops := loops - {c};
        lobby, held := l', KeepClient(held, c);
      }
      OnlyTheRegistry();
      CountsKept();
    }

    method WakeWaiters()
      requires Valid()
      modifies Repr
      ensures Valid() && Repr == old(Repr) && lobby == old(lobby) && held == old(held) && sent == old(sent)
    {
      hide Linked, TablesOk, ClientsOk, InvsOk, PlayersOk, ListsApart, GamesApart, Counted, SameCounts;
      Tables();
      SameAsBefore(lobby, held);
      creg.WakeIfEmpty();
      OnlyTheRegistry();
      CountsKept();
    }

    twostate lemma OnlyTheRegistry()
      requires old(TablesOk() && ClientsOk() && ListsApart() && InvsOk() && GamesApart() && PlayersOk()) && old(Repr) <= Repr
      requires lobby == old(lobby).(registry := lobby.registry, loops := lobby.loops) && loops == lobby.loops
      requires creg.Valid() && creg.clients[..] == lobby.registry
      requires forall o | o in old(Repr) && o != this && o != creg && o != creg.clients :: unchanged(o)
      ensures TablesOk() && ClientsOk() && ListsApart() && InvsOk() && GamesApart() && PlayersOk()
    {
      hide Linked;
      OnlyTheRegistryTables();
      hide TablesOk;
      OnlyTheRegistryClients();
      hide ClientsOk, ListsApart;
      OnlyTheRegistryInvs();
      hide InvsOk, GamesApart;
      PlayersKept(null);
    }

    twostate lemma OnlyTheRegistryTables()
      requires old(TablesOk()) && old(Repr) <= Repr
      requires lobby.roll == old(lobby.roll) && loops == lobby.loops
      requires creg.Valid() && creg.clients[..] == lobby.registry
      requires forall o | o in old(Repr) && o != this && o != creg && o != creg.clients :: unchanged(o)
      ensures TablesOk()
    {
      assert players.Contents() == old(players.Contents());
    }

    twostate lemma OnlyTheRegistryClients()
      requires old(ClientsOk() && ListsApart()) && old(Repr) <= Repr
      requires lobby.members == old(lobby.members)
      requires forall o | o in old(Repr) && o != this && o != creg && o != creg.clients :: unchanged(o)
      ensures ClientsOk() && ListsApart()
    {
      hide Linked;
      forall c | c in lobby.members
        ensures unchanged(c`player) && unchanged(c.invitations) && unchanged(c.invitations.data)
      {
        assert old(ClientOk(c));
      }
      ClientsKept(null);
    }

    twostate lemma OnlyTheRegistryInvs()
      requires old(InvsOk() && GamesApart()) && old(Repr) <= Repr
      requires lobby.offers == old(lobby.offers)
      requires forall o | o in old(Repr) && o != this && o != creg && o != creg.clients :: unchanged(o)
      ensures InvsOk() && GamesApart()
    {
      hide Linked;
      forall i | i in lobby.offers
        ensures unchanged(i`state) && unchanged(i`game)
        ensures i.game != null ==> unchanged(i.game) && unchanged(i.game.board)
      {
        assert old(InvOk(i));
      }
      InvsKept(null);
    }

    // --- The player registry and the threads' local variables ------------------------------

    method RollCount() returns (n: nat)
      requires Valid()
      ensures n == |lobby.roll|
    {
      hide Linked, ClientsOk, InvsOk, PlayersOk, ListsApart, GamesApart, Counted;
      Tables();
      n := players.size;
    }

    method RollAt(k: nat) returns (p: Player?)
      requires Valid() && k < |lobby.roll|
      ensures p == lobby.roll[k]
    {
      hide Linked, ClientsOk, InvsOk, PlayersOk, ListsApart, GamesApart, Counted;
      Tables();
      p := players.Get(k);
    }

    method LoopPlayer(c: Client) returns (p: Player?)
      requires Valid() && c in lobby.loops
      ensures p == lobby.loops[c]
    {
      hide Linked, ClientsOk, InvsOk, PlayersOk, ListsApart, GamesApart, Counted;
      Tables();
      p := loops[c];
    }

    // The service thread keeps the pointer it holds in its local variable.
    method LoopSet(c: Client, p: Player)
      requires Valid() && c in lobby.loops && lobby.loops[c] == null && p in held.players
      modifies Repr
      ensures Valid() && Repr == old(Repr) && sent == old(sent)
      ensures lobby == WithLoop(old(lobby), c, p) && held == DropPlayer(old(held), p)
    {
      hide Linked, TablesOk, ClientsOk, InvsOk, PlayersOk, ListsApart, GamesApart, Counted, SameCounts;
      Tables();
      SetLoop(lobby, held, c, p);
      loops := loops[c := p];
      lobby, held := WithLoop(lobby, c, p), DropPlayer(held, p);
      OnlyTheRegistry();
      CountsKept();
    }

    // The service thread is about to drop the pointer in its local variable.
    method LoopClear(c: Client, ghost p: Player)
      requires Valid() && c in lobby.loops && lobby.loops[c] == p
      modifies Repr
      ensures Valid() && Repr == old(Repr) && sent == old(sent)
      ensures lobby == WithLoop(old(lobby), c, null) && held == KeepPlayer(old(held), p)
    {
      hide Linked, TablesOk, ClientsOk, InvsOk, PlayersOk, ListsApart, GamesApart, Counted, SameCounts;
      Tables();
      ClearLoop(lobby, held, c, p);
      loops := loops[c := null];
      lobby, held := WithLoop(lobby, c, null), KeepPlayer(held, p);
      OnlyTheRegistry();
      CountsKept();
    }
  }
}
