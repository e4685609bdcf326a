// The server's state with the reference counts left out: who is connected, who is logged in,
// which invitations exist and where they are listed. The counts are then functions of this
// state and of the pointers a running request still holds.
module Lobbies {
  import opened Prelude
  import opened Games
  import opened Players
  import opened Objects

  const MAX_CLIENTS: nat := 64

  datatype Member = Member(player: Player?, slots: seq<Invitation?>)

  datatype Offer = Offer(
    source: Client, target: Client, sourceRole: nat, targetRole: nat,
    state: InvState, game: Option<GameState>)

  datatype Account = Account(name: string, rating: int)

  datatype Lobby = Lobby(
    members: map<Client, Member>,        // the clients not yet freed
    offers: map<Invitation, Offer>,      // the invitations not yet freed
    accounts: map<Player, Account>,      // the players not yet freed
    registry: seq<Client?>,              // clients[MAX_CLIENTS]
    roll: seq<Player?>,                  // the player registry
    loops: map<Client, Player?>)         // the local variable `player` of each service thread

  // The pointers held in local variables of the running request.
  datatype Held = Held(clients: multiset<Client>, invs: multiset<Invitation>, players: multiset<Player>)

  const NOTHING := Held(multiset{}, multiset{}, multiset{})

  // The server before the first connection.
  function Empty(): Lobby
  {
    Lobby(map[], map[], map[], seq(MAX_CLIENTS, _ => null), [], map[])
  }

  function SourceOf(l: Lobby, c: Client): set<Invitation>
  {
    set i | i in l.offers && l.offers[i].source == c
  }

  function TargetOf(l: Lobby, c: Client): set<Invitation>
  {
    set i | i in l.offers && l.offers[i].target == c
  }

  function LoopsOf(l: Lobby, p: Player): set<Client>
  {
    set c | c in l.loops && l.loops[c] == p
  }

  function LoginsOf(l: Lobby, p: Player): set<Client>
  {
    set c | c in l.members && l.members[c].player == p
  }

  // The exact counts: one for each place that holds a pointer to the object.
  function ClientCount(l: Lobby, h: Held, c: Client): nat
  {
    (if c in l.registry then 1 else 0) + |SourceOf(l, c)| + |TargetOf(l, c)| + h.clients[c]
  }

  function ListedIn(l: Lobby, c: Client, i: Invitation): nat
  {
    if c in l.members then multiset(l.members[c].slots)[i] else 0
  }

  function InvCount(l: Lobby, h: Held, i: Invitation): nat
    requires i in l.offers
  {
    ListedIn(l, l.offers[i].source, i) + ListedIn(l, l.offers[i].target, i) + h.invs[i]
  }

  function PlayerCount(l: Lobby, h: Held, p: Player): nat
  {
    1 + |LoopsOf(l, p)| + |LoginsOf(l, p)| + h.players[p]
  }

  ghost predicate MemberLinked(l: Lobby, c: Client)
    requires c in l.members
  {
    var m := l.members[c];
    && (m.player != null ==> m.player in l.accounts && c in l.registry)
    && (forall k :: 0 <= k < |m.slots| && m.slots[k] != null ==>
          m.slots[k] in l.offers && Names(l.offers[m.slots[k]], c))
  }

  predicate Names(o: Offer, c: Client) { o.source == c || o.target == c }

  ghost predicate OfferLinked(l: Lobby, o: Offer)
  {
    && o.source in l.members && o.target in l.members && o.source != o.target
    && (o.state == Open ==> o.game == None)
    && (o.state == Accepted ==> o.game.Some?)
    && (o.game.Some? ==> |o.game.value.board| == 9)
  }

  ghost predicate SeatsLinked(l: Lobby)
  {
    && |l.registry| == MAX_CLIENTS
    && (forall k :: 0 <= k < MAX_CLIENTS && l.registry[k] != null ==> l.registry[k] in l.members)
    && (forall j, k :: 0 <= j < k < MAX_CLIENTS && l.registry[k] != null ==> l.registry[j] != l.registry[k])
  }

  ghost predicate LoopsLinked(l: Lobby)
  {
    forall c | c in l.loops :: c in l.registry && (l.loops[c] != null ==> l.loops[c] in l.accounts)
  }

  ghost predicate RegistryLinked(l: Lobby) { SeatsLinked(l) && LoopsLinked(l) }

  ghost predicate RollLinked(l: Lobby)
  {
    && (forall k :: 0 <= k < |l.roll| ==> l.roll[k] != null && l.roll[k] in l.accounts)
    && (forall j, k :: 0 <= j < k < |l.roll| ==> l.roll[j] != l.roll[k])
    && (forall p | p in l.accounts :: p in l.roll)
  }

  ghost predicate HeldLinked(l: Lobby, h: Held)
  {
    && (forall c | c in h.clients :: c in l.members)
    && (forall i | i in h.invs :: i in l.offers)
    && (forall p | p in h.players :: p in l.accounts)
  }

  // No pointer dangles, and lists hold only invitations that name their owner.
  ghost predicate Linked(l: Lobby, h: Held)
  {
    && RegistryLinked(l) && RollLinked(l) && HeldLinked(l, h)
    && (forall c | c in l.members :: MemberLinked(l, c))
    && (forall i | i in l.offers :: OfferLinked(l, l.offers[i]))
  }

  // --- What dropping one held pointer does -------------------------------------------------

  function DropClient(h: Held, c: Client): Held { h.(clients := h.clients - multiset{c}) }
  function DropInv(h: Held, i: Invitation): Held { h.(invs := h.invs - multiset{i}) }
  function DropPlayer(h: Held, p: Player): Held { h.(players := h.players - multiset{p}) }
  function KeepClient(h: Held, c: Client): Held { h.(clients := h.clients + multiset{c}) }
  function KeepInv(h: Held, i: Invitation): Held { h.(invs := h.invs + multiset{i}) }
  function KeepPlayer(h: Held, p: Player): Held { h.(players := h.players + multiset{p}) }

  // The last pointer frees the client.
  function ReleaseClient(l: Lobby, h: Held, c: Client): Lobby
  {
    if ClientCount(l, h, c) == 1 then l.(members := l.members - {c}) else l
  }

  // What a freed invitation pointed to passes into the hands of the running request.
  function HandedOver(l: Lobby, h: Held, i: Invitation): Held
    requires i in l.offers
  {
    KeepClient(KeepClient(h, l.offers[i].source), l.offers[i].target)
  }

  // The last pointer frees the invitation, which in turn lets go of its two clients.
  function ReleaseInv(l: Lobby, h: Held, i: Invitation): Lobby
    requires i in l.offers
  {
    if InvCount(l, h, i) == 1 then
      var o := l.offers[i];
      var l1 := l.(offers := l.offers - {i});
      var h1 := HandedOver(l, DropInv(h, i), i);
      ReleaseClient(ReleaseClient(l1, h1, o.source), DropClient(h1, o.source), o.target)
    else l
  }

  // Accepting: an open invitation gets its game.
  function AcceptedOffer(o: Offer): Option<Offer>
  {
    if o.state == Open then Some(o.(state := Accepted, game := Some(INITIAL))) else None
  }

  // Closing: an open invitation, or an accepted one whose game the given role resigns.
  function ClosedOffer(o: Offer, role: nat): Option<Offer>
  {
    if o.state == Open then Some(o.(state := Closed))
    else if o.state == Accepted && role != NULL_ROLE then
      Some(o.(state := Closed, game := if o.game.Some? then Some(Resigned(o.game.value, role).GetOr(o.game.value)) else None))
    else None
  }

  // The ratings after a game between p and q, seen from p.
  function Posted(curve: Curve, accounts: map<Player, Account>, p: Player, q: Player, result: nat): map<Player, Account>
    requires p in accounts && q in accounts
  {
    var mine, theirs := accounts[p].rating, accounts[q].rating;
    accounts[p := accounts[p].(rating := Rated(curve, mine, theirs, Score(true, result)))]
            [q := accounts[q].(rating := Rated(curve, theirs, mine, Score(false, result)))]
  }

  // Every object that is still there is counted as before.
  ghost predicate SameCounts(l: Lobby, h: Held, l': Lobby, h': Held)
  {
    && (forall c | c in l'.members :: ClientCount(l', h', c) == ClientCount(l, h, c))
    && (forall i | i in l'.offers :: i in l.offers && InvCount(l', h', i) == InvCount(l, h, i))
    && (forall p | p in l'.accounts :: PlayerCount(l', h', p) == PlayerCount(l, h, p))
  }
}
