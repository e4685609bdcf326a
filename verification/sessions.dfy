// The service threads: what every packet from a client, a new connection and a lost one do to
// the lobby, and what all runs of the server keep.
module Sessions {
  import opened Prelude
  import opened Games
  import opened Players
  import opened Objects
  import opened Packets
  import opened Lobbies
  import opened Links
  import opened Requests
  import opened Keeping

  // A packet from a client. The payload is empty when there is none; where a name or a move is
  // wanted, it is read as a C string.
  datatype Request = Request(kind: Kind, id: nat, role: nat, data: string) {
    function Name(): string { CString(data) }
  }

  // The text up to the first null character.
  function CString(s: string): (t: string)
    ensures t <= s && '\0' !in t
    ensures t == s || s[|t|] == '\0'
  {
    if s == "" || s[0] == '\0' then "" else [s[0]] + CString(s[1..])
  }

  // --- Looking up clients and players ----------------------------------------------------

  predicate Named(l: Lobby, c: Client, name: string)
  {
    && c in l.members && l.members[c].player != null && l.members[c].player in l.accounts
    && l.accounts[l.members[c].player].name == name
  }

  // The first client in the registry, from slot k on, that is logged in under the name.
  function FindClient(l: Lobby, name: string, k: nat): Client?
    decreases |l.registry| - k
  {
    if k >= |l.registry| then null
    else if l.registry[k] != null && Named(l, l.registry[k], name) then l.registry[k]
    else FindClient(l, name, k + 1)
  }

  // The first player in the player registry, from slot k on, with the name.
  function FindPlayer(l: Lobby, name: string, k: nat): Player?
    decreases |l.roll| - k
  {
    if k >= |l.roll| then null
    else if l.roll[k] != null && l.roll[k] in l.accounts && l.accounts[l.roll[k]].name == name then l.roll[k]
    else FindPlayer(l, name, k + 1)
  }

  // The players of the logged-in clients among the first k slots.
  function Logins(l: Lobby, k: nat): seq<Player>
    requires k <= |l.registry|
  {
    if k == 0 then []
    else
      var c := l.registry[k - 1];
      Logins(l, k - 1) + (if c != null && c in l.members && l.members[c].player != null then [l.members[c].player] else [])
  }

  function RosterOf(l: Lobby, players: seq<Player>): seq<(string, int)>
  {
    if players == [] then []
    else
      var n := |players| - 1;
      var p := players[n];
      RosterOf(l, players[..n]) + (if p in l.accounts then [(l.accounts[p].name, l.accounts[p].rating)] else [])
  }

  // --- One request ------------------------------------------------------------------------

  function Ack(c: Client, id: nat, payload: Payload): Sent { Sent(c, Packet(AckPkt, id, 0, payload)) }
  function Nack(c: Client): Sent { Sent(c, Packet(NackPkt, 0, 0, Nothing)) }
  function Reply(c: Client, res: int): Sent { if res != -1 then Ack(c, 0, Nothing) else Nack(c) }

  // The reply is the last packet of a request; a server that has crashed does not reply.
  function Answered(done: Done, reply: Sent): Done
  {
    if done.crashed then done else Done(done.lobby, 0, done.sent + [reply])
  }

  // The player with the name, who is entered in the player registry if there is none.
  function Registered(l: Lobby, name: string, made: Player?): (Lobby, Player)
    requires FindPlayer(l, name, 0) == null ==> made != null
  {
    var found := FindPlayer(l, name, 0);
    if found != null then (l, found) else (WithAccount(l, made, name), made)
  }

  // A login succeeds when neither the client nor anybody's client is logged in as the player.
  function LoggedIn(l: Lobby, c: Client, name: string, made: Player?): (Lobby, bool)
    requires c in l.members && (FindPlayer(l, name, 0) == null ==> made != null)
  {
    var (l1, p) := Registered(l, name, made);
    if l1.members[c].player == null && p !in Logins(l1, |l1.registry|)
    then (WithLoop(WithMember(l1, c, l1.members[c].(player := p)), c, p), true)
    else (l1, false)
  }

  // Nobody can invite himself.
  function Invites(l: Lobby, c: Client, name: string, role: nat, i: Invitation?): Done
    requires Settled(l) && c in l.members && Playing(l, c)
    requires FindClient(l, name, 0) != null && FindClient(l, name, 0) != c ==> i != null
  {
    var d := FindClient(l, name, 0);
    if d == null || d !in l.members || d == c then Done(l, 0, [Nack(c)])
    else
      var done := Made(l, c, d, Other(role), role, i);
      Answered(done, if done.res >= 0 then Ack(c, Byte(done.res), Nothing) else Nack(c))
  }

  // Whether the request creates a player, or an invitation.
  predicate NeedsPlayer(l: Lobby, c: Client, r: Request)
    requires c in l.loops
  {
    r.kind == LoginPkt && l.loops[c] == null && r.data != "" && FindPlayer(l, r.Name(), 0) == null
  }

  predicate NeedsInv(l: Lobby, c: Client, r: Request)
    requires c in l.loops
  {
    && r.kind == InvitePkt && l.loops[c] != null && r.data != ""
    && FindClient(l, r.Name(), 0) != null && FindClient(l, r.Name(), 0) != c
  }

  // The objects p and i are new, when the request needs them.
  ghost predicate Supplied(l: Lobby, c: Client, r: Request, p: Player?, i: Invitation?)
    requires c in l.loops
  {
    && (NeedsPlayer(l, c, r) ==> p != null && p !in l.accounts)
    && (NeedsInv(l, c, r) ==> i != null && i !in l.offers)
  }

  // The reply to a packet, and everything it does. The objects p and i are the ones that the
  // request allocates, if it does.
  ghost function Handled(curve: Curve, l: Lobby, c: Client, r: Request, p: Player?, i: Invitation?): Done
    requires Settled(l) && c in l.members && c in l.loops && (l.loops[c] != null ==> Playing(l, c))
    requires Supplied(l, c, r, p, i)
  {
    var loggedIn := l.loops[c] != null;
    var refused := Done(l, 0, [Nack(c)]);
    match r.kind
    case LoginPkt =>
      if !loggedIn && r.data != "" then
        var (l', ok) := LoggedIn(l, c, r.Name(), p);
        Done(l', 0, [if ok then Ack(c, 0, Nothing) else Nack(c)])
      else refused
    case UsersPkt =>
      if loggedIn && r.data == "" then Done(l, 0, [Ack(c, 0, Roster(RosterOf(l, Logins(l, |l.registry|))))]) else refused
    case InvitePkt =>
      if loggedIn && r.data != "" then Invites(l, c, r.Name(), r.role, i) else refused
    case RevokePkt =>
      if loggedIn && r.data == "" then
        var done := Revoked(l, c, r.id); Answered(done, Reply(c, done.res))
      else refused
    case DeclinePkt =>
      if loggedIn && r.data == "" then
        var done := Declined(l, c, r.id); Answered(done, Reply(c, done.res))
      else refused
    case AcceptPkt =>
      if loggedIn && r.data == "" then
        var (done, text) := Accepts(l, c, r.id);
        Answered(done, if done.res != -1 then Ack(c, 0, text) else Nack(c))
      else refused
    case MovePkt =>
      if loggedIn && r.data != "" then
        var done := Moves(curve, l, c, r.id, r.Name()); Answered(done, Reply(c, done.res))
      else refused
    case ResignPkt =>
      if loggedIn && r.data == "" then
        var done := Resigns(curve, l, c, r.id); Answered(done, Reply(c, done.res))
      else refused
    case _ => Done(l, 0, [])
  }

  // --- Connecting and hanging up ----------------------------------------------------------

  // A full registry turns the connection away.
  function Connected(l: Lobby, c: Client): Lobby
  {
    var k := FirstIndex(l.registry, null);
    if k < |l.registry|
    then WithRegistry(WithMember(l, c, Member(null, [])), l.registry[k := c], l.loops[c := null])
    else l
  }

  // Something is still listed.
  predicate Busy(m: Member) { exists k :: 0 <= k < |m.slots| && m.slots[k] != null }

  // The client leaves its seat, and is freed if it has no game left.
  ghost function Unregistered(l: Lobby, c: Client): Lobby
    requires c in l.members
  {
    var l1 := WithRegistry(l, Replace(l.registry, c, null), l.loops - {c});
    if Busy(l.members[c]) then l1 else l1.(members := l1.members - {c})
  }

  // The end of a service thread: it drops its player, logs its client out and unregisters it.
  ghost function HungUp(curve: Curve, l: Lobby, c: Client): Done
    requires c in l.members && c in l.loops
  {
    var done := if l.loops[c] != null then LoggedOut(curve, WithLoop(l, c, null), c) else Done(l, 0, []);
    if done.crashed || c !in done.lobby.members then done.(lobby := l)
    else Done(Unregistered(done.lobby, c), 0, done.sent)
  }

  // --- Between requests -------------------------------------------------------------------

  // A client in memory is registered and served by a thread that knows its player, or it has
  // hung up and is kept in memory by a game that it could not resign.
  ghost predicate Served(l: Lobby)
  {
    forall c | c in l.members ::
      if c in l.loops
      then c in l.registry && l.loops[c] == l.members[c].player && (l.members[c].player == null ==> !Busy(l.members[c]))
      else c !in l.registry && l.members[c].player == null && Busy(l.members[c])
  }

  ghost predicate AtRest(l: Lobby) { Rest(l) && Served(l) }

  lemma AtRestSettled(l: Lobby, c: Client)
    requires AtRest(l) && c in l.loops
    ensures Settled(l) && c in l.members && (l.loops[c] != null ==> Playing(l, c))
  {
    hide Agreed;
    LoopsAreMembers(l);
    assert MemberLinked(l, c);
  }

  lemma LoopsAreMembers(l: Lobby)
    requires Linked(l, NOTHING)
    ensures forall c | c in l.loops :: c in l.members && c in l.registry
  {
  }

  lemma NobodyThere()
    ensures AtRest(Empty())
  {
  }

  // --- Lookups ----------------------------------------------------------------------------

  // A found player has the name; none is found only when nobody has it.
  lemma {:induction false} FoundPlayer(l: Lobby, name: string, k: nat)
    requires RollLinked(l) && k <= |l.roll|
    ensures var p := FindPlayer(l, name, k);
      && (p != null ==> p in l.accounts && l.accounts[p].name == name)
      && (p == null ==> forall j :: k <= j < |l.roll| ==> l.accounts[l.roll[j]].name != name)
    decreases |l.roll| - k
  {
    if k < |l.roll| {
      FoundPlayer(l, name, k + 1);
    }
  }

  lemma {:induction false} FoundClient(l: Lobby, name: string, k: nat)
    requires k <= |l.registry|
    ensures var c := FindClient(l, name, k);
      && (c != null ==> c in l.registry && Named(l, c, name))
      && (c == null ==> forall j :: k <= j < |l.registry| && l.registry[j] != null ==> !Named(l, l.registry[j], name))
    decreases |l.registry| - k
  {
    if k < |l.registry| {
      FoundClient(l, name, k + 1);
    }
  }

  // The lookup is the map from names to clients: whatever the order of the slots, it answers
  // with a client exactly when that client is logged in under the name.
  lemma LookupIsTheMap(l: Lobby, name: string, c: Client)
    requires AtRest(l)
    ensures FindClient(l, name, 0) == c <==> Named(l, c, name)
  {
    hide Linked;
    FoundClient(l, name, 0);
    if Named(l, c, name) {
      assert c in l.registry;
    }
  }

  lemma {:induction false} LoginsAre(l: Lobby, k: nat, p: Player)
    requires k <= |l.registry|
    ensures p in Logins(l, k) <==>
      exists j :: 0 <= j < k && l.registry[j] != null && l.registry[j] in l.members && l.members[l.registry[j]].player == p
  {
    if k > 0 {
      LoginsAre(l, k - 1, p);
    }
  }

  // The listed players are those of the registered clients.
  lemma LoggedInAs(l: Lobby, p: Player)
    requires RegistryLinked(l)
    ensures p in Logins(l, |l.registry|) <==>
      exists c :: c in l.members && c in l.registry && l.members[c].player == p
  {
    LoginsAre(l, |l.registry|, p);
    if c :| c in l.members && c in l.registry && l.members[c].player == p {
      var j :| 0 <= j < |l.registry| && l.registry[j] == c;
    }
  }

  // The list for USERS names every logged-in player once, with his name and rating.
  lemma {:induction false} LoginsDiffer(l: Lobby, k: nat)
    requires RegistryLinked(l) && OneLogin(l) && k <= |l.registry|
    ensures forall i, j :: 0 <= i < j < |Logins(l, k)| ==> Logins(l, k)[i] != Logins(l, k)[j]
  {
    if k > 0 {
      LoginsDiffer(l, k - 1);
      var c := l.registry[k - 1];
      if c != null && c in l.members && l.members[c].player != null {
        LoginsAre(l, k - 1, l.members[c].player);
      }
    }
  }

  lemma {:induction false} RosterLists(l: Lobby, players: seq<Player>)
    requires forall k :: 0 <= k < |players| ==> players[k] in l.accounts
    ensures |RosterOf(l, players)| == |players|
    ensures forall k :: 0 <= k < |players| ==>
      RosterOf(l, players)[k] == (l.accounts[players[k]].name, l.accounts[players[k]].rating)
  {
    if players != [] {
      RosterLists(l, players[..|players| - 1]);
    }
  }

  // --- What every step keeps --------------------------------------------------------------

  lemma RegisteredKeeps(l: Lobby, name: string, made: Player?)
    requires Rest(l) && (FindPlayer(l, name, 0) == null ==> made != null && made !in l.accounts)
    ensures var (l', p) := Registered(l, name, made);
      && Rest(l') && p in l'.accounts && l'.accounts[p].name == name
      && l'.members == l.members && l'.registry == l.registry && l'.loops == l.loops && l'.offers == l.offers
  {
    hide Linked, OneLogin, NamesDiffer, OfferAgreed;
    LinkedTables(l);
    FoundPlayer(l, name, 0);
    if FindPlayer(l, name, 0) == null {
      var l' := WithAccount(l, made, name);
      NewAccount(l, NOTHING, made, name);
      NothingHeld(l', KeepPlayer(NOTHING, made));
      NewName(l, name, made);
      StillAgreed(l, l');
    }
  }

  // Entering a player concerns no invitation and no login.
  lemma StillAgreed(l: Lobby, l': Lobby)
    requires Agreed(l) && NamesDiffer(l') && l'.offers == l.offers && l'.members == l.members
    ensures Agreed(l')
  {
    forall i | i in l'.offers
      ensures OfferAgreed(l', i)
    {
      assert OfferAgreed(l, i);
    }
  }

  lemma NewName(l: Lobby, name: string, made: Player)
    requires RollLinked(l) && NamesDiffer(l) && made !in l.accounts && FindPlayer(l, name, 0) == null
    ensures NamesDiffer(WithAccount(l, made, name))
  {
    FoundPlayer(l, name, 0);
    forall p | p in l.accounts
      ensures l.accounts[p].name != name
    {
      assert p in l.roll;
    }
  }

  lemma LoggedInKeeps(l: Lobby, c: Client, name: string, made: Player?)
    requires AtRest(l) && c in l.members && c in l.loops && l.loops[c] == null
    requires FindPlayer(l, name, 0) == null ==> made != null && made !in l.accounts
    ensures var l' := LoggedIn(l, c, name, made).0;
      AtRest(l') && l'.members.Keys == l.members.Keys && l'.loops.Keys == l.loops.Keys
  {
    hide Linked, Agreed;
    RegisteredKeeps(l, name, made);
    var (l1, p) := Registered(l, name, made);
    hide Registered;
    if p !in Logins(l1, |l1.registry|) {
      LinkedTables(l1);
      LoggedInAs(l1, p);
      NewLogin(l1, c, p);
    }
  }

  lemma LinkedTables(l: Lobby)
    requires Linked(l, NOTHING)
    ensures RegistryLinked(l) && RollLinked(l)
  {
  }

  lemma RestTables(l: Lobby)
    requires Rest(l)
    ensures SeatsLinked(l)
  {
  }

  lemma NewLogin(l: Lobby, c: Client, p: Player)
    requires AtRest(l) && c in l.members && c in l.loops && l.members[c].player == null && p in l.accounts
    requires forall d | d in l.members && d in l.registry :: l.members[d].player != p
    ensures AtRest(WithLoop(WithMember(l, c, l.members[c].(player := p)), c, p))
  {
    hide Linked, SameCounts, ClientCount, InvCount, PlayerCount, Busy, Agreed;
    MembersPlaying(l);
    LoginAgreed(l, c, p, WithLoop(WithMember(l, c, l.members[c].(player := p)), c, p));
    LoginLinked(l, c, p);
  }

  lemma LoginLinked(l: Lobby, c: Client, p: Player)
    requires Linked(l, NOTHING) && c in l.members && c in l.registry && c in l.loops
    requires l.members[c].player == null && l.loops[c] == null && p in l.accounts
    ensures Linked(WithLoop(WithMember(l, c, l.members[c].(player := p)), c, p), NOTHING)
  {
    hide Linked, SameCounts, ClientCount, InvCount, PlayerCount;
    var l1 := WithMember(l, c, l.members[c].(player := p));
    var h := KeepPlayer(NOTHING, p);
    HoldPlayer(l, NOTHING, p);
    LogIn(l, h, c, p, l1);
    assert DropPlayer(h, p) == NOTHING;
    HoldPlayer(l1, NOTHING, p);
    SetLoop(l1, h, c, p);
  }

  lemma LoginAgreed(l: Lobby, c: Client, p: Player, l': Lobby)
    requires Agreed(l) && c in l.members && l.members[c].player == null
    requires forall d | d in l.members :: l.members[d].player != p
    requires l'.members == l.members[c := l.members[c].(player := p)] && l'.offers == l.offers && l'.accounts == l.accounts
    ensures Agreed(l')
  {
    forall i | i in l'.offers
      ensures OfferAgreed(l', i)
    {
      assert OfferAgreed(l, i);
    }
  }

  // A login succeeds exactly if the client is not logged in and nobody is logged in under the
  // name; then the client is, and nobody else's login has changed.
  lemma LoginIffNameFree(l: Lobby, c: Client, name: string, made: Player?)
    requires AtRest(l) && c in l.members
    requires FindPlayer(l, name, 0) == null ==> made != null && made !in l.accounts
    ensures var (l', ok) := LoggedIn(l, c, name, made);
      && (ok <==> l.members[c].player == null && forall d | d in l.members :: !Named(l, d, name))
      && (ok ==> Named(l', c, name))
      && l'.members.Keys == l.members.Keys
      && (forall d | d in l.members && !(ok && d == c) :: l'.members[d] == l.members[d])
  {
    hide Linked, Logins;
    RegisteredKeeps(l, name, made);
    var (l1, p) := Registered(l, name, made);
    LinkedTables(l1);
    LoggedInAs(l1, p);
    MembersPlaying(l);
    forall d | d in l.members
      ensures Named(l, d, name) <==> l.members[d].player == p
    {
      NamedIs(l, name, made, d);
    }
  }

  lemma MembersPlaying(l: Lobby)
    requires AtRest(l)
    ensures forall d | d in l.members && l.members[d].player != null :: d in l.registry && l.members[d].player in l.accounts
  {
    hide Agreed, Served;
    forall d | d in l.members && l.members[d].player != null
      ensures d in l.registry && l.members[d].player in l.accounts
    {
      assert MemberLinked(l, d);
    }
  }

  lemma NamedIs(l: Lobby, name: string, made: Player?, d: Client)
    requires AtRest(l) && d in l.members
    requires FindPlayer(l, name, 0) == null ==> made != null && made !in l.accounts
    ensures Named(l, d, name) <==> l.members[d].player == Registered(l, name, made).1
  {
    MembersPlaying(l);
    LinkedTables(l);
    hide Linked;
    FoundPlayer(l, name, 0);
    assert forall q | q in l.accounts :: q in l.roll;
  }

  lemma InvitesKeeps(l: Lobby, c: Client, name: string, role: nat, i: Invitation?)
    requires Rest(l) && Settled(l) && c in l.members && Playing(l, c)
    requires FindClient(l, name, 0) != null && FindClient(l, name, 0) != c ==> i != null && i !in l.offers
    ensures Rest(Invites(l, c, name, role, i).lobby) && Outline(l, Invites(l, c, name, role, i).lobby)
    ensures !Invites(l, c, name, role, i).crashed
  {
    hide Rest, Settled;
    FoundClient(l, name, 0);
    var d := FindClient(l, name, 0);
    if d != null && d != c {
      MadeKeeps(l, c, d, Other(role), role, i);
    }
  }

  lemma Kept(l: Lobby, l': Lobby)
    requires AtRest(l) && Rest(l') && Outline(l, l')
    ensures AtRest(l') && l'.members.Keys == l.members.Keys && l'.loops.Keys == l.loops.Keys
  {
    hide Rest;
  }

  // Every request leaves the server at rest, unless it crashes.
  lemma HandledKeeps(curve: Curve, l: Lobby, c: Client, r: Request, p: Player?, i: Invitation?)
    requires AtRest(l) && c in l.loops && Supplied(l, c, r, p, i)
    ensures Settled(l) && c in l.members && (l.loops[c] != null ==> Playing(l, c))
    ensures var l' := Handled(curve, l, c, r, p, i).lobby;
      AtRest(l') && l'.members.Keys == l.members.Keys && l'.loops.Keys == l.loops.Keys
  {
    hide Rest, Sound, Agreed, Outline, LoggedIn, Invites, Revoked, Declined, Accepts, Moves, Resigns;
    AtRestSettled(l, c);
    SameOutline(l);
    OfferOutline(l, c, r.id);
    GameOutline(curve, l, c, r.id, r.Name());
    match r.kind
    case LoginPkt =>
      if l.loops[c] == null && r.data != "" {
        LoggedInKeeps(l, c, r.Name(), p);
      }
    case InvitePkt =>
      if l.loops[c] != null && r.data != "" {
        InvitesKeeps(l, c, r.Name(), r.role, i);
        Kept(l, Invites(l, c, r.Name(), r.role, i).lobby);
      }
    case RevokePkt =>
      RevokedKeeps(l, c, r.id);
      Kept(l, Revoked(l, c, r.id).lobby);
    case DeclinePkt =>
      DeclinedKeeps(l, c, r.id);
      Kept(l, Declined(l, c, r.id).lobby);
    case AcceptPkt =>
      AcceptsKeeps(l, c, r.id);
      Kept(l, Accepts(l, c, r.id).0.lobby);
    case MovePkt =>
      MovesKeeps(curve, l, c, r.id, r.Name());
      Kept(l, Moves(curve, l, c, r.id, r.Name()).lobby);
    case ResignPkt =>
      ResignsKeeps(curve, l, c, r.id);
      Kept(l, Resigns(curve, l, c, r.id).lobby);
    case _ =>
  }

  lemma ConnectedKeeps(l: Lobby, c: Client)
    requires AtRest(l) && c !in l.members
    ensures AtRest(Connected(l, c))
    ensures Connected(l, c).members.Keys == l.members.Keys + (if null in l.registry then {c} else {})
    ensures Connected(l, c).loops.Keys == l.loops.Keys + (if null in l.registry then {c} else {})
  {
    hide Linked, Agreed, Served;
    var k := FirstIndex(l.registry, null);
    FirstIndexFinds(l.registry, null);
    if k < |l.registry| {
      SeatLinked(l, c, k);
      SeatAgreed(l, c, Connected(l, c));
      SeatServed(l, c, k);
    }
  }

  lemma SeatLinked(l: Lobby, c: Client, k: nat)
    requires Linked(l, NOTHING) && c !in l.members && k < |l.registry| && l.registry[k] == null
    ensures Linked(WithRegistry(WithMember(l, c, Member(null, [])), l.registry[k := c], l.loops[c := null]), NOTHING)
  {
    NotSeated(l, c);
    hide Linked, SameCounts, ClientCount, InvCount, PlayerCount;
    var l1 := WithMember(l, c, Member(null, []));
    NewMember(l, NOTHING, c, l1);
    TakeSeat(l1, KeepClient(NOTHING, c), c, k, WithRegistry(l1, l.registry[k := c], l.loops[c := null]));
    assert DropClient(KeepClient(NOTHING, c), c) == NOTHING;
  }

  lemma NotSeated(l: Lobby, c: Client)
    requires Linked(l, NOTHING) && c !in l.members
    ensures c !in l.registry && |l.registry| == MAX_CLIENTS
  {
  }

  lemma SeatAgreed(l: Lobby, c: Client, l': Lobby)
    requires Agreed(l) && c !in l.members && l'.members == l.members[c := Member(null, [])]
    requires l'.offers == l.offers && l'.accounts == l.accounts
    ensures Agreed(l')
  {
    forall i | i in l'.offers
      ensures OfferAgreed(l', i)
    {
      assert OfferAgreed(l, i);
    }
  }

  lemma SeatServed(l: Lobby, c: Client, k: nat)
    requires Served(l) && k < |l.registry| && l.registry[k] == null && c !in l.members
    ensures Served(WithRegistry(WithMember(l, c, Member(null, [])), l.registry[k := c], l.loops[c := null]))
  {
    var registry := l.registry[k := c];
    assert registry[k] == c;
    forall d | d in l.members
      ensures d in registry <==> d in l.registry
    {
      if d in l.registry {
        var j :| 0 <= j < |l.registry| && l.registry[j] == d;
        assert registry[j] == d;
      }
    }
  }

  // The thread forgets its player.
  lemma ForgottenKeeps(l: Lobby, c: Client)
    requires Rest(l) && c in l.loops && l.loops[c] != null
    ensures Rest(WithLoop(l, c, null))
  {
    hide Linked, SameCounts;
    var l' := WithLoop(l, c, null);
    ClearLoop(l, NOTHING, c, l.loops[c]);
    NothingHeld(l', KeepPlayer(NOTHING, l.loops[c]));
    forall i | i in l'.offers
      ensures OfferAgreed(l', i)
    {
      assert OfferAgreed(l, i);
    }
  }

  // A client that is nobody is named by an invitation exactly if it lists one.
  lemma BusyIsNamed(l: Lobby, c: Client)
    requires Rest(l) && c in l.members
    ensures Busy(l.members[c]) <==> exists i :: i in l.offers && Names(l.offers[i], c)
  {
    hide RegistryLinked, RollLinked, HeldLinked, OneLogin, NamesDiffer, InPlay;
    assert MemberLinked(l, c);
    if i :| i in l.offers && Names(l.offers[i], c) {
      assert OfferAgreed(l, i);
      assert i in multiset(l.members[c].slots);
    }
  }

  // Without the registry's pointer a client that is nobody is freed, unless a game names it.
  lemma UnregisteredKeeps(l: Lobby, c: Client)
    requires Rest(l) && c in l.members && c in l.registry && c in l.loops
    requires l.loops[c] == null && l.members[c].player == null
    ensures var l2 := WithRegistry(l, Replace(l.registry, c, null), l.loops - {c});
      && Linked(l2, KeepClient(NOTHING, c)) && Rest(Unregistered(l, c))
      && ReleaseClient(l2, KeepClient(NOTHING, c), c) == Unregistered(l, c)
  {
    hide Linked, Agreed, SameCounts, InvCount, PlayerCount, Busy;
    var k := FirstIndex(l.registry, c);
    FirstIndexFinds(l.registry, c);
    var l2 := WithRegistry(l, l.registry[k := null], l.loops - {c});
    RegistryIs(l);
    Seats(l.registry, k, c);
    LeaveSeat(l, NOTHING, c, k, l2);
    NothingHeld(l2, KeepClient(NOTHING, c));
    BusyIsNamed(l, c);
    CountedByNames(l2, c);
    SeatLeftAgreed(l, l2);
    if !Busy(l.members[c]) {
      var l3 := l2.(members := l2.members - {c});
      FreeClient(l2, NOTHING, c, l3);
      WithoutStranger(l, c, l3);
    }
  }

  lemma CountedByNames(l: Lobby, c: Client)
    requires c !in l.registry
    ensures ClientCount(l, KeepClient(NOTHING, c), c) == 1 <==> forall i | i in l.offers :: !Names(l.offers[i], c)
    ensures (forall i | i in l.offers :: !Names(l.offers[i], c)) ==> |SourceOf(l, c)| == 0 && |TargetOf(l, c)| == 0
  {
    if i :| i in l.offers && Names(l.offers[i], c) {
      assert i in SourceOf(l, c) || i in TargetOf(l, c);
    } else {
      assert SourceOf(l, c) == {} && TargetOf(l, c) == {};
    }
  }

  lemma SeatLeftAgreed(l: Lobby, l': Lobby)
    requires Agreed(l) && l' == l.(registry := l'.registry, loops := l'.loops)
    ensures Agreed(l')
  {
    forall i | i in l'.offers
      ensures OfferAgreed(l', i)
    {
      assert OfferAgreed(l, i);
    }
  }

  lemma RegistryIs(l: Lobby)
    requires Linked(l, NOTHING)
    ensures RegistryLinked(l)
  {
  }

  lemma WithoutStranger(l: Lobby, c: Client, l': Lobby)
    requires Agreed(l) && l'.offers == l.offers && l'.accounts == l.accounts && l'.members == l.members - {c}
    requires forall i | i in l.offers :: !Names(l.offers[i], c)
    ensures Agreed(l')
  {
    forall i | i in l'.offers
      ensures OfferAgreed(l', i)
    {
      assert OfferAgreed(l, i);
    }
  }

  // Hanging up takes the client out of memory, unless it leaves a game that it cannot resign,
  // and leaves the others at rest.
  lemma HungUpKeeps(curve: Curve, l: Lobby, c: Client)
    requires AtRest(l) && c in l.loops
    ensures c in l.members
    ensures var done := HungUp(curve, l, c);
      && AtRest(done.lobby) && done.res == 0
      && (done.crashed ==> done.lobby == l)
      && (!done.crashed ==> done.lobby.loops.Keys == l.loops.Keys - {c})
      && (!done.crashed && !(exists k: nat :: Remains(l, c, k)) ==> done.lobby.members.Keys == l.members.Keys - {c})
      && (!done.crashed && (exists k: nat :: Remains(l, c, k)) ==> done.lobby.members.Keys == l.members.Keys)
  {
    hide Rest, Served, LoggedOut, Unregistered, Busy, Remains, Left;
    AtRestSettled(l, c);
    LoopPlays(l, c);
    if l.loops[c] != null {
      var l0 := WithLoop(l, c, null);
      ForgottenKeeps(l, c);
      LoggedOutKeeps(curve, l0, c);
      var done := LoggedOut(curve, l0, c);
      if !done.crashed {
        GoneKeeps(l, c, done.lobby);
        LeftBusy(l, c, done.lobby);
      }
    } else {
      GoneKeeps(l, c, l);
      NothingRemains(l, c);
    }
  }

  lemma LoopPlays(l: Lobby, c: Client)
    requires AtRest(l) && c in l.loops
    ensures c in l.members && l.members[c].player == l.loops[c]
  {
    AtRestSettled(l, c);
    hide Rest;
  }

  lemma NothingRemains(l: Lobby, c: Client)
    requires Served(l) && c in l.members && c in l.loops && l.loops[c] == null
    ensures !Busy(l.members[c]) && !exists k: nat :: Remains(l, c, k)
  {
  }

  // The client goes, in a lobby in which it is nobody and all others are as before.
  lemma GoneKeeps(l: Lobby, c: Client, l1: Lobby)
    requires AtRest(l) && c in l.members && c in l.loops && Rest(l1) && c in l1.members && l1.members[c].player == null
    requires l1.registry == l.registry && l1.members.Keys == l.members.Keys
    requires l1.loops == l.loops[c := null]
    requires forall d | d in l.members && d != c ::
      l1.members[d].player == l.members[d].player && (l.members[d].player == null ==> l1.members[d] == l.members[d])
    ensures var l' := Unregistered(l1, c);
      && AtRest(l') && l'.loops.Keys == l.loops.Keys - {c}
      && l'.members.Keys == if Busy(l1.members[c]) then l.members.Keys else l.members.Keys - {c}
  {
    hide Rest, Busy, Served, Unregistered;
    RestTables(l);
    LoopsServed(l, c);
    UnregisteredKeeps(l1, c);
    OthersServed(l, c, l1);
    UnregisteredTables(l1, c);
  }

  lemma LoopsServed(l: Lobby, c: Client)
    requires AtRest(l) && c in l.loops
    ensures c in l.registry
  {
    hide Served;
    LoopsAreMembers(l);
  }

  lemma UnregisteredTables(l: Lobby, c: Client)
    requires c in l.members
    ensures var l' := Unregistered(l, c);
      && l'.loops == l.loops - {c}
      && l'.members.Keys == if Busy(l.members[c]) then l.members.Keys else l.members.Keys - {c}
  {
    hide Busy;
  }

  lemma LeftBusy(l: Lobby, c: Client, l': Lobby)
    requires c in l.members && c in l'.members && l'.members[c].slots == Left(WithLoop(l, c, null), c, |l.members[c].slots|)
    ensures Busy(l'.members[c]) <==> exists k: nat :: Remains(l, c, k)
  {
    var l0 := WithLoop(l, c, null);
    assert forall k: nat :: Remains(l, c, k) <==> Remains(l0, c, k);
    if k: nat :| Remains(l, c, k) {
      assert l'.members[c].slots[k] != null;
    }
    if Busy(l'.members[c]) {
      var k :| 0 <= k < |l'.members[c].slots| && l'.members[c].slots[k] != null;
      assert Remains(l0, c, k);
    }
  }

  lemma OthersServed(l: Lobby, c: Client, l1: Lobby)
    requires Served(l) && c in l.members && c in l1.members && l1.members[c].player == null
    requires l1.registry == l.registry && l1.members.Keys == l.members.Keys && SeatsLinked(l)
    requires forall d | d in l.members && d != c ::
      && l1.members[d].player == l.members[d].player && (d in l1.loops <==> d in l.loops)
      && (d in l.loops ==> l1.loops[d] == l.loops[d])
      && (l.members[d].player == null ==> l1.members[d] == l.members[d])
    ensures Served(Unregistered(l1, c))
  {
    hide Busy;
    var k := FirstIndex(l.registry, c);
    FirstIndexFinds(l.registry, c);
    if k < |l.registry| {
      Seats(l.registry, k, c);
    }
  }
}
