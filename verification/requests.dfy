// What each request does to the lobby and which packets it sends.
module Requests {
  import opened Prelude
  import opened Games
  import opened Players
  import opened Objects
  import opened Packets
  import opened Lobbies
  import opened Links

  // The new lobby, the value returned to the dispatcher, and the packets sent. The server has
  // crashed when a result was to be posted for a client without a player, whose null pointer
  // is then followed; nothing is said about its memory any more.
  datatype Done = Done(lobby: Lobby, res: int, sent: seq<Sent>, crashed: bool := false)

  function Failed(l: Lobby): Done { Done(l, -1, []) }

  // A header field of one byte.
  function Byte(n: nat): nat { n % 256 }

  function SlotOf(l: Lobby, c: Client, id: nat): (i: Invitation?)
    requires c in l.members
  {
    if id < |l.members[c].slots| then l.members[c].slots[id] else null
  }

  // The pointers that a request follows are not dangling.
  ghost predicate Sound(l: Lobby)
  {
    && (forall c | c in l.members :: MemberLinked(l, c))
    && (forall i | i in l.offers :: OfferLinked(l, l.offers[i]))
  }

  ghost predicate Playing(l: Lobby, c: Client)
  {
    c in l.members && l.members[c].player != null && l.members[c].player in l.accounts
  }

  // The id under which the client lists the invitation.
  function IdOf(l: Lobby, c: Client, i: Invitation): nat
    requires c in l.members
  {
    FirstIndex(l.members[c].slots, i)
  }

  function Unlist(l: Lobby, c: Client, i: Invitation): Lobby
    requires c in l.members
  {
    WithSlots(l, c, Replace(l.members[c].slots, i, null))
  }

  // The invitation is gone from both lists, and with the last pointer from memory.
  function Dropped(l: Lobby, i: Invitation): Lobby
    requires i in l.offers && l.offers[i].source in l.members && l.offers[i].target in l.members
  {
    var o := l.offers[i];
    var l2 := Unlist(Unlist(l, o.source, i), o.target, i);
    l2.(offers := l2.offers - {i})
  }

  // --- The requests ----------------------------------------------------------------------

  function Made(l: Lobby, c: Client, d: Client, sourceRole: nat, targetRole: nat, i: Invitation): Done
    requires c in l.members && d in l.members && l.members[c].player != null && l.members[c].player in l.accounts
  {
    if c == d then Failed(l)
    else
      var id, targetId := IdOf0(l, c), IdOf0(l, d);
      var l1 := WithOffer(l, i, Offer(c, d, sourceRole, targetRole, Open, None));
      var l2 := WithSlots(l1, c, SetAt(l1.members[c].slots, id, i));
      var l3 := WithSlots(l2, d, SetAt(l2.members[d].slots, targetId, i));
      Done(l3, id,
           [Sent(d, Packet(InvitedPkt, Byte(targetId), Byte(targetRole), Text(l.accounts[l.members[c].player].name)))])
  }

  // The first free slot of a list.
  function IdOf0(l: Lobby, c: Client): nat
    requires c in l.members
  {
    FirstIndex(l.members[c].slots, null)
  }

  function Revoked(l: Lobby, c: Client, id: nat): Done
    requires Sound(l) && c in l.members
  {
    var i := SlotOf(l, c, id);
    if i == null || l.offers[i].source != c || l.offers[i].state != Open then Failed(l)
    else
      var target := l.offers[i].target;
      Done(Dropped(l, i), 0, [Sent(target, Packet(RevokedPkt, Byte(IdOf(l, target, i)), 0, Nothing))])
  }

  function Declined(l: Lobby, c: Client, id: nat): Done
    requires Sound(l) && c in l.members
  {
    var i := SlotOf(l, c, id);
    if i == null || l.offers[i].target != c || l.offers[i].state != Open then Failed(l)
    else
      var source := l.offers[i].source;
      Done(Dropped(l, i), 0, [Sent(source, Packet(DeclinedPkt, Byte(IdOf(l, source, i)), 0, Nothing))])
  }

  // The second component is the payload for the accepting client, who may have the first move.
  function Accepts(l: Lobby, c: Client, id: nat): (Done, Payload)
    requires Sound(l) && c in l.members
  {
    var i := SlotOf(l, c, id);
    if i == null || l.offers[i].target != c || l.offers[i].state != Open then (Failed(l), Nothing)
    else
      var o := l.offers[i];
      var first := o.targetRole == FIRST_PLAYER_ROLE;
      var text := Text(Unparse(INITIAL));
      (Done(WithOffer(l, i, o.(state := Accepted, game := Some(INITIAL))), 0,
            [Sent(o.source, Packet(AcceptedPkt, Byte(IdOf(l, o.source, i)), 0, if first then Nothing else text))]),
       if first then text else Nothing)
  }

  function Opponent(o: Offer, c: Client): Client { if o.source == c then o.target else o.source }
  function RoleOf(o: Offer, c: Client): nat { if o.source == c then o.sourceRole else o.targetRole }

  // The packets that tell both parties of the end of a game.
  function EndPackets(l: Lobby, c: Client, id: nat, d: Client, i: Invitation, winner: nat): seq<Sent>
    requires d in l.members
  {
    [Sent(c, Packet(EndedPkt, Byte(id), Byte(winner), Nothing)),
     Sent(d, Packet(EndedPkt, Byte(IdOf(l, d, i)), Byte(winner), Nothing))]
  }

  // The end of a game: the invitation is dropped, both parties are told the winner, and the
  // result is posted, for which both must have a player.
  function Finished(curve: Curve, l: Lobby, c: Client, id: nat, i: Invitation, winner: nat, result: nat): (done: Done)
    requires Sound(l) && c in l.members && i in l.offers && Names(l.offers[i], c)
    ensures done.crashed ==> done.lobby == l
    ensures !done.crashed ==> done.res == 0
  {
    var d := Opponent(l.offers[i], c);
    var sent := EndPackets(l, c, id, d, i, winner);
    if l.members[c].player == null || l.members[d].player == null then Done(l, -1, sent, true)
    else
      assert MemberLinked(l, c) && MemberLinked(l, d);
      var accounts := Posted(curve, l.accounts, l.members[c].player, l.members[d].player, result);
      Done(Dropped(l, i).(accounts := accounts), 0, sent)
  }

  function Resigns(curve: Curve, l: Lobby, c: Client, id: nat): Done
    requires Sound(l) && c in l.members
  {
    var i := SlotOf(l, c, id);
    if i == null || l.offers[i].game == None || ClosedOffer(l.offers[i], RoleOf(l.offers[i], c)) == None then Failed(l)
    else
      assert MemberLinked(l, c);
      var o := l.offers[i];
      var d := Opponent(o, c);
      var end := Finished(curve, l, c, id, i, Other(RoleOf(o, c)), SECOND_WINS);
      end.(sent := [Sent(d, Packet(ResignedPkt, Byte(IdOf(l, d, i)), 0, Nothing))] + end.sent)
  }

  // The result of a game as seen from a role.
  function ResultFor(role: nat, winner: nat): nat
  {
    if winner == role then FIRST_WINS else if winner != NULL_ROLE then SECOND_WINS else DRAW
  }

  function Moves(curve: Curve, l: Lobby, c: Client, id: nat, text: string): Done
    requires Sound(l) && c in l.members
  {
    var i := SlotOf(l, c, id);
    if i == null || l.offers[i].game == None then Failed(l)
    else
      assert MemberLinked(l, c);
      var o := l.offers[i];
      var role := RoleOf(o, c);
      var pos := ParseMove(role, text);
      if pos == None || Applied(o.game.value, role, pos.value) == None then Failed(l)
      else
        var d := Opponent(o, c);
        var g := Applied(o.game.value, role, pos.value).value;
        var moved := Sent(d, Packet(MovedPkt, Byte(IdOf(l, d, i)), 0, Text(Unparse(g))));
        if g.turn != NULL_ROLE then Done(WithOffer(l, i, o.(game := Some(g))), 0, [moved])
        else
          var end := Finished(curve, l, c, id, i, g.winner, ResultFor(role, g.winner));
          end.(sent := [moved] + end.sent)
  }

  // --- What holds between requests --------------------------------------------------------

  // The two parties play the two different roles.
  predicate RolesOk(o: Offer)
  {
    || (o.sourceRole == FIRST_PLAYER_ROLE && o.targetRole == SECOND_PLAYER_ROLE)
    || (o.sourceRole == SECOND_PLAYER_ROLE && o.targetRole == FIRST_PLAYER_ROLE)
  }

  // The client is in a game in which it has no role: it cannot resign it.
  predicate StuckFor(o: Offer, c: Client) { o.state == Accepted && RoleOf(o, c) == NULL_ROLE }

  // Without two different roles there is nobody to make a second move.
  predicate HardlyBegun(o: Offer, g: GameState)
  {
    g == INITIAL || (multiset(g.board)[NULL_ROLE] == 8 && g.turn != o.sourceRole && g.turn != o.targetRole)
  }

  // An invitation in memory is open or accepted, and stands once in the list of each party; its
  // source is logged in, and so is its target, unless it has left a game in which it had no
  // role; a game is unfinished.
  ghost predicate OfferAgreed(l: Lobby, i: Invitation)
    requires i in l.offers
  {
    var o := l.offers[i];
    && o.state != Closed && o.sourceRole == Other(o.targetRole)
    && ListedIn(l, o.source, i) == 1 && ListedIn(l, o.target, i) == 1
    && o.source in l.members && l.members[o.source].player != null
    && o.target in l.members && (l.members[o.target].player == null ==> StuckFor(o, o.target))
    && (o.game.Some? ==> InPlay(o.game.value) && (RolesOk(o) || HardlyBegun(o, o.game.value)))
  }

  ghost predicate OneLogin(l: Lobby)
  {
    forall c, d | c in l.members && d in l.members && c != d ::
      l.members[c].player != null ==> l.members[c].player != l.members[d].player
  }

  ghost predicate NamesDiffer(l: Lobby)
  {
    forall p, q | p in l.accounts && q in l.accounts && p != q :: l.accounts[p].name != l.accounts[q].name
  }

  ghost predicate Agreed(l: Lobby)
  {
    (forall i | i in l.offers :: OfferAgreed(l, i)) && OneLogin(l) && NamesDiffer(l)
  }

  // --- Dropping an invitation -------------------------------------------------------------

  lemma ReplaceOnce(s: seq<Invitation?>, i: Invitation)
    requires multiset(s)[i] == 1
    ensures FirstIndex(s, i) < |s| && s[FirstIndex(s, i)] == i
    ensures multiset(Replace(s, i, null))[i] == 0
    ensures forall j: Invitation :: j != i ==> multiset(Replace(s, i, null))[j] == multiset(s)[j]
    ensures i !in Replace(s, i, null)
  {
  }

  // The order of taking it off the two lists does not matter.
  lemma UnlistBoth(l: Lobby, i: Invitation, a: Client, b: Client)
    requires a in l.members && b in l.members && a != b
    ensures Unlist(Unlist(l, a, i), b, i) == Unlist(Unlist(l, b, i), a, i)
    ensures IdOf(Unlist(l, a, i), b, i) == IdOf(l, b, i)
  {
  }

  lemma UnlistedBoth(l: Lobby, i: Invitation, o: Offer)
    requires o.source in l.members && o.target in l.members && o.source != o.target && i in l.offers
    requires ListedIn(l, o.source, i) == 1 && ListedIn(l, o.target, i) == 1
    ensures var l3 := Unlist(Unlist(WithOffer(l, i, o), o.source, i), o.target, i);
      ListedIn(l3, o.source, i) == 0 && ListedIn(l3, o.target, i) == 0
  {
  }

  // A registered client that is held once more than needed is not freed.
  lemma KeptClient(l: Lobby, h: Held, c: Client)
    requires c in l.registry && c in h.clients
    ensures ReleaseClient(l, h, c) == l
  {
  }

  // Taking a once-listed invitation off the lists of its parties one after the other, and
  // dropping the last pointer, frees it; the parties stay, if they are registered.
  lemma DroppedInSteps(
    l: Lobby, h: Held, i: Invitation, o: Offer, a: Client, b: Client, accounts: map<Player, Account>)
    requires Linked(l, h) && i in l.offers && i !in h.invs && OfferAgreed(l, i)
    requires Playing(l, a) && Playing(l, b)
    requires o.source == l.offers[i].source && o.target == l.offers[i].target
    requires (a == o.source && b == o.target) || (a == o.target && b == o.source)
    requires a in l.members && b in l.members
    ensures var l1 := WithOffer(l, i, o);
      var l3 := Unlist(Unlist(l1, a, i), b, i).(accounts := accounts);
      && i in l3.offers && InvCount(l3, KeepInv(h, i), i) == 1
      && ReleaseInv(l3, KeepInv(h, i), i) == Dropped(l, i).(accounts := accounts)
      && IdOf(l1, a, i) == IdOf(l, a, i) && IdOf(Unlist(l1, a, i), b, i) == IdOf(l, b, i)
  {
    hide RegistryLinked, RollLinked, HeldLinked, ReleaseClient, ListedIn, Replace;
    assert OfferLinked(l, l.offers[i]) && MemberLinked(l, a) && MemberLinked(l, b);
    hide MemberLinked;
    var l1 := WithOffer(l, i, o);
    UnlistBoth(l1, i, a, b);
    UnlistedBoth(l, i, o);
    var l3 := Unlist(Unlist(l1, a, i), b, i).(accounts := accounts);
    ListedSame(Unlist(Unlist(l1, a, i), b, i), l3, i);
    var d := l3.(offers := l3.offers - {i});
    DroppedSame(l, i, o, accounts);
    var h1 := HandedOver(l3, DropInv(KeepInv(h, i), i), i);
    KeptClient(d, h1, o.source);
    KeptClient(d, DropClient(h1, o.source), o.target);
  }

  lemma ListedSame(l: Lobby, l': Lobby, i: Invitation)
    requires l'.members == l.members
    ensures forall c :: ListedIn(l', c, i) == ListedIn(l, c, i)
  {
  }

  lemma DroppedSame(l: Lobby, i: Invitation, o: Offer, accounts: map<Player, Account>)
    requires i in l.offers && o.source == l.offers[i].source && o.target == l.offers[i].target
    requires o.source in l.members && o.target in l.members
    ensures var l3 := Unlist(Unlist(WithOffer(l, i, o), o.source, i), o.target, i).(accounts := accounts);
      l3.(offers := l3.offers - {i}) == Dropped(l, i).(accounts := accounts)
  {
  }

  // Between requests the lobby is sound and agreed.
  ghost predicate Settled(l: Lobby) { Sound(l) && Agreed(l) }

  // What a client lists is there, names the client, and is agreed on.
  lemma ListedOffer(l: Lobby, c: Client, id: nat)
    requires Settled(l) && c in l.members && SlotOf(l, c, id) != null
    ensures var i := SlotOf(l, c, id);
      i in l.offers && Names(l.offers[i], c) && OfferAgreed(l, i) && OfferLinked(l, l.offers[i])
  {
  }

  // A source is logged in, and so is a target that is not stuck.
  lemma PartyPlays(l: Lobby, i: Invitation)
    requires Settled(l) && i in l.offers
    ensures var o := l.offers[i];
      && Playing(l, o.source) && o.target in l.members && o.source != o.target
      && (StuckFor(o, o.target) || Playing(l, o.target))
      && (l.members[o.target].player != null ==> Playing(l, o.target) && l.members[o.source].player != l.members[o.target].player)
  {
    hide ListedIn, InPlay, NamesDiffer;
    var o := l.offers[i];
    assert OfferAgreed(l, i) && OfferLinked(l, o) && MemberLinked(l, o.source) && MemberLinked(l, o.target);
  }

  // A pointer taken to a listed invitation is not the last one.
  lemma StillListed(l: Lobby, h: Held, i: Invitation)
    requires i in l.offers && OfferAgreed(l, i)
    ensures ReleaseInv(l, KeepInv(h, i), i) == l && DropInv(KeepInv(h, i), i) == h
  {
  }

  // Nor is the pointer of a list, while the caller holds another.
  lemma NotTheLast(l: Lobby, h: Held, c: Client, i: Invitation)
    requires Linked(l, h) && c in l.members && i in h.invs && i in l.members[c].slots
    ensures i in l.offers && Names(l.offers[i], c) && InvCount(l, h, i) >= 2 && ReleaseInv(l, h, i) == l
    ensures KeepInv(DropInv(h, i), i) == h
  {
  }
}
