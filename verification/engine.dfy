// Clients and invitations: reference counting with its cascades, and the operations that the
// service threads perform on behalf of their clients.
//
// The cascade inv_unref, client_unref, client_logout, and back through the requests that a
// logout makes, is bounded: the clause "decreases" of each method is its height in it, and the
// logout of a client that is being freed is at the bottom, because that client is logged out.
module Engine {
  import opened Prelude
  import opened Games
  import opened Players
  import opened Objects
  import opened Packets
  import opened Lobbies
  import opened Links
  import opened Requests
  import opened Keeping
  import opened Worlds

  // What the decrement leaves, in terms of the count before it.
  lemma InvCountAfter(l: Lobby, h: Held, i: Invitation)
    requires i in l.offers && i in h.invs
    ensures InvCount(l, DropInv(h, i), i) == InvCount(l, h, i) - 1
  {
  }

  lemma ClientCountAfter(l: Lobby, h: Held, c: Client)
    requires c in h.clients
    ensures ClientCount(l, DropClient(h, c), c) == ClientCount(l, h, c) - 1
  {
  }

  lemma HandedBack(h: Held, c: Client, d: Client)
    ensures DropClient(DropClient(KeepClient(KeepClient(h, c), d), c), d) == h
  {
  }

  // Frees an invitation that nothing points to; its pointers to the two clients are dropped.
  method InvGone(w: World, i: Invitation)
    requires w.Valid() && i in w.lobby.offers && InvCount(w.lobby, w.held, i) == 0
    modifies w.Repr
    ensures w.Valid() && w.Repr <= old(w.Repr) && w.sent == old(w.sent) && w.held == old(w.held)
    ensures var o := old(w.lobby).offers[i];
      var h := HandedOver(old(w.lobby), old(w.held), i);
      w.lobby == ReleaseClient(
        ReleaseClient(old(w.lobby).(offers := old(w.lobby).offers - {i}), h, o.source), DropClient(h, o.source), o.target)
    decreases 2, 0
  {
    hide World.Valid, InvCount, ReleaseClient;
    var source := w.InvGetSource(i);
    var target := w.InvGetTarget(i);
    HandedBack(w.held, source, target);
    var game := w.InvFree(i);
    ClientUnref(w, source);
    ClientUnref(w, target);
    if game != null {
      game.Unref();
    }
  }

  // Decrements the count of an invitation and frees it when nothing points to it any more.
  method InvUnref(w: World, i: Invitation)
    requires w.Valid() && i in w.held.invs && i in w.lobby.offers
    modifies w.Repr
    ensures w.Valid() && w.Repr <= old(w.Repr) && w.sent == old(w.sent)
    ensures w.lobby == ReleaseInv(old(w.lobby), old(w.held), i)
    ensures w.held == DropInv(old(w.held), i)
    decreases 2
  {
    hide World.Valid, InvCount, ReleaseClient;
    InvCountAfter(w.lobby, w.held, i);
    var refs := w.InvDec(i);
    if refs == 0 {
      InvGone(w, i);
    }
  }

  // Decrements the count of a client and frees it when nothing points to it any more.
  method ClientUnref(w: World, c: Client)
    requires w.Valid() && c in w.held.clients
    modifies w.Repr
    ensures w.Valid() && w.Repr <= old(w.Repr) && w.sent == old(w.sent)
    ensures w.lobby == ReleaseClient(old(w.lobby), old(w.held), c)
    ensures w.held == DropClient(old(w.held), c)
    decreases 1
  {
    hide World.Valid, ClientCount;
    ClientCountAfter(w.lobby, w.held, c);
    var refs := w.ClientDec(c);
    if refs == 0 {
      FreedLoggedOut(w, c);
      var _, _ := ClientLogout(w, c);
      w.ClientFree(c);
    }
  }

  lemma FreedLoggedOut(w: World, c: Client)
    requires w.Valid() && c in w.lobby.members && ClientCount(w.lobby, w.held, c) == 0
    ensures w.lobby.members[c].player == null
  {
  }

  // Adds the invitation to the list of a logged-in party; the list holds a new pointer to it.
  method ClientAddInvitation(w: World, c: Client, i: Invitation) returns (id: int)
    requires w.Valid() && c in w.lobby.members && i in w.lobby.offers
    modifies w.Repr
    ensures w.Valid() && fresh(w.Repr - old(w.Repr)) && w.sent == old(w.sent) && w.held == old(w.held)
    ensures var l := old(w.lobby);
      if l.members[c].player != null && Names(l.offers[i], c)
      then id == IdOf0(l, c) && w.lobby == WithSlots(l, c, SetAt(l.members[c].slots, IdOf0(l, c), i))
      else id == -1 && w.lobby == l
  {
    hide World.Valid;
    id := -1;
    var role := 0;
    var source := w.InvGetSource(i);
    var target := w.InvGetTarget(i);
    if c == source {
      role := 1;
    } else if c == target {
      role := 2;
    }
    var player := w.ClientGetPlayer(c);
    if player != null && role != 0 {
      var free := w.SlotFind(c, null);
      w.InvRef(i);
      w.SlotStore(c, free, i);
      id := free;
    }
  }

  // Takes the invitation off the client's list. The pointer of the list is dropped first; the
  // caller's own pointer keeps the invitation from being freed meanwhile.
  method ClientRemoveInvitation(w: World, c: Client, i: Invitation) returns (id: int)
    requires w.Valid() && c in w.lobby.members && i in w.held.invs
    modifies w.Repr
    ensures w.Valid() && fresh(w.Repr - old(w.Repr)) && w.sent == old(w.sent) && w.held == old(w.held)
    ensures w.lobby == Unlist(old(w.lobby), c, i) && id == IdOf(old(w.lobby), c, i)
    decreases 3
  {
    hide World.Valid, Linked, ReleaseInv;
    FirstIndexFinds(w.lobby.members[c].slots, i);
    var k := w.SlotFind(c, i);
    var n := w.SlotCount(c);
    if k < n {
      w.LobbyLinked();
      NotTheLast(w.lobby, w.held, c, i);
      var x := w.SlotGet(c, k);
      InvUnref(w, x);
      w.SlotClear(c, k, i);
    }
    id := k;
  }

  // The steps by which an operation takes a listed invitation off the two lists.
  lemma OffInSteps(l: Lobby, i: Invitation, o: Offer, a: Client, b: Client)
    requires Settled(l) && i in l.offers
    requires o.source == l.offers[i].source && o.target == l.offers[i].target
    requires (a == o.source && b == o.target) || (a == o.target && b == o.source)
    ensures a in l.members && b in l.members && a != b
    ensures var l1 := WithOffer(l, i, o);
      && a in l1.members && IdOf(l1, a, i) == IdOf(l, a, i)
      && var l2 := Unlist(l1, a, i);
      && b in l2.members && IdOf(l2, b, i) == IdOf(l, b, i)
      && var l3 := Unlist(l2, b, i);
      && i in l3.offers && l3.accounts == l.accounts
      && a in l3.members && l3.members[a].player == l.members[a].player
      && b in l3.members && l3.members[b].player == l.members[b].player
      && l3.(accounts := l.accounts) == l3
  {
    hide Sound, Agreed, Replace;
    PartyPlays(l, i);
    UnlistBoth(WithOffer(l, i, o), i, a, b);
  }

  // And where dropping the last pointer leads, if both parties are registered.
  lemma DropNow(l: Lobby, i: Invitation, o: Offer, a: Client, b: Client, accounts: map<Player, Account>)
    requires Settled(l) && Linked(l, NOTHING) && i in l.offers && Playing(l, a) && Playing(l, b)
    requires o.source == l.offers[i].source && o.target == l.offers[i].target
    requires (a == o.source && b == o.target) || (a == o.target && b == o.source)
    ensures var l3 := Unlist(Unlist(WithOffer(l, i, o), a, i), b, i);
      && i in l3.offers
      && ReleaseInv(l3.(accounts := accounts), KeepInv(NOTHING, i), i) == Dropped(l, i).(accounts := accounts)
  {
    hide Linked, Sound, OneLogin, NamesDiffer, Replace, ReleaseInv, InvCount;
    assert OfferAgreed(l, i);
    DroppedInSteps(l, NOTHING, i, o, a, b, accounts);
  }

  // The lobby with the record of an invitation changed and the invitation off both lists.
  ghost function OffBoth(l: Lobby, i: Invitation, o: Offer, a: Client, b: Client): Lobby
    requires a in l.members && b in l.members
  {
    Unlist(Unlist(WithOffer(l, i, o), a, i), b, i)
  }

  // How a closed invitation leaves the two lists.
  method RemoveFromBoth(w: World, a: Client, b: Client, i: Invitation, ghost l: Lobby) returns (aId: nat, bId: nat)
    requires w.Valid() && w.held == KeepInv(NOTHING, i)
    requires Settled(l) && Linked(l, NOTHING) && i in l.offers && Names(l.offers[i], a) && b == Opponent(l.offers[i], a)
    requires i in w.lobby.offers && w.lobby == WithOffer(l, i, w.lobby.offers[i])
    requires w.lobby.offers[i].source == l.offers[i].source && w.lobby.offers[i].target == l.offers[i].target
    modifies w.Repr
    ensures w.Valid() && fresh(w.Repr - old(w.Repr)) && w.held == old(w.held) && w.sent == old(w.sent)
    ensures a in l.members && b in l.members && b in w.lobby.members && a in w.lobby.members
    ensures w.lobby == OffBoth(l, i, old(w.lobby).offers[i], a, b) && aId == IdOf(l, a, i) && bId == IdOf(l, b, i)
    decreases 4
  {
    hide World.Valid, Linked, Settled, Dropped, Unlist, ReleaseInv, OfferAgreed, IdOf;
    OffInSteps(l, i, w.lobby.offers[i], a, b);
    aId := ClientRemoveInvitation(w, a, i);
    bId := ClientRemoveInvitation(w, b, i);
  }

  lemma OffBothFacts(l: Lobby, i: Invitation, o: Offer, a: Client, b: Client)
    requires Settled(l) && i in l.offers && a in l.members && b in l.members
    requires o.source == l.offers[i].source && o.target == l.offers[i].target
    requires (a == o.source && b == o.target) || (a == o.target && b == o.source)
    ensures var l3 := OffBoth(l, i, o, a, b);
      && i in l3.offers && l3.accounts == l.accounts
      && a in l3.members && l3.members[a].player == l.members[a].player
      && b in l3.members && l3.members[b].player == l.members[b].player
    ensures l.offers[i].source in l.members && l.offers[i].target in l.members
  {
    hide Settled, Unlist;
    OffInSteps(l, i, o, a, b);
  }

  lemma Released(l: Lobby, i: Invitation, o: Offer, a: Client, b: Client, accounts: map<Player, Account>)
    requires Settled(l) && Linked(l, NOTHING) && i in l.offers && Playing(l, a) && Playing(l, b)
    requires o.source == l.offers[i].source && o.target == l.offers[i].target
    requires (a == o.source && b == o.target) || (a == o.target && b == o.source)
    ensures var l3 := OffBoth(l, i, o, a, b);
      && i in l3.offers
      && ReleaseInv(l3.(accounts := accounts), KeepInv(NOTHING, i), i) == Dropped(l, i).(accounts := accounts)
    ensures DropInv(KeepInv(NOTHING, i), i) == NOTHING
    ensures l.offers[i].source in l.members && l.offers[i].target in l.members
  {
    hide Linked, Settled, Dropped, Unlist, ReleaseInv;
    DropNow(l, i, o, a, b, accounts);
  }

  // And how it is let go of, which frees it.
  method LetGo(w: World, a: Client, b: Client, i: Invitation, ghost l: Lobby) returns (aId: nat, bId: nat)
    requires w.Valid() && w.held == KeepInv(NOTHING, i)
    requires Settled(l) && Linked(l, NOTHING) && i in l.offers && Names(l.offers[i], a) && b == Opponent(l.offers[i], a)
    requires Playing(l, a) && Playing(l, b)
    requires i in w.lobby.offers && w.lobby == WithOffer(l, i, w.lobby.offers[i])
    requires w.lobby.offers[i].source == l.offers[i].source && w.lobby.offers[i].target == l.offers[i].target
    modifies w.Repr
    ensures w.Valid() && fresh(w.Repr - old(w.Repr)) && w.held == NOTHING && w.sent == old(w.sent)
    ensures l.offers[i].source in l.members && l.offers[i].target in l.members
    ensures w.lobby == Dropped(l, i) && aId == IdOf(l, a, i) && bId == IdOf(l, b, i)
    ensures a in w.lobby.members && b in w.lobby.members
    decreases 5
  {
    hide World.Valid, Linked, Settled, Dropped, ReleaseInv, OfferAgreed, IdOf, Playing, OffBoth;
    ghost var o := w.lobby.offers[i];
    aId, bId := RemoveFromBoth(w, a, b, i, l);
    OffBothFacts(l, i, o, a, b);
    Released(l, i, o, a, b, l.accounts);
    SameAccounts(OffBoth(l, i, o, a, b), l);
    DroppedSameAccounts(l, i);
    DroppedKeepsParties(l, i);
    InvUnref(w, i);
  }

  lemma SameAccounts(l: Lobby, l': Lobby)
    requires l.accounts == l'.accounts
    ensures l.(accounts := l'.accounts) == l
  {
  }

  lemma DroppedKeepsParties(l: Lobby, i: Invitation)
    requires i in l.offers && l.offers[i].source in l.members && l.offers[i].target in l.members
    ensures l.offers[i].source in Dropped(l, i).members && l.offers[i].target in Dropped(l, i).members
  {
  }

  method ClientRevokeInvitation(w: World, c: Client, id: nat) returns (res: int)
    requires w.Valid() && Settled(w.lobby) && c in w.lobby.members && w.held == NOTHING
    modifies w.Repr
    ensures w.Valid() && fresh(w.Repr - old(w.Repr)) && w.held == NOTHING
    ensures var done := Revoked(old(w.lobby), c, id);
      w.lobby == done.lobby && res == done.res && w.sent == old(w.sent) + done.sent
    decreases 6
  {
    hide World.Valid, Linked, Settled, Dropped, Unlist, ReleaseInv, OfferAgreed, IdOf, MemberLinked;
    ghost var l := w.lobby;
    w.LobbyLinked();
    var i := w.SlotGet(c, id);
    if i == null {
      return -1;
    }
    ListedOffer(l, c, id);
    StillListed(l, NOTHING, i);
    w.InvRef(i);
    var source := w.InvGetSource(i);
    if source != c {
      InvUnref(w, i);
      return -1;
    }
    var target := w.InvGetTarget(i);
    var closed := w.InvClose(i, NULL_ROLE);
    if closed != 0 {
      InvUnref(w, i);
      return -1;
    }
    PartyPlays(l, i);
    var _, targetId := LetGo(w, c, target, i, l);
    w.SendPacket(target, Packet(RevokedPkt, Byte(targetId), 0, Nothing));
    return 0;
  }

  method ClientDeclineInvitation(w: World, c: Client, id: nat) returns (res: int)
    requires w.Valid() && Settled(w.lobby) && c in w.lobby.members && w.held == NOTHING
    modifies w.Repr
    ensures w.Valid() && fresh(w.Repr - old(w.Repr)) && w.held == NOTHING
    ensures var done := Declined(old(w.lobby), c, id);
      w.lobby == done.lobby && res == done.res && w.sent == old(w.sent) + done.sent
    decreases 6
  {
    hide World.Valid, Linked, Settled, Dropped, Unlist, ReleaseInv, OfferAgreed, IdOf, MemberLinked;
    ghost var l := w.lobby;
    w.LobbyLinked();
    var i := w.SlotGet(c, id);
    if i == null {
      return -1;
    }
    ListedOffer(l, c, id);
    StillListed(l, NOTHING, i);
    w.InvRef(i);
    var target := w.InvGetTarget(i);
    if target != c {
      InvUnref(w, i);
      return -1;
    }
    var source := w.InvGetSource(i);
    var closed := w.InvClose(i, NULL_ROLE);
    if closed != 0 {
      InvUnref(w, i);
      return -1;
    }
    PartyPlays(l, i);
    var sourceId, _ := LetGo(w, source, c, i, l);
    w.SendPacket(source, Packet(DeclinedPkt, Byte(sourceId), 0, Nothing));
    return 0;
  }

  // The text is for the accepting client, when it has the first move.
  method ClientAcceptInvitation(w: World, c: Client, id: nat) returns (res: int, text: Payload)
    requires w.Valid() && Settled(w.lobby) && c in w.lobby.members && w.held == NOTHING
    modifies w.Repr
    ensures w.Valid() && fresh(w.Repr - old(w.Repr)) && w.held == NOTHING
    ensures var (done, first) := Accepts(old(w.lobby), c, id);
      w.lobby == done.lobby && res == done.res && text == first && w.sent == old(w.sent) + done.sent
  {
    hide World.Valid, Linked, Settled, Dropped, Unlist, ReleaseInv, OfferAgreed, IdOf;
    hide Agreed, MemberLinked, Unparse, InvCount, Replace, Playing;
    ghost var l := w.lobby;
    w.LobbyLinked();
    text := Nothing;
    var i := w.SlotGet(c, id);
    if i == null {
      return -1, text;
    }
    ListedOffer(l, c, id);
    StillListed(l, NOTHING, i);
    w.InvRef(i);
    var target := w.InvGetTarget(i);
    if target != c {
      InvUnref(w, i);
      return -1, text;
    }
    var accepted := w.InvAccept(i);
    if accepted != 0 {
      InvUnref(w, i);
      return -1, text;
    }
    ListedAfter(l, i, w.lobby.offers[i]);
    var source := w.InvGetSource(i);
    var sourceId := w.SlotFind(source, i);
    var targetRole := w.InvGetTargetRole(i);
    var board := w.GameUnparseState(i);
    var payload := Nothing;
    if targetRole == FIRST_PLAYER_ROLE {
      text := Text(board);
    } else {
      payload := Text(board);
    }
    SameIds(l, i, w.lobby.offers[i], source);
    w.SendPacket(source, Packet(AcceptedPkt, Byte(sourceId), 0, payload));
    InvUnref(w, i);
    return 0, text;
  }

  // An invitation whose record changed is still listed, under the same ids.
  lemma ListedAfter(l: Lobby, i: Invitation, o: Offer)
    requires i in l.offers && OfferAgreed(l, i) && OfferLinked(l, l.offers[i])
    requires o.source == l.offers[i].source && o.target == l.offers[i].target
    ensures var l' := WithOffer(l, i, o);
      ReleaseInv(l', KeepInv(NOTHING, i), i) == l' && DropInv(KeepInv(NOTHING, i), i) == NOTHING
    ensures o.source in l.members && o.target in l.members
  {
  }

  lemma SameIds(l: Lobby, i: Invitation, o: Offer, c: Client)
    requires c in l.members
    ensures IdOf(WithOffer(l, i, o), c, i) == IdOf(l, c, i) == FirstIndex(l.members[c].slots, i)
  {
  }

  method SendEnd(w: World, c: Client, id: nat, winner: nat)
    requires w.Valid() && c in w.lobby.members
    modifies w.Repr
    ensures w.Valid() && w.Repr == old(w.Repr) && w.lobby == old(w.lobby) && w.held == old(w.held)
    ensures w.sent == old(w.sent) + [Sent(c, Packet(EndedPkt, Byte(id), Byte(winner), Nothing))]
  {
    hide World.Valid;
    w.SendPacket(c, Packet(EndedPkt, Byte(id), Byte(winner), Nothing));
  }

  method ClientResignGame(w: World, c: Client, id: nat) returns (res: int, crashed: bool)
    requires w.Valid() && Settled(w.lobby) && c in w.lobby.members && w.held == NOTHING
    modifies w.Repr
    ensures w.Valid() && fresh(w.Repr - old(w.Repr))
    ensures var done := Resigns(w.curve, old(w.lobby), c, id);
      && crashed == done.crashed && w.sent == old(w.sent) + done.sent
      && (!crashed ==> w.held == NOTHING && w.lobby == done.lobby && res == done.res)
    decreases 6
  {
    hide World.Valid, Linked, Settled, Dropped, Unlist, ReleaseInv, OfferAgreed, IdOf;
    hide Agreed, Finished, MemberLinked, OffBoth, Opponent, Playing;
    ghost var l := w.lobby;
    w.LobbyLinked();
    var i := w.SlotGet(c, id);
    if i == null {
      return -1, false;
    }
    ListedOffer(l, c, id);
    StillListed(l, NOTHING, i);
    w.InvRef(i);
    var opp, role := ClientRoleIn(w, c, i);
    var playing := w.InvHasGame(i);
    if !playing {
      InvUnref(w, i);
      return -1, false;
    }
    var closed := w.InvClose(i, role);
    if closed != 0 {
      InvUnref(w, i);
      return -1, false;
    }
    crashed := GiveUp(w, c, id, i, opp, role, l);
    return 0, crashed;
  }

  // The rest of a resignation: the closed invitation is dropped and the end announced.
  method GiveUp(w: World, c: Client, id: nat, i: Invitation, opp: Client, role: nat, ghost l: Lobby)
    returns (crashed: bool)
    requires w.Valid() && w.held == KeepInv(NOTHING, i)
    requires Settled(l) && Linked(l, NOTHING) && i in l.offers && Names(l.offers[i], c) && opp == Opponent(l.offers[i], c)
    requires i in w.lobby.offers && w.lobby == WithOffer(l, i, w.lobby.offers[i])
    requires w.lobby.offers[i].source == l.offers[i].source && w.lobby.offers[i].target == l.offers[i].target
    modifies w.Repr
    ensures w.Valid() && fresh(w.Repr - old(w.Repr))
    ensures c in l.members && opp in l.members
    ensures var end := Finished(w.curve, l, c, id, i, Other(role), SECOND_WINS);
      && crashed == end.crashed
      && w.sent == old(w.sent) + ([Sent(opp, Packet(ResignedPkt, Byte(IdOf(l, opp, i)), 0, Nothing))] + end.sent)
      && (!crashed ==> w.held == NOTHING && w.lobby == end.lobby)
    decreases 5
  {
    hide World.Valid, Linked, Settled, Dropped, Unlist, ReleaseInv, OfferAgreed, IdOf;
    hide Agreed, Finished, MemberLinked, OffBoth, Opponent;
    Parties(l, i, c, opp);
    ghost var o := w.lobby.offers[i];
    var _, oppId := RemoveFromBoth(w, c, opp, i, l);
    w.SendPacket(opp, Packet(ResignedPkt, Byte(oppId), 0, Nothing));
    crashed := AnnounceEnd(w, c, id, opp, oppId, i, Other(role), SECOND_WINS, l, o);
  }

  // How a game that has ended is reported and rated, and the invitation let go. Posting the
  // result follows the pointers to both players, and the server crashes when one is null.
  method AnnounceEnd(
    w: World, c: Client, id: nat, opp: Client, oppId: nat, i: Invitation, winner: nat, result: nat,
    ghost l: Lobby, ghost o: Offer)
    returns (crashed: bool)
    requires w.Valid() && w.held == KeepInv(NOTHING, i) && result <= 2
    requires Settled(l) && Linked(l, NOTHING) && i in l.offers && Names(l.offers[i], c) && opp == Opponent(l.offers[i], c)
    requires c in l.members && opp in l.members && oppId == IdOf(l, opp, i)
    requires o.source == l.offers[i].source && o.target == l.offers[i].target
    requires w.lobby == OffBoth(l, i, o, c, opp)
    modifies w.Repr
    ensures w.Valid() && fresh(w.Repr - old(w.Repr))
    ensures var end := Finished(w.curve, l, c, id, i, winner, result);
      && crashed == end.crashed && w.sent == old(w.sent) + end.sent
      && (!crashed ==> w.held == NOTHING && w.lobby == end.lobby)
    decreases 4
  {
    hide World.Valid, Linked, Settled, Dropped, Unlist, ReleaseInv, OfferAgreed, IdOf, Posted, MemberLinked, Agreed, OffBoth;
    OffBothFacts(l, i, o, c, opp);
    SendEnd(w, c, id, winner);
    SendEnd(w, opp, oppId, winner);
    var player := w.ClientGetPlayer(c);
    var rival := w.ClientGetPlayer(opp);
    if player == null || rival == null {
      return true;
    }
    TwoPlayers(l, i, c, opp);
    Released(l, i, o, c, opp, Posted(w.curve, l.accounts, player, rival, result));
    w.PlayerPostResult(player, rival, result);
    InvUnref(w, i);
    return false;
  }

  // The opponent of a party, and the role the party itself plays.
  method ClientRoleIn(w: World, c: Client, i: Invitation) returns (opp: Client, role: nat)
    requires w.Valid() && i in w.lobby.offers && Names(w.lobby.offers[i], c)
    ensures opp == Opponent(w.lobby.offers[i], c) && role == RoleOf(w.lobby.offers[i], c)
  {
    hide World.Valid;
    var source := w.InvGetSource(i);
    if source == c {
      opp := w.InvGetTarget(i);
      role := w.InvGetSourceRole(i);
    } else {
      opp := source;
      role := w.InvGetTargetRole(i);
    }
  }

  // The parties of an invitation are in memory; if they have players, these are different.
  lemma Parties(l: Lobby, i: Invitation, c: Client, opp: Client)
    requires Settled(l) && i in l.offers && Names(l.offers[i], c) && opp == Opponent(l.offers[i], c)
    ensures c in l.members && opp in l.members && c != opp
  {
    hide Sound, Agreed, OfferAgreed;
    PartyPlays(l, i);
  }

  lemma TwoPlayers(l: Lobby, i: Invitation, c: Client, opp: Client)
    requires Settled(l) && i in l.offers && Names(l.offers[i], c) && opp == Opponent(l.offers[i], c)
    requires c in l.members && opp in l.members && l.members[c].player != null && l.members[opp].player != null
    ensures Playing(l, c) && Playing(l, opp) && l.members[c].player != l.members[opp].player
  {
    hide Sound, Agreed, OfferAgreed;
    PartyPlays(l, i);
  }

  method ClientMakeMove(w: World, c: Client, id: nat, move: string) returns (res: int, crashed: bool)
    requires w.Valid() && Settled(w.lobby) && c in w.lobby.members && w.held == NOTHING
    modifies w.Repr
    ensures w.Valid() && fresh(w.Repr - old(w.Repr))
    ensures var done := Moves(w.curve, old(w.lobby), c, id, move);
      && crashed == done.crashed && w.sent == old(w.sent) + done.sent
      && (!crashed ==> w.held == NOTHING && w.lobby == done.lobby && res == done.res)
  {
    hide World.Valid, Linked, Settled, Dropped, Unlist, ReleaseInv, OfferAgreed, IdOf;
    hide Agreed, Finished, ParseMove, Applied, Unparse, MemberLinked, Playing, Opponent;
    ghost var l := w.lobby;
    w.LobbyLinked();
    var i := w.SlotGet(c, id);
    if i == null {
      return -1, false;
    }
    ListedOffer(l, c, id);
    StillListed(l, NOTHING, i);
    w.InvRef(i);
    var opp, role := ClientRoleIn(w, c, i);
    var playing := w.InvHasGame(i);
    if !playing {
      InvUnref(w, i);
      return -1, false;
    }
    var pos := ParseMove(role, move);
    if pos == None {
      InvUnref(w, i);
      return -1, false;
    }
    var applied := w.GameApplyMove(i, role, pos.value);
    if applied != 0 {
      InvUnref(w, i);
      return -1, false;
    }
    MovedBoard(l.offers[i].game.value, role, pos.value);
    crashed := MoveGoesOn(w, c, id, i, opp, role, l);
    return 0, crashed;
  }

  lemma MovedBoard(g: GameState, role: nat, pos: int)
    requires |g.board| == 9 && 1 <= pos <= 9
    ensures var g' := Applied(g, role, pos); g'.Some? ==> |g'.value.board| == 9
  {
  }

  // A game that is over: the invitation is closed and the end announced.
  method CloseGame(w: World, c: Client, id: nat, i: Invitation, opp: Client, role: nat, ghost l: Lobby)
    returns (crashed: bool)
    requires w.Valid() && w.held == KeepInv(NOTHING, i)
    requires Settled(l) && Linked(l, NOTHING) && i in l.offers && Names(l.offers[i], c)
    requires opp == Opponent(l.offers[i], c) && role == RoleOf(l.offers[i], c) && l.offers[i].state == Accepted
    requires i in w.lobby.offers && w.lobby.offers[i].game.Some?
    requires w.lobby == WithOffer(l, i, l.offers[i].(game := w.lobby.offers[i].game))
    requires w.lobby.offers[i].game.value.turn == NULL_ROLE
    modifies w.Repr
    ensures w.Valid() && fresh(w.Repr - old(w.Repr))
    ensures c in l.members && opp in l.members
    ensures var g := old(w.lobby).offers[i].game.value;
      var end := Finished(w.curve, l, c, id, i, g.winner, ResultFor(role, g.winner));
      && crashed == end.crashed && w.sent == old(w.sent) + end.sent
      && (!crashed ==> w.held == NOTHING && w.lobby == end.lobby)
  {
    hide World.Valid, Linked, Settled, Dropped, Unlist, ReleaseInv, OfferAgreed, IdOf;
    hide Agreed, Finished, Unparse, MemberLinked, OffBoth, Opponent, Playing;
    Parties(l, i, c, opp);
    var winner := w.GameGetWinner(i);
    var closed := w.InvClose(i, Other(winner));
    assert closed == 0;
    ghost var o' := w.lobby.offers[i];
    assert w.lobby == WithOffer(l, i, o');
    var _, oppId := RemoveFromBoth(w, c, opp, i, l);
    var result := DRAW;
    if winner == role {
      result := FIRST_WINS;
    } else if winner != NULL_ROLE {
      result := SECOND_WINS;
    }
    crashed := AnnounceEnd(w, c, id, opp, oppId, i, winner, result, l, o');
  }

  // The rest of a legal move: the opponent is told, and a game that is over is closed.
  method MoveGoesOn(w: World, c: Client, id: nat, i: Invitation, opp: Client, role: nat, ghost l: Lobby)
    returns (crashed: bool)
    requires w.Valid() && w.held == KeepInv(NOTHING, i)
    requires Settled(l) && Linked(l, NOTHING) && i in l.offers && Names(l.offers[i], c)
    requires opp == Opponent(l.offers[i], c) && role == RoleOf(l.offers[i], c) && l.offers[i].game.Some?
    requires i in w.lobby.offers && w.lobby.offers[i].game.Some? && |w.lobby.offers[i].game.value.board| == 9
    requires w.lobby == WithOffer(l, i, l.offers[i].(game := w.lobby.offers[i].game))
    modifies w.Repr
    ensures w.Valid() && fresh(w.Repr - old(w.Repr))
    ensures c in l.members && opp in l.members
    ensures var g := old(w.lobby).offers[i].game.value;
      var moved := Sent(opp, Packet(MovedPkt, Byte(IdOf(l, opp, i)), 0, Text(Unparse(g))));
      var end := Finished(w.curve, l, c, id, i, g.winner, ResultFor(role, g.winner));
      if g.turn != NULL_ROLE
      then !crashed && w.held == NOTHING && w.lobby == old(w.lobby) && w.sent == old(w.sent) + [moved]
      else
        && crashed == end.crashed && w.sent == old(w.sent) + ([moved] + end.sent)
        && (!crashed ==> w.held == NOTHING && w.lobby == end.lobby)
  {
    hide World.Valid, Linked, Settled, Dropped, Unlist, ReleaseInv, OfferAgreed, IdOf;
    hide Agreed, Finished, Unparse, MemberLinked, OffBoth, Opponent;
    Parties(l, i, c, opp);
    AgreedOffer(l, i);
    ghost var o := w.lobby.offers[i];
    ListedAfter(l, i, o);
    var oppId := w.SlotFind(opp, i);
    SameIds(l, i, o, opp);
    var board := w.GameUnparseState(i);
    w.SendPacket(opp, Packet(MovedPkt, Byte(oppId), 0, Text(board)));
    var over := w.GameIsOver(i);
    if over {
      crashed := CloseGame(w, c, id, i, opp, role, l);
    } else {
      InvUnref(w, i);
      crashed := false;
    }
  }

  lemma AgreedOffer(l: Lobby, i: Invitation)
    requires Settled(l) && i in l.offers
    ensures OfferAgreed(l, i) && OfferLinked(l, l.offers[i]) && (l.offers[i].game.Some? ==> l.offers[i].state == Accepted)
  {
  }

  // Logs the client out: every game is resigned, every invitation revoked or declined. A
  // client that is not logged in is left alone, which is where the freeing of clients ends.
  method ClientLogout(w: World, c: Client) returns (res: int, crashed: bool)
    requires w.Valid() && c in w.lobby.members
    requires w.lobby.members[c].player != null ==> Rest(w.lobby) && w.held == NOTHING
    modifies w.Repr
    ensures w.Valid() && fresh(w.Repr - old(w.Repr))
    ensures old(w.lobby).members[c].player == null ==>
      res == -1 && !crashed && w.lobby == old(w.lobby) && w.held == old(w.held) && w.sent == old(w.sent) && w.Repr == old(w.Repr)
    ensures old(w.lobby).members[c].player != null ==>
      var done := LoggedOut(w.curve, old(w.lobby), c);
      && crashed == done.crashed && w.sent == old(w.sent) + done.sent
      && (!crashed ==> w.held == NOTHING && w.lobby == done.lobby && res == done.res)
    decreases if w.lobby.members[c].player == null then 0 else 8
  {
    hide World.Valid, Linked, Rest, Sound, Agreed, CloseSlot, Revoked, Declined, Resigns, Cleared;
    res, crashed := -1, false;
    var player := w.ClientGetPlayer(c);
    if player != null {
      ghost var l := w.lobby;
      var n := w.SlotCount(c);
      RestSettled(l);
      ClearedAtFirst(l, c);
      var i := 0;
      while i < n
        invariant 0 <= i <= n == |l.members[c].slots|
        invariant w.Valid() && fresh(w.Repr - old(w.Repr)) && w.held == NOTHING
        invariant Cleared(l, c, i, w.lobby)
        invariant var turns := LogoutTurns(w.curve, l, c, i);
          !turns.crashed && w.lobby == turns.lobby && w.sent == old(w.sent) + turns.sent
      {
        ClearedOneMore(w.curve, l, c, i, w.lobby);
        crashed := LogoutTurn(w, c, i);
        if crashed {
          StaysCrashed(w.curve, l, c, i + 1, n);
          return 0, true;
        }
        i := i + 1;
      }
      TurnsClear(w.curve, l, c, n);
      StillThere(l, c, n, w.lobby);
      w.LogoutFrom(c, player);
      w.PlayerUnref(player);
      res := 0;
    }
  }

  // No turn follows a crash.
  lemma {:induction false} StaysCrashed(curve: Curve, l: Lobby, c: Client, k: nat, n: nat)
    requires k <= n && LogoutTurns(curve, l, c, k).crashed
    ensures LogoutTurns(curve, l, c, n) == LogoutTurns(curve, l, c, k)
  {
    hide Settled, CloseSlot;
    if k < n {
      StaysCrashed(curve, l, c, k, n - 1);
    }
  }

  lemma StillThere(l: Lobby, c: Client, k: nat, l': Lobby)
    requires Cleared(l, c, k, l')
    ensures c in l'.members && l'.members[c].player == l.members[c].player
  {
  }

  // One turn of the loop.
  method LogoutTurn(w: World, c: Client, i: nat) returns (crashed: bool)
    requires w.Valid() && Settled(w.lobby) && c in w.lobby.members && w.held == NOTHING
    modifies w.Repr
    ensures w.Valid() && fresh(w.Repr - old(w.Repr))
    ensures var done := CloseSlot(w.curve, old(w.lobby), c, i);
      && crashed == done.crashed && w.sent == old(w.sent) + done.sent
      && (!crashed ==> w.held == NOTHING && w.lobby == done.lobby)
    decreases 7
  {
    hide World.Valid, Linked, Settled, Revoked, Declined, Resigns;
    crashed := false;
    var inv := w.SlotGet(c, i);
    if inv != null {
      ListedOffer(w.lobby, c, i);
      var playing := w.InvHasGame(inv);
      var res;
      if playing {
        res, crashed := ClientResignGame(w, c, i);
      } else {
        NeverCrash(w.lobby, c, i);
        var source := w.InvGetSource(inv);
        if source == c {
          res := ClientRevokeInvitation(w, c, i);
        } else {
          res := ClientDeclineInvitation(w, c, i);
        }
      }
    }
  }

  lemma NeverCrash(l: Lobby, c: Client, id: nat)
    requires Settled(l) && c in l.members
    ensures !Revoked(l, c, id).crashed && !Declined(l, c, id).crashed && !Accepts(l, c, id).0.crashed
  {
  }

  // A new open invitation with a pointer to each of its clients, unless they are the same.
  method InvCreate(w: World, source: Client, target: Client, sourceRole: nat, targetRole: nat) returns (i: Invitation?)
    requires w.Valid() && source in w.lobby.members && target in w.lobby.members
    modifies w.Repr
    ensures w.Valid() && fresh(w.Repr - old(w.Repr)) && w.sent == old(w.sent)
    ensures i == null <==> source == target
    ensures i == null ==> w.lobby == old(w.lobby) && w.held == old(w.held)
    ensures i != null ==>
      && i !in old(w.lobby).offers && w.held == KeepInv(old(w.held), i)
      && w.lobby == WithOffer(old(w.lobby), i, Offer(source, target, sourceRole, targetRole, Open, None))
  {
    hide World.Valid;
    if source == target {
      return null;
    }
    ghost var h := w.held;
    w.ClientRef(source);
    w.ClientRef(target);
    i := w.InvNew(source, target, sourceRole, targetRole);
    assert DropClient(DropClient(KeepClient(KeepClient(h, source), target), source), target) == h;
  }

  // The invitation in the list of the party, if that is logged in.
  function ListedBy(l: Lobby, c: Client, i: Invitation): (l': Lobby)
    requires c in l.members
    ensures l'.members.Keys == l.members.Keys
  {
    if l.members[c].player != null then WithSlots(l, c, SetAt(l.members[c].slots, IdOf0(l, c), i)) else l
  }

  method AddToBoth(w: World, c: Client, d: Client, i: Invitation) returns (id: int, targetId: int)
    requires w.Valid() && c in w.lobby.members && d in w.lobby.members && c != d && i in w.lobby.offers
    requires w.lobby.offers[i].source == c && w.lobby.offers[i].target == d
    modifies w.Repr
    ensures w.Valid() && fresh(w.Repr - old(w.Repr)) && w.sent == old(w.sent) && w.held == old(w.held)
    ensures w.lobby == ListedBy(ListedBy(old(w.lobby), c, i), d, i)
    ensures id == if old(w.lobby).members[c].player != null then IdOf0(old(w.lobby), c) else -1
    ensures targetId == if old(w.lobby).members[d].player != null then IdOf0(old(w.lobby), d) else -1
  {
    hide World.Valid, SetAt;
    id := ClientAddInvitation(w, c, i);
    targetId := ClientAddInvitation(w, d, i);
  }

  // A party that is not logged in does not list the invitation, which is then not announced; it
  // stays with the other party, or is freed at once when there is none.
  ghost function MadeBy(l: Lobby, h: Held, c: Client, d: Client, sourceRole: nat, targetRole: nat, i: Invitation): Done
    requires c in l.members && d in l.members
  {
    if Playing(l, c) && Playing(l, d) then Made(l, c, d, sourceRole, targetRole, i)
    else
      var made := WithOffer(l, i, Offer(c, d, sourceRole, targetRole, Open, None));
      Done(ReleaseInv(ListedBy(ListedBy(made, c, i), d, i), KeepInv(h, i), i), -1, [])
  }

  method ClientMakeInvitation(w: World, c: Client, d: Client, sourceRole: nat, targetRole: nat)
    returns (res: int, ghost i: Invitation?)
    requires w.Valid() && c in w.lobby.members && d in w.lobby.members
    modifies w.Repr
    ensures w.Valid() && fresh(w.Repr - old(w.Repr)) && w.held == old(w.held)
    ensures c == d ==> res == -1 && w.lobby == old(w.lobby) && w.sent == old(w.sent)
    ensures c != d ==>
      && i != null && i !in old(w.lobby).offers
      && var done := MadeBy(old(w.lobby), old(w.held), c, d, sourceRole, targetRole, i);
        w.lobby == done.lobby && res == done.res && w.sent == old(w.sent) + done.sent
  {
    hide World.Valid, Linked, ReleaseInv, ListedBy, Playing, MadeBy;
    ghost var l, h := w.lobby, w.held;
    w.LobbyLinked();
    var inv := InvCreate(w, c, d, sourceRole, targetRole);
    i := inv;
    if inv == null {
      return -1, inv;
    }
    MadeByIs(l, h, c, d, sourceRole, targetRole, inv);
    var id, targetId := AddToBoth(w, c, d, inv);
    InvUnref(w, inv);
    if id == -1 || targetId == -1 {
      return -1, inv;
    }
    SendInvited(w, c, d, targetId, targetRole);
    return id, inv;
  }

  // With two logged-in parties the caller's pointer is not the last one.
  lemma MadeByIs(l: Lobby, h: Held, c: Client, d: Client, sourceRole: nat, targetRole: nat, i: Invitation)
    requires c in l.members && d in l.members && c != d && i !in l.offers && Linked(l, h)
    ensures DropInv(KeepInv(h, i), i) == h
    ensures var made := WithOffer(l, i, Offer(c, d, sourceRole, targetRole, Open, None));
      var both := l.members[c].player != null && l.members[d].player != null;
      var done := MadeBy(l, h, c, d, sourceRole, targetRole, i);
      && i in ListedBy(ListedBy(made, c, i), d, i).offers
      && done.lobby == ReleaseInv(ListedBy(ListedBy(made, c, i), d, i), KeepInv(h, i), i)
      && done.res == (if both then IdOf0(made, c) else -1)
      && (both ==>
            && Playing(l, c) && Playing(done.lobby, c) && d in done.lobby.members
            && done.lobby.accounts[done.lobby.members[c].player].name == l.accounts[l.members[c].player].name)
      && done.sent == (if !both then [] else
           [Sent(d, Packet(InvitedPkt, Byte(IdOf0(made, d)), Byte(targetRole), Text(l.accounts[l.members[c].player].name)))])
  {
    hide RegistryLinked, RollLinked, HeldLinked, ListedIn, ReleaseInv;
    assert MemberLinked(l, c) && MemberLinked(l, d);
    if Playing(l, c) && Playing(l, d) {
      Unlisted(l, h, i);
      MadeOnce(l, c, d, sourceRole, targetRole, i);
      MadeListed(Made(l, c, d, sourceRole, targetRole, i).lobby, h, i);
    }
  }

  // The target is told who invites it.
  method SendInvited(w: World, c: Client, d: Client, targetId: nat, targetRole: nat)
    requires w.Valid() && Playing(w.lobby, c) && d in w.lobby.members
    modifies w.Repr
    ensures w.Valid() && w.Repr == old(w.Repr) && w.lobby == old(w.lobby) && w.held == old(w.held)
    ensures var name := old(w.lobby).accounts[old(w.lobby).members[c].player].name;
      w.sent == old(w.sent) + [Sent(d, Packet(InvitedPkt, Byte(targetId), Byte(targetRole), Text(name)))]
  {
    hide World.Valid;
    var player := w.ClientGetPlayer(c);
    var name := w.PlayerGetName(player);
    w.SendPacket(d, Packet(InvitedPkt, Byte(targetId), Byte(targetRole), Text(name)));
  }

  lemma MadeOnce(l: Lobby, c: Client, d: Client, sourceRole: nat, targetRole: nat, i: Invitation)
    requires Playing(l, c) && Playing(l, d) && c != d && i !in l.offers
    requires i !in l.members[c].slots && i !in l.members[d].slots
    ensures ListedIn(Made(l, c, d, sourceRole, targetRole, i).lobby, c, i) == 1
  {
  }

  lemma MadeListed(l: Lobby, h: Held, i: Invitation)
    requires i in l.offers && ListedIn(l, l.offers[i].source, i) == 1
    ensures ReleaseInv(l, KeepInv(h, i), i) == l && DropInv(KeepInv(h, i), i) == h
  {
  }
}
