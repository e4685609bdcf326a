// Every request keeps the lobby linked and agreed.
module Keeping {
  import opened Prelude
  import opened Games
  import opened GameRuns
  import opened Players
  import opened Objects
  import opened Lobbies
  import opened Links
  import opened Requests

  // No pointer dangles, and the two sides of every invitation agree.
  ghost predicate Rest(l: Lobby) { Linked(l, NOTHING) && Agreed(l) }

  lemma NothingHeld(l: Lobby, h: Held)
    requires Linked(l, h)
    ensures Linked(l, NOTHING)
  {
  }

  lemma UnlistKeeps(l: Lobby, c: Client, i: Invitation)
    requires Linked(l, NOTHING) && c in l.members && ListedIn(l, c, i) == 1
    ensures Linked(Unlist(l, c, i), NOTHING)
    ensures ListedIn(Unlist(l, c, i), c, i) == 0
    ensures forall j | j in l.offers && j != i :: ListedIn(Unlist(l, c, i), c, j) == ListedIn(l, c, j)
  {
    hide Linked, WithSlots, HeldLinked;
    var k := FirstIndex(l.members[c].slots, i);
    ReplaceOnce(l.members[c].slots, i);
    ClearSlot(l, NOTHING, c, k, i, Unlist(l, c, i));
    NothingHeld(Unlist(l, c, i), KeepInv(NOTHING, i));
    UnlistSlots(l, c, i);
  }

  lemma UnlistSlots(l: Lobby, c: Client, i: Invitation)
    requires c in l.members
    ensures var l' := Unlist(l, c, i);
      && l' == l.(members := l'.members) && l'.members.Keys == l.members.Keys
      && l'.members[c] == Member(l.members[c].player, Replace(l.members[c].slots, i, null))
      && (forall d | d in l.members && d != c :: l'.members[d] == l.members[d])
  {
  }

  lemma DroppedLinked(l: Lobby, i: Invitation)
    requires Linked(l, NOTHING) && i in l.offers && OfferAgreed(l, i)
    ensures l.offers[i].source in l.members && l.offers[i].target in l.members
    ensures Linked(Dropped(l, i), NOTHING)
  {
    hide RegistryLinked, RollLinked, HeldLinked, MemberLinked, Unlist, ListedIn;
    var o := l.offers[i];
    assert OfferLinked(l, o);
    UnlistKeeps(l, o.source, i);
    var l2 := Unlist(l, o.source, i);
    UnlistSlots(l, o.source, i);
    ListedElsewhere(l, o.source, o.target, i);
    UnlistKeeps(l2, o.target, i);
    var l3 := Unlist(l2, o.target, i);
    UnlistSlots(l2, o.target, i);
    ListedElsewhere(l2, o.target, o.source, i);
    FreeInv(l3, NOTHING, i, Dropped(l, i), HandedOver(l3, NOTHING, i));
    NothingHeld(Dropped(l, i), HandedOver(l3, NOTHING, i));
  }

  lemma ListedElsewhere(l: Lobby, c: Client, d: Client, i: Invitation)
    requires c in l.members && d != c
    ensures forall j :: ListedIn(Unlist(l, c, i), d, j) == ListedIn(l, d, j)
  {
  }

  // What dropping an invitation leaves of the others.
  lemma DroppedLists(l: Lobby, i: Invitation)
    requires i in l.offers && OfferAgreed(l, i) && l.offers[i].source != l.offers[i].target
    ensures var l' := Dropped(l, i);
      && l'.offers == l.offers - {i} && l'.accounts == l.accounts
      && l'.registry == l.registry && l'.loops == l.loops && l'.roll == l.roll
      && l'.members.Keys == l.members.Keys
      && (forall c | c in l.members :: l'.members[c].player == l.members[c].player)
      && (forall c | c in l.members :: |l'.members[c].slots| == |l.members[c].slots|)
      && (forall c, j | c in l.members && j != i :: ListedIn(l', c, j) == ListedIn(l, c, j))
  {
    var o := l.offers[i];
    ReplaceOnce(l.members[o.source].slots, i);
    ReplaceOnce(l.members[o.target].slots, i);
  }

  lemma AgreedParties(l: Lobby, i: Invitation)
    requires Rest(l) && i in l.offers
    ensures OfferAgreed(l, i) && OfferLinked(l, l.offers[i])
  {
  }

  lemma DropKeeps(l: Lobby, i: Invitation, accounts: map<Player, Account>)
    requires Rest(l) && i in l.offers && accounts.Keys == l.accounts.Keys
    requires forall p | p in accounts :: accounts[p].name == l.accounts[p].name
    ensures l.offers[i].source in l.members && l.offers[i].target in l.members
    ensures Rest(Dropped(l, i).(accounts := accounts))
  {
    hide Dropped, Linked, OfferAgreed, OneLogin, NamesDiffer;
    AgreedParties(l, i);
    DroppedLinked(l, i);
    DroppedLists(l, i);
    var l1 := Dropped(l, i);
    var l2 := l1.(accounts := accounts);
    AccountsChanged(l1, NOTHING, l2);
    LoginsStay(l, l2);
    forall j | j in l2.offers
      ensures OfferAgreed(l2, j)
    {
      ListedSame(l1, l2, j);
      StillAgreed(l, i, l2, j);
    }
  }

  lemma LoginsStay(l: Lobby, l': Lobby)
    requires OneLogin(l) && NamesDiffer(l)
    requires l'.members.Keys == l.members.Keys && forall c | c in l.members :: l'.members[c].player == l.members[c].player
    requires l'.accounts.Keys == l.accounts.Keys && forall p | p in l.accounts :: l'.accounts[p].name == l.accounts[p].name
    ensures OneLogin(l') && NamesDiffer(l')
  {
  }

  lemma StillAgreed(l: Lobby, i: Invitation, l': Lobby, j: Invitation)
    requires j in l.offers && OfferAgreed(l, j) && j in l'.offers && j != i && l'.offers[j] == l.offers[j]
    requires l'.members.Keys == l.members.Keys && forall c | c in l.members :: l'.members[c].player == l.members[c].player
    requires forall c | c in l.members :: ListedIn(l', c, j) == ListedIn(l, c, j)
    ensures OfferAgreed(l', j)
  {
  }

  lemma RestSettled(l: Lobby)
    requires Rest(l)
    ensures Settled(l)
  {
  }

  // --- The requests ----------------------------------------------------------------------

  lemma RevokedKeeps(l: Lobby, c: Client, id: nat)
    requires Rest(l) && c in l.members
    ensures Settled(l) && Rest(Revoked(l, c, id).lobby)
  {
    hide Linked, Agreed, Dropped, OfferLinked, MemberLinked;
    RestSettled(l);
    var i := SlotOf(l, c, id);
    if i != null {
      ListedOffer(l, c, id);
      DropKeeps(l, i, l.accounts);
      DroppedSameAccounts(l, i);
    }
  }

  lemma DroppedSameAccounts(l: Lobby, i: Invitation)
    requires i in l.offers && l.offers[i].source in l.members && l.offers[i].target in l.members
    ensures Dropped(l, i).(accounts := l.accounts) == Dropped(l, i)
  {
  }

  lemma DeclinedKeeps(l: Lobby, c: Client, id: nat)
    requires Rest(l) && c in l.members
    ensures Settled(l) && Rest(Declined(l, c, id).lobby)
  {
    hide Linked, Agreed, Dropped, OfferLinked, MemberLinked;
    RestSettled(l);
    var i := SlotOf(l, c, id);
    if i != null {
      ListedOffer(l, c, id);
      DropKeeps(l, i, l.accounts);
      DroppedSameAccounts(l, i);
    }
  }

  lemma LinkedOffer(l: Lobby, i: Invitation, g: GameState)
    requires Linked(l, NOTHING) && i in l.offers && InPlay(g)
    ensures OfferLinked(l, l.offers[i].(state := Accepted, game := Some(g)))
  {
  }

  lemma SameLogins(l: Lobby, l': Lobby)
    requires OneLogin(l) && NamesDiffer(l) && l'.accounts == l.accounts && l'.members == l.members
    ensures OneLogin(l') && NamesDiffer(l')
  {
  }

  // A listed invitation that gets a game in play, or a further position of one.
  lemma PlayedKeeps(l: Lobby, i: Invitation, g: GameState)
    requires Rest(l) && i in l.offers && InPlay(g) && (RolesOk(l.offers[i]) || HardlyBegun(l.offers[i], g))
    ensures Rest(WithOffer(l, i, l.offers[i].(state := Accepted, game := Some(g))))
  {
    hide Linked, MemberLinked, OneLogin, NamesDiffer, OfferAgreed, InPlay, RolesOk, HardlyBegun;
    var o := l.offers[i].(state := Accepted, game := Some(g));
    var l' := WithOffer(l, i, o);
    LinkedOffer(l, i, g);
    OfferChanged(l, NOTHING, i, o);
    SameLogins(l, l');
    forall j | j in l'.offers
      ensures OfferAgreed(l', j)
    {
      PlayedAgreed(l, i, g, j);
    }
  }

  lemma PlayedAgreed(l: Lobby, i: Invitation, g: GameState, j: Invitation)
    requires i in l.offers && j in l.offers && OfferAgreed(l, i) && OfferAgreed(l, j) && InPlay(g)
    requires RolesOk(l.offers[i]) || HardlyBegun(l.offers[i], g)
    ensures OfferAgreed(WithOffer(l, i, l.offers[i].(state := Accepted, game := Some(g))), j)
  {
  }

  lemma AcceptsKeeps(l: Lobby, c: Client, id: nat)
    requires Rest(l) && c in l.members
    ensures Settled(l) && Rest(Accepts(l, c, id).0.lobby)
  {
    hide Linked, Agreed, OfferLinked, MemberLinked;
    RestSettled(l);
    var i := SlotOf(l, c, id);
    if i != null {
      ListedOffer(l, c, id);
      Initially();
      PlayedKeeps(l, i, INITIAL);
    }
  }

  lemma FinishedKeeps(curve: Curve, l: Lobby, c: Client, id: nat, i: Invitation, winner: nat, result: nat)
    requires Rest(l) && c in l.members && i in l.offers && Names(l.offers[i], c)
    ensures Settled(l) && Rest(Finished(curve, l, c, id, i, winner, result).lobby)
  {
    hide Linked, Agreed, Dropped, OfferLinked, MemberLinked;
    RestSettled(l);
    PartyPlays(l, i);
    var d := Opponent(l.offers[i], c);
    if Playing(l, c) && Playing(l, d) {
      DropKeeps(l, i, Posted(curve, l.accounts, l.members[c].player, l.members[d].player, result));
    }
  }

  lemma ResignsKeeps(curve: Curve, l: Lobby, c: Client, id: nat)
    requires Rest(l) && c in l.members
    ensures Settled(l) && Rest(Resigns(curve, l, c, id).lobby)
  {
    hide Linked, Agreed, Dropped, OfferLinked, MemberLinked, Rest;
    RestSettled(l);
    var i := SlotOf(l, c, id);
    if i != null {
      ListedOffer(l, c, id);
      FinishedKeeps(curve, l, c, id, i, Other(RoleOf(l.offers[i], c)), SECOND_WINS);
    }
  }

  // A game without two different roles is never ended by a move.
  lemma HardlyMoves(o: Offer, g: GameState, role: nat, pos: int)
    requires InPlay(g) && o.sourceRole == Other(o.targetRole) && !RolesOk(o) && HardlyBegun(o, g)
    requires (role == o.sourceRole || role == o.targetRole) && 1 <= pos <= 9 && Applied(g, role, pos).Some?
    ensures var g' := Applied(g, role, pos).value;
      g'.turn != NULL_ROLE && InPlay(g') && HardlyBegun(o, g')
  {
    hide InPlay, HasLine, Full;
    assert role == g.turn && g == INITIAL && role == FIRST_PLAYER_ROLE;
    FirstPiece(pos - 1, role);
    MoveOutcome(g, role, pos);
  }

  lemma FirstPiece(pos: nat, role: nat)
    requires pos < 9 && role != NULL_ROLE
    ensures var board := INITIAL.board[pos := role];
      !HasLine(board, role) && !Full(board) && multiset(board)[NULL_ROLE] == 8
  {
    var board := INITIAL.board[pos := role];
    BlanksLeft(INITIAL.board, pos, role);
    assert board[if pos == 0 then 1 else 0] == NULL_ROLE;
    hide LineAt;
    forall k | 0 <= k < 8
      ensures !LineAt(board, k, role)
    {
      NoLine(board, pos, k, role);
    }
  }

  lemma NoLine(board: seq<int>, pos: nat, k: nat, role: nat)
    requires |board| == 9 && k < 8 && forall j :: 0 <= j < 9 && j != pos ==> board[j] != role
    ensures !LineAt(board, k, role)
  {
    TwoCells(k);
  }

  lemma TwoCells(k: nat)
    requires k < 8
    ensures WINS[k].0 != WINS[k].1
  {
  }

  lemma BlanksLeft(board: seq<int>, pos: nat, role: nat)
    requires pos < |board| && board[pos] == NULL_ROLE && role != NULL_ROLE
    ensures multiset(board[pos := role])[NULL_ROLE] == multiset(board)[NULL_ROLE] - 1
  {
  }

  lemma MovesKeeps(curve: Curve, l: Lobby, c: Client, id: nat, text: string)
    requires Rest(l) && c in l.members
    ensures Settled(l) && Rest(Moves(curve, l, c, id, text).lobby)
  {
    hide Linked, Agreed, Dropped, MemberLinked, Rest, InPlay, HardlyBegun, RolesOk, ParseMove, Unparse;
    RestSettled(l);
    var i := SlotOf(l, c, id);
    if i != null {
      ListedOffer(l, c, id);
      var o := l.offers[i];
      var role := RoleOf(o, c);
      var pos := ParseMove(role, text);
      if o.game.Some? && pos.Some? && Applied(o.game.value, role, pos.value).Some? {
        var g := Applied(o.game.value, role, pos.value).value;
        MoveOutcome(o.game.value, role, pos.value);
        if !RolesOk(o) {
          HardlyMoves(o, o.game.value, role, pos.value);
        }
        if g.turn != NULL_ROLE {
          PlayedKeeps(l, i, g);
          assert o.(game := Some(g)) == o.(state := Accepted, game := Some(g));
        } else {
          FinishedKeeps(curve, l, c, id, i, g.winner, ResultFor(role, g.winner));
        }
      }
    }
  }

  // --- Making an invitation ---------------------------------------------------------------

  lemma MadeLinked(l: Lobby, c: Client, d: Client, sourceRole: nat, targetRole: nat, i: Invitation)
    requires Linked(l, NOTHING) && Playing(l, c) && Playing(l, d) && c != d && i !in l.offers
    ensures Linked(Made(l, c, d, sourceRole, targetRole, i).lobby, NOTHING)
  {
    hide RegistryLinked, RollLinked, MemberLinked, OfferLinked, ClientCount, InvCount, PlayerCount, SameCounts, Linked;
    var o := Offer(c, d, sourceRole, targetRole, Open, None);
    var l1 := WithOffer(l, i, o);
    var h1 := KeepInv(NOTHING, i);
    var both := KeepClient(KeepClient(NOTHING, c), d);
    HoldClient(l, NOTHING, c);
    HoldClient(l, KeepClient(NOTHING, c), d);
    assert DropClient(DropClient(both, c), d) == NOTHING;
    NewOffer(l, both, i, o, h1);
    var l2 := WithSlots(l1, c, SetAt(l1.members[c].slots, IdOf0(l, c), i));
    StoreSlot(l1, h1, c, IdOf0(l, c), i, l2);
    assert DropInv(h1, i) == NOTHING;
    HoldInv(l2, NOTHING, i);
    var l3 := WithSlots(l2, d, SetAt(l2.members[d].slots, IdOf0(l, d), i));
    StoreSlot(l2, h1, d, IdOf0(l, d), i, l3);
  }

  // The lists after an invitation is made: one more entry in each, and nothing else.
  lemma MadeLists(l: Lobby, c: Client, d: Client, sourceRole: nat, targetRole: nat, i: Invitation)
    requires Playing(l, c) && Playing(l, d) && c != d && i !in l.offers
    requires i !in l.members[c].slots && i !in l.members[d].slots
    ensures var l' := Made(l, c, d, sourceRole, targetRole, i).lobby;
      && l'.offers == l.offers[i := Offer(c, d, sourceRole, targetRole, Open, None)]
      && l'.accounts == l.accounts && l'.registry == l.registry && l'.loops == l.loops && l'.roll == l.roll
      && l'.members.Keys == l.members.Keys
      && (forall e | e in l.members :: l'.members[e].player == l.members[e].player)
      && ListedIn(l', c, i) == 1 && ListedIn(l', d, i) == 1
      && (forall e, j | e in l.members && j != i :: ListedIn(l', e, j) == ListedIn(l, e, j))
  {
    SetAtCounts(l.members[c].slots, IdOf0(l, c), i);
    SetAtCounts(l.members[d].slots, IdOf0(l, d), i);
  }

  lemma MadeKeeps(l: Lobby, c: Client, d: Client, sourceRole: nat, targetRole: nat, i: Invitation)
    requires Rest(l) && Playing(l, c) && Playing(l, d) && i !in l.offers
    requires sourceRole == Other(targetRole)
    ensures Rest(Made(l, c, d, sourceRole, targetRole, i).lobby)
  {
    hide Linked, MemberLinked, ListedIn, InPlay;
    if c != d {
      MadeLinked(l, c, d, sourceRole, targetRole, i);
      Unlisted(l, NOTHING, i);
      MadeLists(l, c, d, sourceRole, targetRole, i);
      var l' := Made(l, c, d, sourceRole, targetRole, i).lobby;
      hide Made;
      forall j | j in l'.offers
        ensures OfferAgreed(l', j)
      {
        if j != i {
          assert OfferAgreed(l, j);
        }
      }
    }
  }

  // --- Logging out --------------------------------------------------------------------------

  lemma DroppedSlots(l: Lobby, c: Client, id: nat)
    requires Settled(l) && c in l.members && SlotOf(l, c, id) != null
    ensures var i := SlotOf(l, c, id);
      && i in l.offers && l.offers[i].source in l.members && l.offers[i].target in l.members
      && Dropped(l, i).members[c].slots == l.members[c].slots[id := null]
      && IdOf(l, c, i) == id
  {
    var i := SlotOf(l, c, id);
    ListedOffer(l, c, id);
    OnlyIndex(l.members[c].slots, i, id);
  }

  // One turn of the loop of a logout: a game is resigned, an own invitation is revoked, and
  // one received is declined.
  function CloseSlot(curve: Curve, l: Lobby, c: Client, id: nat): Done
    requires Settled(l) && c in l.members
  {
    var i := SlotOf(l, c, id);
    if i == null then Done(l, 0, [])
    else
      assert MemberLinked(l, c);
      if l.offers[i].game.Some? then Resigns(curve, l, c, id)
      else if l.offers[i].source == c then Revoked(l, c, id)
      else Declined(l, c, id)
  }

  // The slot holds a game that the client cannot resign.
  predicate Remains(l: Lobby, c: Client, k: nat)
    requires c in l.members
  {
    && k < |l.members[c].slots| && l.members[c].slots[k] != null && l.members[c].slots[k] in l.offers
    && StuckFor(l.offers[l.members[c].slots[k]], c)
  }

  // The list of the client with the first k slots emptied, but for such games.
  function Left(l: Lobby, c: Client, k: nat): (slots: seq<Invitation?>)
    requires c in l.members
    ensures |slots| == |l.members[c].slots|
  {
    seq(|l.members[c].slots|, j requires 0 <= j < |l.members[c].slots| =>
      if j < k && !Remains(l, c, j) then null else l.members[c].slots[j])
  }

  // Nobody has come or gone, logged in or out, and who is not logged in has not been touched.
  ghost predicate Outline(l: Lobby, l': Lobby)
  {
    && l'.members.Keys == l.members.Keys
    && l'.registry == l.registry && l'.loops == l.loops && l'.roll == l.roll
    && (forall d | d in l.members :: l'.members[d].player == l.members[d].player)
    && (forall d | d in l.members && l.members[d].player == null :: l'.members[d] == l.members[d])
  }

  // Besides, invitations have at most disappeared.
  ghost predicate Fewer(l: Lobby, l': Lobby)
  {
    Outline(l, l') && forall i | i in l'.offers :: i in l.offers && l'.offers[i] == l.offers[i]
  }

  lemma DroppedOutline(l: Lobby, i: Invitation, accounts: map<Player, Account>)
    requires Settled(l) && i in l.offers && Playing(l, l.offers[i].source) && Playing(l, l.offers[i].target)
    ensures Outline(l, Dropped(l, i).(accounts := accounts)) && Outline(l, Dropped(l, i))
  {
    hide Unlist, MemberLinked, OfferAgreed;
    var o := l.offers[i];
    UnlistSlots(l, o.source, i);
    UnlistSlots(Unlist(l, o.source, i), o.target, i);
  }

  lemma SameOutline(l: Lobby)
    ensures Outline(l, l)
  {
  }

  // The operations on a listed invitation leave the outline.
  lemma OfferOutline(l: Lobby, c: Client, id: nat)
    requires Settled(l) && c in l.members
    ensures Outline(l, Revoked(l, c, id).lobby) && Outline(l, Declined(l, c, id).lobby) && Outline(l, Accepts(l, c, id).0.lobby)
  {
    hide Sound, Agreed, Dropped, Unparse, InPlay;
    SameOutline(l);
    var i := SlotOf(l, c, id);
    if i != null {
      ListedOffer(l, c, id);
      PartyPlays(l, i);
      if l.offers[i].state == Open {
        DroppedOutline(l, i, l.accounts);
      }
    }
  }

  lemma GameOutline(curve: Curve, l: Lobby, c: Client, id: nat, text: string)
    requires Settled(l) && c in l.members
    ensures Outline(l, Resigns(curve, l, c, id).lobby) && Outline(l, Moves(curve, l, c, id, text).lobby)
  {
    hide Sound, Agreed, Dropped, Posted, Unparse, InPlay, Applied, ParseMove, Outline;
    SameOutline(l);
    var i := SlotOf(l, c, id);
    if i != null {
      ListedOffer(l, c, id);
      PartyPlays(l, i);
      if Playing(l, l.offers[i].target) {
        forall accounts
          ensures Outline(l, Dropped(l, i).(accounts := accounts))
        {
          DroppedOutline(l, i, accounts);
        }
      }
      forall o
        ensures Outline(l, WithOffer(l, i, o))
      {
        SameMembers(l, i, o);
      }
    }
  }

  lemma SameMembers(l: Lobby, i: Invitation, o: Offer)
    ensures Outline(l, WithOffer(l, i, o))
  {
  }

  // Exactly the slot is emptied, unless its game remains, or the server crashes.
  lemma CloseSlotKeeps(curve: Curve, l: Lobby, c: Client, id: nat)
    requires Rest(l) && c in l.members && id < |l.members[c].slots|
    ensures Settled(l)
    ensures var done := CloseSlot(curve, l, c, id);
      && Rest(done.lobby) && Fewer(l, done.lobby)
      && (Remains(l, c, id) ==> done == Failed(l))
      && (!done.crashed && !Remains(l, c, id) ==> done.res == 0 && done.lobby.members[c].slots == l.members[c].slots[id := null])
  {
    hide Linked, Agreed, Dropped, MemberLinked, Outline;
    RestSettled(l);
    SameOutline(l);
    OfferOutline(l, c, id);
    GameOutline(curve, l, c, id, "");
    var i := SlotOf(l, c, id);
    if i != null {
      ListedOffer(l, c, id);
      DroppedSlots(l, c, id);
      DroppedLists(l, i);
      ResignsKeeps(curve, l, c, id);
      RevokedKeeps(l, c, id);
      DeclinedKeeps(l, c, id);
    } else {
      assert l.members[c].slots[id := null] == l.members[c].slots;
    }
  }

  // How far a log-out has come.
  ghost predicate Cleared(l: Lobby, c: Client, k: nat, l': Lobby)
  {
    && Rest(l') && Fewer(l, l') && c in l.members && l'.members[c].slots == Left(l, c, k)
  }

  lemma ClearedOneMore(curve: Curve, l: Lobby, c: Client, k: nat, l': Lobby)
    requires Sound(l) && Cleared(l, c, k, l') && k < |l.members[c].slots|
    ensures Settled(l') && c in l'.members
    ensures var done := CloseSlot(curve, l', c, k);
      !done.crashed ==> Cleared(l, c, k + 1, done.lobby)
  {
    hide Rest, CloseSlot, Agreed;
    CloseSlotKeeps(curve, l', c, k);
    SameRemains(l, c, k, l');
    LeftStep(l, c, k);
    FewerMore(l, l', CloseSlot(curve, l', c, k).lobby);
  }

  lemma FewerMore(l: Lobby, m: Lobby, l': Lobby)
    requires Fewer(l, m) && Fewer(m, l')
    ensures Fewer(l, l')
  {
  }

  lemma LeftStep(l: Lobby, c: Client, k: nat)
    requires c in l.members && k < |l.members[c].slots|
    ensures Left(l, c, k)[k] == l.members[c].slots[k]
    ensures Left(l, c, k + 1) == if Remains(l, c, k) then Left(l, c, k) else Left(l, c, k)[k := null]
    ensures Left(l, c, 0) == l.members[c].slots
  {
  }

  // What the turns before have done makes no difference to the game in a slot.
  lemma SameRemains(l: Lobby, c: Client, k: nat, l': Lobby)
    requires Sound(l') && Fewer(l, l') && c in l.members && k < |l.members[c].slots|
    requires |l'.members[c].slots| == |l.members[c].slots| && l'.members[c].slots[k] == l.members[c].slots[k]
    ensures Remains(l', c, k) <==> Remains(l, c, k)
  {
    hide OfferLinked;
    assert MemberLinked(l', c);
  }

  lemma ClearedAtFirst(l: Lobby, c: Client)
    requires Rest(l) && c in l.members
    ensures Cleared(l, c, 0, l)
  {
    LeftStep0(l, c);
  }

  lemma LeftStep0(l: Lobby, c: Client)
    requires c in l.members
    ensures Left(l, c, 0) == l.members[c].slots
  {
  }

  lemma StillAtRest(l: Lobby, c: Client, k: nat, l': Lobby)
    requires Cleared(l, c, k, l')
    ensures Rest(l') && Settled(l') && c in l'.members
  {
    hide Linked;
    RestSettled(l');
  }

  // The first k turns of the loop.
  ghost function LogoutTurns(curve: Curve, l: Lobby, c: Client, k: nat): Done
  {
    if k == 0 then Done(l, 0, [])
    else
      var before := LogoutTurns(curve, l, c, k - 1);
      if !before.crashed && Settled(before.lobby) && c in before.lobby.members then
        var last := CloseSlot(curve, before.lobby, c, k - 1);
        Done(if last.crashed then l else last.lobby, 0, before.sent + last.sent, last.crashed)
      else before
  }

  lemma {:induction false} TurnsClear(curve: Curve, l: Lobby, c: Client, k: nat)
    requires Rest(l) && c in l.members && k <= |l.members[c].slots|
    ensures var done := LogoutTurns(curve, l, c, k);
      done.res == 0 && if done.crashed then done.lobby == l else Cleared(l, c, k, done.lobby)
  {
    hide Rest, Sound, CloseSlot, Cleared, Agreed;
    if k == 0 {
      ClearedAtFirst(l, c);
    } else {
      TurnsClear(curve, l, c, k - 1);
      if !LogoutTurns(curve, l, c, k - 1).crashed {
        RestSettled(l);
        ClearedOneMore(curve, l, c, k - 1, LogoutTurns(curve, l, c, k - 1).lobby);
      }
    }
  }

  // The whole log-out: all turns, and then the client is nobody.
  ghost function LoggedOut(curve: Curve, l: Lobby, c: Client): Done
    requires c in l.members
  {
    if l.members[c].player == null then Failed(l)
    else
      var done := LogoutTurns(curve, l, c, |l.members[c].slots|);
      if !done.crashed && c in done.lobby.members
      then done.(lobby := WithMember(done.lobby, c, done.lobby.members[c].(player := null)))
      else done
  }

  // After a log-out the list is empty but for the games that the client could not resign, and
  // only those still name it.
  lemma LoggedOutKeeps(curve: Curve, l: Lobby, c: Client)
    requires Rest(l) && c in l.members && l.members[c].player != null
    ensures var done := LoggedOut(curve, l, c);
      done.res == 0 &&
      if done.crashed then done.lobby == l
      else
        && Rest(done.lobby) && c in done.lobby.members
        && done.lobby.members[c] == Member(null, Left(l, c, |l.members[c].slots|))
        && Fewer(l, done.lobby.(members := done.lobby.members[c := done.lobby.members[c].(player := l.members[c].player)]))
        && (forall i | i in done.lobby.offers && Names(done.lobby.offers[i], c) :: StuckFor(done.lobby.offers[i], c))
  {
    hide Rest;
    var n := |l.members[c].slots|;
    TurnsClear(curve, l, c, n);
    var done := LogoutTurns(curve, l, c, n);
    if !done.crashed {
      var l1 := done.lobby;
      OnlyStuck(l, c, l1);
      NobodyKeeps(l1, c);
      var l2 := WithMember(l1, c, l1.members[c].(player := null));
      assert l2.members[c := l2.members[c].(player := l.members[c].player)] == l1.members;
    }
  }

  lemma OnlyStuck(l: Lobby, c: Client, l': Lobby)
    requires c in l.members && Cleared(l, c, |l.members[c].slots|, l')
    ensures forall i | i in l'.offers && Names(l'.offers[i], c) :: StuckFor(l'.offers[i], c)
  {
    hide Linked, InPlay;
    forall i | i in l'.offers && Names(l'.offers[i], c)
      ensures StuckFor(l'.offers[i], c)
    {
      assert OfferAgreed(l', i);
      assert i in multiset(l'.members[c].slots);
      var k :| 0 <= k < |l'.members[c].slots| && l'.members[c].slots[k] == i;
      assert Left(l, c, |l.members[c].slots|)[k] == i;
    }
  }

  // A party that is stuck in every game it still has can become nobody.
  lemma NobodyKeeps(l: Lobby, c: Client)
    requires Rest(l) && c in l.members && l.members[c].player != null
    requires forall i | i in l.offers && Names(l.offers[i], c) :: StuckFor(l.offers[i], c)
    ensures Rest(WithMember(l, c, l.members[c].(player := null)))
  {
    hide Linked, SameCounts, OfferAgreed, OneLogin, NamesDiffer, StuckFor;
    var l' := WithMember(l, c, l.members[c].(player := null));
    LogOut(l, NOTHING, c, l.members[c].player, l');
    NothingHeld(l', KeepPlayer(NOTHING, l.members[c].player));
    FewerLogins(l, c);
    forall i | i in l'.offers
      ensures OfferAgreed(l', i)
    {
      NobodyAgreed(l, c, i);
    }
  }

  lemma FewerLogins(l: Lobby, c: Client)
    requires c in l.members && OneLogin(l) && NamesDiffer(l)
    ensures var l' := WithMember(l, c, l.members[c].(player := null));
      OneLogin(l') && NamesDiffer(l') && l'.offers == l.offers
  {
  }

  lemma NobodyAgreed(l: Lobby, c: Client, i: Invitation)
    requires c in l.members && i in l.offers && OfferAgreed(l, i)
    requires Names(l.offers[i], c) ==> StuckFor(l.offers[i], c)
    ensures OfferAgreed(WithMember(l, c, l.members[c].(player := null)), i)
  {
    hide InPlay;
    assert multiset(l.members[c].(player := null).slots) == multiset(l.members[c].slots);
  }
}
