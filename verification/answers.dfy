// What a packet from a client asks for: exactly when it is granted, and what it then does. All of
// this is said of the lobby, the lists and the rules of the game, without the functions that
// carry it out.
module Answers {
  import opened Prelude
  import opened Games
  import opened GameRuns
  import opened Players
  import opened Objects
  import opened Packets
  import opened Lobbies
  import opened Requests
  import opened Keeping
  import opened Sessions
  import opened Runs
  import opened Outcomes
  import opened Identity

  // --- When the operations succeed ----------------------------------------------------------

  // The client lists an open invitation under the id.
  ghost predicate ListsOpen(l: Lobby, c: Client, id: nat)
    requires c in l.members
  {
    var i := SlotOf(l, c, id);
    i != null && i in l.offers && l.offers[i].state == Open
  }

  // The client lists a game under the id, it is its turn, and the text denotes an empty cell.
  ghost predicate CanPlay(l: Lobby, c: Client, id: nat, text: string)
    requires c in l.members
  {
    var i := SlotOf(l, c, id);
    && i != null && i in l.offers && l.offers[i].game.Some? && |l.offers[i].game.value.board| == 9
    && var g, role := l.offers[i].game.value, RoleOf(l.offers[i], c);
    && role == g.turn && ParseMove(role, text).Some? && g.board[ParseMove(role, text).value - 1] == NULL_ROLE
  }

  // Only the source of an open invitation can revoke it, and it always can.
  lemma RevokableIff(l: Lobby, c: Client, id: nat)
    requires Settled(l) && c in l.members
    ensures Revoked(l, c, id).res == 0 <==> ListsOpen(l, c, id) && l.offers[SlotOf(l, c, id)].source == c
    ensures Revoked(l, c, id).res != 0 ==> Revoked(l, c, id) == Failed(l)
  {
    hide Sound, Agreed, Dropped, IdOf;
    if SlotOf(l, c, id) != null {
      ListedOffer(l, c, id);
    }
  }

  // Only the target of an open invitation can decline it, and it always can.
  lemma DeclinableIff(l: Lobby, c: Client, id: nat)
    requires Settled(l) && c in l.members
    ensures Declined(l, c, id).res == 0 <==> ListsOpen(l, c, id) && l.offers[SlotOf(l, c, id)].target == c
    ensures Declined(l, c, id).res != 0 ==> Declined(l, c, id) == Failed(l)
  {
    hide Sound, Agreed, Dropped, IdOf;
    if SlotOf(l, c, id) != null {
      ListedOffer(l, c, id);
    }
  }

  // Only the target of an open invitation can accept it, and it always can.
  lemma AcceptableIff(l: Lobby, c: Client, id: nat)
    requires Settled(l) && c in l.members
    ensures Accepts(l, c, id).0.res == 0 <==> ListsOpen(l, c, id) && l.offers[SlotOf(l, c, id)].target == c
    ensures Accepts(l, c, id).0.res != 0 ==> Accepts(l, c, id).0 == Failed(l)
  {
    hide Sound, Agreed, IdOf, Unparse;
    if SlotOf(l, c, id) != null {
      ListedOffer(l, c, id);
    }
  }

  // A move succeeds exactly if it is the client's turn in a game it lists and the text denotes
  // an empty cell.
  lemma PlayableIff(curve: Curve, l: Lobby, c: Client, id: nat, text: string)
    requires Settled(l) && c in l.members
    ensures !Moves(curve, l, c, id, text).crashed
    ensures Moves(curve, l, c, id, text).res == 0 <==> CanPlay(l, c, id, text)
    ensures Moves(curve, l, c, id, text).res != 0 ==> Moves(curve, l, c, id, text) == Failed(l)
  {
    hide Sound, Agreed, OfferAgreed, OfferLinked, Finished, ParseMove, Unparse, InPlay, Applied, Scored, Endings;
    MoveEnds(curve, l, c, id, text);
    var i := SlotOf(l, c, id);
    if i != null {
      ListedOffer(l, c, id);
      InPlayThere(l, i);
      var o := l.offers[i];
      var role := RoleOf(o, c);
      if o.game.Some? && ParseMove(role, text).Some? {
        NineCells(o.game.value);
        LegalIff(o.game.value, role, ParseMove(role, text).value);
      }
    }
  }

  lemma NineCells(g: GameState)
    requires InPlay(g)
    ensures |g.board| == 9
  {
  }

  // --- What the operations leave -------------------------------------------------------------

  // The invitation is gone from memory and from every list; nobody has come, gone, logged in or
  // out, and nothing else has changed but perhaps ratings.
  ghost predicate Delisted(l: Lobby, i: Invitation, l': Lobby)
  {
    && l'.offers == l.offers - {i} && l'.members.Keys == l.members.Keys
    && l'.registry == l.registry && l'.roll == l.roll && l'.loops == l.loops
    && (forall e | e in l.members :: Emptied(l.members[e], i, l'.members[e]))
  }

  predicate Emptied(m: Member, i: Invitation, m': Member)
  {
    && m'.player == m.player && |m'.slots| == |m.slots|
    && forall k :: 0 <= k < |m.slots| ==> m'.slots[k] == if m.slots[k] == i then null else m.slots[k]
  }

  lemma DroppedDelists(l: Lobby, i: Invitation)
    requires Settled(l) && i in l.offers
    ensures l.offers[i].source in l.members && l.offers[i].target in l.members
    ensures Delisted(l, i, Dropped(l, i)) && Dropped(l, i).accounts == l.accounts
  {
    hide Sound, Agreed, OfferAgreed, Replace, Emptied;
    PartyPlays(l, i);
    DroppedSlotsOf(l, i);
    forall e | e in l.members
      ensures Emptied(l.members[e], i, Dropped(l, i).members[e])
    {
      if Names(l.offers[i], e) {
        OnceListed(l, i, e);
      } else {
        NotListed(l, i, e);
      }
    }
  }

  lemma DroppedSlotsOf(l: Lobby, i: Invitation)
    requires i in l.offers && l.offers[i].source in l.members && l.offers[i].target in l.members
    requires l.offers[i].source != l.offers[i].target
    ensures var l' := Dropped(l, i);
      && l' == l.(members := l'.members, offers := l.offers - {i}) && l'.members.Keys == l.members.Keys
      && forall e | e in l.members ::
           l'.members[e] == if Names(l.offers[i], e) then Member(l.members[e].player, Replace(l.members[e].slots, i, null)) else l.members[e]
  {
    hide Replace;
  }

  lemma OnceListed(l: Lobby, i: Invitation, e: Client)
    requires Settled(l) && i in l.offers && e in l.members && Names(l.offers[i], e)
    ensures Emptied(l.members[e], i, Member(l.members[e].player, Replace(l.members[e].slots, i, null)))
  {
    hide Sound, InPlay, OneLogin, NamesDiffer;
    assert OfferAgreed(l, i);
    var s := l.members[e].slots;
    assert i in multiset(s);
    var k :| 0 <= k < |s| && s[k] == i;
    OnlyIndex(s, i, k);
  }

  lemma NotListed(l: Lobby, i: Invitation, e: Client)
    requires Settled(l) && i in l.offers && e in l.members && !Names(l.offers[i], e)
    ensures Emptied(l.members[e], i, l.members[e])
  {
    hide Agreed;
    assert MemberLinked(l, e);
  }

  // --- What each packet means ----------------------------------------------------------------

  ghost predicate LoggedInAlready(l: Lobby, c: Client) { c in l.members && l.members[c].player != null }

  // A refused packet is answered with NACK and has no effect whatever.
  predicate Refused(l: Lobby, c: Client, done: Done)
  {
    done == Done(l, 0, [Sent(c, Packet(NackPkt, 0, 0, Nothing))])
  }

  // One packet about the invitation, without payload.
  ghost predicate Tells(l: Lobby, s: Sent, to: Client, kind: Kind, role: nat, i: Invitation)
  {
    s.to == to && s.packet.kind == kind && s.packet.role == role && s.packet.payload == Nothing && Denotes(l, to, s.packet.id, i)
  }

  // REVOKE and DECLINE: the invitation is withdrawn, the other party is told, and then ACK.
  ghost predicate Withdraws(l: Lobby, c: Client, i: Invitation, to: Client, kind: Kind, done: Done)
  {
    && !done.crashed && Delisted(l, i, done.lobby) && done.lobby.accounts == l.accounts
    && |done.sent| == 2 && Tells(l, done.sent[0], to, kind, 0, i)
    && done.sent[1] == Sent(c, Packet(AckPkt, 0, 0, Nothing))
  }

  ghost predicate RevokeMeans(l: Lobby, c: Client, r: Request, done: Done)
    requires c in l.members
  {
    var i := SlotOf(l, c, r.id);
    if LoggedInAlready(l, c) && r.data == "" && ListsOpen(l, c, r.id) && l.offers[i].source == c
    then Withdraws(l, c, i, l.offers[i].target, RevokedPkt, done)
    else Refused(l, c, done)
  }

  ghost predicate DeclineMeans(l: Lobby, c: Client, r: Request, done: Done)
    requires c in l.members
  {
    var i := SlotOf(l, c, r.id);
    if LoggedInAlready(l, c) && r.data == "" && ListsOpen(l, c, r.id) && l.offers[i].target == c
    then Withdraws(l, c, i, l.offers[i].source, DeclinedPkt, done)
    else Refused(l, c, done)
  }

  lemma RevokeDoes(curve: Curve, l: Lobby, c: Client, r: Request, p: Player?, i: Invitation?)
    requires AtRest(l) && c in l.loops && Supplied(l, c, r, p, i) && r.kind == RevokePkt
    ensures Settled(l) && c in l.members && (l.loops[c] != null ==> Playing(l, c))
    ensures RevokeMeans(l, c, r, Handled(curve, l, c, r, p, i))
  {
    hide Rest, Served, Sound, Agreed, Dropped, Delisted, Denotes, IdOf, Byte;
    AtRestSettled(l, c);
    LoopPlays(l, c);
    RevokableIff(l, c, r.id);
    if ListsOpen(l, c, r.id) {
      DroppedDelists(l, SlotOf(l, c, r.id));
      PartyIds(l, c, r.id);
    }
  }

  lemma DeclineDoes(curve: Curve, l: Lobby, c: Client, r: Request, p: Player?, i: Invitation?)
    requires AtRest(l) && c in l.loops && Supplied(l, c, r, p, i) && r.kind == DeclinePkt
    ensures Settled(l) && c in l.members && (l.loops[c] != null ==> Playing(l, c))
    ensures DeclineMeans(l, c, r, Handled(curve, l, c, r, p, i))
  {
    hide Rest, Served, Sound, Agreed, Dropped, Delisted, Denotes, IdOf, Byte;
    AtRestSettled(l, c);
    LoopPlays(l, c);
    DeclinableIff(l, c, r.id);
    if ListsOpen(l, c, r.id) {
      DroppedDelists(l, SlotOf(l, c, r.id));
      PartyIds(l, c, r.id);
    }
  }

  // ACCEPT: the invitation gets a new game, the source is told, and then ACK; the board goes with
  // the ACK if the target moves first and otherwise to the source.
  ghost predicate AcceptMeans(l: Lobby, c: Client, r: Request, done: Done)
    requires c in l.members
  {
    var i := SlotOf(l, c, r.id);
    if LoggedInAlready(l, c) && r.data == "" && ListsOpen(l, c, r.id) && l.offers[i].target == c then
      var o := l.offers[i];
      var board := Text(Unparse(INITIAL));
      var mine := o.targetRole == FIRST_PLAYER_ROLE;
      && !done.crashed
      && done.lobby == l.(offers := l.offers[i := o.(state := Accepted, game := Some(INITIAL))])
      && |done.sent| == 2
      && done.sent[0].to == o.source && done.sent[0].packet.kind == AcceptedPkt && done.sent[0].packet.role == 0
      && Denotes(l, o.source, done.sent[0].packet.id, i)
      && done.sent[0].packet.payload == (if mine then Nothing else board)
      && done.sent[1] == Sent(c, Packet(AckPkt, 0, 0, if mine then board else Nothing))
    else Refused(l, c, done)
  }

  lemma AcceptDoes(curve: Curve, l: Lobby, c: Client, r: Request, p: Player?, i: Invitation?)
    requires AtRest(l) && c in l.loops && Supplied(l, c, r, p, i) && r.kind == AcceptPkt
    ensures Settled(l) && c in l.members && (l.loops[c] != null ==> Playing(l, c))
    ensures AcceptMeans(l, c, r, Handled(curve, l, c, r, p, i))
  {
    hide Rest, Served, Sound, Agreed, Denotes, IdOf, Byte, Unparse;
    AtRestSettled(l, c);
    LoopPlays(l, c);
    AcceptableIff(l, c, r.id);
    if ListsOpen(l, c, r.id) {
      PartyIds(l, c, r.id);
    }
  }

  // The end of a game, in which the client scores mine and the opponent d scores theirs: both
  // are told the winner, both are rated, and the invitation is gone.
  ghost predicate Ends(
    curve: Curve, l: Lobby, c: Client, d: Client, i: Invitation, winner: nat, mine: real, theirs: real,
    lobby: Lobby, a: Sent, b: Sent)
  {
    && Playing(l, c) && Playing(l, d) && l.members[c].player != l.members[d].player
    && Tells(l, a, c, EndedPkt, winner, i) && Tells(l, b, d, EndedPkt, winner, i)
    && Delisted(l, i, lobby)
    && lobby.accounts == Scored(curve, l.accounts, l.members[c].player, l.members[d].player, mine, theirs)
  }

  // The opponent sees the new board.
  ghost predicate Shows(l: Lobby, s: Sent, to: Client, g: GameState, i: Invitation)
  {
    && s.to == to && s.packet.kind == MovedPkt && s.packet.role == 0 && Denotes(l, to, s.packet.id, i)
    && |g.board| == 9 && s.packet.payload == Text(Unparse(g))
  }

  // MOVE: the opponent is shown the new board; if the move ends the game its end follows; then ACK.
  ghost predicate MoveMeans(curve: Curve, l: Lobby, c: Client, r: Request, done: Done)
    requires c in l.members
  {
    if LoggedInAlready(l, c) && r.data != "" && CanPlay(l, c, r.id, r.Name())
    then exists after :: MoveLeadsTo(curve, l, c, r, after, done)
    else Refused(l, c, done)
  }

  ghost predicate MoveLeadsTo(curve: Curve, l: Lobby, c: Client, r: Request, after: GameState, done: Done)
    requires c in l.members && CanPlay(l, c, r.id, r.Name())
  {
    var i := SlotOf(l, c, r.id);
    var o := l.offers[i];
    var d, role := Opponent(o, c), RoleOf(o, c);
    && Plays(o.game.value, role, ParseMove(role, r.Name()).value, after)
    && !done.crashed && done.sent != [] && Shows(l, done.sent[0], d, after, i)
    && done.sent[|done.sent| - 1] == Sent(c, Packet(AckPkt, 0, 0, Nothing))
    && if after.turn != NULL_ROLE
       then |done.sent| == 2 && done.lobby == l.(offers := l.offers[i := o.(game := Some(after))])
       else
         var won := after.winner == role;
         && |done.sent| == 4
         && Ends(curve, l, c, d, i, after.winner, if won then 1.0 else 0.5, if won then 0.0 else 0.5,
                 done.lobby, done.sent[1], done.sent[2])
  }

  // A finished game, as its end was computed.
  lemma FinishedAsSaid(curve: Curve, l: Lobby, c: Client, id: nat, winner: nat, result: nat)
    requires Settled(l) && c in l.members && SlotOf(l, c, id) != null && winner <= 2
    ensures SlotOf(l, c, id) in l.offers && Names(l.offers[SlotOf(l, c, id)], c)
    ensures var i := SlotOf(l, c, id);
      var d := Opponent(l.offers[i], c);
      var end := Finished(curve, l, c, id, i, winner, result);
      && d in l.members
      && (end.crashed <==> l.members[c].player == null || l.members[d].player == null)
      && |end.sent| == 2 && Tells(l, end.sent[0], c, EndedPkt, winner, i) && Tells(l, end.sent[1], d, EndedPkt, winner, i)
      && (!end.crashed ==>
            Ends(curve, l, c, d, i, winner, Score(true, result), Score(false, result), end.lobby, end.sent[0], end.sent[1]))
  {
    hide Sound, Agreed, OfferAgreed, OfferLinked, Dropped, Denotes, Score, Rated, Emptied;
    var i := SlotOf(l, c, id);
    ListedOffer(l, c, id);
    PartyPlays(l, i);
    PartyIds(l, c, id);
    DroppedDelists(l, i);
    OtherAccounts(l, i, Dropped(l, i));
  }

  lemma OtherAccounts(l: Lobby, i: Invitation, l': Lobby)
    requires Delisted(l, i, l')
    ensures forall accounts :: Delisted(l, i, l'.(accounts := accounts))
  {
    hide Emptied;
  }

  lemma MoveDoes(curve: Curve, l: Lobby, c: Client, r: Request, p: Player?, i: Invitation?)
    requires AtRest(l) && c in l.loops && Supplied(l, c, r, p, i) && r.kind == MovePkt
    ensures Settled(l) && c in l.members && (l.loops[c] != null ==> Playing(l, c))
    ensures MoveMeans(curve, l, c, r, Handled(curve, l, c, r, p, i))
  {
    hide Rest, Served, Sound, Agreed, Moves, CanPlay, MoveLeadsTo;
    AtRestSettled(l, c);
    LoopPlays(l, c);
    PlayableIff(curve, l, c, r.id, r.Name());
    if CanPlay(l, c, r.id, r.Name()) {
      var after := MoveLeads(curve, l, c, r);
      assert MoveLeadsTo(curve, l, c, r, after, Answered(Moves(curve, l, c, r.id, r.Name()), Reply(c, 0)));
    }
  }

  lemma MoveLeads(curve: Curve, l: Lobby, c: Client, r: Request) returns (after: GameState)
    requires Settled(l) && c in l.members && CanPlay(l, c, r.id, r.Name())
    ensures Moves(curve, l, c, r.id, r.Name()).res == 0
    ensures MoveLeadsTo(curve, l, c, r, after, Answered(Moves(curve, l, c, r.id, r.Name()), Reply(c, 0)))
  {
    hide Sound, Agreed, OfferAgreed, OfferLinked, Finished, ParseMove, Unparse, InPlay, Applied, Plays, Denotes, Ends, Over;
    var i := SlotOf(l, c, r.id);
    ListedOffer(l, c, r.id);
    InPlayThere(l, i);
    PartyIds(l, c, r.id);
    PlayableIff(curve, l, c, r.id, r.Name());
    var o := l.offers[i];
    var role := RoleOf(o, c);
    var pos := ParseMove(role, r.Name()).value;
    LegalIff(o.game.value, role, pos);
    MoveOutcome(o.game.value, role, pos);
    after := Applied(o.game.value, role, pos).value;
    PlaysOn(o.game.value, role, pos, after);
    if after.turn == NULL_ROLE {
      FinishedAsSaid(curve, l, c, r.id, after.winner, ResultFor(role, after.winner));
      MovesScore(role, after.winner);
    }
  }

  lemma PlaysOn(g: GameState, role: nat, pos: int, after: GameState)
    requires InPlay(g) && 1 <= pos <= 9 && role == g.turn && Plays(g, role, pos, after)
    ensures |after.board| == 9 && role in {FIRST_PLAYER_ROLE, SECOND_PLAYER_ROLE}
    ensures after.winner == role || after.winner == NULL_ROLE
  {
  }

  lemma MovesScore(role: nat, winner: nat)
    requires winner == role || winner == NULL_ROLE
    ensures Score(true, ResultFor(role, winner)) == if winner == role then 1.0 else 0.5
    ensures Score(false, ResultFor(role, winner)) == if winner == role then 0.0 else 0.5
  {
  }

  // The opponent has left the game without being able to resign it.
  ghost predicate OpponentGone(l: Lobby, c: Client, id: nat)
    requires c in l.members
  {
    var i := SlotOf(l, c, id);
    && i != null && i in l.offers && l.offers[i].state == Accepted && RoleOf(l.offers[i], c) != NULL_ROLE
    && Opponent(l.offers[i], c) in l.members && l.members[Opponent(l.offers[i], c)].player == null
  }

  ghost predicate CanResign(l: Lobby, c: Client, id: nat)
    requires c in l.members
  {
    var i := SlotOf(l, c, id);
    && i != null && i in l.offers && l.offers[i].state == Accepted && RoleOf(l.offers[i], c) != NULL_ROLE
    && Opponent(l.offers[i], c) in l.members && l.members[Opponent(l.offers[i], c)].player != null
  }

  // RESIGN: the opponent is told, the other role has won, the client scores nothing and the
  // opponent the whole point; then ACK. Without an opponent the server crashes after the packets.
  ghost predicate ResignMeans(curve: Curve, l: Lobby, c: Client, r: Request, done: Done)
    requires c in l.members
  {
    var i := SlotOf(l, c, r.id);
    if LoggedInAlready(l, c) && r.data == "" && CanResign(l, c, r.id) then
      var o := l.offers[i];
      var d, winner := Opponent(o, c), Other(RoleOf(o, c));
      && !done.crashed && |done.sent| == 4
      && Tells(l, done.sent[0], d, ResignedPkt, 0, i)
      && Ends(curve, l, c, d, i, winner, 0.0, 1.0, done.lobby, done.sent[1], done.sent[2])
      && done.sent[3] == Sent(c, Packet(AckPkt, 0, 0, Nothing))
    else if LoggedInAlready(l, c) && r.data == "" && OpponentGone(l, c, r.id) then
      var o := l.offers[i];
      var d, winner := Opponent(o, c), Other(RoleOf(o, c));
      && done.crashed && |done.sent| == 3
      && Tells(l, done.sent[0], d, ResignedPkt, 0, i)
      && Tells(l, done.sent[1], c, EndedPkt, winner, i) && Tells(l, done.sent[2], d, EndedPkt, winner, i)
    else Refused(l, c, done)
  }

  lemma ResignDoes(curve: Curve, l: Lobby, c: Client, r: Request, p: Player?, i: Invitation?)
    requires AtRest(l) && c in l.loops && Supplied(l, c, r, p, i) && r.kind == ResignPkt
    ensures Settled(l) && c in l.members && (l.loops[c] != null ==> Playing(l, c))
    ensures ResignMeans(curve, l, c, r, Handled(curve, l, c, r, p, i))
  {
    hide Rest, Served, Sound, Agreed, OfferAgreed, OfferLinked, InPlay, Finished, Denotes, Ends, Unparse;
    AtRestSettled(l, c);
    LoopPlays(l, c);
    var about := SlotOf(l, c, r.id);
    if about != null {
      ListedOffer(l, c, r.id);
      InPlayThere(l, about);
      GamesThere(l, about);
      PartyIds(l, c, r.id);
      FinishedAsSaid(curve, l, c, r.id, Other(RoleOf(l.offers[about], c)), SECOND_WINS);
    }
  }

  lemma GamesThere(l: Lobby, i: Invitation)
    requires Settled(l) && i in l.offers
    ensures l.offers[i].state == Accepted <==> l.offers[i].game.Some?
    ensures l.offers[i].source != l.offers[i].target
  {
    hide Agreed;
    InPlayThere(l, i);
    assert OfferLinked(l, l.offers[i]);
  }

  // USERS: one row with name and rating for every player who is logged in, and no other.
  predicate RowOf(l: Lobby, d: Client, row: (string, int))
  {
    && d in l.members && l.members[d].player != null && l.members[d].player in l.accounts
    && row == (l.accounts[l.members[d].player].name, l.accounts[l.members[d].player].rating)
  }

  ghost predicate HasRow(l: Lobby, d: Client, rows: seq<(string, int)>)
  {
    exists k :: 0 <= k < |rows| && RowOf(l, d, rows[k])
  }

  ghost predicate IsRow(l: Lobby, row: (string, int)) { exists d | d in l.members :: RowOf(l, d, row) }

  ghost predicate ListsAll(l: Lobby, rows: seq<(string, int)>)
  {
    && (forall d | d in l.members && l.members[d].player != null :: HasRow(l, d, rows))
    && (forall k :: 0 <= k < |rows| ==> IsRow(l, rows[k]))
    && (forall j, k :: 0 <= j < k < |rows| ==> rows[j].0 != rows[k].0)
  }

  ghost predicate UsersMeans(l: Lobby, c: Client, r: Request, done: Done)
  {
    if LoggedInAlready(l, c) && r.data == "" then
      exists rows :: ListsAll(l, rows) && done == Done(l, 0, [Sent(c, Packet(AckPkt, 0, 0, Roster(rows)))])
    else Refused(l, c, done)
  }

  lemma UsersDoes(curve: Curve, l: Lobby, c: Client, r: Request, p: Player?, i: Invitation?)
    requires AtRest(l) && c in l.loops && Supplied(l, c, r, p, i) && r.kind == UsersPkt
    ensures Settled(l) && c in l.members && (l.loops[c] != null ==> Playing(l, c))
    ensures UsersMeans(l, c, r, Handled(curve, l, c, r, p, i))
  {
    hide Rest, Served, Sound, Agreed, Logins, RosterOf, ListsAll;
    AtRestSettled(l, c);
    LoopPlays(l, c);
    RestOf(l);
    RestTables(l);
    AllListed(l);
  }

  lemma AllListed(l: Lobby)
    requires AtRest(l)
    ensures |l.registry| == MAX_CLIENTS && ListsAll(l, RosterOf(l, Logins(l, |l.registry|)))
  {
    hide Logins, RosterOf, Served, Linked, OfferAgreed, RowOf;
    LinkedTables(l);
    var players := Logins(l, |l.registry|);
    var rows := RosterOf(l, players);
    MembersPlaying(l);
    AreLoggedIn(l, players);
    LoginsDiffer(l, |l.registry|);
    RosterLists(l, players);
    forall d | d in l.members && l.members[d].player != null
      ensures HasRow(l, d, rows)
    {
      LoggedInAs(l, l.members[d].player);
      var k :| 0 <= k < |players| && players[k] == l.members[d].player;
      RowIsOf(l, d, rows[k]);
    }
    forall k | 0 <= k < |rows|
      ensures IsRow(l, rows[k])
    {
      LoggedInAs(l, players[k]);
      var d :| d in l.members && d in l.registry && l.members[d].player == players[k];
      RowIsOf(l, d, rows[k]);
    }
    forall j, k | 0 <= j < k < |rows|
      ensures rows[j].0 != rows[k].0
    {
      assert l.accounts[players[j]].name != l.accounts[players[k]].name;
    }
  }

  lemma AreLoggedIn(l: Lobby, players: seq<Player>)
    requires AtRest(l) && RegistryLinked(l) && players == Logins(l, |l.registry|)
    ensures forall k :: 0 <= k < |players| ==> players[k] in l.accounts
  {
    hide Logins;
    MembersPlaying(l);
    hide Rest, Served;
    forall k | 0 <= k < |players|
      ensures players[k] in l.accounts
    {
      LoggedInAs(l, players[k]);
    }
  }

  lemma RowIsOf(l: Lobby, d: Client, row: (string, int))
    requires d in l.members && l.members[d].player != null && l.members[d].player in l.accounts
    requires row == (l.accounts[l.members[d].player].name, l.accounts[l.members[d].player].rating)
    ensures RowOf(l, d, row)
  {
  }

  ghost predicate NameInUse(l: Lobby, name: string) { exists d | d in l.members :: Named(l, d, name) }

  // LOGIN: the client and its thread get the player of that name; who is new starts with 1500.
  ghost predicate LoginMeans(l: Lobby, c: Client, r: Request, done: Done)
    requires c in l.members
  {
    if l.members[c].player == null && r.data != "" && !NameInUse(l, r.Name()) then
      && done == Done(done.lobby, 0, [Sent(c, Packet(AckPkt, 0, 0, Nothing))])
      && c in done.lobby.members && done.lobby.members[c].player != null
      && LogsIn(l, c, r.Name(), done.lobby.members[c].player, done.lobby)
    else Refused(l, c, done)
  }

  ghost predicate LogsIn(l: Lobby, c: Client, name: string, p: Player, l': Lobby)
    requires c in l.members
  {
    && l'.members == l.members[c := l.members[c].(player := p)] && l'.loops == l.loops[c := p]
    && l'.offers == l.offers && l'.registry == l.registry
    && if p in l.accounts
       then l.accounts[p].name == name && l'.accounts == l.accounts && l'.roll == l.roll
       else
         && (forall q | q in l.accounts :: l.accounts[q].name != name)
         && l'.accounts == l.accounts[p := Account(name, 1500)] && l'.roll == l.roll + [p]
  }

  lemma LoginDoes(curve: Curve, l: Lobby, c: Client, r: Request, p: Player?, i: Invitation?)
    requires AtRest(l) && c in l.loops && Supplied(l, c, r, p, i) && r.kind == LoginPkt
    ensures Settled(l) && c in l.members && (l.loops[c] != null ==> Playing(l, c))
    ensures LoginMeans(l, c, r, Handled(curve, l, c, r, p, i))
  {
    hide Rest, Served, Sound, Agreed, LoggedIn, LogsIn, CString;
    AtRestSettled(l, c);
    LoopPlays(l, c);
    if l.members[c].player == null && r.data != "" {
      LoginAsSaid(l, c, r.Name(), p);
    }
  }

  lemma LoginAsSaid(l: Lobby, c: Client, name: string, made: Player?)
    requires AtRest(l) && c in l.loops && c in l.members && l.members[c].player == null
    requires FindPlayer(l, name, 0) == null ==> made != null && made !in l.accounts
    ensures var (l', ok) := LoggedIn(l, c, name, made);
      && (ok <==> !NameInUse(l, name))
      && (!ok ==> l' == l)
      && (ok ==> c in l'.members && l'.members[c].player != null && LogsIn(l, c, name, l'.members[c].player, l'))
  {
    hide AtRest, Logins, Registered;
    RegisteredAsSaid(l, name, made);
    LoginIffNameFree(l, c, name, made);
  }

  // The player of the name, found or entered.
  lemma RegisteredAsSaid(l: Lobby, name: string, made: Player?)
    requires AtRest(l) && (FindPlayer(l, name, 0) == null ==> made != null && made !in l.accounts)
    ensures var (l1, p) := Registered(l, name, made);
      && l1 == l.(accounts := l1.accounts, roll := l1.roll)
      && (NameInUse(l, name) ==> l1 == l)
      && if p in l.accounts then l.accounts[p].name == name && l1 == l
         else
           && (forall q | q in l.accounts :: l.accounts[q].name != name)
           && l1.accounts == l.accounts[p := Account(name, 1500)] && l1.roll == l.roll + [p]
  {
    RestOf(l);
    LinkedTables(l);
    hide AtRest, Rest, Served, Settled, Linked;
    FoundPlayer(l, name, 0);
    WholeRoll(l);
    assert FindPlayer(l, name, 0) == null ==> forall q | q in l.accounts :: l.accounts[q].name != name;
  }

  lemma WholeRoll(l: Lobby)
    requires RollLinked(l)
    ensures forall p | p in l.accounts :: exists j :: 0 <= j < |l.roll| && l.roll[j] == p
  {
  }

  // The first free slot of the list, or a new one at its end, gets the invitation.
  ghost predicate Gains(s: seq<Invitation?>, s': seq<Invitation?>, i: Invitation)
  {
    exists k :: FirstFree(s, k) && s' == if k < |s| then s[k := i] else s + [i]
  }

  predicate FirstFree(s: seq<Invitation?>, k: int)
  {
    0 <= k <= |s| && (k < |s| ==> s[k] == null) && forall j :: 0 <= j < k ==> s[j] != null
  }

  // INVITE: a new open invitation, with the target in the role of the byte and the source in the
  // other one, stands in both lists; the target is told by whom; and ACK has the id.
  ghost predicate InviteMeans(l: Lobby, c: Client, r: Request, i: Invitation?, done: Done)
    requires c in l.members
  {
    if LoggedInAlready(l, c) && r.data != "" && exists d | d in l.members :: d != c && Named(l, d, r.Name())
    then exists d | d in l.members :: d != c && Named(l, d, r.Name()) && i != null && InvitationMade(l, c, d, r.role, i, done)
    else Refused(l, c, done)
  }

  ghost predicate InvitationMade(l: Lobby, c: Client, d: Client, role: nat, i: Invitation, done: Done)
    requires c in l.members && d in l.members
  {
    var l' := done.lobby;
    && !done.crashed && i !in l.offers
    && l' == l.(members := l'.members, offers := l.offers[i := Offer(c, d, Other(role), role, Open, None)])
    && l'.members.Keys == l.members.Keys
    && (forall e | e in l.members :: l'.members[e].player == l.members[e].player)
    && (forall e | e in l.members && e != c && e != d :: l'.members[e] == l.members[e])
    && Gains(l.members[c].slots, l'.members[c].slots, i) && Gains(l.members[d].slots, l'.members[d].slots, i)
    && |done.sent| == 2 && Playing(l, c)
    && done.sent[0].to == d && done.sent[0].packet.kind == InvitedPkt && done.sent[0].packet.role == Byte(role)
    && Denotes(l', d, done.sent[0].packet.id, i)
    && done.sent[0].packet.payload == Text(l.accounts[l.members[c].player].name)
    && Tells(l', done.sent[1], c, AckPkt, 0, i)
  }

  lemma InviteDoes(curve: Curve, l: Lobby, c: Client, r: Request, p: Player?, i: Invitation?)
    requires AtRest(l) && c in l.loops && Supplied(l, c, r, p, i) && r.kind == InvitePkt
    ensures Settled(l) && c in l.members && (l.loops[c] != null ==> Playing(l, c))
    ensures InviteMeans(l, c, r, i, Handled(curve, l, c, r, p, i))
  {
    hide Rest, Served, Sound, Agreed, Invites, InvitationMade, CString;
    AtRestSettled(l, c);
    LoopPlays(l, c);
    if l.members[c].player != null && r.data != "" {
      InviteAsSaid(l, c, r.Name(), r.role, i);
    }
  }

  lemma InviteAsSaid(l: Lobby, c: Client, name: string, role: nat, i: Invitation?)
    requires AtRest(l) && Settled(l) && c in l.members && Playing(l, c)
    requires FindClient(l, name, 0) != null && FindClient(l, name, 0) != c ==> i != null && i !in l.offers
    ensures var d := FindClient(l, name, 0);
      var done := Invites(l, c, name, role, i);
      if d == null || d == c
      then Refused(l, c, done) && forall e | e in l.members && e != c :: !Named(l, e, name)
      else d in l.members && Named(l, d, name) && i != null && InvitationMade(l, c, d, role, i, done)
  {
    hide AtRest, Settled, Denotes, Gains, Named, Made;
    FoundClient(l, name, 0);
    var d := FindClient(l, name, 0);
    forall e | e in l.members
      ensures d == e <==> Named(l, e, name)
    {
      LookupIsTheMap(l, name, e);
    }
    NewIds(l, c, name, role, i);
    if d != null && d != c {
      NamedPlays(l, d, name);
      MadeAsSaid(l, c, d, role, i);
    }
  }

  lemma NamedPlays(l: Lobby, d: Client, name: string)
    requires Named(l, d, name)
    ensures Playing(l, d)
  {
  }

  lemma MadeAsSaid(l: Lobby, c: Client, d: Client, role: nat, i: Invitation)
    requires Playing(l, c) && Playing(l, d) && c != d
    ensures var done := Made(l, c, d, Other(role), role, i);
      var l' := done.lobby;
      && !done.crashed && done.res >= 0
      && l' == l.(members := l'.members, offers := l.offers[i := Offer(c, d, Other(role), role, Open, None)])
      && l'.members.Keys == l.members.Keys
      && (forall e | e in l.members :: l'.members[e].player == l.members[e].player)
      && (forall e | e in l.members && e != c && e != d :: l'.members[e] == l.members[e])
      && Gains(l.members[c].slots, l'.members[c].slots, i) && Gains(l.members[d].slots, l'.members[d].slots, i)
  {
    hide Gains, SetAt;
    FreeFound(l.members[c].slots, i);
    FreeFound(l.members[d].slots, i);
  }

  lemma FreeFound(s: seq<Invitation?>, i: Invitation)
    ensures Gains(s, SetAt(s, FirstIndex(s, null), i), i)
  {
    assert FirstFree(s, FirstIndex(s, null));
  }

  // --- All packets -------------------------------------------------------------------------

  ghost predicate Means(curve: Curve, l: Lobby, c: Client, r: Request, i: Invitation?, done: Done)
  {
    && c in l.members
    && match r.kind
       case LoginPkt => LoginMeans(l, c, r, done)
       case UsersPkt => UsersMeans(l, c, r, done)
       case InvitePkt => InviteMeans(l, c, r, i, done)
       case RevokePkt => RevokeMeans(l, c, r, done)
       case DeclinePkt => DeclineMeans(l, c, r, done)
       case AcceptPkt => AcceptMeans(l, c, r, done)
       case MovePkt => MoveMeans(curve, l, c, r, done)
       case ResignPkt => ResignMeans(curve, l, c, r, done)
       case _ => done == Done(l, 0, [])
  }

  // Every packet does what it means, or is refused without any effect.
  lemma PacketsMean(curve: Curve, l: Lobby, c: Client, r: Request, p: Player?, i: Invitation?)
    requires AtRest(l) && c in l.loops && Supplied(l, c, r, p, i)
    ensures Settled(l) && c in l.members && (l.loops[c] != null ==> Playing(l, c))
    ensures Means(curve, l, c, r, i, Handled(curve, l, c, r, p, i))
  {
    hide Rest, Served, Settled, LoginMeans, UsersMeans, InviteMeans, RevokeMeans, DeclineMeans, AcceptMeans;
    hide MoveMeans, ResignMeans, Supplied;
    AtRestSettled(l, c);
    match r.kind
    case LoginPkt => LoginDoes(curve, l, c, r, p, i);
    case UsersPkt => UsersDoes(curve, l, c, r, p, i);
    case InvitePkt => InviteDoes(curve, l, c, r, p, i);
    case RevokePkt => RevokeDoes(curve, l, c, r, p, i);
    case DeclinePkt => DeclineDoes(curve, l, c, r, p, i);
    case AcceptPkt => AcceptDoes(curve, l, c, r, p, i);
    case MovePkt => MoveDoes(curve, l, c, r, p, i);
    case ResignPkt => ResignDoes(curve, l, c, r, p, i);
    case _ =>
  }

  // So it is in every run of the server, up to a crash.
  lemma RunsMean(curve: Curve, events: seq<Event>, e: Event)
    requires Possible(curve, Empty(), events + [e]) && e.Serve?
    ensures var l := Runs.Run(curve, events).lobby;
      Means(curve, l, e.client, e.request, e.inv, Step(curve, l, e))
  {
    hide Means, Handled, AtRest, Settled, Empty, Supplied;
    assert (events + [e])[..|events + [e]| - 1] == events;
    NobodyThere();
    RunsRest(curve, Empty(), events);
    PacketsMean(curve, Runs.Run(curve, events).lobby, e.client, e.request, e.player, e.inv);
  }
}
