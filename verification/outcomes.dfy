// How games between two clients end, and what the server says and stores about it.
module Outcomes {
  import opened Prelude
  import opened Games
  import opened GameRuns
  import opened Players
  import opened Objects
  import opened Packets
  import opened Lobbies
  import opened Links
  import opened Requests
  import opened Keeping
  import opened Sessions

  function Ending(s: Sent): (e: seq<Sent>)
    ensures |e| <= 1
  {
    if s.packet.kind == EndedPkt then [s] else []
  }

  // The ENDED packets among the sent ones.
  function Endings(sent: seq<Sent>): (e: seq<Sent>)
    ensures |e| <= |sent|
  {
    if sent == [] then [] else Ending(sent[0]) + Endings(sent[1..])
  }

  lemma EndingsFirst(sent: seq<Sent>)
    requires sent != []
    ensures Endings(sent) == Ending(sent[0]) + Endings(sent[1..])
  {
  }

  lemma TailOf(a: seq<Sent>, b: seq<Sent>)
    requires a != []
    ensures (a + b)[0] == a[0] && (a + b)[1..] == a[1..] + b
  {
  }

  lemma Regroup(x: seq<Sent>, y: seq<Sent>, z: seq<Sent>)
    ensures x + (y + z) == x + y + z
  {
  }

  lemma {:induction false} EndingsJoin(a: seq<Sent>, b: seq<Sent>)
    ensures Endings(a + b) == Endings(a) + Endings(b)
  {
    if a == [] {
      assert a + b == b;
    } else {
      hide Endings, Ending;
      calc {
        Endings(a + b);
        { EndingsFirst(a + b); TailOf(a, b); }
        Ending(a[0]) + Endings(a[1..] + b);
        { EndingsJoin(a[1..], b); }
        Ending(a[0]) + (Endings(a[1..]) + Endings(b));
        { Regroup(Ending(a[0]), Endings(a[1..]), Endings(b)); }
        Ending(a[0]) + Endings(a[1..]) + Endings(b);
        { EndingsFirst(a); }
        Endings(a) + Endings(b);
      }
    }
  }

  // What a game is worth to a role, given the winner.
  function ScoreFor(role: nat, winner: nat): (s: real)
    ensures s in {0.0, 0.5, 1.0}
  {
    if winner == role then 1.0 else if winner == NULL_ROLE then 0.5 else 0.0
  }

  // The accounts after a game in which p scores s and q scores t.
  function Scored(curve: Curve, accounts: map<Player, Account>, p: Player, q: Player, s: real, t: real): map<Player, Account>
    requires p in accounts && q in accounts
  {
    var a, b := accounts[p].rating, accounts[q].rating;
    accounts[p := accounts[p].(rating := Rated(curve, a, b, s))][q := accounts[q].(rating := Rated(curve, b, a, t))]
  }

  // Both parties, and nobody else, are told the winner of the final game g, and the invitation
  // is gone.
  ghost predicate Announced(l: Lobby, i: Invitation, g: GameState, done: Done)
    requires i in l.offers
  {
    var o := l.offers[i];
    && !done.crashed && done.res == 0 && Over(g) && i !in done.lobby.offers
    && |Endings(done.sent)| == 2
    && {Endings(done.sent)[0].to, Endings(done.sent)[1].to} == {o.source, o.target}
    && Endings(done.sent)[0].packet.role == g.winner && Endings(done.sent)[1].packet.role == g.winner
  }

  // Besides, each of the two players is rated with the score of his role.
  ghost predicate EndedWith(curve: Curve, l: Lobby, i: Invitation, g: GameState, done: Done)
    requires i in l.offers && Playing(l, l.offers[i].source) && Playing(l, l.offers[i].target)
  {
    var o := l.offers[i];
    var p, q := l.members[o.source].player, l.members[o.target].player;
    && Announced(l, i, g, done) && p != q
    && done.lobby.accounts == Scored(curve, l.accounts, p, q, ScoreFor(o.sourceRole, g.winner), ScoreFor(o.targetRole, g.winner))
  }

  // The players are rated with the scores of their roles exactly if the posted result gives
  // both of them these scores.
  lemma FinishedEnds(curve: Curve, l: Lobby, c: Client, id: nat, i: Invitation, g: GameState, result: nat, sent: seq<Sent>)
    requires Settled(l) && c in l.members && i in l.offers && Names(l.offers[i], c) && Over(g)
    requires Playing(l, l.offers[i].source) && Playing(l, l.offers[i].target)
    requires |sent| == 1 && sent[0].packet.kind != EndedPkt
    ensures var end := Finished(curve, l, c, id, i, g.winner, result);
      var done := end.(sent := sent + end.sent);
      && Announced(l, i, g, done)
      && (EndedWith(curve, l, i, g, done) <==>
            && Score(true, result) == ScoreFor(RoleOf(l.offers[i], c), g.winner)
            && Score(false, result) == ScoreFor(RoleOf(l.offers[i], Opponent(l.offers[i], c)), g.winner))
  {
    hide Sound, Agreed, OfferAgreed, Dropped, Over, IdOf, Scored, Announced, Score, ScoreFor;
    var o := l.offers[i];
    var d := Opponent(o, c);
    PartyPlays(l, i);
    DroppedGone(l, i);
    FinishedAnnounced(curve, l, c, id, i, g, result, sent);
    var p, q := l.members[c].player, l.members[d].player;
    var s, t := ScoreFor(RoleOf(o, c), g.winner), ScoreFor(RoleOf(o, d), g.winner);
    PostedIs(curve, l.accounts, p, q, result, s, t);
  }

  lemma FinishedAnnounced(curve: Curve, l: Lobby, c: Client, id: nat, i: Invitation, g: GameState, result: nat, sent: seq<Sent>)
    requires Settled(l) && c in l.members && i in l.offers && Names(l.offers[i], c) && Over(g)
    requires Playing(l, l.offers[i].source) && Playing(l, l.offers[i].target)
    requires |sent| == 1 && sent[0].packet.kind != EndedPkt
    ensures var end := Finished(curve, l, c, id, i, g.winner, result);
      Announced(l, i, g, end.(sent := sent + end.sent))
  {
    hide Sound, Agreed, IdOf, Dropped, Posted, Over;
    PartyPlays(l, i);
    DroppedGone(l, i);
    var end := Finished(curve, l, c, id, i, g.winner, result);
    TwoEndings(sent[0], end.sent[0], end.sent[1]);
    assert sent + end.sent == [sent[0], end.sent[0], end.sent[1]];
    SmallWinner(g);
  }

  lemma SmallWinner(g: GameState)
    requires Over(g)
    ensures Byte(g.winner) == g.winner
  {
  }

  // Different scores make different ratings.
  lemma RatedApart(p: Curve, mine: int, theirs: int, s: real, t: real)
    requires s + 0.5 <= t
    ensures Rated(p, mine, theirs, s) < Rated(p, mine, theirs, t)
  {
    hide Expected;
    TruncatedApart(mine as real + Gain(p, mine, theirs, s), mine as real + Gain(p, mine, theirs, t));
  }

  lemma TruncatedApart(x: real, y: real)
    requires x + 16.0 <= y
    ensures Truncate(x) < Truncate(y)
  {
  }

  lemma SameScore(p: Curve, mine: int, theirs: int, s: real, t: real)
    requires s in {0.0, 0.5, 1.0} && t in {0.0, 0.5, 1.0}
    ensures Rated(p, mine, theirs, s) == Rated(p, mine, theirs, t) <==> s == t
  {
    hide Rated;
    if s < t {
      RatedApart(p, mine, theirs, s, t);
    } else if t < s {
      RatedApart(p, mine, theirs, t, s);
    }
  }

  lemma PostedIs(curve: Curve, accounts: map<Player, Account>, p: Player, q: Player, result: nat, s: real, t: real)
    requires p in accounts && q in accounts && p != q
    requires s in {0.0, 0.5, 1.0} && t in {0.0, 0.5, 1.0}
    ensures Scored(curve, accounts, p, q, s, t) == Scored(curve, accounts, q, p, t, s)
    ensures Posted(curve, accounts, p, q, result) == Scored(curve, accounts, p, q, s, t)
      <==> Score(true, result) == s && Score(false, result) == t
  {
    hide Rated;
    var a, b := accounts[p].rating, accounts[q].rating;
    SameScore(curve, a, b, Score(true, result), s);
    SameScore(curve, b, a, Score(false, result), t);
    var posted, scored := Posted(curve, accounts, p, q, result), Scored(curve, accounts, p, q, s, t);
    assert posted[p].rating == Rated(curve, a, b, Score(true, result)) && scored[p].rating == Rated(curve, a, b, s);
    assert posted[q].rating == Rated(curve, b, a, Score(false, result)) && scored[q].rating == Rated(curve, b, a, t);
  }

  lemma DroppedGone(l: Lobby, i: Invitation)
    requires i in l.offers && l.offers[i].source in l.members && l.offers[i].target in l.members
    ensures i !in Dropped(l, i).offers
  {
  }

  lemma TwoEndings(a: Sent, b: Sent, c: Sent)
    requires a.packet.kind != EndedPkt && b.packet.kind == EndedPkt && c.packet.kind == EndedPkt
    ensures Endings([a, b, c]) == [b, c]
  {
    assert [a, b, c][1..] == [b, c] && [b, c][1..] == [c];
    assert Endings([c]) == [c] + Endings([c][1..]);
  }

  lemma SettledOffer(l: Lobby, i: Invitation)
    requires Settled(l) && i in l.offers
    ensures OfferLinked(l, l.offers[i]) && OfferAgreed(l, i)
  {
  }

  lemma SettledMember(l: Lobby, c: Client)
    requires Settled(l) && c in l.members
    ensures MemberLinked(l, c)
  {
  }

  // A resignation, unless it crashes the server, ends the game: the other role has won. What is
  // told and stored agrees exactly if the opponent has that role.
  lemma ResignationEnds(curve: Curve, l: Lobby, c: Client, id: nat)
    requires Settled(l) && c in l.members
    ensures var done := Resigns(curve, l, c, id);
      var i := SlotOf(l, c, id);
      if done.res == -1 then done.crashed || done == Failed(l)
      else
        && i != null && i in l.offers && l.offers[i].state == Accepted && l.offers[i].game.Some?
        && Playing(l, l.offers[i].source) && Playing(l, l.offers[i].target)
        && var g := Resigned(l.offers[i].game.value, RoleOf(l.offers[i], c));
        && g.Some? && g.value.winner == Other(RoleOf(l.offers[i], c))
        && Announced(l, i, g.value, done) && GivenUp(g.value)
        && (EndedWith(curve, l, i, g.value, done) <==> RoleOf(l.offers[i], Opponent(l.offers[i], c)) == g.value.winner)
        && |done.sent| == 3 && done.sent[0].to == Opponent(l.offers[i], c) && done.sent[0].packet.kind == ResignedPkt
  {
    hide Sound, Agreed, OfferAgreed, OfferLinked, EndedWith, Announced, Posted, Over, GivenUp, Score, ScoreFor;
    var i := SlotOf(l, c, id);
    if i != null && Resigns(curve, l, c, id).res != -1 {
      ListedOffer(l, c, id);
      PartyPlays(l, i);
      var o := l.offers[i];
      var d := Opponent(o, c);
      var role := RoleOf(o, c);
      InPlayThere(l, i);
      ResignOutcome(o.game.value, role);
      ResignScores(role, RoleOf(o, d));
      var g := Resigned(o.game.value, role).value;
      FinishedEnds(curve, l, c, id, i, g, SECOND_WINS, [Sent(d, Packet(ResignedPkt, Byte(IdOf(l, d, i)), 0, Nothing))]);
    }
  }

  lemma InPlayThere(l: Lobby, i: Invitation)
    requires Settled(l) && i in l.offers
    ensures l.offers[i].state != Closed
    ensures l.offers[i].game.Some? ==> l.offers[i].state == Accepted && InPlay(l.offers[i].game.value)
  {
    hide InPlay;
    SettledOffer(l, i);
  }

  lemma ResignScores(role: nat, other: nat)
    ensures Score(true, SECOND_WINS) == ScoreFor(role, Other(role))
    ensures Score(false, SECOND_WINS) == ScoreFor(other, Other(role)) <==> other == Other(role)
  {
  }

  // Who moves a game to its end has one of the two roles, and so has the opponent.
  lemma Parties(l: Lobby, i: Invitation, c: Client)
    requires Settled(l) && i in l.offers && Names(l.offers[i], c) && RolesOk(l.offers[i])
    ensures Playing(l, l.offers[i].source) && Playing(l, l.offers[i].target)
    ensures RoleOf(l.offers[i], Opponent(l.offers[i], c)) == Other(RoleOf(l.offers[i], c))
    ensures RoleOf(l.offers[i], c) in {FIRST_PLAYER_ROLE, SECOND_PLAYER_ROLE}
  {
    hide Sound, Agreed, Playing;
    PartyPlays(l, i);
  }

  // The first packet shows the new board to the opponent.
  predicate ShownFirst(sent: seq<Sent>, to: Client, g: GameState)
  {
    && |sent| >= 1 && sent[0].to == to && sent[0].packet.kind == MovedPkt
    && |g.board| == 9 && sent[0].packet.payload == Text(Unparse(g))
  }

  // A legal move either leaves the game open, with nothing rated and nobody told of an end, or
  // ends it: then the mover has won or the board is full.
  lemma MoveEnds(curve: Curve, l: Lobby, c: Client, id: nat, text: string)
    requires Settled(l) && c in l.members
    ensures var done := Moves(curve, l, c, id, text);
      var i := SlotOf(l, c, id);
      if done.res == -1 then done == Failed(l)
      else
        && i != null && i in l.offers && l.offers[i].game.Some? && |l.offers[i].game.value.board| == 9
        && var role := RoleOf(l.offers[i], c);
        && role == l.offers[i].game.value.turn
        && ParseMove(role, text).Some?
        && var g := Applied(l.offers[i].game.value, role, ParseMove(role, text).value);
        && g.Some? && ShownFirst(done.sent, Opponent(l.offers[i], c), g.value)
        && if InPlay(g.value)
           then |done.sent| == 1 && done.lobby == WithOffer(l, i, l.offers[i].(game := g))
           else
             && Playing(l, l.offers[i].source) && Playing(l, l.offers[i].target)
             && EndedWith(curve, l, i, g.value, done) && (g.value.winner == role || Drawn(g.value))
  {
    hide Sound, Agreed, EndedWith, Announced, Dropped, Posted, Won, HasLine, ParseMove, Unparse, HardlyBegun;
    var i := SlotOf(l, c, id);
    if i != null {
      ListedOffer(l, c, id);
      var o := l.offers[i];
      var role := RoleOf(o, c);
      var pos := ParseMove(role, text);
      if o.game.Some? && pos.Some? && Applied(o.game.value, role, pos.value).Some? {
        MoveOutcome(o.game.value, role, pos.value);
        var g := Applied(o.game.value, role, pos.value).value;
        if !RolesOk(o) {
          HardlyMoves(o, o.game.value, role, pos.value);
        }
        hide Applied;
        if g.turn == NULL_ROLE {
          Parties(l, i, c);
          var d := Opponent(o, c);
          var moved := Sent(d, Packet(MovedPkt, Byte(IdOf(l, d, i)), 0, Text(Unparse(g))));
          FinishedEnds(curve, l, c, id, i, g, ResultFor(role, g.winner), [moved]);
        }
      }
    }
  }

  // --- Accepting and withdrawing -----------------------------------------------------------

  // After an acceptance both know of the game, and one of them gets the board: the target in the
  // acknowledgement if it moves first, and otherwise the source in the packet.
  lemma FirstMoverGetsBoard(l: Lobby, c: Client, id: nat)
    requires Settled(l) && c in l.members
    ensures var (done, mine) := Accepts(l, c, id);
      var i := SlotOf(l, c, id);
      if done.res == -1 then done == Failed(l) && mine == Nothing
      else
        && i != null && i in l.offers && l.offers[i].target == c && l.offers[i].state == Open
        && i in done.lobby.offers && done.lobby.offers[i].state == Accepted && done.lobby.offers[i].game == Some(INITIAL)
        && |done.sent| == 1 && done.sent[0].to == l.offers[i].source && done.sent[0].packet.kind == AcceptedPkt
        && (mine == Text(Unparse(INITIAL)) <==> l.offers[i].targetRole == INITIAL.turn)
        && (done.sent[0].packet.payload == Text(Unparse(INITIAL)) <==> mine == Nothing)
        && (done.sent[0].packet.payload == Nothing <==> mine != Nothing)
        && (l.offers[i].sourceRole == INITIAL.turn ==> mine == Nothing)
  {
    hide Sound, Agreed, Unparse, Byte;
    if SlotOf(l, c, id) != null {
      ListedOffer(l, c, id);
      SourceRole(l, SlotOf(l, c, id));
    }
  }

  lemma SourceRole(l: Lobby, i: Invitation)
    requires Settled(l) && i in l.offers
    ensures l.offers[i].sourceRole == Other(l.offers[i].targetRole)
  {
    SettledOffer(l, i);
  }

  // It does not matter who withdraws an open invitation, the source by revoking or the target
  // by declining: the lobby afterwards is the same.
  lemma EitherWithdraws(l: Lobby, i: Invitation, id: nat, targetId: nat)
    requires Settled(l) && i in l.offers && l.offers[i].state == Open
    requires l.offers[i].source in l.members && l.offers[i].target in l.members
    requires SlotOf(l, l.offers[i].source, id) == i && SlotOf(l, l.offers[i].target, targetId) == i
    ensures var revoked, declined := Revoked(l, l.offers[i].source, id), Declined(l, l.offers[i].target, targetId);
      && revoked.res == 0 && declined.res == 0 && revoked.lobby == declined.lobby && i !in revoked.lobby.offers
      && |revoked.sent| == 1 && revoked.sent[0].to == l.offers[i].target && revoked.sent[0].packet.kind == RevokedPkt
      && |declined.sent| == 1 && declined.sent[0].to == l.offers[i].source && declined.sent[0].packet.kind == DeclinedPkt
  {
  }

  // Revoking an invitation that has just been made undoes it: every list is as before, but for
  // an empty slot that it may have gained at its end.
  lemma RevokeUndoes(l: Lobby, c: Client, d: Client, sourceRole: nat, targetRole: nat, i: Invitation)
    requires Rest(l) && Playing(l, c) && Playing(l, d) && c != d && i !in l.offers
    requires sourceRole == Other(targetRole)
    ensures var made := Made(l, c, d, sourceRole, targetRole, i);
      && Settled(made.lobby) && c in made.lobby.members && made.res >= 0
      && var back := Revoked(made.lobby, c, made.res);
      && back.res == 0 && back.lobby == l.(members := back.lobby.members) && back.lobby.members.Keys == l.members.Keys
      && forall e | e in l.members ::
           && back.lobby.members[e].player == l.members[e].player
           && (back.lobby.members[e].slots == l.members[e].slots || back.lobby.members[e].slots == l.members[e].slots + [null])
  {
    hide Linked, Agreed, RolesOk, Byte;
    MadeKeeps(l, c, d, sourceRole, targetRole, i);
    var made := Made(l, c, d, sourceRole, targetRole, i);
    RestSettled(made.lobby);
    Unlisted(l, NOTHING, i);
    SetThenReplaced(l.members[c].slots, i);
    SetThenReplaced(l.members[d].slots, i);
    UndoneLists(l, c, d, sourceRole, targetRole, i);
  }

  lemma SetThenReplaced(s: seq<Invitation?>, i: Invitation)
    requires i !in s
    ensures var k := FirstIndex(s, null);
      && SetAt(s, k, i)[k] == i
      && (Replace(SetAt(s, k, i), i, null) == s || Replace(SetAt(s, k, i), i, null) == s + [null])
  {
  }

  lemma UndoneLists(l: Lobby, c: Client, d: Client, sourceRole: nat, targetRole: nat, i: Invitation)
    requires Playing(l, c) && Playing(l, d) && c != d && i !in l.offers
    ensures var made := Made(l, c, d, sourceRole, targetRole, i).lobby;
      && i in made.offers && made.offers[i].source in made.members && made.offers[i].target in made.members
      && made.members[c].slots == SetAt(l.members[c].slots, IdOf0(l, c), i)
      && var back := Dropped(made, i);
      && back.offers == l.offers && back.accounts == l.accounts && back.registry == l.registry
      && back.roll == l.roll && back.loops == l.loops && back.members.Keys == l.members.Keys
      && forall e | e in l.members ::
           && back.members[e].player == l.members[e].player
           && back.members[e].slots ==
                if e == c || e == d then Replace(SetAt(l.members[e].slots, IdOf0(l, e), i), i, null) else l.members[e].slots
  {
  }

  // --- Answers -----------------------------------------------------------------------------

  predicate IsAnswer(s: Sent) { s.packet.kind.AckPkt? || s.packet.kind.NackPkt? }

  predicate IsRequest(k: Kind)
  {
    || k.LoginPkt? || k.UsersPkt? || k.InvitePkt? || k.RevokePkt? || k.DeclinePkt?
    || k.AcceptPkt? || k.MovePkt? || k.ResignPkt?
  }

  // The last packet, and no other, answers the client; NACK is the only packet there is, and
  // means that nothing has changed that was there.
  ghost predicate AnsweredOnce(l: Lobby, c: Client, done: Done)
  {
    && done.sent != []
    && var last := done.sent[|done.sent| - 1];
    && IsAnswer(last) && last.to == c
    && (forall k :: 0 <= k < |done.sent| - 1 ==> !IsAnswer(done.sent[k]))
    && (last.packet.kind.NackPkt? ==> |done.sent| == 1 && Unchanged(l, done.lobby))
  }

  predicate Unchanged(l: Lobby, l': Lobby)
  {
    && l'.members == l.members && l'.offers == l.offers && l'.registry == l.registry && l'.loops == l.loops
    && l.roll <= l'.roll && forall p | p in l.accounts :: p in l'.accounts && l'.accounts[p] == l.accounts[p]
  }

  // No packet is an answer, and a failure has no effect.
  predicate Silent(l: Lobby, done: Done)
  {
    (forall s | s in done.sent :: !IsAnswer(s)) && (done.crashed || done == Failed(l) || done.res == 0)
  }

  // With the reply it is an answered request.
  lemma ThenAnswered(l: Lobby, c: Client, done: Done, reply: Sent)
    requires Silent(l, done) && reply.to == c && IsAnswer(reply)
    requires reply.packet.kind.NackPkt? ==> done.crashed || done.res == -1
    ensures var all := Answered(done, reply);
      if all.crashed then forall s | s in all.sent :: !IsAnswer(s) else AnsweredOnce(l, c, all)
  {
  }

  lemma OfferAnswers(l: Lobby, c: Client, id: nat)
    requires Settled(l) && c in l.members
    ensures Silent(l, Revoked(l, c, id)) && Silent(l, Declined(l, c, id)) && Silent(l, Accepts(l, c, id).0)
  {
    hide Sound, Agreed, Dropped, Unparse, IdOf;
    if SlotOf(l, c, id) != null {
      ListedOffer(l, c, id);
    }
  }

  lemma GameAnswers(curve: Curve, l: Lobby, c: Client, id: nat, text: string)
    requires Settled(l) && c in l.members
    ensures Silent(l, Resigns(curve, l, c, id)) && Silent(l, Moves(curve, l, c, id, text))
  {
    hide Sound, Agreed, OfferAgreed, OfferLinked, Dropped, Posted, Unparse, Applied, ParseMove, IdOf;
    if SlotOf(l, c, id) != null {
      ListedOffer(l, c, id);
    }
  }

  // Every request is answered exactly once, after the notifications that it causes, unless it
  // crashes the server; then there is no answer. Other packets have no effect at all.
  lemma OneAnswer(curve: Curve, l: Lobby, c: Client, r: Request, p: Player?, i: Invitation?)
    requires AtRest(l) && c in l.loops && Supplied(l, c, r, p, i)
    ensures Settled(l) && c in l.members && (l.loops[c] != null ==> Playing(l, c))
    ensures var done := Handled(curve, l, c, r, p, i);
      if done.crashed then forall s | s in done.sent :: !IsAnswer(s)
      else if IsRequest(r.kind) then AnsweredOnce(l, c, done)
      else done == Done(l, 0, [])
  {
    hide Rest, Sound, Agreed, LoggedIn, Invites, Revoked, Declined, Accepts, Resigns, Moves, Answered, Silent;
    AtRestSettled(l, c);
    OfferAnswers(l, c, r.id);
    GameAnswers(curve, l, c, r.id, r.Name());
    match r.kind
    case LoginPkt =>
      if l.loops[c] == null && r.data != "" {
        FailedLogin(l, c, r.Name(), p);
      }
    case InvitePkt =>
      if l.loops[c] != null && r.data != "" {
        InviteSends(l, c, r.Name(), r.role, i);
      }
    case RevokePkt => ThenAnswered(l, c, Revoked(l, c, r.id), Reply(c, Revoked(l, c, r.id).res));
    case DeclinePkt => ThenAnswered(l, c, Declined(l, c, r.id), Reply(c, Declined(l, c, r.id).res));
    case AcceptPkt =>
      var (done, text) := Accepts(l, c, r.id);
      ThenAnswered(l, c, done, if done.res != -1 then Ack(c, 0, text) else Nack(c));
    case MovePkt =>
      var done := Moves(curve, l, c, r.id, r.Name());
      ThenAnswered(l, c, done, Reply(c, done.res));
    case ResignPkt =>
      var done := Resigns(curve, l, c, r.id);
      ThenAnswered(l, c, done, Reply(c, done.res));
    case _ =>
  }

  lemma FailedLogin(l: Lobby, c: Client, name: string, made: Player?)
    requires c in l.members && (FindPlayer(l, name, 0) == null ==> made != null && made !in l.accounts)
    ensures !LoggedIn(l, c, name, made).1 ==> Unchanged(l, LoggedIn(l, c, name, made).0)
  {
    hide Logins;
  }

  lemma InviteSends(l: Lobby, c: Client, name: string, role: nat, i: Invitation?)
    requires Settled(l) && c in l.members && Playing(l, c)
    requires FindClient(l, name, 0) != null && FindClient(l, name, 0) != c ==> i != null && i !in l.offers
    ensures AnsweredOnce(l, c, Invites(l, c, name, role, i)) && !Invites(l, c, name, role, i).crashed
  {
    hide Settled;
    FoundClient(l, name, 0);
  }

  // --- The two lists -----------------------------------------------------------------------

  // Between requests an invitation in memory stands at exactly one place of its source's list
  // and at exactly one of its target's; whatever a list holds is such an invitation; an
  // accepted one has an unfinished game and an open one has none; and a client that is not
  // logged in lists at most games that it left because it had no role in them.
  lemma ListsAgree(l: Lobby, i: Invitation, c: Client)
    requires AtRest(l) && c in l.members
    ensures i in l.offers && Names(l.offers[i], c) ==> exists k :: ListedOnlyAt(l, c, i, k)
    ensures i in l.members[c].slots ==> i in l.offers && Names(l.offers[i], c)
    ensures i in l.offers ==> if l.offers[i].game.Some?
      then l.offers[i].state == Accepted && InPlay(l.offers[i].game.value)
      else l.offers[i].state == Open
    ensures i in l.members[c].slots && l.members[c].player == null ==>
      l.offers[i].target == c && StuckFor(l.offers[i], c) && c !in l.loops
  {
    hide Linked, InPlay, Sound, Agreed;
    RestSettled(l);
    SettledMember(l, c);
    if i in l.offers {
      SettledOffer(l, i);
      if Names(l.offers[i], c) {
        ListedPlace(l, c, i);
      }
    }
  }

  ghost predicate ListedOnlyAt(l: Lobby, c: Client, i: Invitation, k: int)
    requires c in l.members
  {
    0 <= k < |l.members[c].slots| && forall j :: 0 <= j < |l.members[c].slots| ==> (l.members[c].slots[j] == i <==> j == k)
  }

  lemma ListedPlace(l: Lobby, c: Client, i: Invitation)
    requires c in l.members && ListedIn(l, c, i) == 1
    ensures exists k :: ListedOnlyAt(l, c, i, k)
  {
    var s := l.members[c].slots;
    assert i in multiset(s);
    var k :| 0 <= k < |s| && s[k] == i;
    OnlyIndex(s, i, k);
    assert ListedOnlyAt(l, c, i, k);
  }
}
