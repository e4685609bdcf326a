// One invitation under any number of threads, one locked region per step: accepting, closing,
// moving and resigning race with each other, and the mutexes of the invitation and of its game
// are all that orders them.
module Races {
  import opened Prelude
  import opened Games
  import opened GameRuns
  import opened Players
  import opened Objects
  import opened Requests
  import opened MoveTexts

  // The operations on the invitation that a thread can begin.
  datatype Operation =
    | Accept
    | Withdraw                           // revoke or decline
    | Resign(role: nat)
    | Move(role: nat, text: string)

  // Where a thread stands in its operation: what its next locked region is.
  datatype Phase =
    | Idle
    | Accepting
    | Withdrawing
    | LookingToResign(role: nat)         // about to read the game
    | LookingToMove(role: nat, text: string)
    | Applying(role: nat, pos: int)      // about to apply the parsed move
    | Checking(role: nat)                // about to ask whether the game is over
    | Judging(role: nat)                 // about to ask for the winner
    | Closing(role: nat, result: nat, ender: Ender)    // about to close on behalf of the role
    | Posting(result: nat, ender: Ender)    // about to post the result

  // Who brings a game to its end, in which role.
  datatype Ender = Mover(role: nat) | Resigner(role: nat)

  datatype Post = Post(thread: nat, result: nat, ender: Ender)

  datatype Arena = Arena(
    state: InvState,
    game: Option<GameState>,
    phases: map<nat, Phase>,
    path: seq<InvState>,                 // the states the invitation has been in
    closers: seq<nat>,                   // the threads whose close succeeded
    found: Option<GameState>,            // the game as the successful close found it
    posts: seq<Post>)

  const START := Arena(Open, None, map[], [Open], [], None, [])

  function PhaseOf(a: Arena, t: nat): Phase { if t in a.phases then a.phases[t] else Idle }

  function At(a: Arena, t: nat, p: Phase): Arena { a.(phases := a.phases[t := p]) }

  // The locked region of a close: whether it succeeds, and the invitation after it.
  function Close(a: Arena, t: nat, role: nat): Arena
  {
    if a.state == Open then a.(state := Closed, path := a.path + [Closed], closers := a.closers + [t], found := a.game)
    else if a.state == Accepted && role != NULL_ROLE then
      a.(state := Closed, path := a.path + [Closed], closers := a.closers + [t], found := a.game,
         game := if a.game.Some? then Some(Resigned(a.game.value, role).GetOr(a.game.value)) else None)
    else a
  }

  predicate Closes(a: Arena, role: nat) { a.state == Open || (a.state == Accepted && role != NULL_ROLE) }

  // The next region of thread t; op is the operation that an idle thread begins.
  function Next(a: Arena, t: nat, op: Operation): Arena
    requires a.game.Some? ==> |a.game.value.board| == 9
    requires PhaseOf(a, t).Applying? ==> 1 <= PhaseOf(a, t).pos <= 9
  {
    match PhaseOf(a, t)
    case Idle =>
      At(a, t, match op
               case Accept => Accepting
               case Withdraw => Withdrawing
               case Resign(role) => LookingToResign(role)
               case Move(role, text) => LookingToMove(role, text))
    case Accepting =>
      At(if a.state == Open then a.(state := Accepted, game := Some(INITIAL), path := a.path + [Accepted]) else a, t, Idle)
    case Withdrawing => At(Close(a, t, NULL_ROLE), t, Idle)
    case LookingToResign(role) => At(a, t, if a.game.Some? then Closing(role, SECOND_WINS, Resigner(role)) else Idle)
    case LookingToMove(role, text) =>
      var pos := ParseMove(role, text);
      At(a, t, if a.game.Some? && pos.Some? then Applying(role, pos.value) else Idle)
    case Applying(role, pos) =>
      var g := if a.game.Some? then Applied(a.game.value, role, pos) else None;
      if g.Some? then At(a.(game := g), t, Checking(role)) else At(a, t, Idle)
    case Checking(role) =>
      At(a, t, if a.game.Some? && a.game.value.turn == NULL_ROLE then Judging(role) else Idle)
    case Judging(role) =>
      var winner := if a.game.Some? then a.game.value.winner else NULL_ROLE;
      At(a, t, Closing(Other(winner), ResultFor(role, winner), Mover(role)))
    case Closing(role, result, ender) =>
      At(Close(a, t, role), t, if Closes(a, role) then Posting(result, ender) else Idle)
    case Posting(result, ender) => At(a.(posts := a.posts + [Post(t, result, ender)]), t, Idle)
  }

  // --- What every interleaving keeps -------------------------------------------------------

  predicate KnowsGame(p: Phase)
  {
    p.Applying? || p.Checking? || p.Judging? || p.Closing? || p.Posting?
  }

  ghost predicate GoodPhase(a: Arena, t: nat)
  {
    var p := PhaseOf(a, t);
    && (KnowsGame(p) ==> a.game.Some?)
    && (p.Applying? ==> 1 <= p.pos <= 9 && p.role != NULL_ROLE)
    && (p.Judging? ==> a.game.Some? && a.game.value.turn == NULL_ROLE)
    && (p.Closing? ==> Announces(a, p))
    && (p.Posting? ==> a.closers == [t] && a.posts == [] && Told(a, p.result, p.ender))
  }

  // A mover announces the result of the finished game, and a resigning thread its own loss.
  predicate Announces(a: Arena, p: Phase)
    requires p.Closing?
  {
    match p.ender
    case Mover(role) =>
      p.role != NULL_ROLE && a.game.Some? && a.game.value.turn == NULL_ROLE && p.result == ResultFor(role, a.game.value.winner)
    case Resigner(role) => p.role == role && p.result == SECOND_WINS
  }

  // A move is always reported rightly, and a resignation when the game was still open or
  // somebody else had won it.
  predicate Rightly(ender: Ender, found: GameState)
  {
    ender.Mover? || found.turn != NULL_ROLE || (found.winner != NULL_ROLE && found.winner != ender.role)
  }

  // The result is that of the finished game, as the thread's role sees it, exactly then.
  predicate Told(a: Arena, result: nat, ender: Ender)
  {
    && a.game.Some? && a.found.Some? && result <= 2
    && (result == ResultFor(ender.role, a.game.value.winner) <==> Rightly(ender, a.found.value))
  }

  // The state has only moved forward; one close has succeeded exactly if the invitation is
  // closed; a result has been posted, or is about to be, exactly if a game was closed, and
  // only by the thread that closed it.
  ghost predicate Forward(a: Arena)
  {
    && (a.path == [Open] || a.path == [Open, Accepted] || a.path == [Open, Closed] || a.path == [Open, Accepted, Closed])
    && a.state == a.path[|a.path| - 1]
    && (a.game.Some? <==> Accepted in a.path)
    && |a.closers| == (if a.state == Closed then 1 else 0)
    && (if a.path == [Open, Accepted, Closed]
        then
          || (PhaseOf(a, a.closers[0]).Posting? && a.posts == [])
          || (!PhaseOf(a, a.closers[0]).Posting? && |a.posts| == 1 && a.posts[0].thread == a.closers[0])
        else a.posts == [])
  }

  // Besides, the game is sound, and over when the invitation is closed.
  ghost predicate Fair(a: Arena)
  {
    && Forward(a)
    && (a.game.Some? ==> InPlay(a.game.value) || Over(a.game.value))
    && (a.state == Closed && a.game.Some? ==> Over(a.game.value))
    && (forall t :: GoodPhase(a, t))
    && (forall k :: 0 <= k < |a.posts| ==> Told(a, a.posts[k].result, a.posts[k].ender))
    && FoundSound(a)
  }

  // The close found the game open, or as it still is.
  ghost predicate FoundSound(a: Arena)
  {
    a.found.Some? ==> a.state == Closed && a.game.Some? && (InPlay(a.found.value) || (Over(a.game.value) && a.found == a.game))
  }

  lemma StartFair()
    ensures Fair(START)
  {
  }

  // A move by a role changes nothing once the game is over.
  lemma GameGoesOn(g: GameState, role: nat, pos: int)
    requires (InPlay(g) || Over(g)) && role != NULL_ROLE && 1 <= pos <= 9
    ensures var g' := Applied(g, role, pos);
      && (Over(g) ==> g' == None)
      && (g'.Some? ==> InPlay(g'.value) || Over(g'.value))
  {
    if InPlay(g) && Applied(g, role, pos).Some? {
      MoveOutcome(g, role, pos);
    }
  }

  lemma GivenUpIsOver(g: GameState, role: nat)
    requires (InPlay(g) || Over(g)) && role != NULL_ROLE
    ensures Over(Resigned(g, role).GetOr(g)) && (Over(g) ==> Resigned(g, role).GetOr(g) == g)
    ensures |g.board| == 9 && (g.turn == NULL_ROLE <==> Over(g))
  {
  }

  lemma FairGame(a: Arena, t: nat)
    requires Fair(a)
    ensures GoodPhase(a, t)
    ensures Standing(a)
  {
    StateGame(a);
  }

  // The game is sound and there when it has to be.
  ghost predicate Standing(a: Arena)
  {
    && (a.game.Some? ==> InPlay(a.game.value) || Over(a.game.value))
    && (a.state == Open ==> a.game == None) && (a.state == Accepted ==> a.game.Some?)
    && (a.state == Closed && a.game.Some? ==> Over(a.game.value))
  }

  // The game does not go away, once over it does not change, and it is over when the invitation
  // is closed.
  ghost predicate GameStands(a: Arena, a': Arena)
  {
    && (a.game.Some? ==> a'.game.Some? && (a.game.value.turn == NULL_ROLE ==> a'.game == a.game))
    && (a'.game.Some? ==> InPlay(a'.game.value) || Over(a'.game.value))
    && (a'.state == Closed && a'.game.Some? ==> Over(a'.game.value))
  }

  lemma NextGame(a: Arena, t: nat, op: Operation)
    requires Fair(a)
    ensures GoodPhase(a, t) && (a.game.Some? ==> |a.game.value.board| == 9)
    ensures PhaseOf(a, t).Applying? ==> 1 <= PhaseOf(a, t).pos <= 9
    ensures GameStands(a, Next(a, t, op))
  {
    hide InPlay, Over, Applied, Resigned, ParseMove, Close, Fair, Announces, Told, GameStands, Next;
    FairGame(a, t);
    if a.game.Some? {
      GivenUpIsOver(a.game.value, FIRST_PLAYER_ROLE);
    }
    match PhaseOf(a, t)
    case Accepting => AcceptGame(a, t, op);
    case Withdrawing => CloseGame(a, t, op);
    case Applying(role, pos) => ApplyGame(a, t, op);
    case Closing(role, result, ender) => CloseGame(a, t, op);
    case _ => OtherGame(a, t, op);
  }

  lemma AcceptGame(a: Arena, t: nat, op: Operation)
    requires Standing(a) && PhaseOf(a, t).Accepting?
    ensures GameStands(a, Next(a, t, op))
  {
    hide InPlay, Over;
    Initial();
  }

  lemma ApplyGame(a: Arena, t: nat, op: Operation)
    requires Standing(a) && PhaseOf(a, t).Applying? && GoodPhase(a, t)
    ensures a.game.Some? && |a.game.value.board| == 9 && GameStands(a, Next(a, t, op))
  {
    hide InPlay, Over, Applied;
    GivenUpIsOver(a.game.value, FIRST_PLAYER_ROLE);
    GameGoesOn(a.game.value, PhaseOf(a, t).role, PhaseOf(a, t).pos);
  }

  lemma CloseGame(a: Arena, t: nat, op: Operation)
    requires Standing(a) && (PhaseOf(a, t).Closing? || PhaseOf(a, t).Withdrawing?)
    ensures GameStands(a, Next(a, t, op))
  {
    hide InPlay, Over, Close;
    CloseEffect(a, t, if PhaseOf(a, t).Closing? then PhaseOf(a, t).role else NULL_ROLE);
  }

  lemma OtherGame(a: Arena, t: nat, op: Operation)
    requires Standing(a)
    requires var p := PhaseOf(a, t); !p.Accepting? && !p.Applying? && !p.Closing? && !p.Withdrawing?
    ensures GameStands(a, Next(a, t, op))
  {
    hide InPlay, Over;
  }

  lemma CloseEffect(a: Arena, t: nat, role: nat)
    requires Standing(a)
    ensures GameStands(a, Close(a, t, role))
  {
    hide InPlay, Over, Resigned;
    if a.game.Some? {
      GivenUpIsOver(a.game.value, if role == NULL_ROLE then FIRST_PLAYER_ROLE else role);
    }
  }

  lemma StateGame(a: Arena)
    requires Forward(a)
    ensures (a.state == Open ==> a.game == None) && (a.state == Accepted ==> a.game.Some?)
  {
  }

  lemma Initial()
    ensures InPlay(INITIAL)
  {
    Initially();
  }

  // Once a game has been closed neither it nor what the close found changes.
  lemma ClosedStays(a: Arena, t: nat, op: Operation)
    requires Fair(a) && a.state == Closed && (a.game.Some? ==> |a.game.value.board| == 9)
    requires PhaseOf(a, t).Applying? ==> 1 <= PhaseOf(a, t).pos <= 9
    ensures var a' := Next(a, t, op);
      && a'.state == Closed && a'.found == a.found && a'.closers == a.closers
      && (a.game.Some? ==> a'.game.Some? && a'.game.value.winner == a.game.value.winner)
  {
    hide InPlay, Applied, Resigned, ParseMove, Forward, Over;
    NextGame(a, t, op);
    if a.game.Some? {
      GivenUpIsOver(a.game.value, FIRST_PLAYER_ROLE);
    }
  }

  lemma ClosedBy(a: Arena)
    requires Forward(a)
    ensures a.closers == [] <==> a.state != Closed
    ensures a.closers == [] ==> a.posts == []
    ensures |a.closers| <= 1
  {
  }

  // What a step does to the phases of the other threads.
  lemma GoodElsewhere(a: Arena, t: nat, op: Operation, u: nat)
    requires Fair(a) && (a.game.Some? ==> |a.game.value.board| == 9)
    requires GoodPhase(a, t) && GoodPhase(a, u) && u != t
    requires var a' := Next(a, t, op);
      a.game.Some? ==> a'.game.Some? && (a.game.value.turn == NULL_ROLE ==> a'.game == a.game)
    ensures GoodPhase(Next(a, t, op), u)
  {
    hide InPlay, Over, Applied, Resigned, ParseMove, Forward, Told, Rightly;
    var a' := Next(a, t, op);
    assert PhaseOf(a', u) == PhaseOf(a, u);
    if PhaseOf(a, u).Posting? {
      ClosedBy(a);
      ClosedStays(a, t, op);
      SameTold(a, a', PhaseOf(a, u).result, PhaseOf(a, u).ender);
    }
  }

  lemma SameTold(a: Arena, a': Arena, result: nat, ender: Ender)
    requires Told(a, result, ender) && a'.found == a.found && a'.game.Some? && a'.game.value.winner == a.game.value.winner
    ensures Told(a', result, ender)
  {
  }

  lemma GoodHere(a: Arena, t: nat, op: Operation)
    requires Fair(a) && (a.game.Some? ==> |a.game.value.board| == 9) && GoodPhase(a, t)
    requires var a' := Next(a, t, op);
      a.game.Some? ==> a'.game.Some? && (a.game.value.turn == NULL_ROLE ==> a'.game == a.game)
    ensures GoodPhase(Next(a, t, op), t)
  {
    hide InPlay, Over, Applied, Resigned, ParseMove, Forward, Told, Rightly;
    ClosedBy(a);
    if PhaseOf(a, t).Closing? && Closes(a, PhaseOf(a, t).role) {
      ClosingTells(a, t);
      var a' := Next(a, t, op);
      SameTold(Close(a, t, PhaseOf(a, t).role), a', PhaseOf(a, t).result, PhaseOf(a, t).ender);
    }
  }

  // The close that a thread makes for a game.
  lemma ClosingTells(a: Arena, t: nat)
    requires Fair(a) && GoodPhase(a, t) && PhaseOf(a, t).Closing? && Closes(a, PhaseOf(a, t).role)
    ensures var p := PhaseOf(a, t);
      Told(Close(a, t, p.role), p.result, p.ender)
  {
    hide InPlay, Over;
    StateGame(a);
    var p := PhaseOf(a, t);
    GivenUpIsOver(a.game.value, p.role);
  }

  lemma FoundAfter(a: Arena, t: nat, op: Operation)
    requires Fair(a) && GoodPhase(a, t) && (a.game.Some? ==> |a.game.value.board| == 9)
    ensures FoundSound(Next(a, t, op))
  {
    hide InPlay, Over, Applied, ParseMove, GoodPhase, Told, Resigned, Close;
    FairGame(a, t);
    if a.state == Closed {
      NextGame(a, t, op);
      if a.game.Some? {
        GivenUpIsOver(a.game.value, FIRST_PLAYER_ROLE);
      }
      ClosedStays(a, t, op);
    } else if PhaseOf(a, t).Closing? {
      ClosingFinds(a, t, PhaseOf(a, t).role);
    } else {
      ClosingFinds(a, t, NULL_ROLE);
    }
  }

  lemma ClosingFinds(a: Arena, t: nat, role: nat)
    requires Fair(a) && a.state != Closed
    ensures FoundSound(Close(a, t, role))
  {
    hide InPlay, Over, Resigned, GoodPhase, Told;
    FairGame(a, t);
    if a.game.Some? && role != NULL_ROLE {
      GivenUpIsOver(a.game.value, role);
    }
  }

  lemma PostsTold(a: Arena, t: nat, op: Operation)
    requires Fair(a) && GoodPhase(a, t) && (a.game.Some? ==> |a.game.value.board| == 9)
    ensures var a' := Next(a, t, op);
      forall k :: 0 <= k < |a'.posts| ==> Told(a', a'.posts[k].result, a'.posts[k].ender)
  {
    hide InPlay, Over, Applied, Resigned, ParseMove;
    if a.posts != [] || PhaseOf(a, t).Posting? {
      assert a.state == Closed;
      ClosedStays(a, t, op);
    }
  }

  lemma NextFair(a: Arena, t: nat, op: Operation)
    requires Fair(a)
    ensures GoodPhase(a, t) && (a.game.Some? ==> |a.game.value.board| == 9)
    ensures PhaseOf(a, t).Applying? ==> 1 <= PhaseOf(a, t).pos <= 9
    ensures Fair(Next(a, t, op))
  {
    hide InPlay, Over, Applied, Resigned, ParseMove, GoodPhase, Forward, Told, FoundSound;
    NextGame(a, t, op);
    var a' := Next(a, t, op);
    forall u | true
      ensures GoodPhase(a', u)
    {
      if u == t {
        GoodHere(a, t, op);
      } else {
        assert GoodPhase(a, u);
        GoodElsewhere(a, t, op, u);
      }
    }
    ForwardAfter(a, t, op);
    PostsTold(a, t, op);
    FoundAfter(a, t, op);
  }

  lemma ForwardAfter(a: Arena, t: nat, op: Operation)
    requires Forward(a) && GoodPhase(a, t) && (a.game.Some? ==> |a.game.value.board| == 9)
    ensures Forward(Next(a, t, op))
  {
    hide InPlay, Over, Applied, Resigned, ParseMove, Forward;
    StateGame(a);
    var a' := Next(a, t, op);
    match PhaseOf(a, t)
    case Accepting => AcceptForward(a, a');
    case Withdrawing => CloseForward(a, t, NULL_ROLE, Idle);
    case Closing(role, result, ender) => CloseForward(a, t, role, if Closes(a, role) then Posting(result, ender) else Idle);
    case Posting(result, ender) => PostForward(a, t, a');
    case _ => SameForward(a, t, a');
  }

  // A step inside an operation.
  lemma SameForward(a: Arena, t: nat, a': Arena)
    requires Forward(a) && !PhaseOf(a, t).Posting? && !PhaseOf(a', t).Posting?
    requires a' == a.(phases := a.phases[t := PhaseOf(a', t)], game := a'.game)
    requires a'.game.Some? == a.game.Some?
    ensures Forward(a')
  {
  }

  lemma AcceptForward(a: Arena, a': Arena)
    requires Forward(a)
    requires forall t :: PhaseOf(a, t).Posting? <==> PhaseOf(a', t).Posting?
    requires
      var b := if a.state == Open then a.(state := Accepted, game := Some(INITIAL), path := a.path + [Accepted]) else a;
      a' == b.(phases := a'.phases)
    ensures Forward(a')
  {
  }

  lemma CloseForward(a: Arena, t: nat, role: nat, p: Phase)
    requires Forward(a) && !PhaseOf(a, t).Posting?
    requires p.Posting? <==> Closes(a, role) && a.game.Some?
    ensures Forward(At(Close(a, t, role), t, p))
  {
  }

  lemma PostForward(a: Arena, t: nat, a': Arena)
    requires Forward(a) && PhaseOf(a, t).Posting? && a.closers == [t] && a.posts == [] && a.game.Some?
    requires a' == At(a.(posts := [Post(t, PhaseOf(a, t).result, PhaseOf(a, t).ender)]), t, Idle)
    ensures Forward(a')
  {
  }

  // --- Runs --------------------------------------------------------------------------------

  // The arena after a schedule: whose turn it was at every step.
  ghost function Run(schedule: seq<(nat, Operation)>): (a: Arena)
    ensures Fair(a)
  {
    if schedule == [] then StartFair(); START
    else
      var n := |schedule| - 1;
      var a := Run(schedule[..n]);
      NextFair(a, schedule[n].0, schedule[n].1);
      Next(a, schedule[n].0, schedule[n].1)
  }

  // However the threads interleave: at most one result is posted, by the thread that closed an
  // accepted invitation; none is posted for an invitation that was revoked or declined; and
  // once the closing thread is done, exactly one has been posted for a game.
  lemma PostedAtMostOnce(schedule: seq<(nat, Operation)>)
    ensures var a := Run(schedule);
      && |a.posts| <= 1 && |a.closers| <= 1
      && (a.posts != [] ==> a.path == [Open, Accepted, Closed] && a.closers == [a.posts[0].thread])
      && (a.path == [Open, Closed] ==> a.game == None)
      && (a.path == [Open, Accepted, Closed] && PhaseOf(a, a.closers[0]) == Idle ==> |a.posts| == 1)
  {
  }

  // However the threads interleave, a result that is posted is that of the finished game, as the
  // role that posts it sees it, exactly if it was posted after a move, or by a resignation whose
  // close found the game still open or won by somebody else.
  lemma PostedRightlyIff(schedule: seq<(nat, Operation)>)
    ensures var a := Run(schedule);
      a.posts != [] ==>
        && a.game.Some? && a.found.Some? && Over(a.game.value) && (InPlay(a.found.value) || a.game == a.found)
        && var p := a.posts[0];
        (p.result == ResultFor(p.ender.role, a.game.value.winner) <==>
           || p.ender.Mover?
           || InPlay(a.found.value)
           || (a.found.value.winner != NULL_ROLE && a.found.value.winner != p.ender.role))
  {
    hide InPlay, Over, Run, GoodPhase;
    var a := Run(schedule);
    if a.posts != [] {
      FairGame(a, a.posts[0].thread);
      InPlayTurn(a.found.value);
      GivenUpIsOver(a.game.value, FIRST_PLAYER_ROLE);
    }
  }

  lemma InPlayTurn(g: GameState)
    ensures InPlay(g) ==> g.turn != NULL_ROLE
  {
  }

  // Whoever comes first wins: under every schedule an invitation is accepted or withdrawn by a
  // thread exactly if it is open when the thread gets to it, and a game is closed by a thread
  // exactly if nobody has closed it and the thread has a role to close it with; a mover has.
  lemma FirstComes(schedule: seq<(nat, Operation)>, t: nat, op: Operation)
    ensures var a, a' := Run(schedule), Run(schedule + [(t, op)]);
      && (PhaseOf(a, t).Accepting? ==> (a'.path == a.path + [Accepted] <==> a.state == Open))
      && (PhaseOf(a, t).Withdrawing? ==> (a'.closers == a.closers + [t] <==> a.state == Open))
      && (PhaseOf(a, t).Closing? ==>
            && (a'.closers == a.closers + [t] <==> a.state == Accepted && PhaseOf(a, t).role != NULL_ROLE)
            && (PhaseOf(a, t).ender.Mover? ==> PhaseOf(a, t).role != NULL_ROLE))
  {
    hide Run, InPlay, Over, Applied, Resigned, ParseMove;
    RunMore(schedule, (t, op));
    var a := Run(schedule);
    FairGame(a, t);
    hide Fair;
  }

  lemma RunMore(schedule: seq<(nat, Operation)>, step: (nat, Operation))
    ensures var a := Run(schedule);
      && (a.game.Some? ==> |a.game.value.board| == 9)
      && (PhaseOf(a, step.0).Applying? ==> 1 <= PhaseOf(a, step.0).pos <= 9)
      && Run(schedule + [step]) == Next(a, step.0, step.1)
  {
    hide Next, Fair;
    NextFair(Run(schedule), step.0, step.1);
    assert (schedule + [step])[..|schedule + [step]| - 1] == schedule;
  }

  // --- Undisturbed operations ----------------------------------------------------------------

  // Steps of one thread in a row.
  function Again(s: (nat, Operation), k: nat): seq<(nat, Operation)>
  {
    if k == 0 then [] else Again(s, k - 1) + [s]
  }

  lemma AgainRuns(schedule: seq<(nat, Operation)>, s: (nat, Operation), k: nat)
    ensures var a := Run(schedule + Again(s, k));
      && (a.game.Some? ==> |a.game.value.board| == 9)
      && (PhaseOf(a, s.0).Applying? ==> 1 <= PhaseOf(a, s.0).pos <= 9)
      && Run(schedule + Again(s, k + 1)) == Next(a, s.0, s.1)
    ensures Run(schedule + Again(s, 0)) == Run(schedule)
  {
    hide Run, Next;
    RunMore(schedule + Again(s, k), s);
    assert schedule + Again(s, k) + [s] == schedule + Again(s, k + 1);
    assert schedule + Again(s, 0) == schedule;
  }

  // A legal move that nobody disturbs is made in four steps; if it ends the game, three more
  // close the invitation and post the result that the mover sees.
  lemma MoveAlone(schedule: seq<(nat, Operation)>, t: nat, role: nat, text: string)
    requires PhaseOf(Run(schedule), t) == Idle && Run(schedule).state == Accepted
    requires Run(schedule).game.Some? && |Run(schedule).game.value.board| == 9 && ParseMove(role, text).Some?
    requires Applied(Run(schedule).game.value, role, ParseMove(role, text).value).Some?
    ensures var g := Applied(Run(schedule).game.value, role, ParseMove(role, text).value).value;
      var moved := Run(schedule + Again((t, Move(role, text)), 4));
      var ended := Run(schedule + Again((t, Move(role, text)), 7));
      && moved.game == Some(g) && moved.state == Accepted && moved.posts == []
      && (g.turn != NULL_ROLE ==> PhaseOf(moved, t) == Idle)
      && (g.turn == NULL_ROLE ==>
            && ended.state == Closed && ended.game == Some(g) && PhaseOf(ended, t) == Idle
            && ended.posts == [Post(t, ResultFor(role, g.winner), Mover(role))])
  {
    hide Run, Fair, Again, ParseMove, Applied, InPlay, Over, Resigned, Next;
    var s := (t, Move(role, text));
    var a := Run(schedule);
    var pos := ParseMove(role, text).value;
    var g := Applied(a.game.value, role, pos).value;
    NothingPosted(a);
    AgainRuns(schedule, s, 0);
    MoveBegins(a, t, role, text);
    AgainRuns(schedule, s, 1);
    MoveLooks(At(a, t, LookingToMove(role, text)), t, s.1);
    AgainRuns(schedule, s, 2);
    MoveApplies(Run(schedule + Again(s, 2)), t, s.1);
    AgainRuns(schedule, s, 3);
    MoveChecks(Run(schedule + Again(s, 3)), t, s.1);
    if g.turn == NULL_ROLE {
      AgainRuns(schedule, s, 4);
      MoveJudges(Run(schedule + Again(s, 4)), t, s.1);
      AgainRuns(schedule, s, 5);
      ClosesAlone(Run(schedule + Again(s, 5)), t, s.1);
      AgainRuns(schedule, s, 6);
      PostsAlone(Run(schedule + Again(s, 6)), t, s.1);
    }
  }

  // And so is a resignation, in four steps.
  lemma ResignAlone(schedule: seq<(nat, Operation)>, t: nat, role: nat)
    requires PhaseOf(Run(schedule), t) == Idle && Run(schedule).state == Accepted && Run(schedule).game.Some?
    requires Run(schedule).game.value.turn != NULL_ROLE && role != NULL_ROLE
    ensures var ended := Run(schedule + Again((t, Resign(role)), 4));
      && ended.state == Closed && ended.game == Resigned(Run(schedule).game.value, role) && PhaseOf(ended, t) == Idle
      && ended.posts == [Post(t, SECOND_WINS, Resigner(role))]
  {
    hide Run, Fair, Again, InPlay, Over, Next;
    var s := (t, Resign(role));
    var a := Run(schedule);
    NothingPosted(a);
    AgainRuns(schedule, s, 0);
    ResignBegins(a, t, role);
    AgainRuns(schedule, s, 1);
    ResignLooks(At(a, t, LookingToResign(role)), t, s.1);
    AgainRuns(schedule, s, 2);
    ClosesAlone(Run(schedule + Again(s, 2)), t, s.1);
    AgainRuns(schedule, s, 3);
    PostsAlone(Run(schedule + Again(s, 3)), t, s.1);
  }

  lemma NothingPosted(a: Arena)
    requires Fair(a) && a.state != Closed
    ensures a.posts == []
  {
    ClosedBy(a);
  }

  lemma MoveBegins(a: Arena, t: nat, role: nat, text: string)
    requires (a.game.Some? ==> |a.game.value.board| == 9) && PhaseOf(a, t) == Idle
    ensures Next(a, t, Move(role, text)) == At(a, t, LookingToMove(role, text))
    ensures PhaseOf(At(a, t, LookingToMove(role, text)), t) == LookingToMove(role, text)
  {
  }

  lemma MoveLooks(a: Arena, t: nat, op: Operation)
    requires a.game.Some? && |a.game.value.board| == 9 && PhaseOf(a, t).LookingToMove?
    requires ParseMove(PhaseOf(a, t).role, PhaseOf(a, t).text).Some?
    ensures var p := PhaseOf(a, t);
      var a' := Next(a, t, op);
      a' == a.(phases := a'.phases) && PhaseOf(a', t) == Applying(p.role, ParseMove(p.role, p.text).value)
  {
    hide ParseMove;
  }

  lemma MoveApplies(a: Arena, t: nat, op: Operation)
    requires a.game.Some? && |a.game.value.board| == 9 && PhaseOf(a, t).Applying? && 1 <= PhaseOf(a, t).pos <= 9
    requires Applied(a.game.value, PhaseOf(a, t).role, PhaseOf(a, t).pos).Some?
    ensures var p := PhaseOf(a, t);
      var a' := Next(a, t, op);
      && a' == a.(phases := a'.phases, game := Applied(a.game.value, p.role, p.pos))
      && PhaseOf(a', t) == Checking(p.role)
  {
    hide Applied;
  }

  lemma MoveChecks(a: Arena, t: nat, op: Operation)
    requires a.game.Some? && |a.game.value.board| == 9 && PhaseOf(a, t).Checking?
    ensures var a' := Next(a, t, op);
      && a' == a.(phases := a'.phases)
      && PhaseOf(a', t) == if a.game.value.turn == NULL_ROLE then Judging(PhaseOf(a, t).role) else Idle
  {
  }

  lemma MoveJudges(a: Arena, t: nat, op: Operation)
    requires a.game.Some? && |a.game.value.board| == 9 && PhaseOf(a, t).Judging?
    ensures var a' := Next(a, t, op);
      var (role, winner) := (PhaseOf(a, t).role, a.game.value.winner);
      && a' == a.(phases := a'.phases) && PhaseOf(a', t) == Closing(Other(winner), ResultFor(role, winner), Mover(role))
  {
  }

  lemma ResignBegins(a: Arena, t: nat, role: nat)
    requires (a.game.Some? ==> |a.game.value.board| == 9) && PhaseOf(a, t) == Idle
    ensures Next(a, t, Resign(role)) == At(a, t, LookingToResign(role))
    ensures PhaseOf(At(a, t, LookingToResign(role)), t) == LookingToResign(role)
  {
  }

  lemma ResignLooks(a: Arena, t: nat, op: Operation)
    requires a.game.Some? && |a.game.value.board| == 9 && PhaseOf(a, t).LookingToResign?
    ensures var role := PhaseOf(a, t).role;
      var a' := Next(a, t, op);
      a' == a.(phases := a'.phases) && PhaseOf(a', t) == Closing(role, SECOND_WINS, Resigner(role))
  {
  }

  lemma ClosesAlone(a: Arena, t: nat, op: Operation)
    requires a.state == Accepted && a.game.Some? && |a.game.value.board| == 9
    requires PhaseOf(a, t).Closing? && PhaseOf(a, t).role != NULL_ROLE
    ensures var p := PhaseOf(a, t);
      var a' := Next(a, t, op);
      && a'.state == Closed && a'.posts == a.posts && PhaseOf(a', t) == Posting(p.result, p.ender)
      && a'.game == Some(Resigned(a.game.value, p.role).GetOr(a.game.value))
      && (a.game.value.turn == NULL_ROLE ==> a'.game == a.game)
  {
  }

  lemma PostsAlone(a: Arena, t: nat, op: Operation)
    requires (a.game.Some? ==> |a.game.value.board| == 9) && PhaseOf(a, t).Posting?
    ensures var p := PhaseOf(a, t);
      var a' := Next(a, t, op);
      && a'.state == a.state && a'.game == a.game && PhaseOf(a', t) == Idle
      && a'.posts == a.posts + [Post(t, p.result, p.ender)]
  {
  }

  // --- A drawn game that is reported as lost ----------------------------------------------

  // The cell that the k-th move fills; the order is its own inverse.
  const CELLS: seq<nat> := [0, 1, 2, 4, 3, 5, 7, 6, 8]

  function MoverAt(k: nat): nat { k % 2 + 1 }

  // The game after k of the nine moves, for k < 9.
  function DrawnSoFar(k: nat): GameState
  {
    GameState(seq(9, j requires 0 <= j < 9 => if CELLS[j] < k then MoverAt(CELLS[j]) else NULL_ROLE), MoverAt(k), NULL_ROLE)
  }

  lemma NoThree(k: nat, line: nat, role: nat)
    requires line < 8 && role != NULL_ROLE
    ensures !LineAt(DrawnSoFar(k).board, line, role)
  {
    assert line in {0, 1, 2, 3, 4, 5, 6, 7};
  }

  lemma OneMoreCell(k: nat)
    requires k < 9
    ensures DrawnSoFar(k + 1).board == DrawnSoFar(k).board[CELLS[k] := MoverAt(k)] && DrawnSoFar(k).board[CELLS[k]] == NULL_ROLE
    ensures k < 8 ==> DrawnSoFar(k + 1).board[CELLS[k + 1]] == NULL_ROLE
    ensures k == 8 ==> Full(DrawnSoFar(k + 1).board)
  {
    assert forall j | 0 <= j < 9 :: CELLS[CELLS[j]] == j && (CELLS[j] == k <==> j == CELLS[k]);
  }

  lemma NextDrawnMove(k: nat)
    requires k < 9
    ensures var g := DrawnSoFar(k);
      && |g.board| == 9
      && Applied(g, MoverAt(k), CELLS[k] + 1) == Some(AfterMove(k)) && |AfterMove(k).board| == 9
  {
    hide LineAt;
    var board := DrawnSoFar(k + 1).board;
    forall line | 0 <= line < 8
      ensures !LineAt(board, line, MoverAt(k))
    {
      NoThree(k + 1, line, MoverAt(k));
    }
    OneMoreCell(k);
  }

  // Thread 1 has begun to resign for the first player; thread 2 makes k of the nine moves.
  function DrawSchedule(k: nat): seq<(nat, Operation)>
    requires k <= 9
  {
    if k == 0 then [(2, Accept)] + [(2, Accept)] + [(1, Resign(FIRST_PLAYER_ROLE))] + [(1, Resign(FIRST_PLAYER_ROLE))]
    else DrawSchedule(k - 1) + [DrawMove(k - 1)] + [DrawMove(k - 1)] + [DrawMove(k - 1)] + [DrawMove(k - 1)]
  }

  function DrawMove(k: nat): (nat, Operation)
    requires k < 9
  {
    (2, Move(MoverAt(k), [('1' as int + CELLS[k]) as char]))
  }

  const RESIGNING := Closing(FIRST_PLAYER_ROLE, SECOND_WINS, Resigner(FIRST_PLAYER_ROLE))

  function Drawing(g: GameState, p: Phase): Arena
  {
    Arena(Accepted, Some(g), map[2 := p, 1 := RESIGNING], [Open, Accepted], [], None, [])
  }

  lemma FirstSteps()
    ensures var accepting := START.(phases := map[2 := Accepting]);
      var accepted := Arena(Accepted, Some(INITIAL), map[2 := Idle], [Open, Accepted], [], None, []);
      var resigning := accepted.(phases := map[2 := Idle, 1 := LookingToResign(FIRST_PLAYER_ROLE)]);
      && Next(START, 2, Accept) == accepting && Next(accepting, 2, Accept) == accepted
      && Next(accepted, 1, Resign(FIRST_PLAYER_ROLE)) == resigning
      && Next(resigning, 1, Resign(FIRST_PLAYER_ROLE)) == Drawing(INITIAL, Idle)
  {
  }

  lemma DrawBegins()
    ensures Run(DrawSchedule(0)) == Drawing(INITIAL, Idle) && INITIAL == DrawnSoFar(0)
  {
    hide Run, Next, Drawing;
    var a, r := (2, Accept), (1, Resign(FIRST_PLAYER_ROLE));
    FirstSteps();
    NoSchedule();
    RunMore([], a);
    assert [] + [a] == [a];
    RunMore([a], a);
    RunMore([a] + [a], r);
    RunMore([a] + [a] + [r], r);
    NothingDrawn();
  }

  lemma NothingDrawn()
    ensures INITIAL == DrawnSoFar(0)
  {
    assert INITIAL.board == DrawnSoFar(0).board;
  }

  lemma NoSchedule()
    ensures Run([]) == START
  {
  }

  lemma BeginStep(g: GameState, role: nat, text: string)
    requires |g.board| == 9
    ensures Next(Drawing(g, Idle), 2, Move(role, text)) == Drawing(g, LookingToMove(role, text))
  {
  }

  lemma LookStep(g: GameState, role: nat, text: string, pos: int, op: Operation)
    requires |g.board| == 9 && ParseMove(role, text) == Some(pos)
    ensures Next(Drawing(g, LookingToMove(role, text)), 2, op) == Drawing(g, Applying(role, pos))
  {
    hide ParseMove;
  }

  lemma ApplyStep(g: GameState, role: nat, pos: int, h: GameState, op: Operation)
    requires |g.board| == 9 && 1 <= pos <= 9 && Applied(g, role, pos) == Some(h)
    ensures Next(Drawing(g, Applying(role, pos)), 2, op) == Drawing(h, Checking(role))
  {
    hide Applied;
  }

  lemma CheckStep(g: GameState, role: nat, op: Operation)
    requires |g.board| == 9
    ensures Next(Drawing(g, Checking(role)), 2, op) == Drawing(g, if g.turn == NULL_ROLE then Judging(role) else Idle)
  {
  }

  lemma InPhase(g: GameState, p: Phase)
    ensures PhaseOf(Drawing(g, p), 2) == p && Drawing(g, p).game == Some(g)
  {
  }

  // The game after one more move.
  function AfterMove(k: nat): GameState
  {
    if k < 8 then DrawnSoFar(k + 1) else DrawnSoFar(9).(turn := NULL_ROLE)
  }

  // A move of the draw takes four steps: it is begun, read, applied, and checked.
  lemma DrawStep(k: nat, before: seq<(nat, Operation)>)
    requires k < 9 && Run(before) == Drawing(DrawnSoFar(k), Idle)
    ensures Run(before + [DrawMove(k)] + [DrawMove(k)] + [DrawMove(k)] + [DrawMove(k)]) ==
      Drawing(AfterMove(k), if k < 8 then Idle else Judging(MoverAt(k)))
  {
    NextDrawnMove(k);
    TurnOf(k + 1);
    hide Run, DrawnSoFar, Next, Drawing, PhaseOf, ParseMove, Applied;
    var g, m, role, pos := DrawnSoFar(k), DrawMove(k), MoverAt(k), CELLS[k] + 1;
    DigitIsRead(role, pos);
    BeginStep(g, role, m.1.text);
    LookStep(g, role, m.1.text, pos, m.1);
    ApplyStep(g, role, pos, AfterMove(k), m.1);
    CheckStep(AfterMove(k), role, m.1);
    InPhase(g, Idle);
    InPhase(g, LookingToMove(role, m.1.text));
    InPhase(g, Applying(role, pos));
    InPhase(AfterMove(k), Checking(role));
    RunMore(before, m);
    RunMore(before + [m], m);
    RunMore(before + [m] + [m], m);
    RunMore(before + [m] + [m] + [m], m);
  }

  lemma TurnOf(k: nat)
    ensures DrawnSoFar(k).turn == MoverAt(k)
  {
  }

  lemma {:induction false} DrawGoesOn(k: nat)
    requires k <= 8
    ensures Run(DrawSchedule(k)) == Drawing(DrawnSoFar(k), Idle)
  {
    hide Run, DrawnSoFar, Drawing;
    if k == 0 {
      DrawBegins();
    } else {
      DrawGoesOn(k - 1);
      DrawStep(k - 1, DrawSchedule(k - 1));
    }
  }

  // A thread that has read the game in order to resign closes it only after the game has been
  // drawn: a loss is posted for the resigning role, and nothing for the draw.
  lemma LateResignation()
    ensures var r := (1, Resign(FIRST_PLAYER_ROLE));
      var a := Run(DrawSchedule(9) + [r] + [r]);
      && a.game.Some? && |a.game.value.board| == 9 && Drawn(a.game.value) && a.found == a.game
      && a.posts == [Post(1, SECOND_WINS, Resigner(FIRST_PLAYER_ROLE))]
      && ResultFor(FIRST_PLAYER_ROLE, a.game.value.winner) == DRAW
  {
    hide Run, DrawnSoFar, ParseMove, Applied;
    var r := (1, Resign(FIRST_PLAYER_ROLE));
    DrawGoesOn(8);
    DrawStep(8, DrawSchedule(8));
    RunMore(DrawSchedule(9), r);
    RunMore(DrawSchedule(9) + [r], r);
    ItIsDrawn();
  }

  lemma ItIsDrawn()
    ensures |DrawnSoFar(9).board| == 9 && Drawn(DrawnSoFar(9).(turn := NULL_ROLE))
  {
    hide LineAt;
    forall line, role | 0 <= line < 8 && role in {FIRST_PLAYER_ROLE, SECOND_PLAYER_ROLE}
      ensures !LineAt(DrawnSoFar(9).board, line, role)
    {
      NoThree(9, line, role);
    }
  }
}
