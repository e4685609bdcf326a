// What every run of a game keeps, and how games end.
module GameRuns {
  import opened Prelude
  import opened Games

  // The three ways in which a game can be over.
  ghost predicate Won(g: GameState)
    requires |g.board| == 9
  {
    && g.winner in {FIRST_PLAYER_ROLE, SECOND_PLAYER_ROLE}
    && HasLine(g.board, g.winner) && !HasLine(g.board, Other(g.winner))
  }

  ghost predicate Drawn(g: GameState)
    requires |g.board| == 9
  {
    && g.winner == NULL_ROLE && Full(g.board)
    && !HasLine(g.board, FIRST_PLAYER_ROLE) && !HasLine(g.board, SECOND_PLAYER_ROLE)
  }

  ghost predicate GivenUp(g: GameState)
    requires |g.board| == 9
  {
    && g.winner in {FIRST_PLAYER_ROLE, SECOND_PLAYER_ROLE} && !Full(g.board)
    && !HasLine(g.board, FIRST_PLAYER_ROLE) && !HasLine(g.board, SECOND_PLAYER_ROLE)
  }

  ghost predicate Over(g: GameState)
  {
    && |g.board| == 9 && (forall k :: 0 <= k < 9 ==> 0 <= g.board[k] <= 2)
    && g.turn == NULL_ROLE && (Won(g) || Drawn(g) || GivenUp(g))
  }

  lemma Initially()
    ensures InPlay(INITIAL)
  {
    assert forall k :: 0 <= k < 8 ==>
      !LineAt(INITIAL.board, k, FIRST_PLAYER_ROLE) && !LineAt(INITIAL.board, k, SECOND_PLAYER_ROLE);
    assert INITIAL.board[0] == NULL_ROLE;
  }

  // A piece completes no line of the other player, so looking only for lines of the player
  // who moved finds every line there is.
  lemma OnlyTheMoversLines(board: seq<int>, role: nat, pos: int)
    requires |board| == 9 && 0 <= pos < 9 && board[pos] == NULL_ROLE && role in {FIRST_PLAYER_ROLE, SECOND_PLAYER_ROLE}
    requires !HasLine(board, FIRST_PLAYER_ROLE) && !HasLine(board, SECOND_PLAYER_ROLE)
    ensures !HasLine(board[pos := role], Other(role))
    ensures (HasLine(board[pos := role], FIRST_PLAYER_ROLE) || HasLine(board[pos := role], SECOND_PLAYER_ROLE))
      <==> HasLine(board[pos := role], role)
  {
    var after := board[pos := role];
    if HasLine(after, Other(role)) {
      var k :| 0 <= k < 8 && LineAt(after, k, Other(role));
      assert LineAt(board, k, Other(role));
      assert HasLine(board, Other(role));
      assert false;
    }
  }

  // --- Lines and moves, on a board of three rows of three ----------------------------------

  predicate Same(board: seq<int>, i: nat, j: nat, k: nat, role: int)
    requires |board| == 9 && i < 9 && j < 9 && k < 9
  {
    board[i] == role && board[j] == role && board[k] == role
  }

  predicate RowIs(board: seq<int>, r: nat, role: int)
    requires |board| == 9 && r < 3
  {
    Same(board, 3 * r, 3 * r + 1, 3 * r + 2, role)
  }

  predicate ColumnIs(board: seq<int>, c: nat, role: int)
    requires |board| == 9 && c < 3
  {
    Same(board, c, 3 + c, 6 + c, role)
  }

  // A row, a column, or one of the two diagonals.
  predicate ThreeInARow(board: seq<int>, role: int)
    requires |board| == 9
  {
    || (exists r | 0 <= r < 3 :: RowIs(board, r, role))
    || (exists c | 0 <= c < 3 :: ColumnIs(board, c, role))
    || Same(board, 0, 4, 8, role)
    || Same(board, 2, 4, 6, role)
  }

  // The table has the eight lines of the game and no other.
  lemma LinesAre(board: seq<int>, role: int)
    requires |board| == 9
    ensures HasLine(board, role) <==> ThreeInARow(board, role)
  {
    forall r | 0 <= r < 3
      ensures RowIs(board, r, role) <==> LineAt(board, r, role)
      ensures ColumnIs(board, r, role) <==> LineAt(board, 3 + r, role)
    {
      assert r in {0, 1, 2};
    }
    assert Same(board, 0, 4, 8, role) <==> LineAt(board, 6, role);
    assert Same(board, 2, 4, 6, role) <==> LineAt(board, 7, role);
    hide LineAt, RowIs, ColumnIs, Same;
    if HasLine(board, role) {
      var k :| 0 <= k < 8 && LineAt(board, k, role);
      assert k < 3 ==> RowIs(board, k, role);
      assert 3 <= k < 6 ==> ColumnIs(board, k - 3, role);
    }
    if r :| 0 <= r < 3 && RowIs(board, r, role) {
      assert LineAt(board, r, role);
    }
    if c :| 0 <= c < 3 && ColumnIs(board, c, role) {
      assert LineAt(board, 3 + c, role);
    }
  }

  // What the rules of the game say about a move of the role to the position.
  ghost predicate Plays(g: GameState, role: nat, pos: int, after: GameState)
    requires |g.board| == 9 && 1 <= pos <= 9
  {
    && |after.board| == 9
    && (forall j :: 0 <= j < 9 ==> after.board[j] == if j == pos - 1 then role else g.board[j])
    && if ThreeInARow(after.board, role) then after.turn == NULL_ROLE && after.winner == role
       else if forall j :: 0 <= j < 9 ==> after.board[j] != NULL_ROLE then after.turn == NULL_ROLE && after.winner == NULL_ROLE
       else after.turn == 3 - role && after.winner == NULL_ROLE
  }

  // In an open game a move is legal exactly if it is the role's turn and the cell is empty, and
  // then it does what the rules say.
  lemma LegalIff(g: GameState, role: nat, pos: int)
    requires InPlay(g) && 1 <= pos <= 9
    ensures Applied(g, role, pos).Some? <==> role == g.turn && g.board[pos - 1] == NULL_ROLE
    ensures Applied(g, role, pos).Some? ==> Plays(g, role, pos, Applied(g, role, pos).value)
  {
    hide HasLine, ThreeInARow;
    LinesAre(g.board[pos - 1 := role], role);
  }

  // A legal move is the turn's; it leads to another open game, to a line of the mover, or to
  // a full board without lines.
  lemma MoveOutcome(g: GameState, role: nat, pos: int)
    requires InPlay(g) && 1 <= pos <= 9 && Applied(g, role, pos).Some?
    ensures var g' := Applied(g, role, pos).value;
      && role == g.turn
      && (if g'.turn != NULL_ROLE then InPlay(g') && g'.turn == Other(role)
          else Over(g') && ((g'.winner == role && Won(g')) || Drawn(g')))
  {
    OnlyTheMoversLines(g.board, role, pos - 1);
  }

  lemma ResignOutcome(g: GameState, role: nat)
    requires InPlay(g) && role != NULL_ROLE
    ensures var g' := Resigned(g, role);
      && g'.Some? && Over(g'.value) && GivenUp(g'.value) && g'.value.winner == Other(role)
      && (Other(Other(role)) == role <==> role in {FIRST_PLAYER_ROLE, SECOND_PLAYER_ROLE})
  {
  }

  // --- Runs --------------------------------------------------------------------------------

  datatype Act = Play(role: nat, text: string) | GiveUp(role: nat)

  // A rejected act leaves the game as it is; the second component says whether it succeeded.
  function Next(g: GameState, a: Act): (GameState, bool)
    requires |g.board| == 9
  {
    match a
    case Play(role, text) =>
      var pos := ParseMove(role, text);
      var after := if pos.Some? then Applied(g, role, pos.value) else None;
      (after.GetOr(g), after.Some?)
    case GiveUp(role) =>
      var after := Resigned(g, role);
      (after.GetOr(g), after.Some?)
  }

  // The game after the acts, and the number of moves made.
  function Run(acts: seq<Act>): (r: (GameState, nat))
    ensures InPlay(r.0) || Over(r.0)
    ensures r.1 + multiset(r.0.board)[NULL_ROLE] == 9
  {
    if acts == [] then Initially(); (INITIAL, 0)
    else
      var (g, n) := Run(acts[..|acts| - 1]);
      var a := acts[|acts| - 1];
      NextKeeps(g, a);
      MovesCounted(g, a);
      var (g', ok) := Next(g, a);
      (g', if ok && a.Play? then n + 1 else n)
  }

  // A successful move fills one cell, and nothing else does.
  lemma MovesCounted(g: GameState, a: Act)
    requires InPlay(g) || Over(g)
    ensures var (g', ok) := Next(g, a);
      multiset(g'.board)[NULL_ROLE] == multiset(g.board)[NULL_ROLE] - (if ok && a.Play? then 1 else 0)
  {
  }

  lemma NextKeeps(g: GameState, a: Act)
    requires InPlay(g) || Over(g)
    ensures InPlay(Next(g, a).0) || Over(Next(g, a).0)
    ensures Over(g) ==> Next(g, a) == (g, false)
  {
    if InPlay(g) {
      match a
      case Play(role, text) =>
        var pos := ParseMove(role, text);
        if pos.Some? && Applied(g, role, pos.value).Some? {
          MoveOutcome(g, role, pos.value);
        }
      case GiveUp(role) =>
    }
  }

  // A game that is over never changes again, whatever is tried.
  lemma {:induction false} NeverReopens(acts: seq<Act>, more: seq<Act>)
    requires Over(Run(acts).0)
    ensures Run(acts + more) == Run(acts)
  {
    hide Next, Over, InPlay;
    if more == [] {
      assert acts + more == acts;
    } else {
      var n := |more| - 1;
      NeverReopens(acts, more[..n]);
      assert (acts + more)[..|acts + more| - 1] == acts + more[..n];
      NextKeeps(Run(acts).0, more[n]);
    }
  }

  // In any run at most nine moves succeed; while the game is open fewer have, and when it is
  // over it was won by exactly one player, drawn, or given up: one of the three.
  lemma RunsEndOneWay(acts: seq<Act>)
    ensures var (g, moves) := Run(acts);
      && moves <= 9
      && (InPlay(g) ==> moves < 9)
      && (InPlay(g) <==> g.turn != NULL_ROLE)
      && (Over(g) ==>
            && (Won(g) || Drawn(g) || GivenUp(g))
            && !(Won(g) && Drawn(g)) && !(Won(g) && GivenUp(g)) && !(Drawn(g) && GivenUp(g))
            && (Drawn(g) <==> g.winner == NULL_ROLE))
  {
  }
}
