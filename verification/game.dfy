// The tic-tac-toe game: board, turn and winner, and the operations on them.
module Games {
  import opened Prelude

  const NULL_ROLE := 0
  const FIRST_PLAYER_ROLE := 1
  const SECOND_PLAYER_ROLE := 2

  const WINS: seq<(nat, nat, nat)> :=
    [(0, 1, 2), (3, 4, 5), (6, 7, 8), (0, 3, 6), (1, 4, 7), (2, 5, 8), (0, 4, 8), (2, 4, 6)]

  datatype GameState = GameState(board: seq<int>, turn: nat, winner: nat)

  const INITIAL := GameState([0, 0, 0, 0, 0, 0, 0, 0, 0], FIRST_PLAYER_ROLE, NULL_ROLE)

  // The other of the two player roles; an odd number gives the second and an even one the first.
  function Other(role: nat): nat { role % 2 + 1 }

  predicate LineAt(board: seq<int>, k: nat, role: int)
    requires |board| == 9 && k < 8
  {
    board[WINS[k].0] == role && board[WINS[k].1] == role && board[WINS[k].2] == role
  }

  predicate HasLine(board: seq<int>, role: int)
    requires |board| == 9
  {
    exists k :: 0 <= k < 8 && LineAt(board, k, role)
  }

  predicate Full(board: seq<int>) { forall k :: 0 <= k < |board| ==> board[k] != NULL_ROLE }

  // A game that is not over: nobody has a line, there is room, and the counts fit the turn.
  ghost predicate InPlay(g: GameState)
  {
    && |g.board| == 9 && (forall k :: 0 <= k < 9 ==> 0 <= g.board[k] <= 2)
    && g.turn in {FIRST_PLAYER_ROLE, SECOND_PLAYER_ROLE} && g.winner == NULL_ROLE
    && !HasLine(g.board, FIRST_PLAYER_ROLE) && !HasLine(g.board, SECOND_PLAYER_ROLE) && !Full(g.board)
    && multiset(g.board)[FIRST_PLAYER_ROLE] ==
         multiset(g.board)[SECOND_PLAYER_ROLE] + (if g.turn == SECOND_PLAYER_ROLE then 1 else 0)
  }

  // What a move does, when it is legal. The role is only compared with the turn: a move by
  // NULL_ROLE on a finished game would be "legal" and set the turn again.
  function Applied(g: GameState, role: nat, pos: int): Option<GameState>
    requires |g.board| == 9 && 1 <= pos <= 9
  {
    if role != g.turn || g.board[pos - 1] != NULL_ROLE then None
    else
      var board := g.board[pos - 1 := role];
      if HasLine(board, role) then Some(GameState(board, NULL_ROLE, role))
      else if Full(board) then Some(GameState(board, NULL_ROLE, NULL_ROLE))
      else Some(GameState(board, Other(role), g.winner))
  }

  function Resigned(g: GameState, role: nat): Option<GameState>
  {
    if g.turn != NULL_ROLE && role != NULL_ROLE
    then Some(g.(winner := Other(role), turn := NULL_ROLE))
    else None
  }

  // --- Reading a move ----------------------------------------------------------------------

  const LONG_MAX: int := 0x7fff_ffff_ffff_ffff
  const LONG_MIN: int := -0x8000_0000_0000_0000

  predicate IsSpace(c: char)
  {
    c == ' ' || c == '\t' || c == '\n' || c == '\U{0B}' || c == '\U{0C}' || c == '\r'
  }

  predicate IsDigit(c: char) { '0' <= c <= '9' }

  function SkipSpaces(s: string): string
  {
    if s != "" && IsSpace(s[0]) then SkipSpaces(s[1..]) else s
  }

  // The number of leading digits.
  function Digits(s: string): (n: nat)
    ensures n <= |s|
  {
    if s != "" && IsDigit(s[0]) then 1 + Digits(s[1..]) else 0
  }

  function Value(digits: string): nat
  {
    if digits == "" then 0
    else
      var n := |digits| - 1;
      10 * Value(digits[..n]) + (if IsDigit(digits[n]) then (digits[n] as int - '0' as int) else 0)
  }

  // strtol in base ten: the value, saturated at the ends of long, and the unread rest. Without
  // digits nothing is read.
  function Strtol(s: string): (int, string)
  {
    var t := SkipSpaces(s);
    var negative := t != "" && t[0] == '-';
    var u := if t != "" && (t[0] == '-' || t[0] == '+') then t[1..] else t;
    var n := Digits(u);
    if n == 0 then (0, s)
    else
      var v := if negative then -(Value(u[..n]) as int) else Value(u[..n]);
      (if v > LONG_MAX then LONG_MAX else if v < LONG_MIN then LONG_MIN else v, u[n..])
  }

  // Conversion of a long to a 32-bit int.
  function Int32(v: int): int
  {
    var w := v % 0x1_0000_0000;
    if w >= 0x8000_0000 then w - 0x1_0000_0000 else w
  }

  // The position a text denotes, when the whole text is a number from 1 to 9 and there is a
  // role to make the move.
  function ParseMove(role: nat, text: string): (pos: Option<int>)
    ensures pos.Some? ==> 1 <= pos.value <= 9 && role != NULL_ROLE
  {
    var (v, rest) := Strtol(text);
    var pos := Int32(v);
    if role == NULL_ROLE || rest != "" || !(1 <= pos <= 9) then None else Some(pos)
  }

  // The text of a move.
  function UnparseMove(role: nat, pos: int): string
    requires 1 <= pos <= 9
  {
    [('0' as int + pos) as char] + "<-" + [if role == FIRST_PLAYER_ROLE then 'X' else 'O']
  }

  // --- The game record ---------------------------------------------------------------------

  function Mark(role: int): char
  {
    if role == NULL_ROLE then ' ' else if role == FIRST_PLAYER_ROLE then 'X' else 'O'
  }

  function Row(board: seq<int>, i: nat): string
    requires |board| == 9 && i < 3
  {
    [Mark(board[3 * i]), '|', Mark(board[3 * i + 1]), '|', Mark(board[3 * i + 2]), '\n']
  }

  // The rows before row i, each but the last followed by a rule.
  function Rows(board: seq<int>, i: nat): string
    requires |board| == 9 && i <= 3
  {
    if i == 0 then "" else Rows(board, i - 1) + Row(board, i - 1) + (if i < 3 then "-----\n" else "")
  }

  // The description of a game that is sent to the players.
  function Unparse(g: GameState): string
    requires |g.board| == 9
  {
    Rows(g.board, 3) + [if g.turn == FIRST_PLAYER_ROLE then 'X' else 'O'] + " to move"
  }

  class Game {
    var refs: nat
    const board: array<int>
    var turn: nat
    var winner: nat

    ghost predicate Valid()
      reads this
    {
      board.Length == 9
    }

    ghost function State(): GameState
      reads this, board
    {
      GameState(board[..], turn, winner)
    }

    constructor ()
      ensures Valid() && fresh(board) && refs == 1
      ensures State() == INITIAL
    {
      refs := 1;
      board := new int[9](_ => NULL_ROLE);
      turn := FIRST_PLAYER_ROLE;
      winner := NULL_ROLE;
    }

    // Decrements the count; at zero the record is freed.
    method Unref()
      requires refs > 0
      modifies this`refs
      ensures refs == old(refs) - 1
    {
      refs := refs - 1;
    }

    method ApplyMove(role: nat, pos: int) returns (res: int)
      requires Valid() && 1 <= pos <= 9
      modifies this`turn, this`winner, board
      ensures Valid()
      ensures var after := Applied(old(State()), role, pos);
        if after.Some? then res == 0 && State() == after.value
        else res == -1 && State() == old(State())
    {
      if role != turn {
        return -1;
      }
      if board[pos - 1] != NULL_ROLE {
        return -1;
      }
      board[pos - 1] := role;
      turn := turn % 2 + 1;
      ghost var placed := board[..];
      assert placed == old(board[..])[pos - 1 := role];
      var i := 0;
      while i < |WINS|
        invariant 0 <= i <= |WINS|
        invariant board[..] == placed
        invariant turn == Other(role) && winner == old(winner)
        invariant forall k :: 0 <= k < i ==> !LineAt(placed, k, role)
      {
        if board[WINS[i].0] == role && board[WINS[i].0] == board[WINS[i].1] && board[WINS[i].1] == board[WINS[i].2] {
          assert LineAt(placed, i, role);
          winner := role;
          turn := NULL_ROLE;
          break;
        }
        assert !LineAt(placed, i, role);
        i := i + 1;
      }
      assert HasLine(placed, role) <==> turn == NULL_ROLE;
      var tie := turn != NULL_ROLE;
      i := 0;
      while i < board.Length && tie
        invariant 0 <= i <= board.Length
        invariant tie <==> turn != NULL_ROLE && forall k :: 0 <= k < i ==> board[k] != NULL_ROLE
        invariant board[..] == placed
      {
        tie := tie && board[i] != NULL_ROLE;
        i := i + 1;
      }
      assert turn != NULL_ROLE ==> (tie <==> Full(placed));
      if tie {
        winner := NULL_ROLE;
        turn := NULL_ROLE;
      }
      return 0;
    }

    method UnparseState() returns (text: string)
      requires Valid()
      ensures text == Unparse(State())
    {
      text := "";
      for i := 0 to 3
        invariant text == Rows(board[..], i)
      {
        ghost var start := text;
        for j := 0 to 3
          invariant text == start + Row(board[..], i)[..2 * j]
        {
          var pos := 3 * i + j;
          var ch := ' ';
          if board[pos] != NULL_ROLE {
            ch := if board[pos] == FIRST_PLAYER_ROLE then 'X' else 'O';
          }
          assert board[..][pos] == board[pos] && ch == Mark(board[pos]);
          assert j == 0 || j == 1 || j == 2;
          assert Row(board[..], i)[..2 * j + 2] == Row(board[..], i)[..2 * j] + [ch, if j < 2 then '|' else '\n'];
          text := text + [ch, if j < 2 then '|' else '\n'];
        }
        if i < 2 {
          text := text + "-----\n";
        }
      }
      text := text + [if turn == FIRST_PLAYER_ROLE then 'X' else 'O'] + " to move";
    }

    method Resign(role: nat) returns (res: int)
      requires Valid()
      modifies this`turn, this`winner
      ensures Valid()
      ensures var after := Resigned(old(State()), role);
        if after.Some? then res == 0 && State() == after.value
        else res == -1 && State() == old(State())
    {
      res := -1;
      if turn != NULL_ROLE && role != NULL_ROLE {
        winner := role % 2 + 1;
        turn := NULL_ROLE;
        res := 0;
      }
    }
  }
}
