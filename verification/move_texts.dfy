// The texts of moves, read and written.
module MoveTexts {
  import opened Prelude
  import opened Games

  // A single digit from 1 to 9 is read as that position.
  lemma DigitIsRead(role: nat, pos: int)
    requires 1 <= pos <= 9
    ensures ParseMove(role, [('0' as int + pos) as char]) == if role == NULL_ROLE then None else Some(pos)
  {
    var s := [('0' as int + pos) as char];
    assert s[1..] == "" && s[..1] == s && s[..0] == "";
    assert Digits(s) == 1;
    assert Value(s) == pos;
  }

  // The documentation of the text of a move promises that it can be read back. No such text
  // is: what is written after the position is never accepted.
  lemma WrittenMoveIsNotRead(role: nat, pos: int, reader: nat)
    requires 1 <= pos <= 9
    ensures ParseMove(reader, UnparseMove(role, pos)) == None
  {
    var s := UnparseMove(role, pos);
    assert s[1..] == "<-" + [s[3]] && !IsDigit(s[1..][0]);
    assert Digits(s) == 1;
    assert s[1..] != "";
  }

  // --- Which numbers are read ---------------------------------------------------------------

  // A number as strtol takes it: white space, perhaps a sign, and digits.
  predicate IsNumber(spaces: string, sign: string, digits: string)
  {
    && (forall c | c in spaces :: c as int in {9, 10, 11, 12, 13, 32}) && sign in {"", "+", "-"}
    && digits != "" && (forall c | c in digits :: '0' <= c <= '9')
  }

  function Denoted(sign: string, digits: string): int { if sign == "-" then -(Value(digits) as int) else Value(digits) }

  // The nearest number that a long can hold.
  function Saturated(n: int): int
  {
    if n >= 0x8000_0000_0000_0000 then 0x7fff_ffff_ffff_ffff
    else if n < -0x8000_0000_0000_0000 then -0x8000_0000_0000_0000
    else n
  }

  lemma {:induction false} Skipped(spaces: string, rest: string)
    requires (forall c | c in spaces :: IsSpace(c)) && (rest != "" ==> !IsSpace(rest[0]))
    ensures SkipSpaces(spaces + rest) == rest
  {
    if spaces == "" {
      assert spaces + rest == rest;
    } else {
      assert (spaces + rest)[1..] == spaces[1..] + rest;
      Skipped(spaces[1..], rest);
    }
  }

  // Every number is read to its end, saturated.
  lemma NumberTaken(spaces: string, sign: string, digits: string)
    requires IsNumber(spaces, sign, digits)
    ensures Strtol(spaces + sign + digits) == (Saturated(Denoted(sign, digits)), "")
  {
    hide Value, Digits, SkipSpaces;
    var t := sign + digits;
    assert digits[0] in digits;
    assert spaces + sign + digits == spaces + t;
    Skipped(spaces, t);
    AllDigits(digits);
    assert sign == "" ==> t == digits;
    assert sign != "" ==> t[1..] == digits && t[0] == sign[0];
    assert digits[..|digits|] == digits && digits[|digits|..] == "";
  }

  // A number is read as the position p exactly if, saturated, it differs from p by a multiple of
  // 2^32, since it is cut to 32 bits before it is compared.
  lemma NumberReadIff(role: nat, spaces: string, sign: string, digits: string, p: int)
    requires IsNumber(spaces, sign, digits) && role != NULL_ROLE
    ensures ParseMove(role, spaces + sign + digits) == Some(p)
      <==> 1 <= p <= 9 && (Saturated(Denoted(sign, digits)) - p) % 0x1_0000_0000 == 0
  {
    hide Strtol, Saturated, Denoted;
    NumberTaken(spaces, sign, digits);
    if 1 <= p <= 9 {
      CutTo(Saturated(Denoted(sign, digits)), p);
    }
  }

  lemma CutTo(v: int, p: int)
    requires 1 <= p <= 9
    ensures Int32(v) == p <==> (v - p) % 0x1_0000_0000 == 0
  {
  }

  // So with at most nine digits the text is read as the number it denotes.
  lemma ShortNumberReadIff(role: nat, spaces: string, sign: string, digits: string, p: int)
    requires IsNumber(spaces, sign, digits) && |digits| <= 9 && role != NULL_ROLE
    ensures ParseMove(role, spaces + sign + digits) == Some(p) <==> 1 <= p <= 9 && Denoted(sign, digits) == p
  {
    hide ParseMove, Value;
    NumberReadIff(role, spaces, sign, digits, p);
    ValueBelow(digits);
    TenPowers(|digits|);
  }

  function Ten(n: nat): nat { if n == 0 then 1 else 10 * Ten(n - 1) }

  lemma {:induction false} ValueBelow(digits: string)
    requires forall c | c in digits :: IsDigit(c)
    ensures Value(digits) < Ten(|digits|)
  {
    if digits != "" {
      ValueBelow(digits[..|digits| - 1]);
    }
  }

  lemma TenPowers(n: nat)
    requires n <= 9
    ensures Ten(n) <= 1000000000
  {
    assert Ten(3) == 1000 && Ten(6) == 1000000;
    if n < 9 {
      TenGrows(n, 9);
    }
    assert Ten(9) == 1000000000;
  }

  lemma {:induction false} TenGrows(m: nat, n: nat)
    requires m <= n
    ensures Ten(m) <= Ten(n)
  {
    if m < n {
      TenGrows(m, n - 1);
    }
  }

  // Nothing but a number is read.
  lemma OnlyNumbersRead(role: nat, text: string)
    requires ParseMove(role, text).Some?
    ensures exists spaces, sign, digits :: IsNumber(spaces, sign, digits) && text == spaces + sign + digits
  {
    hide Value, Digits, SkipSpaces;
    var t := SkipSpaces(text);
    var spaces := SpacesBefore(text);
    var sign := if t != "" && (t[0] == '-' || t[0] == '+') then t[..1] else "";
    var digits := if sign != "" then t[1..] else t;
    assert t == sign + digits && (sign == "" || sign == [t[0]]);
    DigitsAre(digits);
    assert Digits(digits) == |digits| && digits != "";
    assert IsNumber(spaces, sign, digits);
    assert text == spaces + sign + digits;
  }

  lemma {:induction false} SpacesBefore(s: string) returns (spaces: string)
    ensures s == spaces + SkipSpaces(s) && forall c | c in spaces :: IsSpace(c)
  {
    spaces := "";
    if s != "" && IsSpace(s[0]) {
      var more := SpacesBefore(s[1..]);
      spaces := [s[0]] + more;
    }
  }

  lemma {:induction false} DigitsAre(s: string)
    ensures forall k :: 0 <= k < Digits(s) ==> IsDigit(s[k])
    ensures s[Digits(s)..] == "" ==> Digits(s) == |s| && forall c | c in s :: IsDigit(c)
  {
    if s != "" && IsDigit(s[0]) {
      DigitsAre(s[1..]);
      assert forall k :: 0 < k < Digits(s) ==> s[k] == s[1..][k - 1];
    }
  }

  // For instance 2^32 + 1 is read as position 1.
  lemma LargeNumberIsRead(role: nat)
    requires role != NULL_ROLE
    ensures ParseMove(role, "4294967297") == Some(1)
  {
    hide ParseMove, Value;
    var s := "4294967297";
    assert "" + "" + s == s;
    ValueOfLarge();
    NumberReadIff(role, "", "", s, 1);
  }

  lemma ValueOfLarge()
    ensures Value("4294967297") == 4294967297
  {
    assert Value("") == 0;
    hide Value;
    ValueStep("", '4');
    ValueStep([] + ['4'], '2');
    ValueStep([] + ['4'] + ['2'], '9');
    ValueStep([] + ['4'] + ['2'] + ['9'], '4');
    var high := [] + ['4'] + ['2'] + ['9'] + ['4'];
    ValueStep(high, '9');
    ValueStep(high + ['9'], '6');
    ValueStep(high + ['9'] + ['6'], '7');
    ValueStep(high + ['9'] + ['6'] + ['7'], '2');
    ValueStep(high + ['9'] + ['6'] + ['7'] + ['2'], '9');
    ValueStep(high + ['9'] + ['6'] + ['7'] + ['2'] + ['9'], '7');
    assert high + ['9'] + ['6'] + ['7'] + ['2'] + ['9'] + ['7'] == "4294967297";
  }

  lemma {:induction false} AllDigits(s: string)
    requires forall c | c in s :: IsDigit(c)
    ensures Digits(s) == |s|
  {
    if s != "" {
      AllDigits(s[1..]);
    }
  }

  lemma ValueStep(s: string, c: char)
    requires IsDigit(c)
    ensures Value(s + [c]) == 10 * Value(s) + (c as int - '0' as int)
  {
    assert (s + [c])[..|s|] == s;
  }

  // The text of a move: the position, an arrow, and X for the first player.
  lemma MoveIsWritten(role: nat, pos: int)
    requires 1 <= pos <= 9
    ensures var s := UnparseMove(role, pos);
      && |s| == 4 && s[0] == "123456789"[pos - 1] && s[1] == '<' && s[2] == '-'
      && s[3] == (if role == FIRST_PLAYER_ROLE then 'X' else 'O')
  {
  }

  // The first player is X and the second O; between the cells stand the lines of the board.
  const CELLS_BETWEEN := " | | \n"
  const RULE := "-----\n"
  const TEMPLATE := CELLS_BETWEEN + RULE + CELLS_BETWEEN + RULE + CELLS_BETWEEN + " " + " to move"

  predicate IsCell(p: nat) { p < 30 && p % 12 in {0, 2, 4} }

  // What the players see: in the text, the cell in row r and column c stands at 12 * r + 2 * c,
  // an X exactly if the first player holds it and an O exactly if the second does; then whose
  // turn it is; and nothing else but the lines.
  lemma TextShows(g: GameState)
    requires |g.board| == 9 && forall k :: 0 <= k < 9 ==> 0 <= g.board[k] <= 2
    ensures var s := Unparse(g);
      && |s| == |TEMPLATE| == 39
      && (forall k | 0 <= k < 9 ::
            && (s[Place(k)] == 'X' <==> g.board[k] == FIRST_PLAYER_ROLE)
            && (s[Place(k)] == 'O' <==> g.board[k] == SECOND_PLAYER_ROLE)
            && (s[Place(k)] == ' ' <==> g.board[k] == NULL_ROLE))
      && s[30] == (if g.turn == FIRST_PLAYER_ROLE then 'X' else 'O')
      && (forall p: nat | p < 39 && p != 30 && !IsCell(p) :: s[p] == TEMPLATE[p])
  {
    Layout(g);
    ThreeRows(g.board);
    hide Rows;
    forall p: nat | p < 39 && p != 30 && !IsCell(p)
      ensures Unparse(g)[p] == TEMPLATE[p]
    {
      Between(g, p);
    }
  }

  lemma Between(g: GameState, p: nat)
    requires |g.board| == 9 && p < 39 && p != 30 && !IsCell(p)
    ensures |Unparse(g)| == 39 && |TEMPLATE| == 39 && Unparse(g)[p] == TEMPLATE[p]
  {
    ThreeRows(g.board);
    var turn := [if g.turn == FIRST_PLAYER_ROLE then 'X' else 'O'];
    var r0, r1, r2 := Row(g.board, 0), Row(g.board, 1), Row(g.board, 2);
    assert Unparse(g) == r0 + RULE + r1 + RULE + r2 + turn + " to move";
    InRow(g.board, 0);
    InRow(g.board, 1);
    InRow(g.board, 2);
    hide Rows, Unparse, Row;
    Stacked(r0, r1, r2, RULE, turn, " to move", p);
    Stacked(CELLS_BETWEEN, CELLS_BETWEEN, CELLS_BETWEEN, RULE, " ", " to move", p);
  }

  lemma InRow(board: seq<int>, i: nat)
    requires |board| == 9 && i < 3
    ensures forall j | 0 <= j < 6 && j !in {0, 2, 4} :: Row(board, i)[j] == CELLS_BETWEEN[j]
  {
  }

  // Where the parts of a text stand.
  lemma Stacked(a: string, b: string, c: string, rule: string, turn: string, end: string, p: nat)
    requires |a| == |b| == |c| == |rule| == 6 && |turn| == 1 && |end| == 8 && p < 39
    ensures var s := a + rule + b + rule + c + turn + end;
      && |s| == 39
      && s[p] ==
           if p < 6 then a[p] else if p < 12 then rule[p - 6] else if p < 18 then b[p - 12] else if p < 24 then rule[p - 18]
           else if p < 30 then c[p - 24] else if p < 31 then turn[0] else end[p - 31]
  {
  }

  // Different boards, or a different player to move, are described by different texts.
  lemma DescriptionTells(g: GameState, h: GameState)
    requires |g.board| == 9 && |h.board| == 9
    requires forall k :: 0 <= k < 9 ==> 0 <= g.board[k] <= 2 && 0 <= h.board[k] <= 2
    requires Unparse(g) == Unparse(h)
    ensures g.board == h.board && (g.turn == FIRST_PLAYER_ROLE <==> h.turn == FIRST_PLAYER_ROLE)
  {
    Layout(g);
    Layout(h);
    forall k | 0 <= k < 9
      ensures g.board[k] == h.board[k]
    {
      assert Unparse(g)[Place(k)] == Mark(g.board[k]) && Unparse(h)[Place(k)] == Mark(h.board[k]);
    }
    assert Unparse(g)[30] == Unparse(h)[30];
  }

  // The place of a cell's mark in the description.
  function Place(k: nat): (p: nat)
    ensures k < 9 ==> p < 30
  {
    12 * (k / 3) + 2 * (k % 3)
  }

  lemma ThreeRows(board: seq<int>)
    requires |board| == 9
    ensures Rows(board, 3) == Row(board, 0) + "-----\n" + Row(board, 1) + "-----\n" + Row(board, 2)
  {
    hide Row;
    assert Rows(board, 0) == "";
    assert Rows(board, 1) == Row(board, 0) + "-----\n";
    assert Rows(board, 2) == Row(board, 0) + "-----\n" + Row(board, 1) + "-----\n";
  }

  // Where the marks stand in the description.
  lemma Layout(g: GameState)
    requires |g.board| == 9
    ensures |Unparse(g)| == 39
    ensures forall k | 0 <= k < 9 :: Unparse(g)[Place(k)] == Mark(g.board[k])
    ensures Unparse(g)[30] == if g.turn == FIRST_PLAYER_ROLE then 'X' else 'O'
  {
    ThreeRows(g.board);
    hide Rows;
    var r0, r1, r2 := Row(g.board, 0), Row(g.board, 1), Row(g.board, 2);
    assert Unparse(g) == r0 + "-----\n" + r1 + "-----\n" + r2 + [if g.turn == FIRST_PLAYER_ROLE then 'X' else 'O'] + " to move";
    assert Place(0) == 0 && Place(1) == 2 && Place(2) == 4 && Place(3) == 12 && Place(4) == 14;
    assert Place(5) == 16 && Place(6) == 24 && Place(7) == 26 && Place(8) == 28;
    forall k | 0 <= k < 9
      ensures Unparse(g)[Place(k)] == Mark(g.board[k])
    {
      assert k in {0, 1, 2, 3, 4, 5, 6, 7, 8};
    }
  }
}
