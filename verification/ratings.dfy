// What posting a result does to the ratings: nothing depends on the order of the players, and
// the points that one gains the other loses, up to the truncation to int.
module Ratings {
  import opened Players
  import opened Lobbies

  // The two expectations add up to one.
  lemma ExpectationsSplit(p: Curve, d: int)
    ensures Expected(p, d) + Expected(p, -d) == 1.0
  {
    var x, y := p(d), p(-d);
    assert x * y == 1.0 && x > 0.0 && y > 0.0;
    Halves(x, y);
  }

  lemma Halves(x: real, y: real)
    requires x > 0.0 && y > 0.0 && x * y == 1.0
    ensures 1.0 / (1.0 + x) + 1.0 / (1.0 + y) == 1.0
  {
    var a, b := 1.0 / (1.0 + x), 1.0 / (1.0 + y);
    assert a * (1.0 + x) == 1.0 && b * (1.0 + y) == 1.0;
    // b == b * x * y, so b * (x * y + x) == x, that is b * (1 + x) == x
    assert b * (1.0 + x) == x by {
      assert (1.0 + y) * x == x + 1.0;
      assert b * ((1.0 + y) * x) == (b * (1.0 + y)) * x;
    }
    assert (a + b) * (1.0 + x) == 1.0 + x;
    Cancel(a + b, 1.0 + x);
  }

  lemma Cancel(u: real, v: real)
    requires v > 0.0 && u * v == v
    ensures u == 1.0
  {
    assert (u - 1.0) * v == 0.0;
  }

  lemma ScoresSplit(result: nat)
    requires result <= 2
    ensures Score(true, result) + Score(false, result) == 1.0
    ensures Score(true, result) == Score(false, Swapped(result))
    ensures Score(false, result) == Score(true, Swapped(result))
    ensures Swapped(Swapped(result)) == result
  {
  }

  // Before truncation nothing is won or lost by the pair.
  lemma GainsCancel(p: Curve, a: int, b: int, result: nat)
    requires result <= 2
    ensures Gain(p, a, b, Score(true, result)) == -Gain(p, b, a, Score(false, result))
  {
    ExpectationsSplit(p, b - a);
    ScoresSplit(result);
    assert -(b - a) == a - b;
  }

  // The stake of a game is 32 points, whoever plays: that much lies between a win and a loss,
  // and a draw lies in the middle.
  lemma StakeIsExact(p: Curve, a: int, b: int)
    ensures Gain(p, a, b, 1.0) - Gain(p, a, b, 0.0) == 32.0
    ensures Gain(p, a, b, 1.0) - Gain(p, a, b, 0.5) == 16.0
  {
  }

  // The game is fair: who wins with the expected frequency gains nothing in the long run.
  lemma FairGame(p: Curve, a: int, b: int)
    ensures var e := Expected(p, b - a);
      e * Gain(p, a, b, 1.0) + (1.0 - e) * Gain(p, a, b, 0.0) == 0.0
  {
    var e := Expected(p, b - a);
    Fair(e);
  }

  lemma Fair(e: real)
    ensures e * (32.0 * (1.0 - e)) + (1.0 - e) * (32.0 * (0.0 - e)) == 0.0
  {
  }

  // The odds against a player are what the curve says.
  lemma Odds(p: Curve, d: int)
    ensures Expected(p, d) * p(d) == 1.0 - Expected(p, d)
  {
    var e := Expected(p, d);
    assert p(d) > 0.0;
    assert e * (1.0 + p(d)) == 1.0;
    assert e * (1.0 + p(d)) == e + e * p(d);
  }

  lemma Even(p: Curve)
    ensures Expected(p, 0) == 0.5
  {
    ExpectationsSplit(p, 0);
  }

  // Between equals a win is worth 16 points and a draw nothing.
  lemma EqualRatings(p: Curve, r: int)
    ensures Rated(p, r, r, 1.0) == r + 16 && Rated(p, r, r, 0.5) == r && Rated(p, r, r, 0.0) == r - 16
  {
    Even(p);
    assert Gain(p, r, r, 1.0) == 16.0 && Gain(p, r, r, 0.5) == 0.0 && Gain(p, r, r, 0.0) == -16.0;
    WholeNumber(r + 16);
    WholeNumber(r);
    WholeNumber(r - 16);
  }

  lemma WholeNumber(n: int)
    ensures Truncate(n as real) == n
  {
  }

  // After the first game between two new players the winner has 1516 points and the loser 1484.
  lemma FirstGame(curve: Curve, accounts: map<Player, Account>, p: Player, q: Player)
    requires p in accounts && q in accounts && p != q
    requires accounts[p].rating == INITIAL_RATING && accounts[q].rating == INITIAL_RATING
    ensures var won := Posted(curve, accounts, p, q, FIRST_WINS);
      won[p].rating == 1516 && won[q].rating == 1484
    ensures var lost := Posted(curve, accounts, p, q, SECOND_WINS);
      lost[p].rating == 1484 && lost[q].rating == 1516
    ensures var drawn := Posted(curve, accounts, p, q, DRAW);
      drawn[p].rating == 1500 && drawn[q].rating == 1500
  {
    hide Rated;
    EqualRatings(curve, 1500);
  }

  // Truncating two numbers whose sum is whole changes the sum by at most one, toward zero; it
  // changes nothing when the numbers are whole or have different signs.
  lemma TruncatedPair(a: int, b: int, g: real)
    ensures var t := Truncate(a as real + g) + Truncate(b as real - g);
      && a + b - 1 <= t <= a + b + 1
      && (a as real + g >= 0.0 && b as real - g >= 0.0 ==>
            t <= a + b && (t == a + b <==> g == g.Floor as real))
      && (a as real + g < 0.0 && b as real - g < 0.0 ==>
            t >= a + b && (t == a + b <==> g == g.Floor as real))
      && ((a as real + g >= 0.0) != (b as real - g >= 0.0) ==> t == a + b)
  {
    FloorShift(a, g);
    FloorShift(b, -g);
    FloorShift(-a, -g);
    FloorShift(-b, g);
    FloorOpposite(g);
    assert -(a as real + g) == (-a) as real + (-g) && -(b as real - g) == (-b) as real + g;
  }

  lemma FloorShift(a: int, g: real)
    ensures (a as real + g).Floor == a + g.Floor
  {
  }

  lemma FloorOpposite(g: real)
    ensures (-g).Floor == -g.Floor - (if g == g.Floor as real then 0 else 1)
  {
  }

  // A game moves the total of the two ratings by at most one point. While no rating is
  // negative it never moves up, and it stays exactly when the gain is a whole number.
  lemma PairTotal(p: Curve, a: int, b: int, result: nat)
    requires result <= 2
    ensures var g := Gain(p, a, b, Score(true, result));
      var t := Rated(p, a, b, Score(true, result)) + Rated(p, b, a, Score(false, result));
      && a + b - 1 <= t <= a + b + 1
      && (a as real + g >= 0.0 && b as real - g >= 0.0 ==> t <= a + b && (t == a + b <==> g == g.Floor as real))
  {
    GainsCancel(p, a, b, result);
    TruncatedPair(a, b, Gain(p, a, b, Score(true, result)));
  }

  // One game changes a rating by at most 32 points, and never against the sign of score minus
  // expectation.
  lemma OneRating(p: Curve, mine: int, theirs: int, score: real)
    requires 0.0 <= score <= 1.0
    ensures var change := Rated(p, mine, theirs, score) - mine;
      && -32 <= change <= 32
      && (score >= Expected(p, theirs - mine) ==> change >= 0)
      && (score <= Expected(p, theirs - mine) ==> change <= 0)
  {
    var g := Gain(p, mine, theirs, score);
    assert -32.0 < g < 32.0;
    FloorShift(mine, g);
    FloorShift(-mine, -g);
    FloorOpposite(g);
    assert -(mine as real + g) == (-mine) as real + (-g);
  }

  // A better rated player is expected to score at least as much.
  lemma ExpectationFollowsRating(p: Curve, d: int, e: int)
    requires d <= e
    ensures Expected(p, e) <= Expected(p, d)
  {
    var x, y := p(d), p(e);
    var a, b := 1.0 / (1.0 + x), 1.0 / (1.0 + y);
    assert a * (1.0 + x) == 1.0 && b * (1.0 + y) == 1.0;
    assert (a - b) * (1.0 + x) == b * (y - x);
    assert b * (y - x) >= 0.0;
    Sign(a - b, 1.0 + x);
  }

  lemma Sign(u: real, v: real)
    requires v > 0.0 && u * v >= 0.0
    ensures u >= 0.0
  {
  }

  // Posting is the same from either side of the board.
  lemma EitherSide(p: Curve, accounts: map<Player, Account>, a: Player, b: Player, result: nat)
    requires a in accounts && b in accounts && a != b && result <= 2
    ensures Posted(p, accounts, a, b, result) == Posted(p, accounts, b, a, Swapped(result))
  {
    ScoresSplit(result);
  }

  // Posting a win moves the winner's rating up and the loser's down, each by at most 32 points,
  // and nobody else's.
  lemma PostedWin(p: Curve, accounts: map<Player, Account>, a: Player, b: Player)
    requires a in accounts && b in accounts && a != b
    ensures var after := Posted(p, accounts, a, b, FIRST_WINS);
      && after.Keys == accounts.Keys
      && accounts[a].rating <= after[a].rating <= accounts[a].rating + 32
      && accounts[b].rating - 32 <= after[b].rating <= accounts[b].rating
      && after[a].name == accounts[a].name && after[b].name == accounts[b].name
      && forall q | q in accounts && q != a && q != b :: after[q] == accounts[q]
  {
    hide Rated, Expected;
    OneRating(p, accounts[a].rating, accounts[b].rating, 1.0);
    OneRating(p, accounts[b].rating, accounts[a].rating, 0.0);
  }

  // --- The whole population ----------------------------------------------------------------

  // The sum of the ratings of a list of players.
  function Total(accounts: map<Player, Account>, roll: seq<Player?>): int
  {
    if roll == [] then 0
    else
      var p := roll[|roll| - 1];
      Total(accounts, roll[..|roll| - 1]) + (if p != null && p in accounts then accounts[p].rating else 0)
  }

  lemma {:induction false} TotalSame(accounts: map<Player, Account>, accounts': map<Player, Account>, roll: seq<Player?>)
    requires forall p | p in roll && p != null ::
      (p in accounts <==> p in accounts') && (p in accounts ==> accounts'[p].rating == accounts[p].rating)
    ensures Total(accounts', roll) == Total(accounts, roll)
  {
    if roll != [] {
      TotalSame(accounts, accounts', roll[..|roll| - 1]);
    }
  }

  lemma {:induction false} TotalChanged(accounts: map<Player, Account>, roll: seq<Player?>, p: Player, a: Account)
    requires p in accounts && p in roll && forall j, k :: 0 <= j < k < |roll| ==> roll[j] != roll[k]
    ensures Total(accounts[p := a], roll) == Total(accounts, roll) - accounts[p].rating + a.rating
  {
    var n := |roll| - 1;
    if roll[n] == p {
      assert p !in roll[..n];
      TotalSame(accounts, accounts[p := a], roll[..n]);
    } else {
      assert p in roll[..n];
      TotalChanged(accounts, roll[..n], p, a);
    }
  }

  // A posted result moves the population's total by at most one point.
  lemma PostedTotal(p: Curve, accounts: map<Player, Account>, roll: seq<Player?>, a: Player, b: Player, result: nat)
    requires a in accounts && b in accounts && a != b && a in roll && b in roll && result <= 2
    requires forall j, k :: 0 <= j < k < |roll| ==> roll[j] != roll[k]
    ensures -1 <= Total(Posted(p, accounts, a, b, result), roll) - Total(accounts, roll) <= 1
  {
    var x, y := accounts[a].rating, accounts[b].rating;
    var first := accounts[a].(rating := Rated(p, x, y, Score(true, result)));
    var second := accounts[b].(rating := Rated(p, y, x, Score(false, result)));
    TotalChanged(accounts, roll, a, first);
    TotalChanged(accounts[a := first], roll, b, second);
    PairTotal(p, x, y, result);
  }
}
