// Players and the rating arithmetic. Ratings are C ints updated through doubles; here the
// doubles are exact reals and 10^(d/400) is any curve with the properties that fix its shape.
module Players {

  const INITIAL_RATING: int := 1500
  const DRAW: nat := 0
  const FIRST_WINS: nat := 1
  const SECOND_WINS: nat := 2

  ghost predicate IsCurve(p: int -> real) {
    && (forall d :: p(d) > 0.0)
    && (forall d :: p(d) * p(-d) == 1.0)
    && (forall d, e :: d <= e ==> p(d) <= p(e))
  }

  // p(d) stands for 10^(d/400).
  type Curve = p: int -> real | IsCurve(p) witness (d => 1.0)

  // The expected score of a player whose opponent is rated d points higher.
  function Expected(p: Curve, d: int): (e: real)
    ensures 0.0 < e < 1.0
  {
    Reciprocal(p(d));
    1.0 / (1.0 + p(d))
  }

  lemma Positive(p: Curve, d: int)
    ensures p(d) > 0.0
  {
  }

  lemma Reciprocal(x: real)
    requires x > 0.0
    ensures 0.0 < 1.0 / (1.0 + x) < 1.0
  {
    var y := 1.0 / (1.0 + x);
    assert y * (1.0 + x) == 1.0;
  }

  // Conversion of a double to int: truncation toward zero.
  function Truncate(x: real): int
  {
    if x >= 0.0 then x.Floor else -((-x).Floor)
  }

  function Score(first: bool, result: nat): real
  {
    if result == DRAW then 0.5 else if (result == FIRST_WINS) == first then 1.0 else 0.0
  }

  // The exact number of points a player gains, before truncation.
  function Gain(p: Curve, mine: int, theirs: int, score: real): real
  {
    32.0 * (score - Expected(p, theirs - mine))
  }

  function Rated(p: Curve, mine: int, theirs: int, score: real): int
  {
    Truncate(mine as real + Gain(p, mine, theirs, score))
  }

  // The outcome seen from the other side of the board.
  function Swapped(result: nat): nat
  {
    if result == DRAW then DRAW else result % 2 + 1
  }

  class Player {
    const name: string
    const address: nat
    var refs: nat
    var rating: int

    constructor (name: string, address: nat)
      ensures this.name == name && rating == INITIAL_RATING && refs == 1
    {
      this.name := name;
      this.address := address;
      refs := 1;
      rating := INITIAL_RATING;
    }
  }

  // Whichever of the two records lies lower in memory, player1 is rated as the first player
  // of the result and player2 as the second.
  method PostResult(p: Curve, player1: Player, player2: Player, result: nat)
    requires player1 != player2 && result <= 2
    modifies player1`rating, player2`rating
    ensures player1.rating == Rated(p, old(player1.rating), old(player2.rating), Score(true, result))
    ensures player2.rating == Rated(p, old(player2.rating), old(player1.rating), Score(false, result))
  {
    hide IsCurve, Truncate;
    var first, second, res := player1, player2, result;
    if first.address > second.address {
      first, second := second, first;
      if res != DRAW {
        res := res % 2 + 1;
      }
    }
    var s1, s2;
    if res == DRAW {
      s1, s2 := 0.5, 0.5;
    } else if res == FIRST_WINS {
      s1, s2 := 1.0, 0.0;
    } else {
      s1, s2 := 0.0, 1.0;
    }
    Positive(p, second.rating - first.rating);
    Positive(p, first.rating - second.rating);
    var e1 := 1.0 / (1.0 + p(second.rating - first.rating));
    var e2 := 1.0 / (1.0 + p(first.rating - second.rating));
    first.rating := Truncate(first.rating as real + 32.0 * (s1 - e1));
    second.rating := Truncate(second.rating as real + 32.0 * (s2 - e2));
  }
}
