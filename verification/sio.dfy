// Numbers written into a character array, digit by digit from the last to the first, and
// reversed in place.
module Sio {

  function Digit(d: nat): char
    requires d < 36
  {
    if d < 10 then ('0' as int + d) as char else ('a' as int + d - 10) as char
  }

  function Rest(v: nat, b: nat): (q: nat)
    requires b >= 2
    ensures q == 0 <==> v < b
    ensures v > 0 ==> q < v
  {
    Split(v, b);
    v / b
  }

  function Last(v: nat, b: nat): (d: nat)
    requires b >= 2
    ensures d < b
  {
    Split(v, b);
    v % b
  }

  lemma Whole(v: nat, b: nat)
    requires b >= 2
    ensures Rest(v, b) * b + Last(v, b) == v
  {
    Split(v, b);
  }

  lemma Split(v: nat, b: nat)
    requires b >= 2
    ensures v / b * b + v % b == v && 0 <= v % b < b
    ensures v / b == 0 <==> v < b
    ensures v > 0 ==> 0 <= v / b < v
  {
    Quotient(v / b, v % b, v, b);
  }

  lemma Quotient(q: int, d: int, v: nat, b: nat)
    requires b >= 2 && 0 <= d < b && v == q * b + d
    ensures 0 <= q && (q == 0 <==> v < b) && (v > 0 ==> q < v)
  {
    if q < 0 {
      Below(q, b);
    } else if q > 0 {
      Above(q, b);
    }
  }

  lemma Below(q: int, b: int)
    requires q < 0 && b > 0
    ensures q * b <= -b
  {
    Times(-q - 1, b);
    assert (-q - 1) * b == -(q * b) - b;
  }

  lemma Above(q: int, b: int)
    requires q > 0 && b >= 2
    ensures b <= q * b && q * 2 <= q * b
  {
    Times(q - 1, b);
    Times(q, b - 2);
    assert (q - 1) * b == q * b - b && q * (b - 2) == q * b - q * 2;
  }

  lemma Times(x: int, y: int)
    requires x >= 0 && y >= 0
    ensures x * y >= 0
  {
  }

  // The digits of a number, most significant first.
  function Digits(v: nat, b: nat): (s: string)
    requires 2 <= b <= 36
    ensures |s| >= 1
    decreases v
  {
    (if v < b then "" else Digits(Rest(v, b), b)) + [Digit(Last(v, b))]
  }

  function Text(v: int, b: nat): string
    requires 2 <= b <= 36
  {
    if v < 0 then ['-'] + Digits(-v, b) else Digits(v, b)
  }

  function DigitValue(c: char): nat
  {
    if '0' <= c <= '9' then c as int - '0' as int else if 'a' <= c <= 'z' then c as int - 'a' as int + 10 else 0
  }

  // The number that a text denotes.
  function Value(s: string, b: nat): nat
  {
    if s == "" then 0 else Value(s[..|s| - 1], b) * b + DigitValue(s[|s| - 1])
  }

  function Number(s: string, b: nat): int
  {
    if s != "" && s[0] == '-' then -(Value(s[1..], b) as int) else Value(s, b)
  }

  lemma DigitOf(d: nat)
    requires d < 36
    ensures DigitValue(Digit(d)) == d && Digit(d) != '-' && Digit(d) != '\0'
  {
  }

  lemma Pushed(s: string, c: char, b: nat)
    ensures Value(s + [c], b) == Value(s, b) * b + DigitValue(c)
  {
    assert (s + [c])[..|s + [c]| - 1] == s;
  }

  lemma NoDigits(b: nat)
    ensures Value("", b) == 0
  {
  }

  lemma {:induction false} ValueOfDigits(v: nat, b: nat)
    requires 2 <= b <= 36
    ensures Value(Digits(v, b), b) == v
    ensures forall c | c in Digits(v, b) :: c != '-' && c != '\0'
    decreases v
  {
    hide Rest, Last, Digit, DigitValue, Value;
    var front := if v < b then "" else Digits(Rest(v, b), b);
    if v >= b {
      ValueOfDigits(Rest(v, b), b);
    }
    DigitOf(Last(v, b));
    Pushed(front, Digit(Last(v, b)), b);
    assert Digits(v, b) == front + [Digit(Last(v, b))];
    assert Value(front, b) == Rest(v, b) by { NoDigits(b); }
    Whole(v, b);
  }

  // What is written is read back.
  lemma TextDenotes(v: int, b: nat)
    requires 2 <= b <= 36
    ensures Number(Text(v, b), b) == v
  {
    hide Digits, Value;
    if v < 0 {
      ValueOfDigits(-v, b);
      assert Text(v, b)[1..] == Digits(-v, b);
    } else {
      ValueOfDigits(v, b);
      assert Text(v, b)[0] in Digits(v, b);
    }
  }

  function Reversed(s: string): (r: string)
    ensures |r| == |s| && forall k :: 0 <= k < |s| ==> r[k] == s[|s| - 1 - k]
  {
    if s == "" then "" else Reversed(s[1..]) + [s[0]]
  }

  lemma ReversedIs(s: string, r: string)
    requires |r| == |s| && forall k :: 0 <= k < |s| ==> r[k] == s[|s| - 1 - k]
    ensures r == Reversed(s)
  {
  }

  // Reverses the string that ends at the first null character.
  method Reverse(s: array<char>, ghost len: nat)
    requires len < s.Length && s[len] == '\0' && '\0' !in s[..len]
    modifies s
    ensures s[..len] == Reversed(old(s[..len])) && s[len..] == old(s[len..])
  {
    var n := 0;
    assert forall k :: 0 <= k < len ==> s[k] != '\0' by {
      forall k | 0 <= k < len
        ensures s[k] in s[..len]
      {
        assert s[..len][k] == s[k];
      }
    }
    while s[n] != '\0'
      invariant 0 <= n <= len
      decreases len - n
    {
      n := n + 1;
    }
    var i, j := 0, n - 1;
    while i < j
      invariant 0 <= i <= n && j == n - 1 - i && i <= j + 2
      invariant forall k :: 0 <= k < n && (k < i || k > j) ==> s[k] == old(s[n - 1 - k])
      invariant forall k :: i <= k <= j ==> s[k] == old(s[k])
      invariant s[n..] == old(s[n..])
    {
      s[i], s[j] := s[j], s[i];
      i := i + 1;
      j := j - 1;
    }
    ReversedIs(old(s[..len]), s[..len]);
  }

  // The loop over the digits, from the last to the first.
  method WriteBackwards(v: nat, s: array<char>, b: nat) returns (i: nat)
    requires 2 <= b <= 36 && |Digits(v, b)| <= s.Length
    modifies s
    ensures i == |Digits(v, b)| && Reversed(s[..i]) == Digits(v, b)
  {
    hide Reversed, Digit, Rest, Last;
    i := 0;
    var w := v;
    assert Reversed(s[..0]) == "" by { ReversedIs(s[..0], ""); }
    while true
      invariant 0 <= i < |Digits(v, b)| && Digits(v, b) == Digits(w, b) + Reversed(s[..i])
      decreases w
    {
      ghost var before := s[..i];
      ReversedPush(before, Digit(Last(w, b)));
      s[i] := Digit(Last(w, b));
      assert s[..i + 1] == before + [s[i]];
      i := i + 1;
      w := Rest(w, b);
      if w <= 0 {
        break;
      }
    }
  }

  // Writes the number in base b; the smallest long, which has no opposite, is not allowed.
  method Ltoa(v: int, s: array<char>, b: nat)
    requires -0x8000_0000_0000_0000 < v < 0x8000_0000_0000_0000 && 2 <= b <= 36
    requires |Text(v, b)| < s.Length
    modifies s
    ensures s[..|Text(v, b)|] == Text(v, b) && s[|Text(v, b)|] == '\0'
  {
    hide Digits, Reversed;
    var i := WriteBackwards(if v < 0 then -v else v, s, b);
    if v < 0 {
      ghost var before := s[..i];
      ReversedPush(before, '-');
      s[i] := '-';
      assert s[..i + 1] == before + ['-'];
      i := i + 1;
    }
    assert Reversed(s[..i]) == Text(v, b);
    NoNull(v, b);
    ReversedSame(s[..i], Text(v, b));
    s[i] := '\0';
    Reverse(s, i);
  }

  lemma NoNull(v: int, b: nat)
    requires 2 <= b <= 36
    ensures '\0' !in Text(v, b)
  {
    ValueOfDigits(if v < 0 then -v else v, b);
  }

  lemma ReversedPush(s: string, c: char)
    ensures Reversed(s + [c]) == [c] + Reversed(s)
  {
  }

  lemma ReversedSame(s: string, t: string)
    requires Reversed(s) == t
    ensures (forall c | c in s :: c in t) && |s| == |t|
  {
    forall c | c in s
      ensures c in t
    {
      var k :| 0 <= k < |s| && s[k] == c;
      assert Reversed(s)[|s| - 1 - k] == c;
    }
  }
}
