// Shared vocabulary: optional values and the two list functions that the C array list computes.
module Prelude {

  newtype byte = x: int | 0 <= x < 0x100

  datatype Option<+T> = None | Some(value: T) {
    function GetOr(default: T): T { if Some? then value else default }
  }

  // The position of the first x in s, or |s| when there is none: the C search never answers -1.
  function FirstIndex<T(==)>(s: seq<T>, x: T): (k: nat)
    ensures k <= |s|
    ensures k < |s| ==> s[k] == x
    ensures forall j :: 0 <= j < k ==> s[j] != x
  {
    if s == [] then 0
    else if s[0] == x then 0
    else 1 + FirstIndex(s[1..], x)
  }

  // Overwrites slot k, or appends when k lies past the end.
  function SetAt<T>(s: seq<T>, k: nat, x: T): seq<T>
  {
    if k < |s| then s[k := x] else s + [x]
  }

  // Overwrites the first a by b, if there is one.
  function Replace<T(==)>(s: seq<T>, a: T, b: T): seq<T>
  {
    var k := FirstIndex(s, a);
    if k < |s| then s[k := b] else s
  }

  lemma FirstIndexFinds<T>(s: seq<T>, x: T)
    ensures FirstIndex(s, x) < |s| <==> x in s
  {
  }

  lemma OccursTwice<T>(s: seq<T>, x: T, lo: nat, hi: nat)
    requires lo < hi < |s| && s[lo] == x && s[hi] == x
    ensures multiset(s)[x] >= 2
  {
    assert s == s[..hi] + s[hi..];
    assert s[..hi][lo] == x && s[hi..][0] == x;
  }

  // An element that occurs once is found at the one place where it is.
  lemma OnlyIndex<T>(s: seq<T>, x: T, k: nat)
    requires k < |s| && s[k] == x
    requires multiset(s)[x] == 1
    ensures FirstIndex(s, x) == k
    ensures forall j :: 0 <= j < |s| && s[j] == x ==> j == k
  {
    forall j | 0 <= j < |s| && s[j] == x
      ensures j == k
    {
      if j < k {
        OccursTwice(s, x, j, k);
      } else if k < j {
        OccursTwice(s, x, k, j);
      }
    }
    assert !(k < FirstIndex(s, x));
  }

  // The number of slots that are in use.
  function InUse<T(==)>(s: seq<T>, nil: T): (n: nat)
    ensures n <= |s|
  {
    if s == [] then 0 else InUse(s[..|s| - 1], nil) + (if s[|s| - 1] != nil then 1 else 0)
  }

  // Fewer in use than there are means that there is a free one.
  lemma {:induction false} RoomLeft<T>(s: seq<T>, nil: T)
    ensures InUse(s, nil) < |s| <==> nil in s
  {
    if s != [] {
      var t := s[..|s| - 1];
      RoomLeft(t, nil);
      assert s == t + [s[|s| - 1]];
    }
  }

  lemma {:induction false} InUseAfter<T>(s: seq<T>, nil: T, k: nat, x: T)
    requires k < |s|
    ensures InUse(s[k := x], nil) == InUse(s, nil) - (if s[k] != nil then 1 else 0) + (if x != nil then 1 else 0)
  {
    var n := |s| - 1;
    if k == n {
      assert s[k := x][..n] == s[..n];
    } else {
      InUseAfter(s[..n], nil, k, x);
      assert s[k := x][..n] == s[..n][k := x];
    }
  }

  lemma {:induction false} AllEmpty<T>(s: seq<T>, nil: T)
    requires forall k :: 0 <= k < |s| ==> s[k] == nil
    ensures InUse(s, nil) == 0
  {
    if s != [] {
      AllEmpty(s[..|s| - 1], nil);
    }
  }
}
