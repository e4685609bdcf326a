// The numbers given out by an invitation list: the first free slot is taken, a freed slot stays
// for reuse, and the list never shrinks.
module Slots {
  import opened Prelude
  import opened ArrayLists

  datatype Op<T> = Add(item: T) | Remove(item: T)

  function Apply<T(==)>(s: seq<T>, nil: T, op: Op<T>): seq<T>
  {
    match op
    case Add(x) => SetAt(s, FirstIndex(s, nil), x)
    case Remove(x) => Replace(s, x, nil)
  }

  function After<T(==)>(nil: T, ops: seq<Op<T>>): seq<T>
  {
    if ops == [] then [] else Apply(After(nil, ops[..|ops| - 1]), nil, ops[|ops| - 1])
  }

  // The largest number of items that were in the list at one time.
  function Peak<T(==)>(nil: T, ops: seq<Op<T>>): nat
  {
    if ops == [] then 0
    else
      var before, now := Peak(nil, ops[..|ops| - 1]), InUse(After(nil, ops), nil);
      if now > before then now else before
  }

  // No list is longer than it ever had to be.
  lemma {:induction false} Tight<T>(nil: T, ops: seq<Op<T>>)
    requires forall k :: 0 <= k < |ops| ==> ops[k].item != nil
    ensures |After(nil, ops)| == Peak(nil, ops)
  {
    if ops != [] {
      var n := |ops| - 1;
      Tight(nil, ops[..n]);
      Grown(After(nil, ops[..n]), nil, ops[n]);
    }
  }

  // A list grows only when all of it is in use.
  lemma Grown<T>(s: seq<T>, nil: T, op: Op<T>)
    requires op.item != nil
    ensures var s' := Apply(s, nil, op);
      |s'| == if InUse(s', nil) > |s| then InUse(s', nil) else |s|
  {
    hide InUse;
    RoomLeft(s, nil);
    FirstIndexFinds(s, nil);
    FirstIndexFinds(s, op.item);
    match op
    case Add(x) =>
      var k := FirstIndex(s, nil);
      if k < |s| {
        InUseAfter(s, nil, k, x);
      } else {
        Appended(s, nil, x);
      }
    case Remove(x) =>
      var k := FirstIndex(s, x);
      if k < |s| {
        InUseAfter(s, nil, k, nil);
      }
  }

  lemma Appended<T>(s: seq<T>, nil: T, x: T)
    ensures InUse(s + [x], nil) == InUse(s, nil) + (if x != nil then 1 else 0)
  {
  }

  // The operations on the growable array itself.
  method Perform<T(==)>(list: ArrayList<T>, op: Op<T>)
    requires list.Valid()
    modifies list`data, list`size, list`capacity, list.data
    ensures list.Valid() && (list.data == old(list.data) || fresh(list.data))
    ensures list.Contents() == Apply(old(list.Contents()), list.nil, op)
  {
    match op {
      case Add(x) =>
        var k := list.Find(list.nil);
        list.Set(k, x);
      case Remove(x) =>
        var k := list.Find(x);
        if k < list.size {
          list.Set(k, list.nil);
        }
    }
  }
}
