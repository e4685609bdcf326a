// The growable array under the invitation lists, the player list and the player registry.
module ArrayLists {
  import opened Prelude

  const INITIAL_CAPACITY: nat := 4

  // Elements are pointers; nil is the null pointer.
  class ArrayList<T(==)> {
    const nil: T
    var data: array<T>
    var size: nat
    var capacity: nat

    ghost predicate Valid()
      reads this
    {
      data.Length == capacity && size <= capacity && INITIAL_CAPACITY <= capacity
    }

    ghost function Contents(): (s: seq<T>)
      requires Valid()
      reads this, data
    {
      data[..size]
    }

    constructor (nil: T)
      ensures Valid() && fresh(data) && this.nil == nil
      ensures Contents() == []
    {
      this.nil := nil;
      size := 0;
      capacity := INITIAL_CAPACITY;
      data := new T[INITIAL_CAPACITY](_ => nil);
    }

    method Get(idx: nat) returns (item: T)
      requires Valid()
      ensures item == if idx < |Contents()| then Contents()[idx] else nil
    {
      item := if idx < size then data[idx] else nil;
    }

    method Set(idx: nat, item: T)
      requires Valid()
      modifies this`data, this`size, this`capacity, data
      ensures Valid() && (data == old(data) || fresh(data))
      ensures Contents() == SetAt(old(Contents()), idx, item)
    {
      if idx < size {
        data[idx] := item;
      } else {
        Push(item);
      }
    }

    method Push(item: T)
      requires Valid()
      modifies this`data, this`size, this`capacity, data
      ensures Valid() && (data == old(data) || fresh(data))
      ensures Contents() == old(Contents()) + [item]
    {
      if size >= capacity {
        capacity := capacity * 2;
        var bigger := new T[capacity](_ => nil);
        var i := 0;
        while i < data.Length
          invariant 0 <= i <= data.Length <= bigger.Length
          invariant bigger[..i] == data[..i]
          modifies bigger
        {
          bigger[i] := data[i];
          i := i + 1;
        }
        data := bigger;
      }
      data[size] := item;
      size := size + 1;
    }

    method Find(item: T) returns (idx: nat)
      requires Valid()
      ensures idx == FirstIndex(Contents(), item)
    {
      var i := 0;
      while i < size
        invariant 0 <= i <= size
        invariant forall k :: 0 <= k < i ==> data[k] != item
      {
        if data[i] == item {
          FirstHit(Contents(), item, i);
          return i;
        }
        i := i + 1;
      }
      FirstHit(Contents(), item, size);
      return size;
    }

    // A copy of the contents followed by the null pointer that ends it.
    method ToArray() returns (arr: array<T>)
      requires Valid()
      ensures fresh(arr) && arr[..] == Contents() + [nil]
    {
      arr := new T[size + 1](_ => nil);
      var i := 0;
      while i < size
        invariant 0 <= i <= size
        invariant arr[..i] == data[..i]
      {
        arr[i] := data[i];
        i := i + 1;
      }
      arr[size] := nil;
    }
  }

  lemma FirstHit<T>(s: seq<T>, x: T, k: nat)
    requires k <= |s| && (k < |s| ==> s[k] == x)
    requires forall j :: 0 <= j < k ==> s[j] != x
    ensures FirstIndex(s, x) == k
  {
  }
}
