// The client registry as the threads use it: every step is one region under the registry's
// mutex, or one passage through the semaphore, and the threads interleave as they like.
module Waiting {
  import opened Prelude
  import opened Objects
  import opened Lobbies
  import opened Registries

  // The record, and the threads that have enrolled and not yet been let through.
  datatype Yard = Yard(table: Table, blocked: set<nat>)

  datatype Act =
    | Register(client: Client)
    | Unregister(client: Client)
    | Wait(thread: nat)
    | Return(thread: nat)

  ghost predicate Enabled(y: Yard, a: Act)
  {
    match a
    case Register(c) => c !in y.table.clients
    case Unregister(_) => true
    case Wait(t) => t !in y.blocked
    case Return(t) => t in y.blocked && y.table.sem > 0
  }

  ghost function Next(y: Yard, a: Act): Yard
  {
    match a
    case Register(c) =>
      if y.table.size < MAX_CLIENTS && FirstIndex(y.table.clients, null) < |y.table.clients|
      then y.(table := y.table.Insert(c)) else y
    case Unregister(c) => y.(table := y.table.Remove(c).Wake())
    case Wait(t) => Yard(y.table.Enrol(), if y.table.size == 0 then y.blocked else y.blocked + {t})
    case Return(t) =>
      if y.table.sem > 0 then Yard(y.table.(sem := y.table.sem - 1), y.blocked - {t}) else y
  }

  ghost function Run(acts: seq<Act>): Yard
  {
    if acts == [] then Yard(Table(seq(MAX_CLIENTS, _ => null), 0, 0, 0), {})
    else Next(Run(acts[..|acts| - 1]), acts[|acts| - 1])
  }

  ghost predicate Possible(acts: seq<Act>)
  {
    acts != [] ==> Possible(acts[..|acts| - 1]) && Enabled(Run(acts[..|acts| - 1]), acts[|acts| - 1])
  }

  // The size is right, nobody waits for an empty registry that is empty, and there is a token
  // or an entry in the waiting count for every blocked thread.
  ghost predicate Orderly(y: Yard)
  {
    && y.table.Counted()
    && (y.table.waiting > 0 ==> y.table.size > 0)
    && y.table.waiting + y.table.sem == |y.blocked|
  }

  lemma NextOrderly(y: Yard, a: Act)
    requires Orderly(y) && Enabled(y, a)
    ensures Orderly(Next(y, a))
  {
    match a
    case Register(c) =>
      if y.table.size < MAX_CLIENTS {
        Placed(y.table, c);
      }
    case Unregister(c) => Displaced(y.table, c);
    case Wait(t) =>
    case Return(t) =>
  }

  // In every interleaving the size is the number of occupied slots and at most the capacity, a
  // registration below the capacity finds a slot, and once the registry is empty there is a
  // token for every blocked thread.
  lemma {:induction false} RunsOrderly(acts: seq<Act>)
    requires Possible(acts)
    ensures var y := Run(acts);
      && Orderly(y)
      && y.table.size <= MAX_CLIENTS
      && (y.table.size < MAX_CLIENTS <==> null in y.table.clients)
      && (y.table.size == 0 ==> y.table.sem == |y.blocked|)
  {
    if acts == [] {
      AllEmpty(Run(acts).table.clients, null);
    } else {
      RunsOrderly(acts[..|acts| - 1]);
      NextOrderly(Run(acts[..|acts| - 1]), acts[|acts| - 1]);
    }
    RoomLeft(Run(acts).table.clients, null);
  }

  ghost function Returns(y: Yard, order: seq<nat>): Yard
    decreases |order|
  {
    if order == [] then y else Returns(Next(y, Return(order[0])), order[1..])
  }

  // The blocked threads can all return, in whatever order, exactly if nobody is counted as
  // waiting; then no token is left over. So it is when the registry is empty.
  lemma {:induction false} AllReturn(y: Yard, order: seq<nat>)
    requires Orderly(y)
    requires forall t :: t in order <==> t in y.blocked
    requires forall j, k :: 0 <= j < k < |order| ==> order[j] != order[k]
    ensures Returns(y, order).blocked == {} <==> y.table.waiting == 0
    ensures y.table.waiting == 0 ==> Returns(y, order).table == y.table.(sem := 0)
    ensures y.table.size == 0 ==> y.table.waiting == 0
    decreases |order|
  {
    if order == [] {
      assert y.blocked == {};
    } else if y.table.sem == 0 {
      assert order[0] in y.blocked;
      NoToken(y, order);
    } else {
      assert order[0] in y.blocked;
      var y' := Next(y, Return(order[0]));
      NextOrderly(y, Return(order[0]));
      forall t | t in y'.blocked
        ensures t in order[1..]
      {
        var k :| 0 <= k < |order| && order[k] == t;
        assert order[1..][k - 1] == t;
      }
      AllReturn(y', order[1..]);
    }
  }

  // A token is made only when the registry is empty: while it is not, nobody is let through who
  // could not go before.
  lemma {:induction false} NoTokenBefore(acts: seq<Act>, more: seq<Act>)
    requires Possible(acts + more) && Run(acts).table.sem == 0
    requires forall n :: 0 <= n <= |more| ==> Run(acts + more[..n]).table.size > 0
    ensures Run(acts + more).table.sem == 0
    ensures forall t :: !Enabled(Run(acts + more), Return(t))
  {
    if more == [] {
      assert acts + more == acts;
    } else {
      var n := |more| - 1;
      OneLess(acts, more);
      forall m | 0 <= m <= n
        ensures Run(acts + more[..n][..m]).table.size > 0
      {
        assert more[..n][..m] == more[..m];
      }
      NoTokenBefore(acts, more[..n]);
      assert more[..|more|] == more;
      assert Run(acts + more).table.size > 0;
      hide Run;
    }
  }

  // Without a token nobody returns.
  lemma {:induction false} NoToken(y: Yard, order: seq<nat>)
    requires y.table.sem == 0
    ensures Returns(y, order) == y
    decreases |order|
  {
    if order != [] {
      NoToken(y, order[1..]);
    }
  }

  // Once the registry has been empty, every blocked thread has its token for as long as nobody
  // registers, or nobody enrols.
  lemma {:induction false} TokensStay(acts: seq<Act>, more: seq<Act>)
    requires Possible(acts + more) && Run(acts).table.size == 0
    requires (forall a | a in more :: !a.Register?) || (forall a | a in more :: !a.Wait?)
    ensures var y := Run(acts + more);
      && Orderly(y) && y.table.waiting == 0 && y.table.sem == |y.blocked|
      && ((forall a | a in more :: !a.Register?) ==> y.table.size == 0)
      && forall t | t in y.blocked :: Enabled(y, Return(t))
  {
    hide Orderly, Run, Next;
    RunsOrderly(acts + more);
    if more == [] {
      assert acts + more == acts;
    } else {
      var n := |more| - 1;
      OneLess(acts, more);
      assert more[n] in more && forall a | a in more[..n] :: a in more;
      TokensStay(acts, more[..n]);
      StillNobody(Run(acts + more[..n]), more[n]);
    }
    NobodyWaits(Run(acts + more));
  }

  lemma OneLess(acts: seq<Act>, more: seq<Act>)
    requires Possible(acts + more) && more != []
    ensures var n := |more| - 1;
      Possible(acts + more[..n]) && Run(acts + more) == Next(Run(acts + more[..n]), more[n])
  {
    hide Next, Enabled;
    assert (acts + more)[..|acts + more| - 1] == acts + more[..|more| - 1];
  }

  // In an empty registry nobody starts to wait, and without enrolling nobody does.
  lemma StillNobody(y: Yard, a: Act)
    requires Orderly(y) && y.table.waiting == 0 && (y.table.size == 0 || !a.Wait?)
    ensures Next(y, a).table.waiting == 0
    ensures y.table.size == 0 && !a.Register? ==> Next(y, a).table.size == 0
  {
    NobodyGone(y);
  }

  lemma NobodyWaits(y: Yard)
    requires Orderly(y)
    ensures y.table.size == 0 ==> y.table.waiting == 0
    ensures y.table.waiting == 0 ==> y.table.sem == |y.blocked| && forall t | t in y.blocked :: Enabled(y, Return(t))
  {
    if y.table.waiting == 0 {
      forall t | t in y.blocked
        ensures Enabled(y, Return(t))
      {
        assert y.blocked != {};
      }
    }
  }

  lemma NobodyGone(y: Yard)
    requires Orderly(y)
    ensures forall c :: y.table.size == 0 ==> y.table.Remove(c) == y.table
  {
  }

  lemma OneMore(acts: seq<Act>, a: Act)
    requires Possible(acts) && Enabled(Run(acts), a)
    ensures Possible(acts + [a]) && Run(acts + [a]) == Next(Run(acts), a)
  {
  }

  // The registry's documentation promises a waiting thread that it proceeds when the registry
  // has become empty. It need not: when clients register again first, a thread that enrols
  // later can pass with the token.
  lemma TokenTaken(c: Client, d: Client)
    ensures var emptied := [Register(c), Wait(0), Unregister(c)];
      var acts := emptied + [Register(d)] + [Wait(1)] + [Return(1)];
      && Possible(acts) && Run(emptied).table.size == 0 && Run(emptied).blocked == {0}
      && Run(acts).blocked == {0} && !Enabled(Run(acts), Return(0))
  {
    hide Run, Possible, FirstIndex, Replace;
    var none: seq<Client?> := seq(MAX_CLIENTS, _ => null);
    assert Run([]) == Yard(Table(none, 0, 0, 0), {}) && Possible([]) by { Beginning(); }
    OnlySeat(none, c);
    OnlySeat(none, d);
    OneMore([], Register(c));
    OneMore([Register(c)], Wait(0));
    assert [] + [Register(c)] == [Register(c)] && [Register(c)] + [Wait(0)] == [Register(c), Wait(0)];
    OneMore([Register(c), Wait(0)], Unregister(c));
    var emptied := [Register(c), Wait(0)] + [Unregister(c)];
    assert emptied == [Register(c), Wait(0), Unregister(c)];
    assert Run(emptied) == Yard(Table(none, 0, 0, 1), {0});
    OneMore(emptied, Register(d));
    OneMore(emptied + [Register(d)], Wait(1));
    OneMore(emptied + [Register(d)] + [Wait(1)], Return(1));
  }

  lemma OnlySeat(none: seq<Client?>, c: Client)
    requires |none| == MAX_CLIENTS && forall k :: 0 <= k < |none| ==> none[k] == null
    ensures c !in none && FirstIndex(none, null) == 0
    ensures c in none[0 := c] && Replace(none[0 := c], c, null) == none
  {
    assert none[0 := c][0] == c && none[0 := c][0 := null] == none;
  }

  lemma Beginning()
    ensures Run([]) == Yard(Table(seq(MAX_CLIENTS, _ => null), 0, 0, 0), {}) && Possible([])
  {
  }
}
