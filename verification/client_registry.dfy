// The table of connected clients, with the threads that wait for it to become empty.
module Registries {
  import opened Prelude
  import opened Objects
  import opened Lobbies

  // The contents of the record.
  datatype Table = Table(clients: seq<Client?>, size: nat, waiting: nat, sem: nat) {
    ghost predicate Counted() { |clients| == MAX_CLIENTS && size == InUse(clients, null) }

    function Insert(c: Client): Table
      requires FirstIndex(clients, null) < |clients|
    {
      this.(clients := clients[FirstIndex(clients, null) := c], size := size + 1)
    }

    function Remove(c: Client): Table
    {
      if c in clients && size > 0 then this.(clients := Replace(clients, c, null), size := size - 1) else this
    }

    // When nobody is left, everybody who waits gets a token.
    function Wake(): Table
    {
      if size == 0 then this.(waiting := 0, sem := sem + waiting) else this
    }

    function Enrol(): Table
    {
      if size == 0 then this else this.(waiting := waiting + 1)
    }
  }

  lemma Placed(t: Table, c: Client)
    requires t.Counted() && t.size < MAX_CLIENTS
    ensures FirstIndex(t.clients, null) < MAX_CLIENTS && t.Insert(c).Counted()
  {
    RoomLeft(t.clients, null);
    FirstIndexFinds(t.clients, null);
    InUseAfter(t.clients, null, FirstIndex(t.clients, null), c);
  }

  lemma Displaced(t: Table, c: Client)
    requires t.Counted()
    ensures t.Remove(c).Counted() && (c in t.clients ==> t.size > 0)
  {
    if c in t.clients {
      FirstIndexFinds(t.clients, c);
      InUseAfter(t.clients, null, FirstIndex(t.clients, c), null);
    }
  }

  class ClientRegistry {
    const clients: array<Client?>
    var size: nat
    var waiting: nat
    var sem: nat

    ghost predicate Valid()
      reads this, clients
    {
      clients.Length == MAX_CLIENTS && size == InUse(clients[..], null)
    }

    ghost function State(): Table
      reads this, clients
    {
      Table(clients[..], size, waiting, sem)
    }

    constructor ()
      ensures Valid() && fresh(clients) && size == 0 && waiting == 0 && sem == 0
      ensures forall k :: 0 <= k < MAX_CLIENTS ==> clients[k] == null
    {
      clients := new Client?[MAX_CLIENTS](_ => null);
      size := 0;
      waiting := 0;
      sem := 0;
      new;
      AllEmpty(clients[..], null);
    }

    // Puts the client into the first empty slot.
    method Insert(c: Client)
      requires Valid() && size < MAX_CLIENTS
      modifies this`size, clients
      ensures Valid() && size == old(size) + 1
      ensures var k := FirstIndex(old(clients[..]), null);
        k < MAX_CLIENTS && clients[..] == old(clients[..])[k := c] && State() == old(State()).Insert(c)
    {
      RoomLeft(clients[..], null);
      FirstIndexFinds(clients[..], null);
      ghost var k := FirstIndex(clients[..], null);
      InUseAfter(clients[..], null, k, c);
      var i := 0;
      while i < MAX_CLIENTS
        invariant 0 <= i <= k
        invariant clients[..] == old(clients[..]) && size == old(size)
      {
        if clients[i] == null {
          assert !(i < k);
          clients[i] := c;
          size := size + 1;
          break;
        }
        i := i + 1;
      }
    }

    // Empties the slot of the client, if it has one.
    method Remove(c: Client) returns (res: int)
      requires Valid()
      modifies this`size, clients
      ensures Valid()
      ensures
        if c in old(clients[..])
        then res == 0 && size == old(size) - 1 && clients[..] == Replace(old(clients[..]), c, null)
        else res == -1 && size == old(size) && clients[..] == old(clients[..])
      ensures State() == old(State()).Remove(c)
    {
      res := -1;
      FirstIndexFinds(clients[..], c);
      ghost var k := FirstIndex(clients[..], c);
      if k < MAX_CLIENTS {
        InUseAfter(clients[..], null, k, null);
      }
      var i := 0;
      while i < MAX_CLIENTS
        invariant 0 <= i <= k
        invariant clients[..] == old(clients[..]) && size == old(size) && res == -1
      {
        if clients[i] == c {
          assert !(i < k);
          clients[i] := null;
          size := size - 1;
          res := 0;
          break;
        }
        i := i + 1;
      }
    }

    // When the table has become empty, every waiting thread is let through.
    method WakeIfEmpty()
      requires Valid()
      modifies this`waiting, this`sem
      ensures Valid()
      ensures State() == old(State()).Wake()
    {
      if size == 0 {
        while waiting != 0
          invariant waiting + sem == old(waiting) + old(sem) && clients[..] == old(clients[..])
        {
          sem := sem + 1;
          waiting := waiting - 1;
        }
      }
    }

    // The locked part of a wait: whether the thread may return at once.
    method Enrol() returns (done: bool)
      requires Valid()
      modifies this`waiting
      ensures Valid()
      ensures done <==> size == 0
      ensures State() == old(State()).Enrol()
    {
      done := true;
      if size != 0 {
        waiting := waiting + 1;
        done := false;
      }
    }
  }
}
