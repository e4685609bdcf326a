// The elementary changes to the server's pointer graph. Each one moves a pointer between a
// local variable and a record, so that no count changes and no pointer is left dangling.
module Links {
  import opened Prelude
  import opened Players
  import opened Objects
  import opened Lobbies

  // --- Which parts of the graph a change leaves alone ------------------------------------

  lemma RegistryKept(l: Lobby, l': Lobby)
    requires RegistryLinked(l) && l'.registry == l.registry && l'.loops == l.loops
    requires forall c | c in l.members :: c in l.registry ==> c in l'.members
    requires l.accounts.Keys <= l'.accounts.Keys
    ensures RegistryLinked(l')
  {
  }

  lemma RollKept(l: Lobby, l': Lobby)
    requires RollLinked(l) && l'.roll == l.roll && l'.accounts.Keys == l.accounts.Keys
    ensures RollLinked(l')
  {
  }

  lemma OffersKept(l: Lobby, l': Lobby)
    requires forall i | i in l.offers :: OfferLinked(l, l.offers[i])
    requires l'.offers == l.offers
    requires forall i | i in l.offers :: l.offers[i].source in l'.members && l.offers[i].target in l'.members
    ensures forall i | i in l'.offers :: OfferLinked(l', l'.offers[i])
  {
  }

  lemma OffersSame(l: Lobby, l': Lobby)
    requires forall i | i in l.offers :: OfferLinked(l, l.offers[i])
    requires l'.offers == l.offers && l'.members == l.members
    ensures forall i | i in l'.offers :: OfferLinked(l', l'.offers[i])
  {
  }

  lemma MembersKept(l: Lobby, l': Lobby)
    requires forall c | c in l.members :: MemberLinked(l, c)
    requires forall c | c in l'.members :: c in l.members && l'.members[c] == l.members[c]
    requires l'.registry == l.registry && l.accounts.Keys <= l'.accounts.Keys
    requires forall i | i in l.offers ::
      i in l'.offers && l'.offers[i].source == l.offers[i].source && l'.offers[i].target == l.offers[i].target
    ensures forall c | c in l'.members :: MemberLinked(l', c)
  {
  }

  lemma OffersOf(l: Lobby, l': Lobby, c: Client)
    requires l'.offers.Keys == l.offers.Keys
    requires forall i | i in l.offers ::
      l'.offers[i].source == l.offers[i].source && l'.offers[i].target == l.offers[i].target
    ensures SourceOf(l', c) == SourceOf(l, c) && TargetOf(l', c) == TargetOf(l, c)
  {
  }

  lemma SameAsBefore(l: Lobby, h: Held)
    ensures SameCounts(l, h, l, h)
  {
  }

  lemma SameClients(l: Lobby, h: Held, l': Lobby, h': Held)
    requires l'.registry == l.registry && h'.clients == h.clients && l'.offers.Keys == l.offers.Keys
    requires forall i | i in l.offers ::
      l'.offers[i].source == l.offers[i].source && l'.offers[i].target == l.offers[i].target
    ensures forall c :: ClientCount(l', h', c) == ClientCount(l, h, c)
  {
    forall c
      ensures ClientCount(l', h', c) == ClientCount(l, h, c)
    {
      OffersOf(l, l', c);
    }
  }

  lemma SamePlayers(l: Lobby, h: Held, l': Lobby, h': Held)
    requires l'.members.Keys == l.members.Keys && l'.loops == l.loops && h'.players == h.players
    requires forall c | c in l.members :: l'.members[c].player == l.members[c].player
    ensures forall p :: PlayerCount(l', h', p) == PlayerCount(l, h, p)
  {
    forall p
      ensures PlayerCount(l', h', p) == PlayerCount(l, h, p)
    {
      assert LoopsOf(l', p) == LoopsOf(l, p) && LoginsOf(l', p) == LoginsOf(l, p);
    }
  }

  lemma WithoutOne(l: Lobby, i: Invitation, l': Lobby, c: Client)
    requires i in l.offers && l' == l.(offers := l.offers - {i})
    ensures |SourceOf(l', c)| == |SourceOf(l, c)| - (if l.offers[i].source == c then 1 else 0)
    ensures |TargetOf(l', c)| == |TargetOf(l, c)| - (if l.offers[i].target == c then 1 else 0)
  {
    assert SourceOf(l', c) == SourceOf(l, c) - {i};
    assert TargetOf(l', c) == TargetOf(l, c) - {i};
  }

  // --- Taking and dropping a pointer ------------------------------------------------------

  lemma HoldClient(l: Lobby, h: Held, c: Client)
    requires Linked(l, h) && c in l.members
    ensures Linked(l, KeepClient(h, c))
    ensures forall d :: ClientCount(l, KeepClient(h, c), d) == ClientCount(l, h, d) + (if d == c then 1 else 0)
    ensures forall i | i in l.offers :: InvCount(l, KeepClient(h, c), i) == InvCount(l, h, i)
    ensures forall p :: PlayerCount(l, KeepClient(h, c), p) == PlayerCount(l, h, p)
  {
  }

  lemma HoldInv(l: Lobby, h: Held, i: Invitation)
    requires Linked(l, h) && i in l.offers
    ensures Linked(l, KeepInv(h, i))
    ensures forall c :: ClientCount(l, KeepInv(h, i), c) == ClientCount(l, h, c)
    ensures forall j | j in l.offers :: InvCount(l, KeepInv(h, i), j) == InvCount(l, h, j) + (if j == i then 1 else 0)
    ensures forall p :: PlayerCount(l, KeepInv(h, i), p) == PlayerCount(l, h, p)
  {
  }

  lemma HoldPlayer(l: Lobby, h: Held, p: Player)
    requires Linked(l, h) && p in l.accounts
    ensures Linked(l, KeepPlayer(h, p))
    ensures forall c :: ClientCount(l, KeepPlayer(h, p), c) == ClientCount(l, h, c)
    ensures forall i | i in l.offers :: InvCount(l, KeepPlayer(h, p), i) == InvCount(l, h, i)
    ensures forall q :: PlayerCount(l, KeepPlayer(h, p), q) == PlayerCount(l, h, q) + (if q == p then 1 else 0)
  {
  }

  lemma LooseClient(l: Lobby, h: Held, c: Client)
    requires Linked(l, h) && c in h.clients
    ensures Linked(l, DropClient(h, c)) && KeepClient(DropClient(h, c), c) == h
    ensures c in l.members && ClientCount(l, h, c) >= 1
  {
    hide MemberLinked, OfferLinked, RegistryLinked, RollLinked, SourceOf, TargetOf, LoopsOf, LoginsOf;
    assert h.clients - multiset{c} + multiset{c} == h.clients;
  }

  lemma LooseInv(l: Lobby, h: Held, i: Invitation)
    requires Linked(l, h) && i in h.invs
    ensures Linked(l, DropInv(h, i)) && KeepInv(DropInv(h, i), i) == h
    ensures i in l.offers && InvCount(l, h, i) >= 1
  {
  }

  lemma LoosePlayer(l: Lobby, h: Held, p: Player)
    requires Linked(l, h) && p in h.players
    ensures Linked(l, DropPlayer(h, p)) && KeepPlayer(DropPlayer(h, p), p) == h
    ensures p in l.accounts && PlayerCount(l, h, p) >= 2
  {
    hide MemberLinked, OfferLinked, RegistryLinked, RollLinked, SourceOf, TargetOf, LoopsOf, LoginsOf;
    assert h.players - multiset{p} + multiset{p} == h.players;
  }

  // --- Freeing a client -------------------------------------------------------------------

  lemma NoneNames(l: Lobby, c: Client)
    requires |SourceOf(l, c)| == 0 && |TargetOf(l, c)| == 0
    ensures forall i | i in l.offers :: !Names(l.offers[i], c)
  {
    forall i | i in l.offers
      ensures !Names(l.offers[i], c)
    {
      assert i !in SourceOf(l, c) && i !in TargetOf(l, c);
    }
  }

  // A client whose count reaches zero is logged out, named by no invitation, and lists none.
  lemma UncountedClient(l: Lobby, h: Held, c: Client)
    requires Linked(l, h) && c in l.members && ClientCount(l, h, c) == 0
    ensures l.members[c].player == null && c !in l.registry && c !in h.clients
    ensures forall i | i in l.offers :: !Names(l.offers[i], c)
    ensures forall k :: 0 <= k < |l.members[c].slots| ==> l.members[c].slots[k] == null
  {
    NoneNames(l, c);
    assert MemberLinked(l, c);
  }

  lemma CountsWithoutClient(l: Lobby, h: Held, c: Client, l': Lobby)
    requires c in l.members && l.members[c].player == null
    requires forall i | i in l.offers :: !Names(l.offers[i], c)
    requires l' == l.(members := l.members - {c})
    ensures SameCounts(l, h, l', h)
  {
    forall d | d in l'.members
      ensures ClientCount(l', h, d) == ClientCount(l, h, d)
    {
      OffersOf(l, l', d);
    }
    forall p | p in l'.accounts
      ensures PlayerCount(l', h, p) == PlayerCount(l, h, p)
    {
      assert LoopsOf(l', p) == LoopsOf(l, p) && LoginsOf(l', p) == LoginsOf(l, p);
    }
  }

  lemma OffersWithoutClient(l: Lobby, h: Held, c: Client, l': Lobby)
    requires Linked(l, h) && c in l.members && ClientCount(l, h, c) == 0
    requires l' == l.(members := l.members - {c})
    ensures forall i | i in l'.offers :: OfferLinked(l', l'.offers[i])
    ensures HeldLinked(l', h)
  {
    hide RegistryLinked, RollLinked, MemberLinked;
    NoneNames(l, c);
  }

  lemma FreeClient(l: Lobby, h: Held, c: Client, l': Lobby)
    requires Linked(l, h) && c in l.members && ClientCount(l, h, c) == 0
    requires l' == l.(members := l.members - {c})
    ensures Linked(l', h) && SameCounts(l, h, l', h)
  {
    hide RollLinked, HeldLinked, MemberLinked, OfferLinked, RegistryLinked, ClientCount, SameCounts;
    UncountedClient(l, h, c);
    CountsWithoutClient(l, h, c, l');
    OffersWithoutClient(l, h, c, l');
    RegistryKept(l, l');
    RollKept(l, l');
    MembersKept(l, l');
  }

  // --- Freeing an invitation --------------------------------------------------------------

  lemma CountsWithoutInv(l: Lobby, h: Held, i: Invitation, l': Lobby, h': Held)
    requires i in l.offers && l' == l.(offers := l.offers - {i}) && h' == HandedOver(l, h, i)
    ensures SameCounts(l, h, l', h')
  {
    forall d | d in l'.members
      ensures ClientCount(l', h', d) == ClientCount(l, h, d)
    {
      WithoutOne(l, i, l', d);
    }
    SamePlayers(l, h, l', h');
  }

  lemma MembersWithoutInv(l: Lobby, h: Held, i: Invitation, l': Lobby)
    requires Linked(l, h) && i in l.offers && InvCount(l, h, i) == 0
    requires l' == l.(offers := l.offers - {i})
    ensures forall c | c in l'.members :: MemberLinked(l', c)
  {
  }

  lemma HeldWithoutInv(l: Lobby, h: Held, i: Invitation, l': Lobby)
    requires Linked(l, h) && i in l.offers && InvCount(l, h, i) == 0
    requires l' == l.(offers := l.offers - {i})
    ensures HeldLinked(l', HandedOver(l, h, i))
    ensures forall j | j in l'.offers :: OfferLinked(l', l'.offers[j])
  {
  }

  lemma FreeInv(l: Lobby, h: Held, i: Invitation, l': Lobby, h': Held)
    requires Linked(l, h) && i in l.offers && InvCount(l, h, i) == 0
    requires l' == l.(offers := l.offers - {i}) && h' == HandedOver(l, h, i)
    ensures Linked(l', h') && SameCounts(l, h, l', h')
  {
    hide RollLinked, HeldLinked, MemberLinked, OfferLinked, RegistryLinked, InvCount, SameCounts;
    CountsWithoutInv(l, h, i, l', h');
    MembersWithoutInv(l, h, i, l');
    HeldWithoutInv(l, h, i, l');
    RegistryKept(l, l');
    RollKept(l, l');
  }

  // --- Changing one client ----------------------------------------------------------------

  function WithMember(l: Lobby, c: Client, m: Member): Lobby { l.(members := l.members[c := m]) }

  lemma MemberChanged(l: Lobby, h: Held, c: Client, m: Member, h': Held)
    requires Linked(l, h) && c in l.members
    requires MemberLinked(WithMember(l, c, m), c) && HeldLinked(l, h')
    ensures Linked(WithMember(l, c, m), h')
  {
    var l' := WithMember(l, c, m);
    RegistryKept(l, l');
    RollKept(l, l');
    OffersKept(l, l');
    OtherMembers(l, h, c, m);
  }

  lemma OtherMembers(l: Lobby, h: Held, c: Client, m: Member)
    requires Linked(l, h) && c in l.members && MemberLinked(WithMember(l, c, m), c)
    ensures forall d | d in WithMember(l, c, m).members :: MemberLinked(WithMember(l, c, m), d)
  {
  }

  // A new player for a client moves one pointer between the client and the running request.
  lemma PlayerMoved(l: Lobby, h: Held, c: Client, p: Player, l': Lobby, h': Held)
    requires c in l.members
    requires
      || (l.members[c].player == null && l' == WithMember(l, c, l.members[c].(player := p)) &&
          h' == DropPlayer(h, p) && p in h.players)
      || (l.members[c].player == p && l' == WithMember(l, c, l.members[c].(player := null)) && h' == KeepPlayer(h, p))
    ensures SameCounts(l, h, l', h')
  {
    SameClients(l, h, l', h');
    forall q | q in l'.accounts
      ensures PlayerCount(l', h', q) == PlayerCount(l, h, q)
    {
      LoginMoved(l, c, p, l', q);
    }
    forall i | i in l'.offers
      ensures InvCount(l', h', i) == InvCount(l, h, i)
    {
      assert forall d :: ListedIn(l', d, i) == ListedIn(l, d, i);
    }
  }

  lemma LoginMoved(l: Lobby, c: Client, p: Player, l': Lobby, q: Player)
    requires c in l.members
    requires
      || (l.members[c].player == null && l' == WithMember(l, c, l.members[c].(player := p)))
      || (l.members[c].player == p && l' == WithMember(l, c, l.members[c].(player := null)))
    ensures LoopsOf(l', q) == LoopsOf(l, q)
    ensures |LoginsOf(l', q)| ==
      |LoginsOf(l, q)| + (if q != p then 0 else if l.members[c].player == null then 1 else -1)
  {
    assert LoopsOf(l', q) == LoopsOf(l, q);
    if q != p {
      assert LoginsOf(l', q) == LoginsOf(l, q);
    } else if l.members[c].player == null {
      assert LoginsOf(l', q) == LoginsOf(l, q) + {c};
    } else {
      assert LoginsOf(l', q) == LoginsOf(l, q) - {c};
    }
  }

  lemma LogIn(l: Lobby, h: Held, c: Client, p: Player, l': Lobby)
    requires Linked(l, h) && c in l.members && c in l.registry && l.members[c].player == null && p in h.players
    requires l' == WithMember(l, c, l.members[c].(player := p))
    ensures Linked(l', DropPlayer(h, p)) && SameCounts(l, h, l', DropPlayer(h, p))
  {
    hide RollLinked, RegistryLinked, OfferLinked, SameCounts;
    PlayerMoved(l, h, c, p, l', DropPlayer(h, p));
    assert MemberLinked(l, c);
    MemberChanged(l, h, c, l.members[c].(player := p), DropPlayer(h, p));
  }

  lemma LogOut(l: Lobby, h: Held, c: Client, p: Player, l': Lobby)
    requires Linked(l, h) && c in l.members && l.members[c].player == p
    requires l' == WithMember(l, c, l.members[c].(player := null))
    ensures Linked(l', KeepPlayer(h, p)) && SameCounts(l, h, l', KeepPlayer(h, p))
  {
    hide RollLinked, RegistryLinked, OfferLinked, SameCounts;
    PlayerMoved(l, h, c, p, l', KeepPlayer(h, p));
    assert MemberLinked(l, c);
    MemberChanged(l, h, c, l.members[c].(player := null), KeepPlayer(h, p));
  }

  // --- Storing and clearing a slot --------------------------------------------------------

  function WithSlots(l: Lobby, c: Client, slots: seq<Invitation?>): Lobby
    requires c in l.members
  {
    WithMember(l, c, l.members[c].(slots := slots))
  }

  lemma SlotsMoved(l: Lobby, h: Held, c: Client, slots: seq<Invitation?>, i: Invitation, h': Held)
    requires Linked(l, h) && c in l.members && i in l.offers && Names(l.offers[i], c)
    requires
      || (multiset(slots)[i] == multiset(l.members[c].slots)[i] + 1 && i in h.invs && h' == DropInv(h, i))
      || (multiset(slots)[i] + 1 == multiset(l.members[c].slots)[i] && h' == KeepInv(h, i))
    requires forall j: Invitation :: j != i ==> multiset(slots)[j] == multiset(l.members[c].slots)[j]
    ensures SameCounts(l, h, WithSlots(l, c, slots), h')
  {
    hide Linked, InvCount, PlayerCount, ClientCount, Names;
    var l' := WithSlots(l, c, slots);
    ListsMoved(l, h, c, slots, i, h');
    SamePlayers(l, h, l', h');
    SameClients(l, h, l', h');
  }

  lemma ListsMoved(l: Lobby, h: Held, c: Client, slots: seq<Invitation?>, i: Invitation, h': Held)
    requires Linked(l, h) && c in l.members && i in l.offers && Names(l.offers[i], c)
    requires
      || (multiset(slots)[i] == multiset(l.members[c].slots)[i] + 1 && i in h.invs && h' == DropInv(h, i))
      || (multiset(slots)[i] + 1 == multiset(l.members[c].slots)[i] && h' == KeepInv(h, i))
    requires forall j: Invitation :: j != i ==> multiset(slots)[j] == multiset(l.members[c].slots)[j]
    ensures forall j | j in l.offers :: InvCount(WithSlots(l, c, slots), h', j) == InvCount(l, h, j)
  {
    hide RegistryLinked, RollLinked, MemberLinked, HeldLinked;
    var l' := WithSlots(l, c, slots);
    forall j | j in l.offers
      ensures InvCount(l', h', j) == InvCount(l, h, j)
    {
      assert OfferLinked(l, l.offers[j]);
      ListedMoved(l, c, slots, j);
    }
  }

  lemma ListedMoved(l: Lobby, c: Client, slots: seq<Invitation?>, j: Invitation)
    requires c in l.members
    ensures ListedIn(WithSlots(l, c, slots), c, j) == multiset(slots)[j]
    ensures forall d :: d != c ==> ListedIn(WithSlots(l, c, slots), d, j) == ListedIn(l, d, j)
  {
  }

  lemma SetAtCounts(s: seq<Invitation?>, k: nat, i: Invitation)
    requires k < |s| ==> s[k] == null
    ensures multiset(SetAt(s, k, i))[i] == multiset(s)[i] + 1
    ensures forall j: Invitation :: j != i ==> multiset(SetAt(s, k, i))[j] == multiset(s)[j]
  {
  }

  lemma StoreSlot(l: Lobby, h: Held, c: Client, k: nat, i: Invitation, l': Lobby)
    requires Linked(l, h) && c in l.members && i in h.invs && Names(l.offers[i], c)
    requires k < |l.members[c].slots| ==> l.members[c].slots[k] == null
    requires l' == WithSlots(l, c, SetAt(l.members[c].slots, k, i))
    ensures Linked(l', DropInv(h, i)) && SameCounts(l, h, l', DropInv(h, i))
  {
    hide RollLinked, RegistryLinked, OfferLinked, SameCounts;
    var slots := SetAt(l.members[c].slots, k, i);
    SetAtCounts(l.members[c].slots, k, i);
    SlotsMoved(l, h, c, slots, i, DropInv(h, i));
    assert MemberLinked(l, c);
    MemberChanged(l, h, c, l.members[c].(slots := slots), DropInv(h, i));
  }

  lemma ClearSlot(l: Lobby, h: Held, c: Client, k: nat, i: Invitation, l': Lobby)
    requires Linked(l, h) && c in l.members && k < |l.members[c].slots| && l.members[c].slots[k] == i
    requires l' == WithSlots(l, c, l.members[c].slots[k := null])
    ensures Linked(l', KeepInv(h, i)) && SameCounts(l, h, l', KeepInv(h, i))
  {
    hide RollLinked, RegistryLinked, OfferLinked, SameCounts;
    var slots := l.members[c].slots[k := null];
    assert MemberLinked(l, c);
    SlotsMoved(l, h, c, slots, i, KeepInv(h, i));
    MemberChanged(l, h, c, l.members[c].(slots := slots), KeepInv(h, i));
  }

  // --- Changing one invitation ------------------------------------------------------------

  function WithOffer(l: Lobby, i: Invitation, o: Offer): Lobby { l.(offers := l.offers[i := o]) }

  lemma OfferCounts(l: Lobby, h: Held, i: Invitation, o: Offer)
    requires i in l.offers && o.source == l.offers[i].source && o.target == l.offers[i].target
    ensures SameCounts(l, h, WithOffer(l, i, o), h)
  {
    var l' := WithOffer(l, i, o);
    SameClients(l, h, l', h);
    SamePlayers(l, h, l', h);
  }

  lemma OfferChanged(l: Lobby, h: Held, i: Invitation, o: Offer)
    requires Linked(l, h) && i in l.offers && OfferLinked(l, o)
    requires o.source == l.offers[i].source && o.target == l.offers[i].target
    ensures Linked(WithOffer(l, i, o), h) && SameCounts(l, h, WithOffer(l, i, o), h)
  {
    hide MemberLinked, SameCounts, RegistryLinked, RollLinked;
    var l' := WithOffer(l, i, o);
    OfferCounts(l, h, i, o);
    MembersKept(l, l');
    RegistryKept(l, l');
    RollKept(l, l');
  }

  lemma WithOne(l: Lobby, i: Invitation, o: Offer, c: Client)
    requires i !in l.offers
    ensures |SourceOf(WithOffer(l, i, o), c)| == |SourceOf(l, c)| + (if o.source == c then 1 else 0)
    ensures |TargetOf(WithOffer(l, i, o), c)| == |TargetOf(l, c)| + (if o.target == c then 1 else 0)
  {
    WithOneSource(l, i, o, c);
    var l' := WithOffer(l, i, o);
    if o.target == c {
      assert TargetOf(l', c) == TargetOf(l, c) + {i};
    } else {
      assert TargetOf(l', c) == TargetOf(l, c);
    }
  }

  lemma WithOneSource(l: Lobby, i: Invitation, o: Offer, c: Client)
    requires i !in l.offers
    ensures |SourceOf(WithOffer(l, i, o), c)| == |SourceOf(l, c)| + (if o.source == c then 1 else 0)
  {
    var l' := WithOffer(l, i, o);
    if o.source == c {
      assert SourceOf(l', c) == SourceOf(l, c) + {i};
    } else {
      assert SourceOf(l', c) == SourceOf(l, c);
    }
  }

  lemma Unlisted(l: Lobby, h: Held, i: Invitation)
    requires Linked(l, h) && i !in l.offers
    ensures forall c | c in l.members :: i !in l.members[c].slots
    ensures i !in h.invs
  {
  }

  lemma NewOfferCounts(l: Lobby, h: Held, i: Invitation, o: Offer, h0: Held)
    requires i !in l.offers && o.source in h.clients && o.target in h.clients && o.source != o.target
    requires forall c | c in l.members :: i !in l.members[c].slots
    requires i !in h.invs
    requires h0 == KeepInv(DropClient(DropClient(h, o.source), o.target), i)
    ensures forall c | c in l.members :: ClientCount(WithOffer(l, i, o), h0, c) == ClientCount(l, h, c)
    ensures forall j | j in l.offers :: InvCount(WithOffer(l, i, o), h0, j) == InvCount(l, h, j)
    ensures InvCount(WithOffer(l, i, o), h0, i) == 1
    ensures forall p :: PlayerCount(WithOffer(l, i, o), h0, p) == PlayerCount(l, h, p)
  {
    hide SourceOf, TargetOf, LoopsOf, LoginsOf;
    var l' := WithOffer(l, i, o);
    forall d | d in l'.members
      ensures ClientCount(l', h0, d) == ClientCount(l, h, d)
    {
      WithOne(l, i, o, d);
    }
    SamePlayers(l, h, l', h0);
  }

  lemma NewOffer(l: Lobby, h: Held, i: Invitation, o: Offer, h0: Held)
    requires Linked(l, h) && i !in l.offers && o.state == Open && o.game == None && o.source != o.target
    requires o.source in h.clients && o.target in h.clients
    requires h0 == KeepInv(DropClient(DropClient(h, o.source), o.target), i)
    ensures Linked(WithOffer(l, i, o), h0)
    ensures forall c | c in l.members :: ClientCount(WithOffer(l, i, o), h0, c) == ClientCount(l, h, c)
    ensures forall j | j in l.offers :: InvCount(WithOffer(l, i, o), h0, j) == InvCount(l, h, j)
    ensures InvCount(WithOffer(l, i, o), h0, i) == 1
    ensures forall p :: PlayerCount(WithOffer(l, i, o), h0, p) == PlayerCount(l, h, p)
  {
    hide MemberLinked, ClientCount, InvCount, PlayerCount, RegistryLinked, RollLinked, HeldLinked;
    var l' := WithOffer(l, i, o);
    Unlisted(l, h, i);
    NewOfferCounts(l, h, i, o, h0);
    NewOfferHeld(l, h, i, o, h0);
    MembersKept(l, l');
    RegistryKept(l, l');
    RollKept(l, l');
  }

  lemma NewOfferHeld(l: Lobby, h: Held, i: Invitation, o: Offer, h0: Held)
    requires HeldLinked(l, h) && o.source in h.clients && o.target in h.clients
    requires o.state == Open && o.game == None && o.source != o.target
    requires h0 == KeepInv(DropClient(DropClient(h, o.source), o.target), i)
    ensures HeldLinked(WithOffer(l, i, o), h0) && OfferLinked(l, o)
  {
  }

  // --- The registry and the service threads -----------------------------------------------

  lemma NewMember(l: Lobby, h: Held, c: Client, l': Lobby)
    requires Linked(l, h) && c !in l.members
    requires l' == WithMember(l, c, Member(null, []))
    ensures Linked(l', KeepClient(h, c))
    ensures ClientCount(l', KeepClient(h, c), c) == 1
    ensures forall d | d in l.members :: ClientCount(l', KeepClient(h, c), d) == ClientCount(l, h, d)
    ensures forall j | j in l.offers :: InvCount(l', KeepClient(h, c), j) == InvCount(l, h, j)
    ensures forall p :: PlayerCount(l', KeepClient(h, c), p) == PlayerCount(l, h, p)
  {
    hide MemberLinked, ClientCount, InvCount, PlayerCount, RegistryLinked, RollLinked;
    NewMemberCounts(l, h, c, l');
    NewMemberLinked(l, h, c, l');
    RegistryKept(l, l');
    RollKept(l, l');
    OffersKept(l, l');
  }

  lemma NewMemberLinked(l: Lobby, h: Held, c: Client, l': Lobby)
    requires Linked(l, h) && c !in l.members
    requires l' == WithMember(l, c, Member(null, []))
    ensures forall d | d in l'.members :: MemberLinked(l', d)
    ensures HeldLinked(l', KeepClient(h, c))
  {
  }

  lemma NewMemberCounts(l: Lobby, h: Held, c: Client, l': Lobby)
    requires Linked(l, h) && c !in l.members
    requires l' == WithMember(l, c, Member(null, []))
    ensures ClientCount(l', KeepClient(h, c), c) == 1
    ensures forall d | d in l.members :: ClientCount(l', KeepClient(h, c), d) == ClientCount(l, h, d)
    ensures forall j | j in l.offers :: InvCount(l', KeepClient(h, c), j) == InvCount(l, h, j)
    ensures forall p :: PlayerCount(l', KeepClient(h, c), p) == PlayerCount(l, h, p)
  {
    hide Linked;
    Stranger(l, h, c);
    forall d
      ensures SourceOf(l', d) == SourceOf(l, d) && TargetOf(l', d) == TargetOf(l, d)
    {
      OffersOf(l, l', d);
    }
    assert SourceOf(l, c) == {} && TargetOf(l, c) == {};
    NewMemberPlayers(l, c, l');
  }

  // Nothing points to what is not there.
  lemma Stranger(l: Lobby, h: Held, c: Client)
    requires Linked(l, h) && c !in l.members
    ensures c !in l.registry && c !in l.loops && c !in h.clients
    ensures forall i | i in l.offers :: !Names(l.offers[i], c)
  {
  }

  lemma NewMemberPlayers(l: Lobby, c: Client, l': Lobby)
    requires c !in l.members && l' == WithMember(l, c, Member(null, []))
    ensures forall p :: LoopsOf(l', p) == LoopsOf(l, p) && LoginsOf(l', p) == LoginsOf(l, p)
  {
  }

  function WithRegistry(l: Lobby, registry: seq<Client?>, loops: map<Client, Player?>): Lobby
  {
    l.(registry := registry, loops := loops)
  }

  lemma SeatCounts(l: Lobby, h: Held, c: Client, l': Lobby, h': Held)
    requires l'.offers == l.offers && l'.members == l.members
    requires forall d: Client :: d != c ==> (d in l'.registry <==> d in l.registry)
    requires h'.players == h.players && h'.invs == h.invs
    requires
      || (&& c in l'.registry && c !in l.registry && c in h.clients && h' == DropClient(h, c)
          && l'.loops == l.loops[c := null] && c !in l.loops)
      || (&& c !in l'.registry && c in l.registry && h' == KeepClient(h, c)
          && l'.loops == l.loops - {c} && c in l.loops && l.loops[c] == null)
    ensures SameCounts(l, h, l', h')
  {
    forall d | d in l'.members
      ensures ClientCount(l', h', d) == ClientCount(l, h, d)
    {
      OffersOf(l, l', d);
    }
    forall p | p in l'.accounts
      ensures PlayerCount(l', h', p) == PlayerCount(l, h, p)
    {
      assert LoopsOf(l', p) == LoopsOf(l, p) && LoginsOf(l', p) == LoginsOf(l, p);
    }
  }

  lemma Seats(s: seq<Client?>, k: nat, c: Client)
    requires k < |s|
    requires forall i, j :: 0 <= i < j < |s| && s[j] != null ==> s[i] != s[j]
    requires (s[k] == null && c !in s) || s[k] == c
    ensures var s' := if s[k] == null then s[k := c] else s[k := null];
      && (c in s' <==> s[k] == null)
      && (forall d: Client :: d != c ==> (d in s' <==> d in s))
      && (forall i, j :: 0 <= i < j < |s'| && s'[j] != null ==> s'[i] != s'[j])
  {
    var s' := if s[k] == null then s[k := c] else s[k := null];
    assert s[k] == null ==> s'[k] == c;
    forall d: Client | d != c
      ensures d in s' <==> d in s
    {
      if d in s {
        var j :| 0 <= j < |s| && s[j] == d;
        assert s'[j] == d;
      }
    }
  }

  // A connected client takes an empty seat of the registry, and its service thread starts.
  lemma TakeSeat(l: Lobby, h: Held, c: Client, k: nat, l': Lobby)
    requires Linked(l, h) && c in h.clients && c !in l.registry && k < MAX_CLIENTS && l.registry[k] == null
    requires l' == WithRegistry(l, l.registry[k := c], l.loops[c := null])
    ensures Linked(l', DropClient(h, c)) && SameCounts(l, h, l', DropClient(h, c))
  {
    hide OfferLinked, SameCounts, ClientCount, InvCount, PlayerCount, MemberLinked, RollLinked;
    SeatRegistry(l, h, c, k, l');
    hide RegistryLinked, HeldLinked;
    SeatCounts(l, h, c, l', DropClient(h, c));
    SeatMembers(l, h, c, l');
    RollKept(l, l');
    OffersSame(l, l');
  }

  lemma SeatRegistry(l: Lobby, h: Held, c: Client, k: nat, l': Lobby)
    requires Linked(l, h) && c in h.clients && c !in l.registry && k < MAX_CLIENTS && l.registry[k] == null
    requires l' == WithRegistry(l, l.registry[k := c], l.loops[c := null])
    ensures RegistryLinked(l') && HeldLinked(l', DropClient(h, c)) && c in l'.registry && c !in l.loops
    ensures forall d: Client :: d != c ==> (d in l'.registry <==> d in l.registry)
  {
    hide OfferLinked, MemberLinked, RollLinked;
    Seats(l.registry, k, c);
  }

  lemma SeatMembers(l: Lobby, h: Held, c: Client, l': Lobby)
    requires Linked(l, h) && l' == WithRegistry(l, l'.registry, l'.loops)
    requires forall d: Client :: d != c ==> (d in l'.registry <==> d in l.registry)
    requires c in l'.registry || (c in l.members ==> l.members[c].player == null)
    ensures forall d | d in l'.members :: MemberLinked(l', d)
  {
  }

  // The reverse: the thread ends and the seat of a logged-out client is emptied.
  lemma LeaveSeat(l: Lobby, h: Held, c: Client, k: nat, l': Lobby)
    requires Linked(l, h) && k < MAX_CLIENTS && l.registry[k] == c && l.members[c].player == null
    requires c in l.loops && l.loops[c] == null
    requires l' == WithRegistry(l, l.registry[k := null], l.loops - {c})
    ensures Linked(l', KeepClient(h, c)) && SameCounts(l, h, l', KeepClient(h, c))
  {
    hide OfferLinked, SameCounts, ClientCount, InvCount, PlayerCount, MemberLinked;
    Seats(l.registry, k, c);
    assert l.registry[k] in l.registry;
    SeatCounts(l, h, c, l', KeepClient(h, c));
    SeatMembers(l, h, c, l');
    RollKept(l, l');
    OffersSame(l, l');
  }

  function WithLoop(l: Lobby, c: Client, p: Player?): Lobby { l.(loops := l.loops[c := p]) }

  // The service thread stores its player in its local variable, or forgets it.
  lemma LoopCounts(l: Lobby, h: Held, c: Client, p: Player, l': Lobby, h': Held)
    requires c in l.loops
    requires
      || (l.loops[c] == null && l' == WithLoop(l, c, p) && p in h.players && h' == DropPlayer(h, p))
      || (l.loops[c] == p && l' == WithLoop(l, c, null) && h' == KeepPlayer(h, p))
    ensures SameCounts(l, h, l', h')
  {
    SameClients(l, h, l', h');
    forall q | q in l'.accounts
      ensures PlayerCount(l', h', q) == PlayerCount(l, h, q)
    {
      LoopMoved(l, c, p, l', q);
    }
  }

  lemma LoopMoved(l: Lobby, c: Client, p: Player, l': Lobby, q: Player)
    requires c in l.loops
    requires (l.loops[c] == null && l' == WithLoop(l, c, p)) || (l.loops[c] == p && l' == WithLoop(l, c, null))
    ensures LoginsOf(l', q) == LoginsOf(l, q)
    ensures |LoopsOf(l', q)| == |LoopsOf(l, q)| + (if q != p then 0 else if l.loops[c] == null then 1 else -1)
  {
    if q != p {
      assert LoopsOf(l', q) == LoopsOf(l, q);
    } else if l.loops[c] == null {
      assert LoopsOf(l', q) == LoopsOf(l, q) + {c};
    } else {
      assert LoopsOf(l', q) == LoopsOf(l, q) - {c};
    }
  }

  lemma SetLoop(l: Lobby, h: Held, c: Client, p: Player)
    requires Linked(l, h) && c in l.loops && l.loops[c] == null && p in h.players
    ensures Linked(WithLoop(l, c, p), DropPlayer(h, p)) && SameCounts(l, h, WithLoop(l, c, p), DropPlayer(h, p))
  {
    hide OfferLinked, SameCounts, MemberLinked, RollLinked;
    var l' := WithLoop(l, c, p);
    LoopTables(l, h, c, p, l');
    hide RegistryLinked, HeldLinked;
    LoopCounts(l, h, c, p, l', DropPlayer(h, p));
    MembersKept(l, l');
    OffersSame(l, l');
    RollKept(l, l');
  }

  lemma ClearLoop(l: Lobby, h: Held, c: Client, p: Player)
    requires Linked(l, h) && c in l.loops && l.loops[c] == p
    ensures Linked(WithLoop(l, c, null), KeepPlayer(h, p)) && SameCounts(l, h, WithLoop(l, c, null), KeepPlayer(h, p))
  {
    hide OfferLinked, SameCounts, MemberLinked, RollLinked;
    var l' := WithLoop(l, c, null);
    LoopTables(l, h, c, p, l');
    hide RegistryLinked, HeldLinked;
    LoopCounts(l, h, c, p, l', KeepPlayer(h, p));
    MembersKept(l, l');
    OffersSame(l, l');
    RollKept(l, l');
  }

  lemma LoopTables(l: Lobby, h: Held, c: Client, p: Player, l': Lobby)
    requires Linked(l, h) && c in l.loops && (l.loops[c] == p || p in h.players)
    requires l' == WithLoop(l, c, p) || l' == WithLoop(l, c, null)
    ensures RegistryLinked(l') && HeldLinked(l', KeepPlayer(h, p)) && HeldLinked(l', DropPlayer(h, p))
  {
  }

  // --- The accounts -----------------------------------------------------------------------

  function WithAccount(l: Lobby, p: Player, name: string): Lobby
  {
    l.(accounts := l.accounts[p := Account(name, INITIAL_RATING)], roll := l.roll + [p])
  }

  lemma NewAccountCounts(l: Lobby, h: Held, p: Player, l': Lobby)
    requires Linked(l, h) && p !in l.accounts && l'.members == l.members && l'.loops == l.loops
    requires l'.offers == l.offers && l'.registry == l.registry
    ensures PlayerCount(l', KeepPlayer(h, p), p) == 2
    ensures forall q | q in l.accounts :: PlayerCount(l', KeepPlayer(h, p), q) == PlayerCount(l, h, q)
    ensures forall c :: ClientCount(l', KeepPlayer(h, p), c) == ClientCount(l, h, c)
    ensures forall i | i in l.offers :: InvCount(l', KeepPlayer(h, p), i) == InvCount(l, h, i)
  {
    hide OfferLinked;
    SameClients(l, h, l', KeepPlayer(h, p));
    SamePlayers(l, h, l', h);
    assert LoopsOf(l', p) == {};
    forall c | c in l.members
      ensures l.members[c].player != p
    {
      assert MemberLinked(l, c);
    }
    assert LoginsOf(l', p) == {};
  }

  lemma NewAccount(l: Lobby, h: Held, p: Player, name: string)
    requires Linked(l, h) && p !in l.accounts
    ensures var l', h' := WithAccount(l, p, name), KeepPlayer(h, p);
      && Linked(l', h')
      && PlayerCount(l', h', p) == 2
      && (forall q | q in l.accounts :: PlayerCount(l', h', q) == PlayerCount(l, h, q))
      && (forall c :: ClientCount(l', h', c) == ClientCount(l, h, c))
      && (forall i | i in l.offers :: InvCount(l', h', i) == InvCount(l, h, i))
  {
    hide OfferLinked, MemberLinked, PlayerCount, ClientCount, InvCount;
    var l' := WithAccount(l, p, name);
    NewAccountCounts(l, h, p, l');
    RegistryKept(l, l');
    MembersKept(l, l');
    OffersSame(l, l');
    RollGrown(l, p, name);
  }

  lemma RollGrown(l: Lobby, p: Player, name: string)
    requires RollLinked(l) && p !in l.accounts
    ensures RollLinked(WithAccount(l, p, name))
  {
  }

  // The player registry has no gaps: the first free slot is the one past its end.
  lemma RollEnd(l: Lobby, h: Held)
    requires Linked(l, h)
    ensures FirstIndex(l.roll, null) == |l.roll|
  {
  }

  lemma AccountsChanged(l: Lobby, h: Held, l': Lobby)
    requires Linked(l, h) && l' == l.(accounts := l'.accounts) && l'.accounts.Keys == l.accounts.Keys
    ensures Linked(l', h) && SameCounts(l, h, l', h)
  {
    hide OfferLinked, MemberLinked, SameCounts;
    AccountCounts(l, h, l');
    RegistryKept(l, l');
    RollKept(l, l');
    MembersKept(l, l');
    OffersSame(l, l');
  }

  lemma AccountCounts(l: Lobby, h: Held, l': Lobby)
    requires l' == l.(accounts := l'.accounts) && l'.accounts.Keys == l.accounts.Keys
    ensures SameCounts(l, h, l', h)
  {
  }
}
