// Invitation ids: the number under which a client lists an invitation is the number that every
// packet about it carries, and it stays the same for as long as the invitation is listed.
module Identity {
  import opened Prelude
  import opened Games
  import opened Players
  import opened Objects
  import opened Packets
  import opened Lobbies
  import opened Links
  import opened Requests
  import opened Keeping
  import opened Sessions
  import opened Runs
  import Slots

  // The id byte denotes the invitation in the client's list.
  ghost predicate Denotes(l: Lobby, c: Client, id: nat, i: Invitation)
  {
    c in l.members && exists k :: 0 <= k < |l.members[c].slots| && id == Byte(k) && l.members[c].slots[k] == i
  }

  // An id byte leaves no doubt in a list of at most 256 slots.
  lemma NoDoubt(l: Lobby, c: Client, id: nat, i: Invitation)
    requires Denotes(l, c, id, i) && |l.members[c].slots| <= 256
    ensures SlotOf(l, c, id) == i
  {
  }

  // Sent back in a request, the id byte of the invitation in slot k finds it exactly if k is a
  // byte.
  lemma ByteFindsIff(l: Lobby, c: Client, k: nat)
    requires Settled(l) && c in l.members && SlotOf(l, c, k) != null
    ensures SlotOf(l, c, Byte(k)) == SlotOf(l, c, k) <==> k < 256
  {
    hide Sound, Agreed, OfferLinked;
    ListedOffer(l, c, k);
    OnlyIndex(l.members[c].slots, SlotOf(l, c, k), k);
  }

  predicate AboutInvitation(k: Kind)
  {
    k.RevokedPkt? || k.DeclinedPkt? || k.AcceptedPkt? || k.MovedPkt? || k.ResignedPkt? || k.EndedPkt?
  }

  // Every packet about an invitation goes to a party of that invitation, under an id that
  // denotes it in the list of the recipient.
  ghost predicate RightIds(l: Lobby, i: Invitation, sent: seq<Sent>)
    requires i in l.offers
  {
    forall s | s in sent :: AboutInvitation(s.packet.kind) ==>
      Names(l.offers[i], s.to) && Denotes(l, s.to, s.packet.id, i)
  }

  lemma PartyIds(l: Lobby, c: Client, id: nat)
    requires Settled(l) && c in l.members && SlotOf(l, c, id) != null
    ensures var i := SlotOf(l, c, id);
      && i in l.offers && Names(l.offers[i], c) && Denotes(l, c, Byte(id), i)
      && var d := Opponent(l.offers[i], c);
        d in l.members && Names(l.offers[i], d) && Denotes(l, d, Byte(IdOf(l, d, i)), i)
  {
  }

  lemma OfferIds(l: Lobby, c: Client, id: nat)
    requires Settled(l) && c in l.members && SlotOf(l, c, id) != null
    ensures var i := SlotOf(l, c, id);
      && i in l.offers && Names(l.offers[i], c)
      && RightIds(l, i, Revoked(l, c, id).sent) && RightIds(l, i, Declined(l, c, id).sent)
      && RightIds(l, i, Accepts(l, c, id).0.sent)
  {
    hide Sound, Agreed, Denotes, Dropped, Unparse;
    PartyIds(l, c, id);
  }

  lemma GameIds(curve: Curve, l: Lobby, c: Client, id: nat, text: string)
    requires Settled(l) && c in l.members && SlotOf(l, c, id) != null
    ensures var i := SlotOf(l, c, id);
      && i in l.offers && Names(l.offers[i], c)
      && RightIds(l, i, Resigns(curve, l, c, id).sent) && RightIds(l, i, Moves(curve, l, c, id, text).sent)
  {
    hide Sound, Agreed, Denotes, Dropped, Posted, Unparse, Applied, ParseMove;
    PartyIds(l, c, id);
  }

  lemma OperationsNoId(curve: Curve, l: Lobby, c: Client, id: nat, text: string)
    requires Settled(l) && c in l.members && SlotOf(l, c, id) == null
    ensures Revoked(l, c, id).sent == [] && Declined(l, c, id).sent == [] && Accepts(l, c, id).0.sent == []
    ensures Resigns(curve, l, c, id).sent == [] && Moves(curve, l, c, id, text).sent == []
  {
  }

  // The packets are about the one invitation, if there is one, and nothing else.
  ghost predicate AboutOne(l: Lobby, c: Client, about: Invitation?, sent: seq<Sent>)
  {
    if about == null then forall s | s in sent :: !AboutInvitation(s.packet.kind)
    else about in l.offers && Names(l.offers[about], c) && RightIds(l, about, sent)
  }

  lemma NotAbout(l: Lobby, c: Client, about: Invitation?, sent: seq<Sent>)
    requires about != null ==> about in l.offers && Names(l.offers[about], c)
    requires forall s | s in sent :: !AboutInvitation(s.packet.kind)
    ensures AboutOne(l, c, about, sent)
  {
  }

  // The reply is about no invitation.
  lemma AnsweredIds(l: Lobby, c: Client, about: Invitation?, done: Done, reply: Sent)
    requires AboutOne(l, c, about, done.sent) && !AboutInvitation(reply.packet.kind)
    ensures AboutOne(l, c, about, Answered(done, reply).sent)
  {
  }

  lemma RequestIds(curve: Curve, l: Lobby, c: Client, id: nat, text: string)
    requires Settled(l) && c in l.members
    ensures var about := SlotOf(l, c, id);
      && (about != null ==> about in l.offers && Names(l.offers[about], c))
      && AboutOne(l, c, about, Revoked(l, c, id).sent) && AboutOne(l, c, about, Declined(l, c, id).sent)
      && AboutOne(l, c, about, Accepts(l, c, id).0.sent)
      && AboutOne(l, c, about, Resigns(curve, l, c, id).sent) && AboutOne(l, c, about, Moves(curve, l, c, id, text).sent)
  {
    hide Settled, RightIds, Revoked, Declined, Accepts, Resigns, Moves;
    if SlotOf(l, c, id) == null {
      OperationsNoId(curve, l, c, id, text);
    } else {
      OfferIds(l, c, id);
      GameIds(curve, l, c, id, text);
    }
  }

  // The id in a request and the ids in all packets that it causes denote one invitation.
  lemma PacketIds(curve: Curve, l: Lobby, c: Client, r: Request, p: Player?, i: Invitation?)
    requires AtRest(l) && c in l.loops && Supplied(l, c, r, p, i)
    ensures Settled(l) && c in l.members && (l.loops[c] != null ==> Playing(l, c))
    ensures AboutOne(l, c, SlotOf(l, c, r.id), Handled(curve, l, c, r, p, i).sent)
  {
    hide AtRest, Sound, Agreed, LoggedIn, Invites, Revoked, Declined, Accepts, Resigns, Moves, AboutOne, Answered, SlotOf, RosterOf, Logins;
    AtRestSettled(l, c);
    var about := SlotOf(l, c, r.id);
    RequestIds(curve, l, c, r.id, r.Name());
    NotAbout(l, c, about, []);
    NotAbout(l, c, about, [Nack(c)]);
    NotAbout(l, c, about, [Ack(c, 0, Nothing)]);
    NotAbout(l, c, about, [Ack(c, 0, Roster(RosterOf(l, Logins(l, |l.registry|))))]);
    match r.kind
    case RevokePkt => AnsweredIds(l, c, about, Revoked(l, c, r.id), Reply(c, Revoked(l, c, r.id).res));
    case DeclinePkt => AnsweredIds(l, c, about, Declined(l, c, r.id), Reply(c, Declined(l, c, r.id).res));
    case AcceptPkt =>
      var (done, text) := Accepts(l, c, r.id);
      AnsweredIds(l, c, about, done, if done.res != -1 then Ack(c, 0, text) else Nack(c));
    case MovePkt =>
      var done := Moves(curve, l, c, r.id, r.Name());
      AnsweredIds(l, c, about, done, Reply(c, done.res));
    case ResignPkt =>
      var done := Resigns(curve, l, c, r.id);
      AnsweredIds(l, c, about, done, Reply(c, done.res));
    case InvitePkt =>
      if l.loops[c] != null && r.data != "" {
        NewIds(l, c, r.Name(), r.role, i);
        NotAbout(l, c, about, Invites(l, c, r.Name(), r.role, i).sent);
      }
    case _ =>
  }

  // The id that INVITED tells the target, and the one that the acknowledgement tells the
  // source, denote the new invitation.
  lemma NewIds(l: Lobby, c: Client, name: string, role: nat, i: Invitation?)
    requires Settled(l) && c in l.members && Playing(l, c)
    requires FindClient(l, name, 0) != null && FindClient(l, name, 0) != c ==> i != null && i !in l.offers
    ensures var done := Invites(l, c, name, role, i);
      var (l', sent) := (done.lobby, done.sent);
      var d := FindClient(l, name, 0);
      if d == null || d == c then l' == l && sent == [Nack(c)]
      else
        && |sent| == 2
        && sent[0].to == d && sent[0].packet.kind == InvitedPkt && Denotes(l', d, sent[0].packet.id, i)
        && sent[1].to == c && sent[1].packet.kind == AckPkt && Denotes(l', c, sent[1].packet.id, i)
        && sent[0].packet.role == Byte(role) && sent[0].packet.payload == Text(l.accounts[l.members[c].player].name)
  {
    hide Settled;
    FoundClient(l, name, 0);
    var d := FindClient(l, name, 0);
    if d != null && d != c {
      var l' := Made(l, c, d, Other(role), role, i).lobby;
      assert l'.members[c].slots[IdOf0(l, c)] == i && l'.members[d].slots[IdOf0(l, d)] == i;
    }
  }

  // --- Ids do not change -------------------------------------------------------------------

  // A slot keeps its invitation for as long as that exists.
  ghost predicate SlotsStay(l: Lobby, l': Lobby)
  {
    forall c, k | c in l.members && c in l'.members && 0 <= k < |l.members[c].slots| && l.members[c].slots[k] != null ::
      && k < |l'.members[c].slots|
      && (l'.members[c].slots[k] == l.members[c].slots[k]
          || (l.members[c].slots[k] !in l'.offers && l'.members[c].slots[k] == null))
  }

  // Lists only lose invitations, and those are gone.
  ghost predicate OnlyLost(l: Lobby, l': Lobby)
  {
    && l'.offers.Keys <= l.offers.Keys
    && (forall i | i in l'.offers :: l'.offers[i].source == l.offers[i].source && l'.offers[i].target == l.offers[i].target)
    && (forall c | c in l'.members :: c in l.members && |l'.members[c].slots| == |l.members[c].slots|)
    && (forall c, k | c in l'.members && 0 <= k < |l.members[c].slots| :: l'.members[c].slots[k] != l.members[c].slots[k] ==>
          && l'.members[c].slots[k] == null
          && l.members[c].slots[k] !in l'.offers)
  }

  lemma LostStay(l: Lobby, l': Lobby)
    requires OnlyLost(l, l')
    ensures SlotsStay(l, l')
  {
  }

  lemma LostMore(l: Lobby, m: Lobby, l': Lobby)
    requires OnlyLost(l, m) && OnlyLost(m, l')
    ensures OnlyLost(l, l')
  {
  }

  // In one slot of one list.
  lemma DroppedAt(l: Lobby, i: Invitation, c: Client, k: nat)
    requires i in l.offers && l.offers[i].source in l.members && l.offers[i].target in l.members
    requires c in l.members && k < |l.members[c].slots|
    ensures var l' := Dropped(l, i);
      && c in l'.members && |l'.members[c].slots| == |l.members[c].slots|
      && (l'.members[c].slots[k] == l.members[c].slots[k] || (l'.members[c].slots[k] == null && l.members[c].slots[k] == i))
  {
  }

  lemma DroppedLost(l: Lobby, i: Invitation, accounts: map<Player, Account>)
    requires i in l.offers && l.offers[i].source in l.members && l.offers[i].target in l.members
    ensures OnlyLost(l, Dropped(l, i).(accounts := accounts))
  {
    DroppedTables(l, i);
    hide Dropped;
    forall c, k | c in l.members && 0 <= k < |l.members[c].slots|
      ensures var s := Dropped(l, i).members[c].slots;
        |s| == |l.members[c].slots| && (s[k] == l.members[c].slots[k] || (s[k] == null && l.members[c].slots[k] == i))
    {
      DroppedAt(l, i, c, k);
    }
  }

  lemma DroppedTables(l: Lobby, i: Invitation)
    requires i in l.offers && l.offers[i].source in l.members && l.offers[i].target in l.members
    ensures var l' := Dropped(l, i);
      && l'.members.Keys == l.members.Keys && l'.offers == l.offers - {i}
      && forall c | c in l.members :: |l'.members[c].slots| == |l.members[c].slots|
  {
  }

  lemma ChangedLost(l: Lobby, i: Invitation, o: Offer)
    requires i in l.offers && o.source == l.offers[i].source && o.target == l.offers[i].target
    ensures OnlyLost(l, WithOffer(l, i, o))
  {
  }

  lemma OfferLost(l: Lobby, c: Client, id: nat)
    requires Settled(l) && c in l.members
    ensures OnlyLost(l, Revoked(l, c, id).lobby) && OnlyLost(l, Declined(l, c, id).lobby)
    ensures OnlyLost(l, Accepts(l, c, id).0.lobby)
  {
    hide Dropped, Unparse, OfferAgreed, MemberLinked, OnlyLost, WithOffer, Byte;
    NothingLost(l);
    var i := SlotOf(l, c, id);
    if i != null {
      ListedOffer(l, c, id);
      DroppedLost(l, i, l.accounts);
      DroppedSameAccounts(l, i);
      ChangedLost(l, i, l.offers[i].(state := Accepted, game := Some(INITIAL)));
    }
  }

  lemma GameLost(curve: Curve, l: Lobby, c: Client, id: nat, text: string)
    requires Settled(l) && c in l.members
    ensures OnlyLost(l, Resigns(curve, l, c, id).lobby) && OnlyLost(l, Moves(curve, l, c, id, text).lobby)
  {
    hide Dropped, Posted, Unparse, Applied, ParseMove, OfferAgreed, MemberLinked, OnlyLost, WithOffer, Byte;
    NothingLost(l);
    var i := SlotOf(l, c, id);
    if i != null {
      ListedOffer(l, c, id);
      forall accounts
        ensures OnlyLost(l, Dropped(l, i).(accounts := accounts))
      {
        DroppedLost(l, i, accounts);
      }
      forall o: Offer | o.source == l.offers[i].source && o.target == l.offers[i].target
        ensures OnlyLost(l, WithOffer(l, i, o))
      {
        ChangedLost(l, i, o);
      }
    }
  }

  lemma RequestStay(curve: Curve, l: Lobby, c: Client, id: nat, text: string)
    requires Settled(l) && c in l.members
    ensures SlotsStay(l, Revoked(l, c, id).lobby) && SlotsStay(l, Declined(l, c, id).lobby)
    ensures SlotsStay(l, Accepts(l, c, id).0.lobby) && SlotsStay(l, Resigns(curve, l, c, id).lobby)
    ensures SlotsStay(l, Moves(curve, l, c, id, text).lobby)
  {
    hide OnlyLost, SlotsStay, Revoked, Declined, Accepts, Resigns, Moves, Agreed;
    OfferLost(l, c, id);
    GameLost(curve, l, c, id, text);
    LostStay(l, Revoked(l, c, id).lobby);
    LostStay(l, Declined(l, c, id).lobby);
    LostStay(l, Accepts(l, c, id).0.lobby);
    LostStay(l, Resigns(curve, l, c, id).lobby);
    LostStay(l, Moves(curve, l, c, id, text).lobby);
  }

  lemma MadeStay(l: Lobby, c: Client, d: Client, sourceRole: nat, targetRole: nat, i: Invitation)
    requires Playing(l, c) && Playing(l, d)
    ensures SlotsStay(l, Made(l, c, d, sourceRole, targetRole, i).lobby)
  {
  }

  lemma {:induction false} TurnsLost(curve: Curve, l: Lobby, c: Client, k: nat)
    requires Rest(l) && c in l.members && k <= |l.members[c].slots|
    ensures OnlyLost(l, LogoutTurns(curve, l, c, k).lobby)
  {
    hide Rest, Settled, CloseSlot, OnlyLost, Cleared;
    NothingLost(l);
    if k > 0 {
      TurnsLost(curve, l, c, k - 1);
      TurnsClear(curve, l, c, k - 1);
      var before := LogoutTurns(curve, l, c, k - 1);
      if !before.crashed {
        StillAtRest(l, c, k - 1, before.lobby);
        TurnLost(curve, before.lobby, c, k - 1);
        LostMore(l, before.lobby, CloseSlot(curve, before.lobby, c, k - 1).lobby);
      }
    }
  }

  lemma NothingLost(l: Lobby)
    ensures OnlyLost(l, l)
  {
  }

  lemma TurnLost(curve: Curve, l: Lobby, c: Client, id: nat)
    requires Settled(l) && c in l.members
    ensures OnlyLost(l, CloseSlot(curve, l, c, id).lobby)
  {
    hide Settled, OnlyLost, Revoked, Declined, Resigns;
    NothingLost(l);
    OfferLost(l, c, id);
    GameLost(curve, l, c, id, "");
  }

  // No step changes the id of an invitation while it exists, and none puts another in its place.
  lemma IdsStay(curve: Curve, l: Lobby, e: Event)
    requires AtRest(l) && Enabled(l, e)
    ensures SlotsStay(l, Step(curve, l, e).lobby)
  {
    hide AtRest, Settled, LoggedIn, Revoked, Declined, Accepts, Moves, Resigns, OnlyLost, Made, LoggedOut;
    match e
    case Connect(c) =>
    case Serve(c, r, p, i) =>
      AtRestSettled(l, c);
      RequestStay(curve, l, c, r.id, r.Name());
      if r.kind == LoginPkt {
        LoginStays(l, c, r.Name(), p);
      } else if r.kind == InvitePkt && l.loops[c] != null && r.data != "" {
        FoundClient(l, r.Name(), 0);
        var d := FindClient(l, r.Name(), 0);
        if d != null && d != c {
          MadeStay(l, c, d, Other(r.role), r.role, i);
        }
      }
    case HangUp(c) =>
      HungUpStays(curve, l, c);
  }

  lemma LoginStays(l: Lobby, c: Client, name: string, made: Player?)
    requires c in l.members
    ensures FindPlayer(l, name, 0) == null ==> made == null || SlotsStay(l, LoggedIn(l, c, name, made).0)
    ensures FindPlayer(l, name, 0) != null ==> SlotsStay(l, LoggedIn(l, c, name, made).0)
  {
  }

  lemma HungUpStays(curve: Curve, l: Lobby, c: Client)
    requires AtRest(l) && c in l.loops
    ensures c in l.members && OnlyLost(l, HungUp(curve, l, c).lobby) && SlotsStay(l, HungUp(curve, l, c).lobby)
  {
    hide Rest, Served, LogoutTurns, OnlyLost, SlotsStay, Unregistered;
    AtRestSettled(l, c);
    NothingLost(l);
    if l.loops[c] != null {
      var l0 := WithLoop(l, c, null);
      ForgottenKeeps(l, c);
      TurnsLost(curve, l0, c, |l0.members[c].slots|);
      var l1 := LoggedOut(curve, l0, c).lobby;
      if c in l1.members {
        NobodyLost(l, l0, LogoutTurns(curve, l0, c, |l0.members[c].slots|).lobby, c);
        GoneLost(l, c, l1);
      }
    } else {
      GoneLost(l, c, l);
    }
    LostStay(l, HungUp(curve, l, c).lobby);
  }

  lemma NobodyLost(l: Lobby, l0: Lobby, l1: Lobby, c: Client)
    requires OnlyLost(l0, l1) && l0.members == l.members && l0.offers == l.offers && c in l1.members
    ensures OnlyLost(l, l1) && OnlyLost(l, WithMember(l1, c, l1.members[c].(player := null)))
  {
  }

  lemma GoneLost(l: Lobby, c: Client, l1: Lobby)
    requires OnlyLost(l, l1) && c in l1.members
    ensures OnlyLost(l, Unregistered(l1, c))
  {
  }

  // Invitation and party are there after each of the further events.
  ghost predicate Lives(curve: Curve, events: seq<Event>, more: seq<Event>, c: Client, i: Invitation)
  {
    forall n :: 0 <= n <= |more| ==>
      var l := Run(curve, events + more[..n]).lobby; c in l.members && i in l.offers
  }

  // For as long as an invitation exists and its party stays, it keeps the id it was given.
  lemma {:induction false} IdForLife(curve: Curve, events: seq<Event>, more: seq<Event>, c: Client, k: nat, i: Invitation)
    requires Possible(curve, Empty(), events + more) && Lives(curve, events, more, c, i)
    requires var l := Run(curve, events).lobby;
      c in l.members && k < |l.members[c].slots| && l.members[c].slots[k] == i
    ensures var l := Run(curve, events + more).lobby;
      c in l.members && k < |l.members[c].slots| && l.members[c].slots[k] == i
  {
    hide Enabled, Step, Run, Possible, Lives;
    if more == [] {
      assert events + more == events;
    } else {
      var n := |more| - 1;
      Shorter(curve, events, more);
      LivesOn(curve, events, more, c, i);
      IdForLife(curve, events, more[..n], c, k, i);
      IdsStay(curve, Run(curve, events + more[..n]).lobby, more[n]);
    }
  }

  lemma LivesOn(curve: Curve, events: seq<Event>, more: seq<Event>, c: Client, i: Invitation)
    requires Lives(curve, events, more, c, i) && more != []
    ensures Lives(curve, events, more[..|more| - 1], c, i)
    ensures var l := Run(curve, events + more).lobby; c in l.members && i in l.offers
  {
    hide Run;
    var fewer := more[..|more| - 1];
    forall n | 0 <= n <= |fewer|
      ensures var l := Run(curve, events + fewer[..n]).lobby; c in l.members && i in l.offers
    {
      assert fewer[..n] == more[..n];
    }
    assert more[..|more|] == more;
  }

  lemma Shorter(curve: Curve, events: seq<Event>, more: seq<Event>)
    requires Possible(curve, Empty(), events + more) && more != []
    ensures var n := |more| - 1;
      var before := Run(curve, events + more[..n]);
      && Possible(curve, Empty(), events + more[..n]) && AtRest(before.lobby)
      && Enabled(before.lobby, more[n])
      && Run(curve, events + more).lobby == Step(curve, before.lobby, more[n]).lobby
  {
    hide Enabled, Step;
    var all := events + more;
    assert all[..|all| - 1] == events + more[..|more| - 1];
    NobodyThere();
    RunsRest(curve, Empty(), events + more[..|more| - 1]);
  }

  // --- How long the lists are --------------------------------------------------------------

  // The largest number of invitations that the client has had listed at one time since it
  // connected.
  ghost function Most(curve: Curve, events: seq<Event>, c: Client): nat
  {
    if events == [] then 0
    else
      var n := |events| - 1;
      var l, l' := Run(curve, events[..n]).lobby, Run(curve, events).lobby;
      var before := if c in l.members then Most(curve, events[..n], c) else 0;
      var now := if c in l'.members then InUse(l'.members[c].slots, null) else 0;
      if now > before then now else before
  }

  // Every list that was there has grown exactly if it had to.
  ghost predicate Tightly(l: Lobby, l': Lobby)
  {
    forall c | c in l'.members ::
      var s := if c in l.members then l.members[c].slots else [];
      var s' := l'.members[c].slots;
      |s'| == if InUse(s', null) > |s| then InUse(s', null) else |s|
  }

  lemma LostTightly(l: Lobby, l': Lobby)
    requires OnlyLost(l, l')
    ensures Tightly(l, l')
  {
  }

  lemma MadeTightly(l: Lobby, c: Client, d: Client, sourceRole: nat, targetRole: nat, i: Invitation)
    requires Playing(l, c) && Playing(l, d)
    ensures Tightly(l, Made(l, c, d, sourceRole, targetRole, i).lobby)
  {
    hide Byte, SetAt;
    if c != d {
      Slots.Grown(l.members[c].slots, null, Slots.Add(i));
      Slots.Grown(l.members[d].slots, null, Slots.Add(i));
    }
  }

  lemma SlotsTightly(l: Lobby, l': Lobby)
    requires forall c | c in l'.members ::
      l'.members[c].slots == if c in l.members then l.members[c].slots else []
    ensures Tightly(l, l')
  {
  }

  lemma StepTightly(curve: Curve, l: Lobby, e: Event)
    requires AtRest(l) && Enabled(l, e)
    ensures Tightly(l, Step(curve, l, e).lobby)
  {
    hide Rest, Served, Settled, Handled, OnlyLost, Tightly, HungUp;
    match e
    case Connect(c) => SlotsTightly(l, Connected(l, c));
    case Serve(c, r, p, i) =>
      AtRestSettled(l, c);
      HandledTightly(curve, l, c, r, p, i);
    case HangUp(c) =>
      HungUpStays(curve, l, c);
      LostTightly(l, HungUp(curve, l, c).lobby);
  }

  lemma HandledTightly(curve: Curve, l: Lobby, c: Client, r: Request, p: Player?, i: Invitation?)
    requires Settled(l) && c in l.members && c in l.loops && (l.loops[c] != null ==> Playing(l, c))
    requires Supplied(l, c, r, p, i)
    ensures Tightly(l, Handled(curve, l, c, r, p, i).lobby)
  {
    hide Sound, Agreed, Revoked, Declined, Accepts, Moves, Resigns, OnlyLost, Made, Tightly, LoggedIn;
    NothingLost(l);
    LostTightly(l, l);
    OfferLost(l, c, r.id);
    GameLost(curve, l, c, r.id, r.Name());
    match r.kind
    case LoginPkt =>
      if l.loops[c] == null && r.data != "" {
        LoginTightly(l, c, r.Name(), p);
      }
    case InvitePkt =>
      if l.loops[c] != null && r.data != "" {
        FoundClient(l, r.Name(), 0);
        var d := FindClient(l, r.Name(), 0);
        if d != null && d != c {
          MadeTightly(l, c, d, Other(r.role), r.role, i);
        }
      }
    case RevokePkt => LostTightly(l, Revoked(l, c, r.id).lobby);
    case DeclinePkt => LostTightly(l, Declined(l, c, r.id).lobby);
    case AcceptPkt => LostTightly(l, Accepts(l, c, r.id).0.lobby);
    case MovePkt => LostTightly(l, Moves(curve, l, c, r.id, r.Name()).lobby);
    case ResignPkt => LostTightly(l, Resigns(curve, l, c, r.id).lobby);
    case _ =>
  }

  lemma LoginTightly(l: Lobby, c: Client, name: string, made: Player?)
    requires c in l.members && (FindPlayer(l, name, 0) == null ==> made != null)
    ensures Tightly(l, LoggedIn(l, c, name, made).0)
  {
    hide Tightly, Logins;
    SlotsTightly(l, LoggedIn(l, c, name, made).0);
  }

  // In every run each list is exactly as long as the largest number of invitations that its
  // client has had at one time since it connected.
  lemma {:induction false} LongestEver(curve: Curve, events: seq<Event>, c: Client)
    requires Possible(curve, Empty(), events) && c in Run(curve, events).lobby.members
    ensures |Run(curve, events).lobby.members[c].slots| == Most(curve, events, c)
  {
    hide AtRest, Step, Enabled, InUse;
    if events != [] {
      var n := |events| - 1;
      var l := Run(curve, events[..n]).lobby;
      NobodyThere();
      RunsRest(curve, Empty(), events[..n]);
      StepTightly(curve, l, events[n]);
      if c in l.members {
        LongestEver(curve, events[..n], c);
      }
    }
  }

  // So the ids of a client that has never had more than 256 invitations at one time are exact.
  lemma IdsAreExact(curve: Curve, events: seq<Event>, c: Client, id: nat, i: Invitation)
    requires Possible(curve, Empty(), events) && Most(curve, events, c) <= 256
    requires Denotes(Run(curve, events).lobby, c, id, i)
    ensures SlotOf(Run(curve, events).lobby, c, id) == i
  {
    hide Run, Most, Possible;
    LongestEver(curve, events, c);
    NoDoubt(Run(curve, events).lobby, c, id, i);
  }

  // --- The packets of a logout -------------------------------------------------------------

  lemma DenotedBefore(l: Lobby, m: Lobby, i: Invitation, sent: seq<Sent>)
    requires OnlyLost(l, m) && i in m.offers && RightIds(m, i, sent)
    ensures i in l.offers && RightIds(l, i, sent)
  {
  }

  lemma TurnIds(curve: Curve, l: Lobby, c: Client, id: nat)
    requires Settled(l) && c in l.members
    ensures var i := SlotOf(l, c, id);
      if i == null then CloseSlot(curve, l, c, id).sent == []
      else i in l.offers && Names(l.offers[i], c) && RightIds(l, i, CloseSlot(curve, l, c, id).sent)
  {
    hide Sound, Agreed, RightIds, Revoked, Declined, Resigns;
    if SlotOf(l, c, id) != null {
      OfferIds(l, c, id);
      GameIds(curve, l, c, id, "");
    }
  }

  // The packets that a logout sends go to parties of the client's own invitations, under ids
  // that denoted them when the logout began.
  lemma {:induction false} LogoutIds(curve: Curve, l: Lobby, c: Client, k: nat)
    requires Rest(l) && c in l.members && k <= |l.members[c].slots|
    ensures forall s | s in LogoutTurns(curve, l, c, k).sent && AboutInvitation(s.packet.kind) ::
      exists i :: i in l.offers && Names(l.offers[i], c) && Names(l.offers[i], s.to) && Denotes(l, s.to, s.packet.id, i)
  {
    hide Rest, Settled, CloseSlot, OnlyLost, Cleared, Denotes;
    if k > 0 {
      LogoutIds(curve, l, c, k - 1);
      TurnsLost(curve, l, c, k - 1);
      TurnsClear(curve, l, c, k - 1);
      var done := LogoutTurns(curve, l, c, k - 1);
      if !done.crashed {
        var before := done.lobby;
        StillAtRest(l, c, k - 1, before);
        TurnIds(curve, before, c, k - 1);
        var i := SlotOf(before, c, k - 1);
        if i != null {
          DenotedBefore(l, before, i, CloseSlot(curve, before, c, k - 1).sent);
          SameParties(l, before, i);
        }
      }
    }
  }

  lemma SameParties(l: Lobby, m: Lobby, i: Invitation)
    requires OnlyLost(l, m) && i in m.offers
    ensures i in l.offers && m.offers[i].source == l.offers[i].source && m.offers[i].target == l.offers[i].target
  {
  }
}
