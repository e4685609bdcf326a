// The role byte of INVITE is taken as it comes. What a byte other than 1 and 2 leads to: who
// can resign and move, what a log-out leaves behind, and when the server crashes.
module RoleBytes {
  import opened Prelude
  import opened Games
  import opened Players
  import opened Objects
  import opened Packets
  import opened Lobbies
  import opened Links
  import opened Requests
  import opened Keeping
  import opened Sessions
  import opened Runs
  import opened Outcomes
  import opened Identity

  // The two parties get the two different roles exactly when the byte names a player.
  lemma RolesComplement(c: Client, d: Client, role: nat)
    ensures RolesOk(Offer(c, d, Other(role), role, Open, None)) <==> role in {FIRST_PLAYER_ROLE, SECOND_PLAYER_ROLE}
  {
  }

  // --- How such games end -------------------------------------------------------------------

  // The resignation is made, and the game, both ENDED packets and both ratings agree on the
  // winner and on what the game is worth to each role.
  ghost predicate ResignsRightly(curve: Curve, l: Lobby, c: Client, id: nat)
    requires Settled(l) && c in l.members
  {
    var i := SlotOf(l, c, id);
    && i != null && i in l.offers && l.offers[i].game.Some?
    && Playing(l, l.offers[i].source) && Playing(l, l.offers[i].target)
    && var g := Resigned(l.offers[i].game.value, RoleOf(l.offers[i], c));
    && g.Some? && EndedWith(curve, l, i, g.value, Resigns(curve, l, c, id))
  }

  // A party can resign an accepted game exactly if it has a role and its opponent is still
  // logged in.
  lemma ResignableIff(curve: Curve, l: Lobby, c: Client, id: nat)
    requires Settled(l) && c in l.members && SlotOf(l, c, id) != null
    ensures var i := SlotOf(l, c, id);
      && i in l.offers && Opponent(l.offers[i], c) in l.members
      && (l.offers[i].state == Accepted ==>
            (Resigns(curve, l, c, id).res == 0 <==>
               RoleOf(l.offers[i], c) != NULL_ROLE && l.members[Opponent(l.offers[i], c)].player != null))
  {
    hide Sound, Agreed, Dropped, Posted, InPlay;
    ListedOffer(l, c, id);
    PartyPlays(l, SlotOf(l, c, id));
  }

  // The target's resignation ends rightly exactly if it has a role, and the source's exactly if
  // the byte named a player: otherwise the winner told to both and the result posted differ.
  lemma GamesEndRightlyIff(curve: Curve, l: Lobby, i: Invitation, id: nat, targetId: nat)
    requires Settled(l) && i in l.offers && l.offers[i].state == Accepted
    requires l.offers[i].source in l.members && l.offers[i].target in l.members
    requires l.members[l.offers[i].target].player != null
    requires SlotOf(l, l.offers[i].source, id) == i && SlotOf(l, l.offers[i].target, targetId) == i
    ensures ResignsRightly(curve, l, l.offers[i].target, targetId) <==> l.offers[i].targetRole != NULL_ROLE
    ensures ResignsRightly(curve, l, l.offers[i].source, id) <==>
      l.offers[i].targetRole in {FIRST_PLAYER_ROLE, SECOND_PLAYER_ROLE}
  {
    hide Sound, Agreed, Resigns, EndedWith, Announced;
    var o := l.offers[i];
    SourceRole(l, i);
    PartyPlays(l, i);
    ResignableIff(curve, l, o.source, id);
    ResignableIff(curve, l, o.target, targetId);
    ResignationEnds(curve, l, o.source, id);
    ResignationEnds(curve, l, o.target, targetId);
    OnlyIfResigned(curve, l, o.source, id);
    OnlyIfResigned(curve, l, o.target, targetId);
  }

  lemma OnlyIfResigned(curve: Curve, l: Lobby, c: Client, id: nat)
    requires Settled(l) && c in l.members
    ensures ResignsRightly(curve, l, c, id) ==> Resigns(curve, l, c, id).res == 0
  {
  }

  // A target without a role that has accepted can do nothing about the game.
  lemma StuckForTheTarget(curve: Curve, l: Lobby, c: Client, id: nat, text: string)
    requires Settled(l) && c in l.members && SlotOf(l, c, id) != null && SlotOf(l, c, id) in l.offers
    requires StuckFor(l.offers[SlotOf(l, c, id)], c)
    ensures Resigns(curve, l, c, id) == Failed(l) && Moves(curve, l, c, id, text) == Failed(l)
    ensures Declined(l, c, id) == Failed(l) && Revoked(l, c, id) == Failed(l) && Accepts(l, c, id).0 == Failed(l)
  {
    hide Sound, Agreed, Dropped, Posted, Unparse;
    ListedOffer(l, c, id);
  }

  // --- What stays after such a game ------------------------------------------------------------

  // A log-out empties a slot exactly if the client is not stuck in the game there.
  lemma LogoutEmptiesIff(curve: Curve, l: Lobby, c: Client, id: nat)
    requires Rest(l) && c in l.members && l.members[c].player != null && SlotOf(l, c, id) != null
    ensures SlotOf(l, c, id) in l.offers
    ensures var done := LoggedOut(curve, l, c);
      !done.crashed ==>
        && c in done.lobby.members
        && (SlotOf(done.lobby, c, id) == null <==> !StuckFor(l.offers[SlotOf(l, c, id)], c))
  {
    hide Rest, Settled, Fewer;
    RestSettled(l);
    ListedOffer(l, c, id);
    LoggedOutKeeps(curve, l, c);
  }

  // What a client that hangs up leaves of its games.
  lemma LeavingKeeps(curve: Curve, l: Lobby, d: Client)
    requires AtRest(l) && d in l.loops
    ensures d in l.members
    ensures var l' := HungUp(curve, l, d).lobby;
      !HungUp(curve, l, d).crashed ==>
        && (forall i | i in l'.offers :: i in l.offers && l'.offers[i] == l.offers[i])
        && (forall i | i in l'.offers && Names(l'.offers[i], d) :: StuckFor(l'.offers[i], d))
        && (forall k: nat :: Remains(l, d, k) ==> l.members[d].slots[k] in l'.offers)
        && (forall c | c in l.members && c != d :: c in l'.members && l'.members[c].player == l.members[c].player)
  {
    hide Rest, Sound, Agreed, Served, LogoutTurns, LoggedOut, Left, Busy, Remains, WithLoop;
    SameButLoop(l, d);
    AtRestSettled(l, d);
    LoopPlays(l, d);
    if l.loops[d] != null {
      var l0 := WithLoop(l, d, null);
      ForgottenKeeps(l, d);
      LoggedOutKeeps(curve, l0, d);
      var done := LoggedOut(curve, l0, d);
      if !done.crashed {
        StayListed(l, l0, d, done.lobby);
      }
    } else {
      NothingRemains(l, d);
      NobodyNamed(l, d);
    }
  }

  lemma SameButLoop(l: Lobby, d: Client)
    ensures WithLoop(l, d, null).members == l.members && WithLoop(l, d, null).offers == l.offers
  {
  }

  lemma StayListed(l: Lobby, l0: Lobby, d: Client, l': Lobby)
    requires d in l.members && l0.members == l.members && l0.offers == l.offers
    requires Rest(l') && d in l'.members && l'.members[d].slots == Left(l0, d, |l0.members[d].slots|)
    ensures forall k: nat :: Remains(l, d, k) ==> l.members[d].slots[k] in l'.offers
  {
    hide Agreed, RegistryLinked, RollLinked, HeldLinked;
    assert MemberLinked(l', d);
    forall k: nat | Remains(l, d, k)
      ensures l.members[d].slots[k] in l'.offers
    {
      assert l'.members[d].slots[k] == l.members[d].slots[k];
    }
  }

  lemma NobodyNamed(l: Lobby, d: Client)
    requires AtRest(l) && d in l.members && d in l.loops && l.loops[d] == null
    ensures forall i | i in l.offers :: !Names(l.offers[i], d)
  {
    BusyIsNamed(l, d);
    hide Rest;
  }

  // The source of an accepted game, when its target has hung up, is deserted exactly if the
  // target had no role; exactly then it crashes the server by resigning.
  lemma LeavingDeserts(curve: Curve, l: Lobby, c: Client, k: nat, i: Invitation)
    requires AtRest(l) && c in l.members && SlotOf(l, c, k) == i && i in l.offers
    requires l.offers[i].source == c && l.offers[i].state == Accepted && l.offers[i].target in l.loops
    ensures var gone := HungUp(curve, l, l.offers[i].target);
      !gone.crashed ==>
        && Settled(gone.lobby) && c in gone.lobby.members
        && (Deserted(gone.lobby, c, k) <==> l.offers[i].targetRole == NULL_ROLE)
        && (Resigns(curve, gone.lobby, c, k).crashed <==> l.offers[i].targetRole == NULL_ROLE)
  {
    hide Rest, Served, Settled, HungUp, OnlyLost, SlotsStay, Resigns, Deserted, Remains;
    var d := l.offers[i].target;
    RestOf(l);
    PartyPlays(l, i);
    AtRestSettled(l, d);
    var gone := HungUp(curve, l, d);
    HungUpKeeps(curve, l, d);
    HungUpStays(curve, l, d);
    LeavingKeeps(curve, l, d);
    if !gone.crashed {
      RestOf(gone.lobby);
      ResigningCrashes(curve, gone.lobby, c, k);
      if l.offers[i].targetRole == NULL_ROLE {
        TargetRemains(l, i);
        LeftBehind(l, c, k, i, gone.lobby);
      } else {
        NotLeftBehind(l, c, k, i, gone.lobby);
      }
    }
  }

  lemma TargetRemains(l: Lobby, i: Invitation)
    requires Settled(l) && i in l.offers && StuckFor(l.offers[i], l.offers[i].target) && l.offers[i].target in l.members
    ensures exists k: nat :: Remains(l, l.offers[i].target, k) && l.members[l.offers[i].target].slots[k] == i
  {
    var s := l.members[l.offers[i].target].slots;
    assert OfferAgreed(l, i);
    assert i in multiset(s);
    var k :| 0 <= k < |s| && s[k] == i;
    assert Remains(l, l.offers[i].target, k);
  }

  lemma LeftBehind(l: Lobby, c: Client, k: nat, i: Invitation, l': Lobby)
    requires c in l.members && SlotOf(l, c, k) == i && i in l.offers && SlotsStay(l, l') && AtRest(l') && c in l'.members
    requires l.offers[i].source == c && l.offers[i].state == Accepted
    requires i in l'.offers && l'.offers[i] == l.offers[i] && l.offers[i].target !in l'.loops
    ensures Deserted(l', c, k)
  {
    hide Rest, SlotsStay;
    SlotStays(l, c, k, l');
    AgreedParties(l', i);
    hide OfferAgreed;
  }

  lemma SlotStays(l: Lobby, c: Client, k: nat, l': Lobby)
    requires c in l.members && c in l'.members && SlotOf(l, c, k) in l'.offers && SlotsStay(l, l')
    ensures SlotOf(l', c, k) == SlotOf(l, c, k)
  {
  }

  lemma NotLeftBehind(l: Lobby, c: Client, k: nat, i: Invitation, l': Lobby)
    requires c in l.members && SlotOf(l, c, k) == i && SlotsStay(l, l') && c in l'.members && i !in l'.offers
    ensures !Deserted(l', c, k)
  {
  }

  // --- From the invitation to the crash ------------------------------------------------------

  // The lobby in which the target of a new invitation has accepted it.
  function Begun(l: Lobby, c: Client, d: Client, role: nat, i: Invitation): Lobby
    requires Playing(l, c) && Playing(l, d) && c != d
  {
    WithOffer(Made(l, c, d, Other(role), role, i).lobby, i, Offer(c, d, Other(role), role, Accepted, Some(INITIAL)))
  }

  lemma BegunLists(l: Lobby, c: Client, d: Client, role: nat, i: Invitation)
    requires Playing(l, c) && Playing(l, d) && c != d
    ensures var l' := Begun(l, c, d, role, i);
      && l'.members.Keys == l.members.Keys && l'.loops == l.loops
      && l'.offers == l.offers[i := Offer(c, d, Other(role), role, Accepted, Some(INITIAL))]
      && (forall e | e in l.members :: l'.members[e].player == l.members[e].player)
      && l'.members[c].slots == SetAt(l.members[c].slots, IdOf0(l, c), i)
      && l'.members[d].slots == SetAt(l.members[d].slots, IdOf0(l, d), i)
      && SlotOf(l', c, IdOf0(l, c)) == i
  {
  }

  lemma AcceptingBegins(l: Lobby, c: Client, d: Client, role: nat, i: Invitation)
    requires Rest(l) && Playing(l, c) && Playing(l, d) && c != d && i !in l.offers
    ensures var made := Made(l, c, d, Other(role), role, i).lobby;
      && Rest(made) && Settled(made) && d in made.members
      && Accepts(made, d, IdOf0(l, d)).0.lobby == Begun(l, c, d, role, i)
      && !Accepts(made, d, IdOf0(l, d)).0.crashed
  {
    hide Linked, Settled, Agreed, Byte, Unparse;
    MadeKeeps(l, c, d, Other(role), role, i);
    RestSettled(Made(l, c, d, Other(role), role, i).lobby);
  }

  // The new game does not desert its target.
  lemma NotDesertedYet(l: Lobby, c: Client, d: Client, role: nat, i: Invitation)
    requires Rest(l) && Playing(l, c) && Playing(l, d) && c != d && i !in l.offers
    requires forall k: nat :: !Deserted(l, d, k)
    ensures d in Begun(l, c, d, role, i).members && forall k: nat :: !Deserted(Begun(l, c, d, role, i), d, k)
  {
    hide Rest, Begun;
    BegunLists(l, c, d, role, i);
    ListedThere(l, d);
    var l' := Begun(l, c, d, role, i);
    forall k: nat
      ensures !Deserted(l', d, k)
    {
      assert !Deserted(l, d, k);
    }
  }

  lemma ListedThere(l: Lobby, d: Client)
    requires Rest(l) && d in l.members
    ensures forall k: nat :: SlotOf(l, d, k) != null ==> SlotOf(l, d, k) in l.offers
    ensures forall k: nat :: SlotOf(l, d, k) != null ==> Opponent(l.offers[SlotOf(l, d, k)], d) in l.members
  {
    hide Agreed;
    forall k: nat | SlotOf(l, d, k) != null
      ensures SlotOf(l, d, k) in l.offers && Opponent(l.offers[SlotOf(l, d, k)], d) in l.members
    {
      assert MemberLinked(l, d);
      assert OfferLinked(l, l.offers[SlotOf(l, d, k)]);
    }
  }

  // The source invites a logged-in client with some role byte, the target accepts and hangs up,
  // and the source resigns.
  function Story(l: Lobby, c: Client, d: Client, name: string, role: nat, i: Invitation): seq<Event>
    requires c in l.members && d in l.members
  {
    [Serve(c, Request(InvitePkt, 0, role, name), null, i),
     Serve(d, Request(AcceptPkt, IdOf0(l, d), 0, ""), null, null),
     HangUp(d),
     Serve(c, Request(ResignPkt, IdOf0(l, c), 0, ""), null, null)]
  }

  // Wherever this can happen it crashes the server exactly if the byte was 0.
  lemma StoryCrashesIff(curve: Curve, l: Lobby, c: Client, d: Client, name: string, role: nat, i: Invitation)
    requires AtRest(l) && c in l.loops && d in l.loops && c != d && Playing(l, c) && Playing(l, d) && i !in l.offers
    requires name != "" && CString(name) == l.accounts[l.members[d].player].name
    requires forall k: nat :: !Deserted(l, d, k)
    ensures Possible(curve, l, Story(l, c, d, name, role, i))
    ensures RunFrom(curve, l, Story(l, c, d, name, role, i)).crashed <==> role == NULL_ROLE
  {
    hide AtRest, Settled, Enabled, Step, Begun, RunFrom, Possible, Deserted, HungUp;
    var story := Story(l, c, d, name, role, i);
    var l1, l2 := Made(l, c, d, Other(role), role, i).lobby, Begun(l, c, d, role, i);
    BegunLists(l, c, d, role, i);
    InviteStep(curve, l, c, d, name, role, i);
    AcceptStep(curve, l, c, d, role, i);
    StepKeeps(curve, l, story[0]);
    StepKeeps(curve, l1, story[1]);
    LeaveStep(curve, l, c, d, role, i);
    ResignStep(curve, l, c, d, role, i);
    FourSteps(curve, l, story[0], story[1], story[2], story[3]);
  }

  lemma FourSteps(curve: Curve, l: Lobby, a: Event, b: Event, c: Event, d: Event)
    requires Enabled(l, a) && !Step(curve, l, a).crashed
    requires var l1 := Step(curve, l, a).lobby;
      && Enabled(l1, b) && !Step(curve, l1, b).crashed
      && var l2 := Step(curve, l1, b).lobby;
      && Enabled(l2, c) && !Step(curve, l2, c).crashed
      && Enabled(Step(curve, l2, c).lobby, d)
    ensures Possible(curve, l, [a, b, c, d])
    ensures var last := Step(curve, Step(curve, Step(curve, Step(curve, l, a).lobby, b).lobby, c).lobby, d);
      RunFrom(curve, l, [a, b, c, d]).lobby == last.lobby && RunFrom(curve, l, [a, b, c, d]).crashed == last.crashed
  {
    hide Enabled, Step, RunFrom, Possible;
    NoEvents(curve, l);
    OneMoreEvent(curve, l, [], a);
    assert [] + [a] == [a];
    OneMoreEvent(curve, l, [a], b);
    assert [a] + [b] == [a, b];
    OneMoreEvent(curve, l, [a, b], c);
    assert [a, b] + [c] == [a, b, c];
    OneMoreEvent(curve, l, [a, b, c], d);
    assert [a, b, c] + [d] == [a, b, c, d];
  }

  lemma InviteStep(curve: Curve, l: Lobby, c: Client, d: Client, name: string, role: nat, i: Invitation)
    requires AtRest(l) && c in l.loops && d in l.loops && c != d && Playing(l, c) && Playing(l, d) && i !in l.offers
    requires name != "" && CString(name) == l.accounts[l.members[d].player].name
    ensures var e := Serve(c, Request(InvitePkt, 0, role, name), null, i);
      && Enabled(l, e) && !Step(curve, l, e).crashed
      && Step(curve, l, e).lobby == Made(l, c, d, Other(role), role, i).lobby
  {
    hide Rest, Served, Settled, CString, Made;
    AtRestSettled(l, c);
    LoopPlays(l, c);
    LookupIsTheMap(l, CString(name), d);
    MadeWorks(l, c, d, role, i);
  }

  lemma MadeWorks(l: Lobby, c: Client, d: Client, role: nat, i: Invitation)
    requires Playing(l, c) && Playing(l, d) && c != d
    ensures !Made(l, c, d, Other(role), role, i).crashed && Made(l, c, d, Other(role), role, i).res >= 0
  {
  }

  lemma AcceptStep(curve: Curve, l: Lobby, c: Client, d: Client, role: nat, i: Invitation)
    requires AtRest(l) && d in l.loops && c != d && Playing(l, c) && Playing(l, d) && i !in l.offers
    ensures var l1 := Made(l, c, d, Other(role), role, i).lobby;
      var e := Serve(d, Request(AcceptPkt, IdOf0(l, d), 0, ""), null, null);
      && Enabled(l1, e) && !Step(curve, l1, e).crashed && Step(curve, l1, e).lobby == Begun(l, c, d, role, i)
  {
    hide Rest, Sound, Agreed, Made, Begun, Accepts;
    AcceptingBegins(l, c, d, role, i);
    MadeThere(l, c, d, role, i);
    LoopPlays(l, d);
    RestOf(l);
  }

  lemma MadeThere(l: Lobby, c: Client, d: Client, role: nat, i: Invitation)
    requires Playing(l, c) && Playing(l, d) && c != d
    ensures var l1 := Made(l, c, d, Other(role), role, i).lobby;
      l1.loops == l.loops && l1.members.Keys == l.members.Keys && l1.accounts == l.accounts && Playing(l1, d)
  {
  }

  lemma LeaveStep(curve: Curve, l: Lobby, c: Client, d: Client, role: nat, i: Invitation)
    requires c != d && Playing(l, c) && Playing(l, d) && d in l.loops && i !in l.offers
    requires AtRest(l) && AtRest(Begun(l, c, d, role, i))
    requires forall k: nat :: !Deserted(l, d, k)
    ensures var l2 := Begun(l, c, d, role, i);
      Enabled(l2, HangUp(d)) && Step(curve, l2, HangUp(d)) == HungUp(curve, l2, d) && !HungUp(curve, l2, d).crashed
  {
    hide Rest, Served, Begun, Deserted, HungUp;
    BegunLists(l, c, d, role, i);
    NotDesertedYet(l, c, d, role, i);
    HangingUpCrashes(curve, Begun(l, c, d, role, i), d);
  }

  lemma ResignStep(curve: Curve, l: Lobby, c: Client, d: Client, role: nat, i: Invitation)
    requires c != d && Playing(l, c) && Playing(l, d) && c in l.loops && d in l.loops
    requires AtRest(l) && AtRest(Begun(l, c, d, role, i))
    requires d in Begun(l, c, d, role, i).members && d in Begun(l, c, d, role, i).loops
    requires !HungUp(curve, Begun(l, c, d, role, i), d).crashed
    ensures var l3 := HungUp(curve, Begun(l, c, d, role, i), d).lobby;
      var e := Serve(c, Request(ResignPkt, IdOf0(l, c), 0, ""), null, null);
      Enabled(l3, e) && (Step(curve, l3, e).crashed <==> role == NULL_ROLE)
  {
    hide Rest, Served, Settled, Begun, Deserted, HungUp, Resigns, Remains;
    var l2 := Begun(l, c, d, role, i);
    var l3 := HungUp(curve, l2, d).lobby;
    var r := Request(ResignPkt, IdOf0(l, c), 0, "");
    BegunLists(l, c, d, role, i);
    LeavingDeserts(curve, l2, c, IdOf0(l, c), i);
    LeavingKeeps(curve, l2, d);
    HungUpKeeps(curve, l2, d);
    LoopPlays(l3, c);
    AtRestSettled(l3, c);
    HandledCrashes(curve, l3, c, r, null, null);
  }

  // --- From the empty server ------------------------------------------------------------------

  // Two runs, one after the other.
  lemma {:induction false} RunJoined(curve: Curve, l: Lobby, events: seq<Event>, more: seq<Event>)
    requires Possible(curve, l, events) && !RunFrom(curve, l, events).crashed
    requires Possible(curve, RunFrom(curve, l, events).lobby, more)
    ensures Possible(curve, l, events + more)
    ensures var done := RunFrom(curve, RunFrom(curve, l, events).lobby, more);
      RunFrom(curve, l, events + more).lobby == done.lobby && RunFrom(curve, l, events + more).crashed == done.crashed
  {
    hide Enabled, Step;
    if more == [] {
      assert events + more == events;
    } else {
      var n := |more| - 1;
      assert (events + more)[..|events + more| - 1] == events + more[..n];
      RunJoined(curve, l, events, more[..n]);
    }
  }

  function Login(c: Client, name: string, p: Player): Event { Serve(c, Request(LoginPkt, 0, 0, name), p, null) }

  // Two connections to the empty server.
  lemma TwoConnect(curve: Curve, c: Client, d: Client)
    requires c != d
    ensures var l1 := Step(curve, Empty(), Connect(c)).lobby;
      var l2 := Step(curve, l1, Connect(d)).lobby;
      && Enabled(Empty(), Connect(c)) && !Step(curve, Empty(), Connect(c)).crashed
      && Enabled(l1, Connect(d)) && !Step(curve, l1, Connect(d)).crashed
      && AtRest(l2) && l2.loops == map[c := null, d := null] && l2.offers == map[] && l2.accounts == map[]
      && l2.members == map[c := Member(null, []), d := Member(null, [])]
  {
    hide AtRest;
    NobodyThere();
    var l1 := Connected(Empty(), c);
    assert Empty().registry[0] == null;
    assert l1.registry == Empty().registry[0 := c];
    assert l1.registry[1] == null;
    ConnectedKeeps(Empty(), c);
    ConnectedKeeps(l1, d);
  }

  // A login under a name that nobody has.
  lemma LoginStep(curve: Curve, l: Lobby, c: Client, name: string, p: Player)
    requires AtRest(l) && c in l.loops && l.loops[c] == null && name != "" && CString(name) == name
    requires p !in l.accounts && forall q | q in l.accounts :: l.accounts[q].name != name
    ensures var e := Login(c, name, p);
      var l' := Step(curve, l, e).lobby;
      && Enabled(l, e) && !Step(curve, l, e).crashed && AtRest(l')
      && c in l.members && c in l'.members && Named(l', c, name) && l'.members[c].slots == l.members[c].slots
      && l'.loops.Keys == l.loops.Keys && l'.offers == l.offers && l'.members.Keys == l.members.Keys
      && (forall d | d in l.members && d != c :: l'.members[d] == l.members[d] && (d in l.loops ==> l'.loops[d] == l.loops[d]))
      && l'.accounts == l.accounts[p := Account(name, INITIAL_RATING)]
  {
    hide Rest, Served, Logins, CString;
    AtRestSettled(l, c);
    LoopPlays(l, c);
    RestOf(l);
    NoSuchPlayer(l, name);
    LoggedInKeeps(l, c, name, p);
    LoginIffNameFree(l, c, name, p);
    hide Settled;
  }

  lemma NoSuchPlayer(l: Lobby, name: string)
    requires Rest(l) && forall q | q in l.accounts :: l.accounts[q].name != name
    ensures FindPlayer(l, name, 0) == null && forall d | d in l.members :: !Named(l, d, name)
  {
    FoundPlayer(l, name, 0);
  }

  // A run of eight events that crashes the server: two clients connect and log in, and the story
  // follows with the role byte 0.
  lemma CrashReached(curve: Curve, a: Client, b: Client, p: Player, q: Player, i: Invitation)
    requires a != b && p != q
    ensures var events :=
        [Connect(a), Connect(b), Login(a, "A", p), Login(b, "B", q)] +
        [Serve(a, Request(InvitePkt, 0, NULL_ROLE, "B"), null, i),
         Serve(b, Request(AcceptPkt, 0, 0, ""), null, null),
         HangUp(b),
         Serve(a, Request(ResignPkt, 0, 0, ""), null, null)];
      Possible(curve, Empty(), events) && Run(curve, events).crashed
  {
    hide AtRest, Enabled, Step, RunFrom, Possible, Deserted;
    TwoConnect(curve, a, b);
    var l1 := Step(curve, Empty(), Connect(a)).lobby;
    var l2 := Step(curve, l1, Connect(b)).lobby;
    ShortNames();
    LoginStep(curve, l2, a, "A", p);
    var l3 := Step(curve, l2, Login(a, "A", p)).lobby;
    LoopPlays(l3, b);
    LoginStep(curve, l3, b, "B", q);
    var l4 := Step(curve, l3, Login(b, "B", q)).lobby;
    FourSteps(curve, Empty(), Connect(a), Connect(b), Login(a, "A", p), Login(b, "B", q));
    NothingOffered(l4, b);
    StoryCrashesIff(curve, l4, a, b, "B", NULL_ROLE, i);
    RunJoined(curve, Empty(), [Connect(a), Connect(b), Login(a, "A", p), Login(b, "B", q)], Story(l4, a, b, "B", NULL_ROLE, i));
  }

  lemma ShortNames()
    ensures CString("A") == "A" && CString("B") == "B"
  {
    assert "A"[1..] == "" && "B"[1..] == "";
  }

  lemma NothingOffered(l: Lobby, c: Client)
    requires l.offers == map[] && c in l.members
    ensures forall k: nat :: !Deserted(l, c, k)
  {
  }
}
