// Logging in and out under any number of service threads, one locked region per step. A login
// takes the log mutex, reads the players of all registered clients, and only then, still under
// the mutex, sets its own; registrations and unregistrations go on meanwhile.
module Logins {
  import opened Prelude
  import opened Lobbies

  // Where a thread stands. Players are named by their place in the player registry.
  datatype Where =
    | Outside                                  // about to register its client
    | Serving                                  // about to receive a packet
    | Named(player: nat)                       // about to take the log mutex for a login
    | Locked(player: nat)                      // about to read the players of all clients
    | Scanned(player: nat, logged: bool)       // about to set its player and release the mutex
    | Leaving                                  // about to take the log mutex for a logout, if logged in
    | LoggingOut                               // about to clear its player and release the mutex
    | Unregistering                            // about to unregister its client
    | Gone

  datatype Input = Login(name: string) | EndOfFile

  // Threads and their clients have the same numbers.
  datatype House = House(
    registry: seq<Option<nat>>,
    roll: seq<string>,
    players: map<nat, nat>,       // the player of each client that is logged in
    mine: map<nat, nat>,          // the player in each thread's local variable
    places: map<nat, Where>,
    mutex: Option<nat>)           // the thread that has the log mutex

  function At(h: House, t: nat): Where { if t in h.places then h.places[t] else Outside }

  function Moved(h: House, t: nat, w: Where): House { h.(places := h.places[t := w]) }

  predicate LoggedInAs(h: House, p: nat)
  {
    exists c :: c in h.players && Some(c) in h.registry && h.players[c] == p
  }

  // The next region of thread t; a thread that must wait for the mutex stays where it is.
  ghost function Next(h: House, t: nat, input: Input): House
  {
    match At(h, t)
    case Outside =>
      var k := FirstIndex(h.registry, None);
      if k < |h.registry| then Moved(h.(registry := h.registry[k := Some(t)]), t, Serving) else h
    case Serving =>
      (match input
       case EndOfFile => Moved(h, t, Leaving)
       case Login(name) =>
         if t in h.mine then h
         else
           var p := FirstIndex(h.roll, name);
           Moved(h.(roll := if p < |h.roll| then h.roll else h.roll + [name]), t, Named(p)))
    case Named(p) => if h.mutex == None then Moved(h.(mutex := Some(t)), t, Locked(p)) else h
    case Locked(p) => Moved(h, t, Scanned(p, LoggedInAs(h, p)))
    case Scanned(p, logged) =>
      var done := if t !in h.players && !logged then h.(players := h.players[t := p], mine := h.mine[t := p]) else h;
      Moved(done.(mutex := None), t, Serving)
    case Leaving =>
      if t !in h.mine then Moved(h, t, Unregistering)
      else if h.mutex == None then Moved(h.(mutex := Some(t)), t, LoggingOut)
      else h
    case LoggingOut => Moved(h.(players := h.players - {t}, mine := h.mine - {t}, mutex := None), t, Unregistering)
    case Unregistering => Moved(h.(registry := Replace(h.registry, Some(t), None)), t, Gone)
    case Gone => h
  }

  // --- What every interleaving keeps -------------------------------------------------------

  predicate HasMutex(w: Where) { w.Locked? || w.Scanned? || w.LoggingOut? }
  predicate Present(w: Where) { !w.Outside? && !w.Gone? }
  predicate LoggingIn(w: Where) { w.Named? || w.Locked? || w.Scanned? }
  function PlayerOf(w: Where): nat requires LoggingIn(w) { w.player }

  // Nobody sits in two places.
  predicate Seated(r: seq<Option<nat>>)
  {
    forall j, k :: 0 <= j < k < |r| && r[j].Some? ==> r[j] != r[k]
  }

  predicate Distinct(roll: seq<string>)
  {
    forall j, k :: 0 <= j < k < |roll| ==> roll[j] != roll[k]
  }

  ghost predicate Tables(h: House)
  {
    && |h.registry| == MAX_CLIENTS && Seated(h.registry) && Distinct(h.roll)
    && (forall t: nat :: Some(t) in h.registry <==> Present(At(h, t)))
  }

  ghost predicate Mutex(h: House)
  {
    forall t: nat :: HasMutex(At(h, t)) <==> h.mutex == Some(t)
  }

  // At most one client is logged in as any player, every logged-in client is registered, and
  // every thread knows whether its client is logged in.
  ghost predicate OneEach(h: House)
  {
    && h.mine == h.players
    && (forall c | c in h.players :: Present(At(h, c)) && !At(h, c).Unregistering? && !LoggingIn(At(h, c)))
    && (forall c | c in h.players :: h.players[c] < |h.roll|)
    && (forall c, d | c in h.players && d in h.players && c != d :: h.players[c] != h.players[d])
  }

  // What a thread has read about its player is still so when it acts on it.
  ghost predicate Reading(h: House, t: nat)
  {
    var w := At(h, t);
    && (LoggingIn(w) ==> PlayerOf(w) < |h.roll|)
    && (w.Scanned? ==> (w.logged <==> exists c :: c in h.players && h.players[c] == w.player))
  }

  ghost predicate Orderly(h: House)
  {
    Tables(h) && Mutex(h) && OneEach(h) && forall t: nat :: Reading(h, t)
  }

  function Doors(): House { House(seq(MAX_CLIENTS, _ => None), [], map[], map[], map[], None) }

  lemma StartOrderly()
    ensures Orderly(Doors())
  {
  }

  lemma TablesAfter(h: House, t: nat, input: Input)
    requires Tables(h)
    ensures Tables(Next(h, t, input)) && h.roll <= Next(h, t, input).roll
  {
    hide LoggedInAs, Seated, Distinct, Replace, Tables;
    FirstFree(h);
    RollAfter(h, t, input);
    var h' := Next(h, t, input);
    match At(h, t)
    case Outside => SeatsAfter(h, t, h', FirstIndex(h.registry, None));
    case Unregistering => SeatsAfter(h, t, h', 0);
    case _ => SeatsAfter(h, t, h', |h.registry|);
  }

  lemma FirstFree(h: House)
    requires Tables(h)
    ensures Distinct(h.roll)
    ensures var k := FirstIndex(h.registry, None); k < |h.registry| ==> h.registry[k] == None
  {
  }

  // The seats after t has moved: it has taken the free seat k, or left its own, or stayed.
  lemma SeatsAfter(h: House, t: nat, h': House, k: nat)
    requires Tables(h) && Distinct(h'.roll)
    requires h'.places == h.places || h'.places == h.places[t := At(h', t)]
    requires
      || (&& k < |h.registry| && h.registry[k] == None && !Present(At(h, t)) && Present(At(h', t))
          && h'.registry == h.registry[k := Some(t)])
      || (Present(At(h, t)) && !Present(At(h', t)) && h'.registry == Replace(h.registry, Some(t), None))
      || ((Present(At(h, t)) <==> Present(At(h', t))) && h'.registry == h.registry)
    ensures Tables(h')
  {
    hide Seated, Distinct, Replace;
    assert forall u: nat :: u != t ==> At(h', u) == At(h, u);
    if Present(At(h, t)) <==> Present(At(h', t)) {
    } else if Present(At(h', t)) {
      SeatTaken(h.registry, k, t);
    } else {
      SeatLeft(h.registry, t);
    }
  }

  lemma RollAfter(h: House, t: nat, input: Input)
    requires Distinct(h.roll)
    ensures Distinct(Next(h, t, input).roll) && h.roll <= Next(h, t, input).roll
  {
  }

  lemma SeatTaken(r: seq<Option<nat>>, k: nat, t: nat)
    requires k < |r| && r[k] == None && Some(t) !in r && Seated(r)
    ensures forall u: nat :: Some(u) in r[k := Some(t)] <==> Some(u) in r || u == t
    ensures Seated(r[k := Some(t)])
  {
    var r' := r[k := Some(t)];
    forall u: nat | Some(u) in r || u == t
      ensures Some(u) in r'
    {
      if Some(u) in r {
        var j :| 0 <= j < |r| && r[j] == Some(u);
        assert r'[j] == Some(u);
      } else {
        assert r'[k] == Some(u);
      }
    }
  }

  lemma SeatLeft(r: seq<Option<nat>>, t: nat)
    requires Seated(r)
    ensures forall u: nat :: Some(u) in Replace(r, Some(t), None) <==> Some(u) in r && u != t
    ensures |Replace(r, Some(t), None)| == |r| && Seated(Replace(r, Some(t), None))
  {
  }

  lemma MutexAfter(h: House, t: nat, input: Input)
    requires Mutex(h)
    ensures Mutex(Next(h, t, input))
  {
    hide LoggedInAs;
  }

  // While a thread has the mutex, nobody else's player changes.
  lemma PlayersAfter(h: House, t: nat, input: Input)
    requires OneEach(h) && Mutex(h) && Reading(h, t)
    ensures OneEach(Next(h, t, input))
    ensures h.mutex.Some? && h.mutex != Some(t) ==> Next(h, t, input).players == h.players
  {
    hide LoggedInAs, Distinct, OneEach;
    LoggedInPlaces(h, t);
    var h' := Next(h, t, input);
    assert HasMutex(At(h, t)) <==> h.mutex == Some(t);
    assert forall u: nat :: u != t ==> At(h', u) == At(h, u);
    match At(h, t)
    case Scanned(p, logged) =>
      NewLogin(h, t, p, logged, h');
    case LoggingOut =>
      Logout(h, t, h');
    case _ =>
      SamePlayers(h, t, h');
  }

  lemma SamePlayers(h: House, t: nat, h': House)
    requires OneEach(h) && h'.players == h.players && h'.mine == h.mine && |h.roll| <= |h'.roll|
    requires forall u: nat :: u != t ==> At(h', u) == At(h, u)
    requires t in h.players ==> Present(At(h', t)) && !At(h', t).Unregistering? && !LoggingIn(At(h', t))
    ensures OneEach(h')
  {
  }

  lemma Logout(h: House, t: nat, h': House)
    requires OneEach(h) && h'.players == h.players - {t} && h'.mine == h'.players && h'.roll == h.roll
    requires forall u: nat :: u != t ==> At(h', u) == At(h, u)
    ensures OneEach(h')
  {
  }

  lemma LoggedInPlaces(h: House, t: nat)
    requires OneEach(h)
    ensures h.mine == h.players
    ensures t in h.players ==> Present(At(h, t)) && !At(h, t).Unregistering? && !LoggingIn(At(h, t))
  {
  }

  lemma NewLogin(h: House, t: nat, p: nat, logged: bool, h': House)
    requires OneEach(h) && At(h, t) == Scanned(p, logged) && Reading(h, t) && t !in h.players
    requires h'.roll == h.roll && At(h', t) == Serving && forall u: nat :: u != t ==> At(h', u) == At(h, u)
    requires h'.players == (if !logged then h.players[t := p] else h.players) && h'.mine == h'.players
    ensures OneEach(h')
  {
  }

  // All logged-in clients are registered, so reading the registered ones finds every login.
  lemma ScanFinds(h: House, p: nat)
    requires Tables(h) && OneEach(h)
    ensures LoggedInAs(h, p) <==> exists c :: c in h.players && h.players[c] == p
  {
  }

  lemma ReadingAfter(h: House, t: nat, input: Input, u: nat)
    requires Tables(h) && Mutex(h) && OneEach(h) && Reading(h, t) && Reading(h, u)
    ensures Reading(Next(h, t, input), u)
  {
    hide LoggedInAs, Tables;
    TablesAfter(h, t, input);
    PlayersAfter(h, t, input);
    var h' := Next(h, t, input);
    assert HasMutex(At(h, u)) <==> h.mutex == Some(u);
    if u == t {
      if At(h, t).Locked? {
        ScanFinds(h, At(h, t).player);
      }
    } else {
      assert At(h', u) == At(h, u);
    }
  }

  lemma NextOrderly(h: House, t: nat, input: Input)
    requires Orderly(h)
    ensures Orderly(Next(h, t, input))
  {
    hide Tables, Mutex, OneEach, Reading, Next;
    TablesAfter(h, t, input);
    MutexAfter(h, t, input);
    PlayersAfter(h, t, input);
    forall u: nat | true
      ensures Reading(Next(h, t, input), u)
    {
      ReadingAfter(h, t, input, u);
    }
  }

  // --- Runs --------------------------------------------------------------------------------

  ghost function Run(schedule: seq<(nat, Input)>): House
  {
    if schedule == [] then Doors()
    else
      var n := |schedule| - 1;
      Next(Run(schedule[..n]), schedule[n].0, schedule[n].1)
  }

  lemma {:induction false} RunsOrderly(schedule: seq<(nat, Input)>)
    ensures Orderly(Run(schedule))
  {
    hide Orderly, Next;
    if schedule == [] {
      StartOrderly();
    } else {
      var n := |schedule| - 1;
      RunsOrderly(schedule[..n]);
      NextOrderly(Run(schedule[..n]), schedule[n].0, schedule[n].1);
    }
  }

  // Whatever the schedule: no two clients are logged in as one player, every logged-in client
  // is registered, no two players have one name, and only one thread has the log mutex.
  lemma UniqueLogins(schedule: seq<(nat, Input)>, c: nat, d: nat)
    ensures var h := Run(schedule);
      && (c in h.players ==> Some(c) in h.registry && h.players[c] < |h.roll|)
      && (c in h.players && d in h.players && h.players[c] == h.players[d] ==> c == d)
      && (forall p, q :: 0 <= p < |h.roll| && 0 <= q < |h.roll| && h.roll[p] == h.roll[q] ==> p == q)
      && (HasMutex(At(h, c)) && HasMutex(At(h, d)) ==> c == d)
  {
    hide Reading;
    RunsOrderly(schedule);
  }

  // A login succeeds exactly if nobody is logged in as the player at the moment it takes effect.
  lemma LoginIffFree(schedule: seq<(nat, Input)>, t: nat, input: Input)
    requires At(Run(schedule), t).Scanned?
    ensures var h := Run(schedule);
      t in Next(h, t, input).players <==> forall c | c in h.players :: h.players[c] != At(h, t).player
  {
    hide Tables, Mutex;
    RunsOrderly(schedule);
    assert Reading(Run(schedule), t);
  }

  // The name under which the thread last began to log in.
  ghost function Wanted(schedule: seq<(nat, Input)>, t: nat): Option<string>
  {
    if schedule == [] then None
    else
      var n := |schedule| - 1;
      var (u, input) := schedule[n];
      if u == t && At(Run(schedule[..n]), t).Serving? && t !in Run(schedule[..n]).mine && input.Login?
      then Some(input.name)
      else Wanted(schedule[..n], t)
  }

  predicate NameIs(h: House, p: nat, name: Option<string>) { p < |h.roll| && name == Some(h.roll[p]) }

  // Whatever the others do meanwhile, a login ends with the player of the name it began with.
  lemma {:induction false} RightPlayer(schedule: seq<(nat, Input)>, t: nat)
    ensures RightNames(Run(schedule), t, Wanted(schedule, t))
  {
    hide Orderly, Next, RightNames;
    if schedule == [] {
      NobodyYet(t);
    } else {
      var n := |schedule| - 1;
      RightPlayer(schedule[..n], t);
      RunsOrderly(schedule[..n]);
      NamesAfter(Run(schedule[..n]), schedule[n].0, schedule[n].1, t, Wanted(schedule[..n], t));
    }
  }

  // What the thread is logging in as, or logged in as, has the name.
  predicate RightNames(h: House, t: nat, name: Option<string>)
  {
    && (t in h.players ==> NameIs(h, h.players[t], name))
    && (LoggingIn(At(h, t)) ==> NameIs(h, PlayerOf(At(h, t)), name))
  }

  lemma NobodyYet(t: nat)
    ensures RightNames(Doors(), t, None)
  {
  }

  lemma NamesAfter(h: House, u: nat, input: Input, t: nat, name: Option<string>)
    requires Orderly(h) && RightNames(h, t, name)
    ensures var now := if u == t && At(h, t).Serving? && t !in h.mine && input.Login? then Some(input.name) else name;
      RightNames(Next(h, u, input), t, now)
  {
    KnowsItself(h, t);
    hide Orderly, LoggedInAs, Replace, FirstIndex, RightNames;
    var h' := Next(h, u, input);
    if u != t {
      OthersStep(h, u, input, t);
      hide Next;
      NamedStill(h, h', t, name);
    } else if At(h, t).Serving? && t !in h.mine && input.Login? {
      NameFound(h.roll, input.name);
      NamedNow(h, h', t, input.name);
    } else if At(h, t).Scanned? {
      NamedThen(h, h', t, name);
    } else {
      NamedStill(h, h', t, name);
    }
  }

  lemma OthersStep(h: House, u: nat, input: Input, t: nat)
    requires u != t
    ensures var h' := Next(h, u, input);
      && At(h', t) == At(h, t) && h.roll <= h'.roll
      && (t in h'.players <==> t in h.players) && (t in h.players ==> h'.players[t] == h.players[t])
  {
    hide LoggedInAs, Replace, FirstIndex;
  }

  lemma KnowsItself(h: House, t: nat)
    requires Orderly(h)
    ensures (t in h.mine <==> t in h.players) && (t in h.players ==> !LoggingIn(At(h, t)))
  {
  }

  lemma NameFound(roll: seq<string>, name: string)
    ensures var p := FirstIndex(roll, name);
      var roll' := if p < |roll| then roll else roll + [name];
      p < |roll'| && roll'[p] == name && roll <= roll'
  {
    hide FirstIndex;
  }

  lemma NamedNow(h: House, h': House, t: nat, name: string)
    requires t !in h'.players && At(h', t).Named? && NameIs(h', At(h', t).player, Some(name))
    ensures RightNames(h', t, Some(name))
  {
  }

  lemma NamedThen(h: House, h': House, t: nat, name: Option<string>)
    requires RightNames(h, t, name) && At(h, t).Scanned? && h'.roll == h.roll && At(h', t).Serving?
    requires t in h'.players ==> h'.players[t] == At(h, t).player
    ensures RightNames(h', t, name)
  {
  }

  lemma NamedStill(h: House, h': House, t: nat, name: Option<string>)
    requires RightNames(h, t, name) && h.roll <= h'.roll
    requires t in h'.players ==> t in h.players && h'.players[t] == h.players[t]
    requires LoggingIn(At(h', t)) ==> LoggingIn(At(h, t)) && PlayerOf(At(h', t)) == PlayerOf(At(h, t))
    ensures RightNames(h', t, name)
  {
  }

  // A player, once entered, keeps his place and name for ever.
  lemma {:induction false} RollGrows(schedule: seq<(nat, Input)>, more: seq<(nat, Input)>)
    ensures Run(schedule).roll <= Run(schedule + more).roll
  {
    hide Next;
    if more == [] {
      assert schedule + more == schedule;
    } else {
      var n := |more| - 1;
      RollGrows(schedule, more[..n]);
      var all := schedule + more;
      assert all[..|all| - 1] == schedule + more[..n];
      RunsOrderly(schedule + more[..n]);
      TablesAfter(Run(schedule + more[..n]), more[n].0, more[n].1);
    }
  }

  // --- Lookups while nobody moves -----------------------------------------------------------

  predicate LoggedInUnder(h: House, c: nat, name: string)
  {
    c in h.players && h.players[c] < |h.roll| && h.roll[h.players[c]] == name
  }

  // The first client from slot k on that is logged in under the name.
  function Lookup(h: House, name: string, k: nat): Option<nat>
    decreases |h.registry| - k
  {
    if k >= |h.registry| then None
    else if h.registry[k].Some? && LoggedInUnder(h, h.registry[k].value, name) then h.registry[k]
    else Lookup(h, name, k + 1)
  }

  lemma {:induction false} LookupFinds(h: House, name: string, k: nat)
    requires k <= |h.registry|
    ensures var r := Lookup(h, name, k);
      && (r.Some? ==> LoggedInUnder(h, r.value, name))
      && (r == None ==> forall j :: k <= j < |h.registry| && h.registry[j].Some? ==>
            !LoggedInUnder(h, h.registry[j].value, name))
    decreases |h.registry| - k
  {
    if k < |h.registry| {
      LookupFinds(h, name, k + 1);
    }
  }

  // In every reachable state the lookup answers with a client exactly if that client is logged
  // in under the name, wherever in the table it is.
  lemma LookupIsTheMap(schedule: seq<(nat, Input)>, name: string, c: nat)
    ensures var h := Run(schedule);
      Lookup(h, name, 0) == Some(c) <==> LoggedInUnder(h, c, name)
  {
    hide Reading;
    var h := Run(schedule);
    RunsOrderly(schedule);
    LookupFinds(h, name, 0);
    if LoggedInUnder(h, c, name) {
      assert Some(c) in h.registry;
    }
  }
}
