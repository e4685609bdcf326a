# Jeux in Dafny

Jeux is a server on which people log in, invite each other to games of tic-tac-toe, and play
them; every client is served by a thread of its own. This project models the server and proves
what it keeps.

The heart of it is the graph of reference-counted records. A client lists invitations, an
invitation holds its two clients and a game, the registries hold clients and players, and service
threads hold players. Clients and invitations point at each other in a cycle that only a log-out,
or a close, breaks.

- `world.dfy`, `engine.dfy` and `server.dfy` model the records as classes that are updated in
  place. The class `World` owns all of them; its predicate `Valid` says that every record carries
  exactly the reference count that the pointers to it account for, the pointers held in local
  variables of the running request among them. A record that is freed leaves the world, and
  nothing can be done with it afterwards.
- `lobby.dfy`, `links.dfy`, `requests.dfy`, `keeping.dfy`, `sessions.dfy` and `runs.dfy` say on
  values what every request does, and what all runs keep (`Runs.RunsRest`). The methods are proved
  to do exactly that: `Servers.Handle` one request, and `Services.RunServer` in `service.dfy` any
  number of connections.
- `answers.dfy` says what every kind of packet means, exactly when it is granted and what it then
  does, in terms of the lobby and of the rules of the game only (`Answers.PacketsMean`).
- `identity.dfy`, `outcomes.dfy`, `roles.dfy`, `drift.dfy` and `ratings.dfy` draw the consequences:
  what ids denote, how games end, how the lists agree, what a role byte leads to, and what happens
  to the ratings.
- `game.dfy`, `game_runs.dfy` and `move_texts.dfy` treat the game itself; `arraylist.dfy` and
  `slots.dfy` the lists from which ids are taken.
- `races.dfy`, `logins.dfy`, `lines.dfy` and `waiting.dfy` look at the parts that several threads
  use at once, one locked region per step and in every order: closing an invitation, logging in,
  sending to one client, and waiting for the registry to become empty.
- `protocol.dfy` has the packets as bytes, `rio.dfy` the buffered reader and `sio.dfy` the printing
  of numbers.

In the first three groups a request is one atomic step. Between two requests the lobby is *at
rest*: no pointer dangles; an invitation in memory is open, or accepted with a game in progress,
and stands in exactly one slot of the list of each of its two parties; the parties are logged in,
but for a target that has left a game in which it had no role; nobody is logged in twice; every
thread knows whether its client is logged in. Every run keeps this, whatever bytes it is sent, up
to a crash, and `Runs.HandledCrashes` and `Runs.HangingUpCrashes` say exactly when one occurs.

Some promises of the documentation do not hold of the code. They are stated as the code has it,
with the condition under which the promise is kept:

- A role byte other than 1 and 2 in INVITE is not refused. The ends of a game agree for both
  parties exactly for 1 and 2 (`RoleBytes.GamesEndRightlyIff`). A target invited to the role 0
  cannot resign: its log-out leaves the game in its list (`RoleBytes.LogoutEmptiesIff`), its client
  stays in memory (`Servers.Exit`), and when the source then resigns, the server follows a null
  pointer (`RoleBytes.LeavingDeserts`, `RoleBytes.StoryCrashesIff`, `RoleBytes.CrashReached`). For
  the bytes 1 and 2 no run does (`Runs.ProperRuns`).
- A thread that waits for the registry to become empty need not proceed when it does, if clients
  register again (`Waiting.TokenTaken`); `Waiting.AllReturn` says exactly when all can, and
  `Waiting.TokensStay` for how long.
- The text of a move cannot be read back (`MoveTexts.WrittenMoveIsNotRead`), and what is read need
  not be a position: numbers are cut to 32 bits (`MoveTexts.NumberReadIff`), which makes no
  difference to numbers of at most nine digits (`MoveTexts.ShortNumberReadIff`).
- When threads race, a resignation that is closed after the game has been drawn posts a loss
  (`Races.LateResignation`); `Races.PostedRightlyIff` says exactly when a posted result is right.
  With one request at a time it always is, for the role bytes 1 and 2.
- A send that fails in the middle of a packet spoils the line for good, and nothing else does
  (`Lines.BrokenForGood`).
- An id byte finds its invitation again only in the first 256 slots (`Identity.ByteFindsIff`).

`dafny verify dfyconfig.toml` checks the project.

## Model

| member | source | states |
|---|---|---|
| `Services.RunServer` | `src/server.c:15-205` | any number of connections, opened, served and lost in any order, one request at a time: the events are those that the commands stand for, and after each of them the records in memory carry exactly the reference counts that the pointers to them account for, and lobby and packets sent are those of the run of the events; it stops early only at a crash of that run |
| `Services.Obey` | `src/server.c:17-205` | a command opens a connection exactly if there is a free slot, serves its packet or ends its thread, and brings the list of open connections up to date |
| `Services.OpenOne` | `src/server.c:28-32` | a connection is one event and one more thread, or none when the registry is full |
| `Services.ServeOne` | `src/server.c:34-193` | a packet is one event with the objects it allocates, and memory and packets sent follow it |
| `Services.LoseOne` | `src/server.c:195-205` | a lost connection is one event, and its thread ends |
| `Servers.Handle` | `src/server.c:38-193` | one turn of the service loop does to memory and sends exactly what the packet means (`Answers.Means`), or refuses it, and lets go of every pointer it took |
| `Answers.PacketsMean` | `src/server.c:38-193` | in every lobby at rest each kind of packet is granted exactly under its condition, with the effect and the packets of the rows below; a request that is not granted is answered with NACK and has no effect whatever, unless it is a RESIGN that crashes the server; packets of other kinds are ignored |
| `Answers.RunsMean` | `src/server.c:34-193` | so it is for every packet of every run |
| `Answers.LoginDoes` | `src/server.c:40-63` | LOGIN: granted exactly if the client is not logged in, there is a payload and nobody is logged in under the name; client and thread get the player of the name, who starts with 1500 if he is new; nothing else changes |
| `Answers.UsersDoes` | `src/server.c:64-84` | USERS: one row with name and rating for every logged-in player and no other, and no effect |
| `Answers.InviteDoes` | `src/server.c:85-118` | INVITE: granted exactly if another client is logged in under the name; a new open invitation between the two, the target in the role of the byte and the source in the other, goes into the first free slot of both lists; INVITED to the target, then ACK with the id |
| `Answers.RevokeDoes` | `src/server.c:119-132` | REVOKE: granted exactly to the source of an open invitation; the invitation leaves both lists and memory and nothing else changes; REVOKED to the target, then ACK |
| `Answers.DeclineDoes` | `src/server.c:133-146` | DECLINE: the same for the target, with DECLINED to the source |
| `Answers.AcceptDoes` | `src/server.c:147-160` | ACCEPT: granted exactly to the target of an open invitation, which gets a new game; ACCEPTED to the source, then ACK, with the board in one of them |
| `Answers.MoveDoes` | `src/server.c:161-176` | MOVE: granted exactly if it is the client's turn and the text denotes an empty cell; MOVED with the board that the rules of the game lead to, then both ENDED, the ratings and the withdrawal if that ends the game, then ACK |
| `Answers.ResignDoes` | `src/server.c:177-190` | RESIGN: granted exactly to a party with a role whose opponent is there; RESIGNED, both ENDED with the other role, no point for the client and a whole one for the opponent, the invitation withdrawn, then ACK; a crash after the three packets if the opponent is gone |
| `Servers.Exit` | `src/server.c:195-203` | the end of a service thread drops its player, logs its client out and unregisters it; the client is freed exactly if it is in no game that it could not resign; the server crashes exactly where the log-out does |
| `Services.Service` | `src/server.c:15-205` | a whole service thread: its events are the connection, one for each packet in order, and the hang-up, and nothing else happens; afterwards as many threads are served as before |
| `Servers.HandleLogin` | `src/server.c:40-63` | the thread keeps the player only if the login succeeds, and gives the pointer back otherwise |
| `Servers.HandleInvite` | `src/server.c:85-118` | the looked-up client is held for the request and let go of without being freed; the roles are complementary bytes of the request |
| `Servers.HandleUsers` | `src/server.c:64-84` | the acknowledgement lists name and rating of every logged-in player and every pointer taken for it is dropped |
| `Servers.HandleAccept` | `src/server.c:147-160` | the text for the accepting client travels in the acknowledgement |
| `Servers.HandleRevoke` | `src/server.c:119-132` | a revocation is answered with ACK or NACK after the packet it causes |
| `Servers.HandleDecline` | `src/server.c:133-146` | declining is answered with ACK or NACK after the packet it causes |
| `Servers.HandleMove` | `src/server.c:161-176` | a move is answered with ACK or NACK after the packets it causes |
| `Servers.HandleResign` | `src/server.c:177-190` | a resignation is answered with ACK or NACK after the packets it causes |
| `Servers.ClientLogin` | `src/client.c:59-79` | fails, changing nothing, if the client is logged in or the player is among the players of the registered clients |
| `Servers.DropAll` | `src/client.c:62-69` | every pointer of the list is dropped and the player looked for is found if he is in it |
| `Servers.AllPlayers` | `src/client_registry.c:96-111` | the array holds the players of all logged-in clients in slot order, ended by null, with one new pointer for each |
| `Servers.Lookup` | `src/client_registry.c:76-94` | answers with the first client that is logged in under the name, with a new pointer to it, or with null |
| `Servers.RegisterPlayer` | `src/player_registry.c:33-55` | answers with the player of that name, entering one with the initial rating if there is none, with one new pointer |
| `Servers.RegisterClient` | `src/client_registry.c:33-51` | a new client takes the first free slot; null exactly if there is no free slot |
| `Servers.UnregisterClient` | `src/client_registry.c:53-74` | a logged-out client leaves its slot and is freed, unless a game names it; -1 and no change if it has no slot |
| `Servers.ListUsers` | `src/server.c:69-76` | one row for each player of the list, and every pointer of it dropped |
| `Services.Finalize` | `src/player_registry.c:21-31` | when no client is left the end of the player registry frees every player, once |
| `Engine.InvUnref` | `src/invitation.c:41-57` | the count drops by one; at zero, and only then, the invitation is freed and its two clients are let go of, whatever that frees in turn |
| `Engine.InvGone` | `src/invitation.c:48-56` | an invitation that nothing points to is freed and its two clients are let go of, whatever that frees in turn |
| `Engine.ClientUnref` | `src/client.c:41-55` | the count drops by one; at zero, and only then, the client is freed; a client being freed is logged out, so the cascade ends there |
| `Engine.ClientLogout` | `src/client.c:81-105` | every listed game is resigned and every listed invitation revoked or declined, slot by slot; then the client is nobody; a client that is not logged in is left alone; the server crashes exactly where a resignation does |
| `Engine.LogoutTurn` | `src/client.c:89-95` | one slot of a log-out: resign, revoke or decline |
| `Engine.ClientAddInvitation` | `src/client.c:154-173` | the first free slot of a logged-in party gets the invitation and a pointer to it; -1 and no change otherwise |
| `Engine.ClientRemoveInvitation` | `src/client.c:175-190` | exactly the slot of the invitation is emptied and its number returned, the size of the list if there is none; the invitation is not freed while the caller holds it |
| `Engine.ClientMakeInvitation` | `src/client.c:192-219` | a new open invitation stands in the first free slot of both lists, with no pointer left over, and the target is told; a party that is not logged in does not list it, and then -1, no packet, and the invitation is freed if nobody lists it; nothing happens when source and target are the same |
| `Engine.ClientRevokeInvitation` | `src/client.c:221-261` | fails without effect unless the client is the source of a listed open invitation; otherwise the invitation leaves both lists and memory and the target is told |
| `Answers.RevokableIff` | `src/client.c:234-248` | revoking succeeds exactly for the source of a listed open invitation |
| `Answers.DeclinableIff` | `src/client.c:276-290` | declining succeeds exactly for the target of a listed open invitation |
| `Engine.ClientDeclineInvitation` | `src/client.c:263-303` | the same for the target, telling the source |
| `Engine.ClientAcceptInvitation` | `src/client.c:305-354` | an open invitation gets its game; the board goes to the party that moves first |
| `Answers.AcceptableIff` | `src/client.c:318-328` | accepting succeeds exactly for the target of a listed open invitation |
| `Engine.ClientResignGame` | `src/client.c:368-419` | a game in progress ends: off both lists, both told the winner, result posted, freed; a crash exactly if a party has no player; -1 and no effect otherwise |
| `Engine.GiveUp` | `src/client.c:397-418` | what follows a successful close of a resigned game |
| `Engine.ClientMakeMove` | `src/client.c:421-503` | a legal move is applied and shown to the opponent; a game that it ends is closed, reported, rated and freed; -1 and no effect otherwise |
| `Answers.PlayableIff` | `src/client.c:443-465` | a move succeeds exactly if the slot holds an invitation with a game, the client's role is the game's turn and the text reads as a position whose cell is empty |
| `Engine.MoveGoesOn` | `src/client.c:470-503` | what follows a legal move, by whether the game is over |
| `Engine.CloseGame` | `src/client.c:483-501` | a finished game is closed on behalf of the loser and the result is the one seen by the mover |
| `Engine.RemoveFromBoth` | `src/client.c:397-404` | the invitation leaves the two lists one after the other; its number in each is returned |
| `Engine.LetGo` | `src/client.c:242-250` | both lists lose it and the last pointer frees it, and neither of its clients |
| `Engine.AnnounceEnd` | `src/client.c:414-417` | both parties get ENDED with the winner, the result is posted, for which both need a player, and the last pointer is dropped |
| `Engine.InvCreate` | `src/invitation.c:16-30` | a new open invitation holds a pointer to each of its two clients; none is made between a client and itself |
| `Engine.FreedLoggedOut` | `src/client.c:48-50` | a client whose count has reached zero is not logged in, so its log-out does nothing |
| `Worlds.World.constructor` | `src/main.c:50-51` | both registries are empty |
| `Worlds.World.ClientRef` | `src/client.c:32-39` | one more pointer is held, and the count says so |
| `Worlds.World.InvRef` | `src/invitation.c:32-39` | one more pointer is held, and the count says so |
| `Worlds.World.PlayerRef` | `src/player.c:24-31` | one more pointer is held, and the count says so |
| `Worlds.World.ClientDec` | `src/client.c:41-47` | what is left after the decrement is the number of the remaining pointers |
| `Worlds.World.InvDec` | `src/invitation.c:41-47` | what is left after the decrement is the number of the remaining pointers |
| `Worlds.World.PlayerUnref` | `src/player.c:33-46` | the count never reaches zero while the player registry exists |
| `Worlds.World.ClientFree` | `src/client.c:48-54` | only a client that nothing points to is freed, and it is gone from memory |
| `Worlds.World.InvFree` | `src/invitation.c:48-56` | only an invitation that nothing points to is freed; its pointers to its clients pass to the caller |
| `Worlds.World.SlotStore` | `src/client.c:162-166` | a held pointer moves into the list |
| `Worlds.World.SlotClear` | `src/client.c:178-183` | the slot whose pointer has been dropped is emptied |
| `Worlds.World.InvAccept` | `src/invitation.c:99-109` | OPEN to ACCEPTED with a new game, and nothing in any other state |
| `Worlds.World.InvClose` | `src/invitation.c:111-125` | OPEN to CLOSED, or ACCEPTED to CLOSED with the game resigned by a role, and nothing otherwise; the game stays |
| `Worlds.World.GameApplyMove` | `src/game.c:64-99` | the game of the invitation becomes what the move makes of it, and no other game changes |
| `Worlds.World.PlayerPostResult` | `src/player.c:64-87` | exactly two ratings change |
| `Worlds.World.PlayerNew` | `src/player_registry.c:44-49` | the new player is appended to the registry and has one pointer from there and one from the caller |
| `Worlds.World.AdoptClient` | `src/client.c:20-30` | a new client record becomes part of the memory, with one pointer to it held |
| `Worlds.World.AdoptInv` | `src/invitation.c:16-30` | a new invitation record becomes part of the memory, and the two held pointers to its clients pass into it |
| `Worlds.World.PlayersFini` | `src/player_registry.c:21-31` | every player's count goes from one to zero and each is freed once |
| `Worlds.World.Seat` | `src/client_registry.c:36-46` | the client takes the first free slot |
| `Worlds.World.Unseat` | `src/client_registry.c:56-64` | the slot is emptied; -1 if the client has none |
| `Worlds.World.SendPacket` | `src/client.c:123-131` | one packet more for one client |
| `Objects.Invitation.Accept` | `src/invitation.c:99-109` | only an open invitation is accepted, and gets a fresh initial game |
| `Objects.Invitation.Close` | `src/invitation.c:111-125` | who may close when, and what a close on behalf of a role does to the game |
| `ArrayLists.ArrayList.Get` | `src/arraylist.c:13-15` | the element, or null past the end |
| `ArrayLists.ArrayList.Set` | `src/arraylist.c:17-19` | overwrites in range and appends past the end |
| `ArrayLists.ArrayList.Push` | `src/arraylist.c:21-27` | appends; doubling the capacity keeps every element |
| `ArrayLists.ArrayList.Find` | `src/arraylist.c:35-41` | the first place of the element, or the size: never -1 |
| `ArrayLists.ArrayList.ToArray` | `src/arraylist.c:48-54` | a copy of the contents ended by null |
| `Prelude.FirstIndex` | `src/arraylist.c:35-41` | the place found is the first one, or the size if there is none |
| `Slots.Tight` | `src/client.c:162-183` | over any sequence of additions and removals the list is exactly as long as the largest number of invitations that were in it at one time |
| `Slots.Grown` | `src/arraylist.c:35-41` | a list grows only when all of it is in use |
| `Slots.Perform` | `src/client.c:162-183` | the array list under first-free additions and removals computes the list of the specification |
| `Sessions.CString` | `src/server.c:43` | the text up to the first null character |
| `Runs.RunsRest` | `src/server.c:34-203` | in every run of requests, connections and hang-ups, whatever the bytes, no pointer dangles and the two sides of every invitation agree between requests |
| `Runs.StepKeeps` | `src/server.c:34-203` | every single event keeps that |
| `Sessions.HandledKeeps` | `src/server.c:38-193` | every request keeps it, without anybody coming or going |
| `Sessions.HungUpKeeps` | `src/server.c:195-203` | hanging up frees exactly the client that hung up, unless it leaves a game that it cannot resign, and then nobody |
| `Sessions.ConnectedKeeps` | `src/client_registry.c:33-51` | a connection is accepted exactly if the registry has a free slot |
| `Sessions.InvitesKeeps` | `src/server.c:85-118` | an invitation keeps the lobby at rest for every role byte, and never crashes the server |
| `Sessions.LoggedInKeeps` | `src/client.c:59-79` | a login keeps the lobby at rest |
| `Sessions.LoginIffNameFree` | `src/client.c:59-79` | a login succeeds exactly if the client is not logged in and nobody is logged in under the name |
| `Sessions.LookupIsTheMap` | `src/client_registry.c:76-94` | the lookup is a map from names to clients, whatever the order of the slots |
| `Sessions.LoggedInAs` | `src/client_registry.c:96-111` | the listed players are exactly those of the registered clients |
| `Sessions.LoginsDiffer` | `src/client_registry.c:96-111` | nobody is listed twice |
| `Sessions.RosterLists` | `src/server.c:69-76` | one row for each listed player, with his name and rating |
| `Runs.CountsAtRest` | `src/client.c:32-55` | between requests: invitation 2, client 1 while it is connected + the invitations naming it, player 3 while somebody is logged in as him and 1 otherwise |
| `Runs.NothingLeaks` | `src/server.c:195-203` | when the last connection has gone no client, invitation or seat is left and every player has the one pointer of the player registry |
| `Runs.RoomIff` | `src/client_registry.c:36` | a further connection is taken exactly while fewer than 64 are served |
| `Runs.ResigningCrashes` | `src/client.c:416` | a resignation follows a null pointer exactly if the opponent has left the game without being able to resign it |
| `Runs.MovingNeverCrashes` | `src/client.c:501` | a move never does |
| `Runs.HandledCrashes` | `src/server.c:38-193` | of all requests exactly such a RESIGN crashes the server |
| `Runs.HangingUpCrashes` | `src/server.c:195-203` | hanging up crashes it exactly if the client is in such a game |
| `Runs.DesertedBy` | `src/client.c:376-388` | only the source of a game can be left so, and only by a target that was invited to the role 0 |
| `Runs.ProperStep` | `src/server.c:34-203` | where all role bytes are 1 or 2, no step crashes, and whoever hangs up is freed |
| `Runs.ProperRuns` | `src/server.c:34-203` | where INVITE carries only the bytes 1 and 2, no run crashes the server and every invitation is between two different roles |
| `Keeping.LoggedOutKeeps` | `src/client.c:81-105` | after a log-out the list is empty but for games that the client had no role to resign, and only those still name it; everybody else is as the turns leave them |
| `Keeping.CloseSlotKeeps` | `src/client.c:89-95` | each turn of a log-out that does not crash succeeds and empties exactly its slot, or leaves a game that the client cannot resign |
| `Keeping.TurnsClear` | `src/client.c:86-97` | the loop of a log-out empties slot after slot, but for such games |
| `Keeping.MadeKeeps` | `src/client.c:192-219` | making an invitation keeps both lists in agreement |
| `Keeping.RevokedKeeps` | `src/client.c:221-261` | revoking keeps them in agreement |
| `Keeping.DeclinedKeeps` | `src/client.c:263-303` | declining keeps them in agreement |
| `Keeping.AcceptsKeeps` | `src/client.c:305-354` | accepting keeps them in agreement |
| `Keeping.ResignsKeeps` | `src/client.c:368-419` | resigning keeps them in agreement |
| `Keeping.MovesKeeps` | `src/client.c:421-503` | moving keeps them in agreement, and the games of accepted invitations unfinished |
| `Keeping.HardlyMoves` | `src/client.c:452-470` | in a game without two different roles at most one move is ever made, and it does not end the game |
| `Requests.DroppedInSteps` | `src/client.c:397-417` | taking an invitation off its two lists in either order and dropping the last pointer frees it and neither of its clients |
| `Requests.NotTheLast` | `src/client.c:178-183` | the pointer of a list is not the last one while the caller holds another |
| `Requests.StillListed` | `src/client.c:223-228` | a pointer taken to a listed invitation is not the last one |
| `Links.FreeClient` | `src/client.c:48-54` | freeing a client that nothing points to leaves every other count as it is |
| `Links.FreeInv` | `src/invitation.c:48-56` | freeing an invitation hands its two pointers to the caller and leaves every count as it is |
| `Links.UncountedClient` | `src/client.c:48-54` | a client with count zero is in no registry, named by no invitation and not logged in |
| `Outcomes.ListsAgree` | `src/client.c:154-190` | an invitation in memory stands at exactly one place of each party's list; lists hold nothing else; ACCEPTED has an unfinished game and OPEN none; a logged-out client lists at most games that it left because it had no role in them |
| `Outcomes.MoveEnds` | `src/client.c:421-503` | a legal move leaves the game open or ends it with the mover's win or a draw; then both ENDED packets, the game and the two ratings tell one and the same outcome |
| `Outcomes.ResignationEnds` | `src/client.c:368-419` | a resignation is a win of the other role in the game and in both ENDED packets; the two ratings agree with it exactly if the opponent has that role |
| `Outcomes.FirstMoverGetsBoard` | `src/client.c:330-350` | exactly one party gets the initial board: the target if it moves first, otherwise the source, and always the one that moves first if there is one |
| `Outcomes.EitherWithdraws` | `src/client.c:221-303` | revoking and declining leave the same lobby |
| `Outcomes.RevokeUndoes` | `src/client.c:192-261` | revoking a new invitation restores every list, but for an empty slot gained at the end |
| `Outcomes.OneAnswer` | `src/server.c:38-193` | every request is answered exactly once, last, unless it crashes the server; after NACK nothing has changed that was there; other packets do nothing |
| `RoleBytes.RolesComplement` | `src/server.c:92` | the parties get the two different roles exactly if the role byte is 1 or 2 |
| `RoleBytes.ResignableIff` | `src/invitation.c:117-120` | an accepted game can be resigned exactly by a party that has a role and whose opponent is logged in |
| `RoleBytes.GamesEndRightlyIff` | `src/client.c:413-416` | a resignation ends with game, ENDED packets and ratings in agreement: the target's exactly if the role byte is not 0, the source's exactly if it is 1 or 2 |
| `RoleBytes.LogoutEmptiesIff` | `src/client.c:86-97` | a log-out empties a slot exactly if the client has a role in the game there, or there is no game yet |
| `RoleBytes.LeavingDeserts` | `src/client.c:376-416` | when the target of a game has hung up, the source's RESIGN crashes the server exactly if the role byte was 0 |
| `RoleBytes.StoryCrashesIff` | `src/client.c:416` | INVITE, ACCEPT, hang-up of the target, RESIGN: in every lobby in which this can happen it crashes the server exactly if the role byte is 0 |
| `RoleBytes.CrashReached` | `src/client.c:416` | a run of eight events from the empty server in which this happens |
| `RoleBytes.StuckForTheTarget` | `src/client.c:263-419` | a party without a role in an accepted game can neither move, resign, decline nor revoke it, nor accept it again |
| `Identity.PacketIds` | `src/client.c:221-503` | the id of a request and the ids in all packets it causes denote one invitation, each in the list of its recipient |
| `Identity.NewIds` | `src/client.c:200-218` | the ids in INVITED and in the acknowledgement denote the new invitation in the two lists |
| `Identity.NoDoubt` | `src/client.c:210` | an id byte finds its invitation in a list of at most 256 slots |
| `Identity.ByteFindsIff` | `src/client.c:210` | the id byte of the invitation in slot k finds it again exactly if k is below 256 |
| `Identity.LongestEver` | `src/arraylist.c:17-41` | in every run a list is exactly as long as the largest number of invitations its client has had at one time since it connected |
| `Identity.IdsAreExact` | `src/client.c:210` | so every id byte is exact for a client that never had more than 256 at one time |
| `Identity.LogoutIds` | `src/client.c:81-105` | the packets of a log-out go to parties of the client's invitations under the ids that denoted them when it began |
| `Identity.IdsStay` | `src/client.c:154-190` | no step changes the slot of an invitation that still exists, or puts another in its place |
| `Identity.IdForLife` | `src/client.c:154-190` | over any run an invitation keeps its id for as long as it exists |
| `Drift.RatingsDrift` | `src/player.c:64-87` | in every run the sum of all ratings differs from the initial sum by at most one point for every game that has ended, whatever the role bytes |
| `Drift.StepSteady` | `src/player.c:64-87` | every event moves the sum by at most one point for each game it ends |
| `Players.Expected` | `src/player.c:82-83` | an expectation lies strictly between 0 and 1 |
| `Players.PostResult` | `src/player.c:64-87` | the ratings do not depend on which record lies lower in memory |
| `Ratings.ExpectationsSplit` | `src/player.c:82-83` | the two expectations add up to one |
| `Ratings.GainsCancel` | `src/player.c:75-85` | before truncation one player gains what the other loses |
| `Ratings.StakeIsExact` | `src/player.c:84-85` | the stake is 32 points: that much lies between win and loss, whoever plays, and a draw in the middle |
| `Ratings.FairGame` | `src/player.c:82-85` | who wins with the expected frequency gains nothing on average |
| `Ratings.Odds` | `src/player.c:82-83` | the odds against a player are what the curve says |
| `Ratings.EqualRatings` | `src/player.c:75-85` | between equals a win is worth 16 points and a draw none |
| `Ratings.FirstGame` | `src/player.c:64-87` | after the first game between new players they have 1516 and 1484, or 1500 each |
| `Ratings.PostedWin` | `src/player.c:64-87` | a posted win moves the winner up and the loser down, each by at most 32, and nobody else |
| `Ratings.PairTotal` | `src/player.c:84-85` | truncation moves the pair's total by at most one, never up while no rating is negative, and not at all exactly if the gain is whole |
| `Ratings.TruncatedPair` | `src/player.c:84-85` | the same for any gain and any signs |
| `Ratings.OneRating` | `src/player.c:75-85` | a change is at most 32 points and never against the sign of score minus expectation |
| `Ratings.ExpectationFollowsRating` | `src/player.c:82-83` | a better rated player is expected to score at least as much |
| `Ratings.EitherSide` | `src/player.c:66-72` | posting (a, b, r) and (b, a, swapped r) gives the same ratings |
| `Ratings.PostedTotal` | `src/player.c:64-87` | a posted result moves the total of all players by at most one |
| `Games.Game.constructor` | `src/game.c:34-39` | an empty board and the first player to move |
| `Games.Game.ApplyMove` | `src/game.c:64-99` | an illegal move changes nothing; a legal one sets the cell and finds a line of the mover, or a full board |
| `GameRuns.LinesAre` | `src/game.c:20-32` | the table has exactly the three rows, the three columns and the two diagonals |
| `GameRuns.LegalIff` | `src/game.c:64-99` | in an open game a move is legal exactly if it is the role's turn and the cell is empty; then only that cell changes, three in a row win, a full board is a draw, and otherwise it is the other's turn |
| `Games.Game.Resign` | `src/game.c:101-111` | the other role wins, unless the game is over or there is no role |
| `Games.Game.UnparseState` | `src/game.c:113-133` | the text of the board, row by row, and of the turn |
| `Games.ParseMove` | `src/game.c:151-160` | a move that is read has a role and a position from 1 to 9 |
| `GameRuns.OnlyTheMoversLines` | `src/game.c:79-88` | looking only for lines of the mover finds every line there is |
| `GameRuns.MoveOutcome` | `src/game.c:64-99` | a legal move of an open game leads to an open game with the other role to move, to a win of the mover, or to a draw |
| `GameRuns.ResignOutcome` | `src/game.c:101-111` | resigning an open game with any role succeeds and makes the other role the winner |
| `GameRuns.Run` | `src/game.c:64-111` | after any moves and resignations the game is soundly open or soundly over, and moves made plus empty cells are nine |
| `GameRuns.NextKeeps` | `src/game.c:64-111` | nothing changes a game that is over |
| `GameRuns.NeverReopens` | `src/game.c:64-111` | once over, no sequence of attempts changes the game |
| `GameRuns.RunsEndOneWay` | `src/game.c:64-111` | at most nine moves succeed, and a game ends as exactly one of won, drawn and resigned |
| `MoveTexts.DigitIsRead` | `src/game.c:151-160` | a single digit from 1 to 9 is read as that position |
| `MoveTexts.WrittenMoveIsNotRead` | `src/game.c:162-168` | no text of a move is read back, though include/game.h:151-153 promises it |
| `MoveTexts.LargeNumberIsRead` | `src/game.c:153` | for instance 2^32 + 1 is read as position 1 |
| `MoveTexts.NumberReadIff` | `src/game.c:151-155` | a number is read as position p exactly if, saturated, it differs from p by a multiple of 2^32, with p from 1 to 9 |
| `MoveTexts.ShortNumberReadIff` | `src/game.c:151-155` | a number of at most nine digits is read as p exactly if it is p |
| `MoveTexts.NumberTaken` | `src/game.c:153` | white space, sign and digits are read to their end, saturated |
| `MoveTexts.OnlyNumbersRead` | `src/game.c:151-155` | no other text is read |
| `MoveTexts.DescriptionTells` | `src/game.c:113-133` | different boards, or turns, have different texts |
| `MoveTexts.TextShows` | `src/game.c:113-133` | in the text, cell by cell, X stands exactly for the first player and O for the second, then whose turn it is, and between them only the lines |
| `MoveTexts.MoveIsWritten` | `src/game.c:162-168` | a move is written as its digit, an arrow and X or O |
| `Races.Run` | `src/invitation.c:99-125` | under every interleaving of accepting, withdrawing, moving and resigning the state only moves forward, exactly one close succeeds on a closed invitation, and the game stays sound |
| `Races.PostedAtMostOnce` | `src/client.c:397-500` | under every interleaving at most one result is posted, by the thread that closed the accepted invitation, and none for one that was revoked or declined |
| `Races.FirstComes` | `src/invitation.c:99-125` | under every schedule accepting and withdrawing succeed exactly if the invitation is still open, and closing a game exactly if it is not closed and there is a role |
| `Races.MoveAlone` | `src/client.c:421-503` | a legal move that nobody disturbs is made in four steps, and one that ends the game is closed and posted in three more |
| `Races.ResignAlone` | `src/client.c:368-419` | a resignation of an open game that nobody disturbs is made, and posted as a loss |
| `Races.LateResignation` | `src/client.c:397-416` | a schedule that reaches the bad case: a thread that looked at the game before it was drawn resigns it afterwards, and a loss is posted for the draw |
| `Races.PostedRightlyIff` | `src/client.c:397-500` | under every interleaving the posted result is that of the finished game exactly if it is posted after a move, or by a resignation whose close found the game open or won by somebody else |
| `Logins.UniqueLogins` | `src/client.c:57-105` | under every interleaving no two clients are logged in as one player, every logged-in client is registered, player names are distinct and one thread has the log mutex |
| `Logins.LoginIffFree` | `src/client.c:59-79` | a login succeeds exactly if nobody is logged in as the player when it takes effect, though registrations go on while it runs |
| `Logins.RightPlayer` | `src/server.c:43-47` | under every schedule a login ends with the player of the name it began with |
| `Logins.RollGrows` | `src/player_registry.c:33-55` | a player keeps his place and name for ever |
| `Logins.LookupIsTheMap` | `src/client_registry.c:76-94` | in every reachable state the lookup finds exactly the client that is logged in under the name |
| `Lines.ReceivedInOrder` | `src/client.c:123-131` | with any number of threads and any short sends, unless one fails inside a packet, the receiver decodes exactly the complete packets in the order of the mutex |
| `Lines.RunsWhole` | `src/client.c:123-131` | the bytes sent are complete packets and a beginning of the holder's packet, or more than these exactly if a send has failed inside a packet |
| `Lines.BrokenLine` | `src/protocol.c:46-67` | for instance a packet sent after one byte of a packet of another kind |
| `Lines.BrokenForGood` | `src/protocol.c:46-67` | while nobody sends, whatever packet comes next is read as it was sent after all before it exactly if no send has ever failed inside a packet |
| `Waiting.RunsOrderly` | `src/client_registry.c:33-123` | under every interleaving the size counts the occupied slots, a registration below the cap finds a slot, nobody waits for an empty registry that is empty, and waiting count plus tokens are the blocked threads |
| `Waiting.AllReturn` | `src/client_registry.c:66-71` | the blocked threads can all return, in any order, exactly if none is counted as waiting, and so when the registry is empty; then no token is left |
| `Waiting.TokensStay` | `src/client_registry.c:66-123` | once the registry has been empty every blocked thread has its token for as long as nobody registers, or nobody enrols |
| `Waiting.NoTokenBefore` | `src/client_registry.c:66-71` | while the registry is not empty no token is made, and nobody returns who has none |
| `Waiting.TokenTaken` | `src/client_registry.c:113-123` | a later waiter can take an earlier one's token when clients register again, though include/client_registry.h:115-123 promises otherwise |
| `Registries.ClientRegistry.Insert` | `src/client_registry.c:39-46` | the first free slot, and the size with it |
| `Registries.ClientRegistry.Remove` | `src/client_registry.c:56-65` | the client's slot, and the size with it, or -1 |
| `Registries.ClientRegistry.WakeIfEmpty` | `src/client_registry.c:66-71` | one token for every waiting thread once the registry is empty |
| `Registries.ClientRegistry.Enrol` | `src/client_registry.c:113-120` | who finds the registry empty does not wait |
| `Protocol.HeaderRoundTrip` | `include/protocol.h:125-132` | headers and strings of sixteen bytes correspond one to one |
| `Protocol.NetworkOrder` | `include/protocol.h:115-132` | which byte of the header holds what: type, id and role first, and numbers with the high byte first |
| `Protocol.StreamRoundTrip` | `src/protocol.c:30-112` | from the bytes of packets and a part of a further one the receiver gets exactly those packets |
| `Protocol.DecodeIsFaithful` | `src/protocol.c:70-112` | what is decoded, encoded again, is what was there, and what is left over is no packet |
| `Protocol.DecodePart` | `src/protocol.c:75-95` | no packet is a proper beginning of another |
| `Protocol.Sender.SendPacket` | `src/protocol.c:46-67` | with any short sends all of the packet goes out; on failure a proper beginning of it |
| `Protocol.Receiver.RecvPacket` | `src/protocol.c:70-112` | with any short receives the next packet of the stream, or -1 when it is not complete |
| `Protocol.Receiver.RecvAll` | `src/server.c:34` | packet after packet until the stream ends, and none that was not sent |
| `Rio.Reader.Refill` | `src/csapp.c:809-820` | reads on through interruptions; loses nothing |
| `Rio.Reader.Read` | `src/csapp.c:805-830` | delivers the next bytes of the plain stream; 0 exactly at its end, negative only on errors |
| `Rio.Reader.ReadN` | `src/csapp.c:849-864` | delivers n bytes of the plain stream, or all there are |
| `Rio.Reader.ReadLine` | `src/csapp.c:871-893` | delivers the next line of the plain stream, or what fits, ended by a null byte |
| `Rio.ReadAll` | `src/csapp.c:805-893` | any mix of calls delivers what the calls take off the plain stream, however the blocks fall |
| `Rio.NothingLost` | `src/csapp.c:805-893` | bytes delivered and bytes left over are the stream |
| `Rio.LineEnds` | `src/csapp.c:876-890` | a line ends with its first newline |
| `Rio.LineFits` | `src/csapp.c:871-893` | a line leaves room for the null byte and stops short only after a newline or at the end |
| `Sio.Reverse` | `src/csapp.c:226-235` | the text is reversed in place |
| `Sio.Ltoa` | `src/csapp.c:238-255` | the array gets the text of the number, ended by a null character |
| `Sio.TextDenotes` | `src/csapp.c:238-255` | what is written denotes the number, in any base from 2 to 36 |

## Left out

- Engine.ClientRevokeInvitation: the test for -1 after a removal is left out, because a removal never answers -1 (src/arraylist.c:40); likewise in declining, resigning and moving.
- Engine.ClientLogout: the player field is cleared before the pointer is dropped, the reverse of src/client.c:98-99; with one request at a time no one can tell. Of the game the same holds in Engine.InvGone, where it is taken out of the record before the two clients are let go of.
- Players.PostResult: the curve 10^(d/400) is any positive monotone p with p(d) * p(-d) = 1, and doubles are exact reals; rounding is not modelled.
- Sessions.RosterLists: USERS sends rows of name and rating; their rendering as text with tabs and newlines is not modelled.
- Sio.Ltoa: the smallest long is excluded, because it has no opposite.
- Races.PostedRightlyIff: of what races can spoil only the posted result is treated exactly. Under interleaving the two lists need not agree and a log-out need not be complete: an accept between src/client.c:90 and src/client.c:93 survives it.
- Logins.LookupIsTheMap: reads one state; a lookup during which others log in or out answers from several.
- Waiting.AllReturn: does not promise a thread that it returns only after the registry has been empty since its own call; see Waiting.TokenTaken.
- Servers.Handle: after a crash nothing is said about memory, only which packets had been sent.
- Deadlock freedom: not claimed. Login takes the log mutex and then the registry's; unregistering can take them the other way round.
- Mutexes: the recursive locks of clients and the locks of games and players appear only as the steps of races.dfy, logins.dfy, lines.dfy and waiting.dfy.
- Sockets, the accept loop, signals, thread creation, shutdown of connections, timestamps and debug output.
- The failure of a memory allocation, and of sending: a packet sent by a request counts as delivered to the connection.
- The move object that is not freed after an illegal move (src/client.c:461-465).
- arraylist_pop, which is not used, and the wrappers in src/csapp.c other than the buffered reader and the number printing.
