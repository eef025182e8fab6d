# Screego server: a verified model

Screego lets the members of a room share their screens. Its server keeps rooms and their users, pairs a
streaming member ("host") with each viewer ("client") in a session, hands out TURN credentials for the sessions
and relays the peer-to-peer messages. This project models that server in Dafny and proves what its structures,
its messages and its goroutines keep in agreement.

## What is modelled

* **The event loop** (`Server.dfy`). `Rooms` and `Room` are objects whose map fields the handlers update in
  place, as in `ws/rooms.go`, `ws/room.go` and the `ws/event_*.go` files. `Dispatch` is the body of `Rooms.Start`
  with the rollback of failed events; `Start` is the loop. A Go `range` over a map is a loop over a snapshot of
  the keys in arbitrary order. Every handler is proved to do exactly what the specification (`Spec.dfy`) allows
  and to reach every user and session it needs without a miss (`Room.Send` demands the member).
* **The specification** (`Spec.dfy`). States are values; one iteration of the loop is the relation `Next`, a run
  is `IsRun`. It is a relation because the order of iteration, the drawn ids and passwords, the invented names
  and the answer of the IP provider are not determined by the code. `out` records every message whose write to a
  client was attempted.
* **The agreements** (`Invariants.dfy`, proved in `IndexProofs`, `RoomProofs`, `BaseProofs`). `Base` says, among
  others: every session joins two distinct members of its room; for two distinct members the first streams iff a
  session leads from it to the second; a room has a user and at most one owner; the index and the rooms agree;
  the TURN table holds exactly two keys per session of a TURN room; the counters add up.
* **What each event achieves** (`Refusals`, `Effects`, `SessionLogs`). Without naming a handler: exactly which
  events fail and why; the whole state after each event as an equation over the state before; and, for each client
  and session, exactly what the client is told of the session in a step.
* **What clients see** (`Views`, `ViewProofs`, `GoodProofs`, `History`, `RelayProofs`). A client that replays its
  messages up to the closing one knows its sessions and credentials that work. `Good` is `Base` plus these, and
  holds in every state of every run.
* **What can go wrong** (`OneRoom`, `Lists`, `Closing`, `Conservation`, `Counting`). Five promises that the code
  does not keep in all runs, each with the exact condition on one step and on whole runs; `Witnesses` has runs in
  which they fail, and `Progress` shows which outcomes can always occur.
* **Whole-run results** (`RunResults`, `RunProofs`, `Isolation`, `Leaving`, `Reach`).
* **The goroutines** (`Once.dfy`, `Lifecycle.dfy`). The early-unlocking once, for any number of threads; and the
  readers, writers and reporting goroutines of any number of clients, interleaved with the one main loop, whose
  steps are those of `Spec.Next`.
* **TURN table** (`Turn.dfy`), **port range** (`PortRange.dfy`), **address cache** (`Dns.dfy`).

What the IP provider replies if it is asked is an input of each step (`reply` in `Types.ClientMessage`), as is
which attempts to bind a port succeed (`PortRange.AllocatePacketConn`). Two assumptions on the environment are
explicit. `Spec.Arrives`: the id generator does not repeat itself, a client's `Connected` message comes once and
alone skips the connected check, and it is never decoded from what a client sends. And the clock does not run
backwards (`Dns.Clock`). The Go unicode and byte strings are modelled as sequences of characters, xids as their
text, addresses as text, the key derivation (section 9.2.2 of RFC 8489) as a term over its three inputs. Locks of
the TURN table and of the address cache make their operations atomic.

## Where the code does not do what one would expect

Each is proved with the exact condition and with a run in which it happens.

* **A room under the empty id.** Create does not refuse it (`ws/event_create.go:77-78`), though the empty id also
  marks "not in a room" (`ws/event_connected.go:6`, `ws/rooms.go:62`). Its users are not taken to be in it, and it
  never closes. A step keeps
  - everyone in at most one room iff it does not let a user of that room into another one and leave it there
    (`OneRoom.NextOneRoom`), which it does iff the room is new or the IP provider replies; so whatever the provider
    replies, iff it does not let it in (`OneRoom.SureOneRoom`);
  - the last member list written to each user of each room current iff it does not let a user of that room into
    another one, even if that fails in the end (`Lists.NextLists`);
  - the closing message the last one written to each client iff it does not let a client into that room while it
    still lists a client that was let go (`Closing.NextCloses`);
  - the count of users right iff it does not let a user of that room into that same room
    (`Conservation.NextSurplus`).

  Over whole runs: `OneRoom.OneRoomExactly`, `Lists.ListsExactly`, `Closing.ClosesExactly`,
  `Conservation.UsersExactly`. Runs that show each are `Witnesses.InTwoRoomsAtOnce`, `Witnesses.WrittenAfterTheEnd` and
  `Witnesses.CountedTwice`. All other agreements, and the views of all clients, hold regardless.
* **A repeated share.** A member that streams and sends `share` again gets a second session with every other
  member (`ws/event_share.go:24-29`, `Witnesses.SharedTwice`). A step keeps the number of sessions of each room of n
  users, k of them streaming, at k(n-1) iff it is not such a share that succeeds (`Counting.NextSessions`, over whole
  runs `Counting.SessionsExactly`); it is sure to, whatever the IP provider replies, iff it is not such a share
  (`Counting.SureSessions`).
* **The warning "less than 40 ports"** is also given for exactly 40 (`config/config.go:217`,
  `PortRange.RangesInUse`, `PortRange.WarnsAtForty`).
* **The modified once.** A call of `Do` can return before the function has been entered, the other side of the
  early unlock that `ws/once.go:12-13` describes. An interleaving of n calls in which this happens exists iff n is
  at least two (`Once.EarlyNeedsTwo`); in a given state with a returned call it is so iff the winner has not entered
  the function yet (`Once.EarlyExactly`).

## Model

| member | source | states |
|---|---|---|
| Server.Rooms.Start | ws/rooms.go:98-111 | For every sequence of inputs the states of the loop form a run of the specification; all agreements hold at the end |
| Server.Rooms.Dispatch | ws/rooms.go:99-110 | One message does what `Next` allows, with the drop of unknown clients and the rollback of a failed event, and keeps all agreements |
| Server.Rooms.Receive | ws/rooms.go:90-95 | A new connection announces itself once under a fresh id; messages of clients never skip the check |
| Server.Rooms.Execute | ws/rooms.go:106 | Each event has the outcome its specification allows, and fails exactly for the reasons of `Refusals`; rooms stay distinct objects |
| Server.Rooms.CurrentRoom | ws/rooms.go:57-71 | Finds the client's room iff it is in one, and gives the reason otherwise |
| Server.Rooms.Create | ws/event_create.go:25-83 | The possible outcomes of create: refusals in order, delegation to join, or a new room owned by the sender |
| Server.Rooms.MayCreate | ws/event_create.go:47-59 | Lets the client create the room iff the login policy allows it for this mode, and gives the reason otherwise |
| Server.Rooms.OpensRoom | ws/event_create.go:61-82 | Adds a room with the sender as its only user and owner, sends it its list, counts both; other rooms unchanged |
| Server.Rooms.Join | ws/event_join.go:18-60 | The possible outcomes of join on the whole state; a client let into a room gets the IP provider's error, if any |
| Server.Rooms.JoinRoom | ws/event_join.go:27-59 | The user is added and indexed, all are notified, then sessions are opened iff the IP provider replies |
| Server.Rooms.ConnectToStreams | ws/event_join.go:52-57 | Opens exactly one session, with fresh ids, from each streaming member to the newcomer, in some order |
| Server.Rooms.StartShare | ws/event_share.go:11-33 | The possible outcomes of share; for a member it fails iff the IP provider does, after the user was marked as streaming |
| Server.Rooms.ConnectToMembers | ws/event_share.go:24-29 | Opens exactly one session from the sharing user to each other member, in some order |
| Server.Rooms.StopShare | ws/event_stop_share.go:17-36 | The user no longer streams, its hosted sessions are ended in some order and their viewers told, all are notified |
| Server.Rooms.EndHosted | ws/event_stop_share.go:24-32 | Deleting while iterating ends each session hosted by the user exactly once and no other |
| Server.Rooms.Name | ws/event_name.go:13-23 | The user is renamed and all members are notified |
| Server.Rooms.Relay | ws/event_hostoffer.go:18-38 | The four relay events: forwarded to the other end, ignored for an unknown session, refused for the wrong sender |
| Server.Rooms.Disconnect | ws/event_disconnected.go:20-77 | The removal cascade on the whole state, also when an event of the client failed halfway before |
| Server.Rooms.EndAll | ws/event_disconnected.go:45-60 | Ends each session of the leaver exactly once, as host or as client, and tells the end that is still there |
| Server.Rooms.Settle | ws/event_disconnected.go:62-76 | The room closes if its owner left and it is to close, or if it is empty; otherwise all who stay are notified |
| Server.Rooms.KickMembers | ws/event_disconnected.go:63-66 | All members are dropped from the index and sent the closing message, once each |
| Server.Rooms.CloseRoom | ws/rooms.go:130-142 | The room, its sessions and their credentials are gone and counted; nothing else changes |
| Server.Room.NewSession | ws/room.go:36-67 | A fresh session is recorded and counted; host and client are told of it with matching credentials |
| Server.Room.IceServers | ws/room.go:45-64 | What each end is told per connection mode, and the table entries made for it |
| Server.Room.CloseSession | ws/room.go:85-92 | The session and, in a TURN room, both its credentials are dropped, and it is counted |
| Server.Room.NotifyInfoChanged | ws/room.go:99-132 | Every member is sent exactly one list, which is a sorted listing of the room as shown to it |
| Server.Room.MembersFor | ws/room.go:101-124 | The list has each user of the room once, with its current name, streaming and owner marks, sorted, the recipient marked |
| Server.Room.Send | ws/room.go:143-145 | One message is appended to what a member was written; a closing message only once it is out of the index |
| Server.Rooms.WriteTimeout | ws/event_disconnected.go:22-23 | One message is appended; a closing message is never written before the index entry is deleted |
| MemberList.BeforeIsStrictWeakOrder | ws/room.go:111-124 | The comparator (owner, streaming, name) is a strict weak order, and ties are equal in all three |
| MemberList.Sort | ws/room.go:111-124 | Returns a sorted rearrangement |
| MemberList.ListingMeaning | ws/room.go:100-130 | A listing names each user once with its current name, streaming and owner marks; only the recipient's line is "you"; the owner comes first, then those who stream, then by name |
| Turn.InternalServer.Allow | turn/server.go:138-145 | One entry is set, to the key derived from name, realm and password |
| Turn.InternalServer.Disallow | turn/server.go:147-152 | One entry is removed |
| Turn.InternalServer.Authenticate | turn/server.go:158-171 | Succeeds iff the name is in the table, with the key stored for it |
| Turn.InternalServer.Credentials | turn/server.go:173-177 | Draws a password of 20 characters and allows the name with it |
| Turn.RandString | util/password.go:8-15 | A text of the given length over the token characters |
| Types.KeysAreInjective | ws/room.go:52-53 | The names made of session id and suffix never collide, within a session or across sessions |
| BaseProofs.NextKeepsBase | ws/rooms.go:98-111 | One iteration keeps every agreement, whatever the event and whether or not it fails halfway |
| BaseProofs.RunsKeepBase | ws/rooms.go:98-111 | All agreements (sessions, index, credentials, counters, owners) hold in every state of every run |
| BaseProofs.ExecuteBase | ws/event_join.go:35-59 | An event that fails leaves all agreements intact but for sessions of its sender |
| BaseProofs.DisconnectBase | ws/event_disconnected.go:20-77 | Disconnecting restores all agreements, also after an event that failed halfway |
| RoomProofs.JoinCompletes | ws/event_join.go:52-57 | After the sessions of a join, a streams iff a session leads from a to b, for all distinct members a, b |
| RoomProofs.ShareCompletes | ws/event_share.go:17-29 | The same after the sessions of a share |
| RoomProofs.StopCompletes | ws/event_stop_share.go:23-32 | The same after the end of a share |
| RoomProofs.LeaveCompletes | ws/event_disconnected.go:42-60 | The same after a member left, undoing whatever had failed for it |
| Refusals.ExecuteFails | ws/rooms.go:106-109 | Exactly which events fail, and with which error, given what the IP provider replies |
| Refusals.RefusedIsGone | ws/rooms.go:106-109 | After an event other than its disconnect a client is out of the index iff the event fails for one of these reasons |
| Effects.DisconnectEffect | ws/event_disconnected.go:20-77 | The whole state after a disconnect, messages apart: the client alone, or its room with all users, is gone, with sessions and keys |
| Effects.RefusedEffect | ws/rooms.go:106-109 | The whole state after an event that fails: as after a disconnect, or as before but for the counters if the IP provider failed a newcomer |
| Effects.CreateEffect | ws/event_create.go:47-82 | An idle client that the policy allows gets the room it asked for, as its owner, under its login name or the name asked for |
| Effects.JoinEffect | ws/event_join.go:27-59 | A client let in, the IP provider replying, is a user with one new session from each streaming member; nothing else changes |
| Effects.ShareEffect | ws/event_share.go:11-33 | A member that shares, the IP provider replying, streams and has one new session to each other member; nothing else changes |
| Effects.StopEffect | ws/event_stop_share.go:17-36 | A member that stops sharing does not stream and hosts no session, their keys are gone; nothing else changes |
| Effects.RenameEffect | ws/event_name.go:13-23 | A member that renames itself has the new name; nothing else changes |
| Effects.OtherEffects | ws/event_connected.go:5-8 | A new connection is indexed in no room; a relayed message changes only what is written; strangers change nothing |
| SessionLogs.NextTold | ws/event_disconnected.go:42-60 | What a client is told of a session in any step: new sessions once to each end with the provider's addresses and keys that work, ended ones once to each end that stays but the sender, relayed messages to the other end, and nothing else |
| SessionLogs.LastWord | ws/event_disconnected.go:22-23 | The last message of a client that is thrown out carries the error of its event, that of one that disconnects its own reason |
| RunResults.SessionRelation | ws/event_share.go:11-33 | In every state of every run: sessions join two distinct members, and a streams iff a session leads from a to b, for all distinct members a, b |
| RunResults.RoomShape | ws/event_create.go:61-76 | In every state of every run: a room has a user, at most one owner, and exactly one if it is to close with it |
| RunResults.TableIsExact | ws/room.go:51-53 | In every state of every run: a name is in the credential table iff it is one of the two of a live session of a TURN room |
| RunResults.IndexIsSearch | ws/rooms.go:57-71 | For every run: the index names room r for a client iff r lists it, so a search of all rooms finds at most that one |
| RunResults.NothingAfterClose | ws/event_disconnected.go:20-68 | After the closing message nothing more is written to a client, as long as no step lets a client into the room with the empty id while that lists a client let go |
| RunResults.ClosedMeansGone | ws/event_disconnected.go:22-23 | A client is sent the closing message in the very step that takes it out of the index, once and last, and in no step that leaves it there |
| GoodProofs.NextKeepsGood | ws/rooms.go:98-111 | One iteration keeps the views of all clients in step with the server, whatever the event and whether or not it fails halfway |
| GoodProofs.RunsKeepGood | ws/room.go:65-66 | In every state of every run the views of all clients are in step with the server |
| RunResults.NamedRunsAreRight | ws/room.go:99-132 | If all create messages carry non-empty ids: nobody is in two rooms, all last lists are current, nothing follows a closing message |
| OneRoom.NextOneRoom | ws/event_join.go:19-43 | A step keeps everyone in at most one room iff it does not let a user of the room with the empty id into another one and leave it there |
| OneRoom.SureOneRoom | ws/event_create.go:26-37 | All outcomes of a message keep everyone in at most one room iff it does not let such a user into another room |
| OneRoom.OneRoomExactly | ws/event_create.go:77-78 | Up to a state of a run nobody was ever in two rooms iff no earlier step did so |
| Lists.NextLists | ws/room.go:99-132 | A step keeps the last list written to each user of each room current iff it does not let such a user into another room |
| Lists.ListsExactly | ws/event_join.go:43-44 | The same over whole runs, on every path including rollback |
| Closing.NextCloses | ws/event_disconnected.go:20-40 | A step writes to nobody after its closing message iff it does not let a client into the room with the empty id while that lists a client let go |
| Closing.ClosesExactly | ws/event_disconnected.go:20-68 | The same over whole runs |
| Closing.LeavingIsTold | ws/event_disconnected.go:22-68 | Whoever leaves the index in a step is sent the closing message in it, once, as the last message |
| Closing.KickedWord | ws/event_disconnected.go:63-66 | Whoever leaves the index because of another client is told last that the owner left |
| Closing.ToldOnce | ws/event_disconnected.go:20-68 | In every run, a client that was in the index and no longer is was sent exactly one closing message, everyone else none |
| Reach.NextReaches | ws/room.go:143-145 | A step writes to its sender and the users of one room, the sender's or the one it enters, and to nobody else |
| Witnesses.InTwoRoomsAtOnce | ws/event_create.go:77-78 | A run of three messages after which one client is a user of two rooms and has no current list of the first |
| Witnesses.WrittenAfterTheEnd | ws/event_disconnected.go:25-27 | A run of five messages in which a client is written a list after its closing message |
| Witnesses.CountedTwice | ws/event_join.go:35-45 | A run of three messages after which one user too many is counted as joined |
| Witnesses.SharedTwice | ws/event_share.go:24-29 | A run of six messages after which a room with one streaming user of two has two sessions |
| RunProofs.GoneCanBeDropped | ws/rooms.go:99-104 | Once a client is gone, deleting its later messages from a run leaves a run with the same final state |
| History.CleanMeaning | ws/room.go:65-66 | No session is announced twice in whatever roles, ended twice, or ended before it was announced; relays only between announcement and end |
| History.ViewerReplay | ws/event_stop_share.go:24-31 | For every connected client, sessions announced to it as viewer minus those ended are exactly its live sessions, none outside a room |
| History.CloseIsLast | ws/event_disconnected.go:20-68 | Unless something was written after it, the last message is the closing one iff the client is no longer connected |
| RunResults.ViewersAreRight | ws/event_disconnected.go:45-60 | Viewer replay in every state of every run |
| RunResults.MessagesAreOrderly | ws/room.go:65-66 | In every state of every run, what was written to a client up to its closing message is orderly in the sense above |
| RunResults.CredentialsAlwaysWork | turn/server.go:158-177 | In every state of every run, both ends of a live TURN session can authenticate with what they were told |
| History.CredentialsWork | turn/server.go:158-177 | Each end of a live session of a TURN room was told a TURN server with a name whose table entry is the key of the password told with it |
| RelayProofs.RelayedOnlyToPeer | ws/event_clientice.go:18-38 | A relayed message is written exactly to the other end of a live session of its legitimate sender, and to nobody else |
| RelayProofs.WritesAreKept | ws/event_disconnected.go:22-23 | Writes are only appended; a closing message only goes to clients that are out of the index afterwards |
| Isolation.NextTouchesOneRoom | ws/event_create.go:25-83 | An event touches at most one room, the sender's or the one it asks for; all others are exactly as before |
| Isolation.GoneStaysGone | ws/rooms.go:99-104 | An id that left the index never re-enters it |
| Isolation.RoomHasCreator | ws/event_create.go:61-76 | Every existing room was made by a create message (absent before it, present ever since) and still has the mode, closing rule and login record it asked for |
| Isolation.LoginPolicy | ws/event_create.go:47-59 | With "all" every room, with "turn" every room neither stun nor local, was made, in that sense, by a logged-in client; credentials imply such a room |
| Isolation.OwnerTakesRoomAlong | ws/event_disconnected.go:62-69 | When the owner of a room that closes with its owner disconnects, also after an event of it failed halfway, exactly its room, with all members, sessions and credentials, is gone; all else but the messages is as before |
| Leaving.OwnerGoneMeansRoomGone | ws/rooms.go:106-109 | Whenever such an owner leaves the index, by its disconnect or by the rollback of any event, exactly that is gone |
| Leaving.WhoLeaves | ws/event_disconnected.go:22-68 | Whoever leaves the index in a step is the sender or a user of the closing room that the sender owns |
| Conservation.NextSurplus | ws/event_join.go:35-45 | "Users joined minus left minus present" changes exactly when a client re-enters the nameless room |
| Conservation.CountersAreRight | ws/rooms.go:130-142 | Over every run: rooms and sessions created minus closed are those present; users likewise, plus the re-entries |
| Conservation.UsersExactly | ws/event_join.go:35-45 | The users joined minus left are those present iff no earlier step let a client re-enter the nameless room |
| Counting.SessionsAreCounted | ws/room.go:36-67 | A room of n users, k of them streaming, has at least k(n-1) sessions, and just as many iff no pair is joined twice; there are two keys for each |
| Counting.NextOneEach | ws/event_share.go:17-29 | Every step keeps pairs joined once iff it is not a repeated share that succeeds |
| Counting.NextSessions | ws/event_share.go:17-29 | Every step keeps all rooms at k(n-1) sessions iff it is not a repeated share that succeeds |
| Counting.SureSessions | ws/event_share.go:19-29 | All outcomes of a message keep all rooms at k(n-1) sessions iff it is not a repeated share |
| Counting.SessionsExactly | ws/event_share.go:17-29 | Up to a state of a run all rooms always had k(n-1) sessions iff no earlier step was a repeated share that succeeded |
| Counting.KeysOverRuns | ws/room.go:51-53 | In every state of every run a TURN room has two keys in the table for each of its sessions |
| Once.RunsAtMostOnce | ws/once.go:19-36 | In every interleaving f is entered at most once, and if any Do has returned exactly one thread has won |
| Once.ExactlyOnceInTheEnd | ws/once.go:19-26 | When all calls have returned, f was executed exactly once, by one of them |
| Once.SomeoneCanMove | ws/once.go:28-36 | As long as a call has not returned, some thread can move |
| Once.LockIsFreeDuringCall | ws/once.go:28-36 | A thread that executes f does not hold the mutex |
| Once.EarlyExactly | ws/once.go:19-36 | If a call has returned, f has not been entered iff the winner is still on its way to it |
| Once.EarlyNeedsTwo | ws/once.go:12-13 | An interleaving of n calls with a return before f is entered exists iff n is at least two |
| Lifecycle.NoLostDisconnect | ws/client.go:72-91 | In every interleaving: if the once of an indexed client is done or its socket shut, its disconnect is in flight or about to be spawned |
| Lifecycle.QuietMeansAlive | ws/client.go:101-171 | When no report is under way, the index and the rooms hold only clients whose socket is open and which nobody has begun to close |
| Lifecycle.ObeyingIsForgotten | ws/event_disconnected.go:63-66 | A client whose channel or writer has the closing message is out of the index already |
| Lifecycle.ReportedOnce | ws/client.go:72-85 | The disconnect of a client is reported at most once |
| Lifecycle.ClosingCompletes | ws/client.go:72-91 | A reader or writer ends only after the once is won; when the winner is through, the socket is shut and the disconnect reported once, unless the server had told the writer to close |
| Lifecycle.WorldsFormRun | ws/rooms.go:98-111 | The main loop's states in every interleaving form a run |
| Dns.DNS.Get | config/ipdns/dns.go:27-51 | Extends the history of calls by one that follows the policy, and returns its reply |
| Dns.DNS.Pick | config/ipdns/dns.go:53-77 | Picks the first address of each family, or reports why there is none |
| Dns.FirstOfMeaning | config/ipdns/dns.go:62-70 | The pick exists iff the family occurs, and none of the family comes before it |
| Dns.SuccessHasAddress | config/ipdns/dns.go:72-76 | A reply without error has an address, and only addresses of the right family that the resolver gave |
| Dns.ReplyIsLatest | config/ipdns/dns.go:50 | Each call returns the result of the most recent lookup |
| Dns.ReplyHasAll | config/ipdns/dns.go:53-77 | The reply has no error iff the latest lookup gave an address, and has the first address of each family that occurs |
| Dns.LooksUpExactly | config/ipdns/dns.go:31-47 | A call looks up iff it is the first, or more than a minute after a lookup that gave an address, or a second after one that did not |
| Dns.LookupsAreApart | config/ipdns/dns.go:31-47 | A lookup starts more than 60 s after a successful and more than 1 s after a failed one ended |
| Dns.WindowFilled | config/ipdns/dns.go:31-47 | The lookups that start in any window fit into it with a hold between each two |
| Dns.AtMostOnePerSecond | config/ipdns/dns.go:44-45 | At most T lookups start in any window of T seconds (one in a window of length zero), whatever the resolver does |
| Dns.AtMostOnePerMinute | config/ipdns/dns.go:42 | The same per minute, while lookups succeed |
| PortRange.WidthExactly | turn/portrange.go:36 | The wrapping width is the number of ports iff the range is non-empty and not the whole; exactly when it is zero |
| PortRange.DrawsFill | turn/portrange.go:36 | Draws map one-to-one onto the range |
| PortRange.AllocatePacketConn | turn/portrange.go:25-47 | Tries the requested port, or ports of the range until one can be bound, ten at most; returns the last tried iff it could be bound, no earlier one could |
| PortRange.RangesInUse | turn/server.go:129-136 | A range in use under an accepted configuration is usable, its width exact; warned iff at most 40 ports |
| PortRange.AcceptedExactly | config/config.go:208-222 | Exactly which texts are accepted |
| PortRange.SplitInTwo | config/config.go:78-81 | Two parts are found iff the text joins two texts without colons by one |
| PortRange.RangeRoundTrip | config/config.go:73-94 | Printing a range and parsing it gives the range back |
| PortRange.WarnsAtForty | config/config.go:217-221 | Every range of exactly 40 ports is warned about as having less |

## Left out

- Server.Room.Send: appends the attempted write; that an attempt is dropped after two seconds is modelled in `Lifecycle` only, where any write may be dropped, and no delivery is claimed.
- Server.Rooms.WriteTimeout: likewise; the two seconds and the dropped write are in `Lifecycle`.
- Server.Room.IceServers: the URLs are represented by scheme, addresses and transport; the text built from them (`ws/room.go:69-83`) is not.
- Turn.InternalServer.Authenticate: the key is a term; the hash behind it is not computed. The realm and address arguments only appear in logs.
- SessionLogs.NextTold: what a client that leaves the index in the same step is told of ending sessions, before its closing message, is not stated.
- Lifecycle.ObeyingIsForgotten: an event is one step there, so the order of its deletions and writes is not seen; that the deletion comes first is the precondition of `Server.Rooms.WriteTimeout`, which every handler meets.
- PortRange.AllocatePacketConn: binding a port succeeds or fails arbitrarily; sockets are not modelled.
- Lifecycle.NoLostDisconnect: winning the once is one step here; that this is justified is what `Once` proves. Fairness and progress of goroutines are not claimed.
- Users are values in a room's map. In the code they are shared references that carry the client's channel; since each is reachable only through its room, and the channel belongs to the client id, aliasing between them is not captured.
- Sessions likewise are values; the code never changes one after creating it.
- The external TURN server (`turn/server.go:154-156`, `turn/server.go:179-191`): HMAC credentials that expire by time.
- Health and Count (`ws/event_health.go`, `ws/rooms.go:113-128`): one read of a map size.
- WebSocket, HTTP and JSON plumbing, signals, the TURN library, relay address rewriting and peer denial lists.
- Configuration other than the port range, static addresses, log output, silly names, login and cookies.
- The user interface.
