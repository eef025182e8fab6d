/** Every event, with its rollback if it fails, keeps all agreements. */
module BaseProofs {
  import opened Types
  import opened Spec
  import opened Totals
  import opened Invariants
  import opened IndexProofs
  import opened RoomProofs

  /** All agreements, up to the sessions of `me`, whose event failed halfway. */
  ghost predicate BaseBut(w: World, me: Xid) {
    RoomsOkBut(w.rooms, me) && Indexed(w.connected, w.rooms) && Books(w)
  }

  lemma BaseWeaken(w: World, me: Xid)
    requires Base(w)
    ensures BaseBut(w, me)
  {
    RoomsOkWeaken(w.rooms, me);
  }

  /** Notifying changes nothing but what was written, on which no agreement here depends. */
  lemma NotifiedKeeps(w: World, rid: string, w': World, me: Xid)
    requires rid in w.rooms && Notified(w, rid, w')
    ensures w' == w.(out := w'.out)
    ensures BaseBut(w, me) <==> BaseBut(w', me)
    ensures Base(w) <==> Base(w')
  {
    hide RoomsOk, RoomsOkBut, Indexed, SidsOk, LookupOk, ClientIdsOk, CreatorsOk;
  }

  // ---------- Each small step keeps the books ----------

  lemma NewSessionsBooks(w: World, rid: string, plan: seq<Pairing>, at: Addresses)
    requires Books(w) && rid in w.rooms && FreshPlan(w.used, plan)
    ensures Books(NewSessions(w, rid, plan, at))
  {
    NewSessionsLedger(w, rid, plan, at);
    SizeKept(w.rooms, rid, NewSessions(w, rid, plan, at).rooms[rid]);
  }

  lemma EndSessionsBooks(w: World, rid: string, me: Xid, ends: seq<Xid>)
    requires Books(w)
    requires rid in w.rooms && DistinctIds(ends) && forall s | s in ends :: s in w.rooms[rid].sessions
    ensures Books(EndSessions(w, rid, me, ends))
  {
    EndSessionsLedger(w, rid, me, ends);
    SizeKept(w.rooms, rid, EndSessions(w, rid, me, ends).rooms[rid]);
  }

  lemma SizeKept(rooms: map<string, RoomState>, rid: string, room: RoomState)
    requires rid in rooms
    ensures |rooms[rid := room]| == |rooms|
  {
    assert rooms[rid := room].Keys == rooms.Keys;
  }

  lemma CloseRoomBooks(w: World, rid: string)
    requires Books(w) && rid in w.rooms
    ensures Books(CloseRoom(w, rid))
  {
    CloseRoomLedger(w, rid);
    assert (w.rooms - {rid}).Keys == w.rooms.Keys - {rid};
  }

  /** A room's users change, but not its sessions. */
  lemma UsersKeepLookup(lookup: map<string, Entry>, rooms: map<string, RoomState>, used: set<Xid>, rid: string,
                        room: RoomState)
    requires SidsOk(rooms, used) && LookupOk(lookup, rooms) && rid in rooms
    requires room == rooms[rid].(users := room.users)
    ensures LookupOk(lookup, rooms[rid := room])
  {
    TurnSidsGrow(rooms, used, rid, {}, room);
  }

  lemma UsersKeepSids(rooms: map<string, RoomState>, used: set<Xid>, rid: string, room: RoomState)
    requires SidsOk(rooms, used) && rid in rooms
    requires room == rooms[rid].(users := room.users)
    ensures SidsOk(rooms[rid := room], used)
  {
    SidsKept(rooms, used, rid, {}, room);
    assert used + {} == used;
  }

  lemma UsersKeepRest(authMode: AuthMode, connected: map<Xid, string>, rooms: map<string, RoomState>, used: set<Xid>,
                      rid: string, room: RoomState)
    requires ClientIdsOk(connected, rooms, used) && CreatorsOk(authMode, rooms) && rid in rooms
    requires room == rooms[rid].(users := room.users) && room.users.Keys <= used
    ensures ClientIdsOk(connected, rooms[rid := room], used) && CreatorsOk(authMode, rooms[rid := room])
    ensures |rooms[rid := room]| == |rooms|
    ensures Total(SessionsPerRoom(rooms[rid := room])) == Total(SessionsPerRoom(rooms))
  {
    SizeKept(rooms, rid, room);
    TotalsUpdated(rooms, rid, room);
  }

  lemma UsersKeepBooks(w: World, rid: string, room: RoomState)
    requires Books(w) && rid in w.rooms
    requires room == w.rooms[rid].(users := room.users) && room.users.Keys <= w.used
    ensures Books(w.(rooms := w.rooms[rid := room]))
  {
    UsersKeepLookup(w.lookup, w.rooms, w.used, rid, room);
    UsersKeepSids(w.rooms, w.used, rid, room);
    UsersKeepRest(w.authMode, w.connected, w.rooms, w.used, rid, room);
  }

  lemma AddedRoomLookup(lookup: map<string, Entry>, rooms: map<string, RoomState>, used: set<Xid>, rid: string,
                        room: RoomState)
    requires LookupOk(lookup, rooms) && SidsOk(rooms, used) && rid !in rooms && room.sessions == map[]
    ensures LookupOk(lookup, rooms[rid := room]) && SidsOk(rooms[rid := room], used)
  {
    TurnSidsSplit(rooms, rid, room);
    assert rooms - {rid} == rooms;
  }

  lemma AddedRoomTotals(rooms: map<string, RoomState>, rid: string, room: RoomState)
    requires rid !in rooms
    ensures |rooms[rid := room]| == |rooms| + 1
    ensures Total(SessionsPerRoom(rooms[rid := room])) == Total(SessionsPerRoom(rooms)) + |room.sessions|
    ensures Total(UsersPerRoom(rooms[rid := room])) == Total(UsersPerRoom(rooms)) + |room.users|
  {
    assert rooms[rid := room].Keys == rooms.Keys + {rid};
    PerRoomUpdated(rooms, rid, room);
    TotalUpdate(SessionsPerRoom(rooms), rid, |room.sessions|);
    TotalUpdate(UsersPerRoom(rooms), rid, |room.users|);
  }

  lemma OpenRoomLedger(w: World, info: ClientInfo, e: Event, name: string)
    requires e.Create? && Ledger(w) && e.id !in w.rooms
    ensures Ledger(OpenRoom(w, info, e, name))
  {
    var room := OpenRoom(w, info, e, name).rooms[e.id];
    AddedRoomLookup(w.lookup, w.rooms, w.used, e.id, room);
    AddedRoomTotals(w.rooms, e.id, room);
  }

  lemma AddedRoomClients(connected: map<Xid, string>, rooms: map<string, RoomState>, used: set<Xid>, me: Xid,
                         rid: string, room: RoomState)
    requires ClientIdsOk(connected, rooms, used) && me in used && room.users.Keys == {me}
    ensures ClientIdsOk(connected[me := rid], rooms[rid := room], used)
  {
  }

  lemma AddedRoomSize(rooms: map<string, RoomState>, rid: string, room: RoomState)
    requires rid !in rooms
    ensures |rooms[rid := room]| == |rooms| + 1
  {
  }

  lemma AddedRoomCreator(authMode: AuthMode, info: ClientInfo, rooms: map<string, RoomState>, rid: string,
                         room: RoomState)
    requires CreatorsOk(authMode, rooms) && CreateRefused(authMode, info, room.mode).None?
    requires room.creatorAuthenticated == info.authenticated
    ensures CreatorsOk(authMode, rooms[rid := room])
  {
  }

  lemma OpenRoomBooks(w: World, info: ClientInfo, e: Event, name: string)
    requires e.Create? && Books(w) && e.id !in w.rooms && info.id in w.used
    requires CreateRefused(w.authMode, info, e.mode).None?
    ensures Books(OpenRoom(w, info, e, name))
  {
    hide SidsOk, LookupOk, ClientIdsOk, CreatorsOk;
    OpenRoomLedger(w, info, e, name);
    var room := OpenRoom(w, info, e, name).rooms[e.id];
    AddedRoomClients(w.connected, w.rooms, w.used, info.id, e.id, room);
    AddedRoomSize(w.rooms, e.id, room);
    AddedRoomCreator(w.authMode, info, w.rooms, e.id, room);
  }

  lemma NewRoomOk(rid: string, room: RoomState, me: Xid)
    requires room.id == rid && room.sessions == map[]
    requires room.users.Keys == {me} && room.users[me].id == me && room.users[me].owner && !room.users[me].streaming
    ensures RoomOk(rid, room)
  {
    assert me in room.users;
  }

  lemma OpenRoomBase(w: World, info: ClientInfo, e: Event, name: string)
    requires e.Create? && Base(w) && e.id !in w.rooms && info.id in w.used
    requires Where(w, info.id) == "" && CreateRefused(w.authMode, info, e.mode).None?
    ensures Base(OpenRoom(w, info, e, name))
  {
    OpenRoomBooks(w, info, e, name);
    OpenRoomRest(w, info, e, name);
  }

  lemma OpenRoomRest(w: World, info: ClientInfo, e: Event, name: string)
    requires e.Create? && e.id !in w.rooms && Where(w, info.id) == ""
    requires Indexed(w.connected, w.rooms) && RoomsOk(w.rooms)
    ensures
      var w' := OpenRoom(w, info, e, name);
      Indexed(w'.connected, w'.rooms) && RoomsOk(w'.rooms)
  {
    var room := OpenRoom(w, info, e, name).rooms[e.id];
    IndexedEnter(w.connected, w.rooms, info.id, e.id, room);
    NewRoomOk(e.id, room, info.id);
    RoomsOkUpdated(w.rooms, e.id, room);
  }

  lemma RoomsOkUpdated(rooms: map<string, RoomState>, rid: string, room: RoomState)
    requires OthersOk(rooms, rid) && RoomOk(rid, room)
    ensures RoomsOk(rooms[rid := room])
  {
  }

  lemma RoomsOkButUpdated(rooms: map<string, RoomState>, rid: string, room: RoomState, me: Xid)
    requires RoomsOk(rooms) && RoomOkBut(rid, room, me)
    ensures RoomsOkBut(rooms[rid := room], me)
  {
    RoomsOkWeaken(rooms, me);
  }

  // ---------- Joining ----------

  lemma EnterBooks(w: World, rid: string, u: User)
    requires Books(w) && rid in w.rooms && u.id in w.used
    ensures Books(Enter(w, rid, u))
  {
    UsersKeepBooks(w, rid, Enter(w, rid, u).rooms[rid]);
  }

  lemma NotYetMember(w: World, rid: string, me: Xid)
    requires Indexed(w.connected, w.rooms) && rid in w.rooms && Where(w, me) == ""
    ensures rid != "" ==> me !in w.rooms[rid].users
  {
  }

  lemma EnterBase(w: World, rid: string, u: User)
    requires Base(w) && rid in w.rooms && u.id in w.used && Where(w, u.id) == "" && !u.streaming && !u.owner
    ensures BaseBut(Enter(w, rid, u), u.id)
  {
    hide RoomOk, RoomOkBut, Indexed, Books;
    var room := Enter(w, rid, u).rooms[rid];
    EnterBooks(w, rid, u);
    IndexedEnter(w.connected, w.rooms, u.id, rid, room);
    NotYetMember(w, rid, u.id);
    EnterKeepsRest(rid, w.rooms[rid], u, room);
    RoomsOkButUpdated(w.rooms, rid, room, u.id);
  }

  lemma JoinSessionsBase(w: World, rid: string, me: Xid, plan: seq<Pairing>, at: Addresses)
    requires BaseBut(w, me) && rid in w.rooms && me in w.rooms[rid].users && !w.rooms[rid].users[me].streaming
    requires PlanFor(w.used, PairsOnJoin(w.rooms[rid].users, me), plan)
    requires rid != "" ==> NoSessionsOf(w.rooms[rid].sessions, me)
    requires OthersOk(w.rooms, rid)
    ensures Base(NewSessions(w, rid, plan, at))
  {
    var room := NewSessions(w, rid, plan, at).rooms[rid];
    NewSessionsBooks(w, rid, plan, at);
    IndexedSameUsers(w.connected, w.rooms, rid, room);
    JoinCompletes(w, rid, w.rooms[rid], me, plan);
    RoomsOkUpdated(w.rooms, rid, room);
  }

  /** All rooms but one are right. */
  ghost predicate OthersOk(rooms: map<string, RoomState>, rid: string) {
    forall r | r in rooms && r != rid :: RoomOk(r, rooms[r])
  }

  /** A newcomer appears in no session. */
  lemma NewcomerUnused(room: RoomState, me: Xid)
    requires EndsAreMembers(room) && me !in room.users
    ensures NoSessionsOf(room.sessions, me)
  {
  }

  lemma JoinBase(w: World, info: ClientInfo, id: string, asked: string, o: Outcome)
    requires Base(w) && info.id in w.used && Joins(w, info, id, asked, o)
    ensures if o.error.None? then Base(o.world) else BaseBut(o.world, info.id)
  {
    hide RoomsOk, RoomsOkBut, Indexed, Books, PlanFor, OthersOk, NoSessionsOf;
    BaseWeaken(w, info.id);
    if Where(w, info.id) == "" && id in w.rooms {
      var name, w1 :| JoinsAs(w, info, id, asked, name, w1, o);
      var u := User(info.id, info.addr, name, false, false);
      var entered := Enter(w, id, u);
      EnterBase(w, id, u);
      NotifiedKeeps(entered, id, w1, info.id);
      if o.error.None? {
        var at := o.reply.At();
        var plan :| Opens(w1, id, PairsOnJoin(w1.rooms[id].users, info.id), plan, at, o.world);
        JoinReady(w, id, u);
        JoinSessionsBase(w1, id, info.id, plan, at);
      }
    }
  }

  lemma JoinReady(w: World, rid: string, u: User)
    requires RoomsOk(w.rooms) && Indexed(w.connected, w.rooms) && rid in w.rooms && Where(w, u.id) == ""
    ensures OthersOk(Enter(w, rid, u).rooms, rid)
    ensures rid != "" ==> NoSessionsOf(w.rooms[rid].sessions, u.id)
  {
    if rid != "" {
      NewcomerUnused(w.rooms[rid], u.id);
    }
  }

  // ---------- Sharing and renaming ----------

  lemma UpdateKeepsUsers(w: World, rid: string, u: User)
    requires rid in w.rooms && u.id in w.rooms[rid].users
    ensures UpdateUser(w, rid, u).rooms[rid].users.Keys == w.rooms[rid].users.Keys
  {
  }

  lemma UpdateBase(w: World, rid: string, u: User)
    requires Base(w) && rid in w.rooms && rid != "" && u.id in w.rooms[rid].users
    requires u.owner == w.rooms[rid].users[u.id].owner
    ensures BaseBut(UpdateUser(w, rid, u), u.id) && OthersOk(UpdateUser(w, rid, u).rooms, rid)
    ensures u.streaming == w.rooms[rid].users[u.id].streaming ==> Base(UpdateUser(w, rid, u))
  {
    hide RoomOk, RoomOkBut, Indexed, Books;
    var room := UpdateUser(w, rid, u).rooms[rid];
    UpdateBooks(w, rid, u);
    UpdateKeepsUsers(w, rid, u);
    IndexedSameUsers(w.connected, w.rooms, rid, room);
    UpdateKeepsRest(rid, w.rooms[rid], u, room);
    RoomsOkButUpdated(w.rooms, rid, room, u.id);
    if u.streaming == w.rooms[rid].users[u.id].streaming {
      RoomsOkUpdated(w.rooms, rid, room);
    }
  }

  lemma UpdateBooks(w: World, rid: string, u: User)
    requires Books(w) && rid in w.rooms && u.id in w.rooms[rid].users
    ensures Books(UpdateUser(w, rid, u))
  {
    hide SidsOk, LookupOk, CreatorsOk;
    UsersKeepBooks(w, rid, UpdateUser(w, rid, u).rooms[rid]);
  }

  /** The sharer as host of nobody yet: its own incoming sessions are still right. */
  ghost predicate WatchesAll(room: RoomState, me: Xid) {
    forall h | h in room.users && h != me :: Joined(room.sessions, h, me) <==> room.users[h].streaming
  }

  lemma ShareReady(w: World, rid: string, me: Xid)
    requires RoomsOk(w.rooms) && rid in w.rooms && me in w.rooms[rid].users
    ensures WatchesAll(UpdateUser(w, rid, w.rooms[rid].users[me].(streaming := true)).rooms[rid], me)
  {
  }

  lemma ShareSessionsBase(w: World, rid: string, me: Xid, plan: seq<Pairing>, at: Addresses)
    requires BaseBut(w, me) && OthersOk(w.rooms, rid) && rid != ""
    requires rid in w.rooms && me in w.rooms[rid].users && w.rooms[rid].users[me].streaming
    requires WatchesAll(w.rooms[rid], me)
    requires PlanFor(w.used, PairsOnShare(w.rooms[rid].users, me), plan)
    ensures Base(NewSessions(w, rid, plan, at))
  {
    var room := NewSessions(w, rid, plan, at).rooms[rid];
    NewSessionsBooks(w, rid, plan, at);
    IndexedSameUsers(w.connected, w.rooms, rid, room);
    ShareCompletes(w, rid, w.rooms[rid], me, plan);
    RoomsOkUpdated(w.rooms, rid, room);
  }

  lemma ShareBase(w: World, me: Xid, o: Outcome)
    requires Base(w) && StartsShare(w, me, o)
    ensures if o.error.None? then Base(o.world) else BaseBut(o.world, me)
  {
    BaseWeaken(w, me);
    if InRoom(w, me) {
      var rid := w.connected[me];
      var o1 :| SharesAs(w, rid, me, o1, o);
      var u := w.rooms[rid].users[me].(streaming := true);
      var w1 := UpdateUser(w, rid, u);
      assert u.id == me;
      UpdateBase(w, rid, u);
      ShareReady(w, rid, me);
      hide RoomsOk, RoomsOkBut, Indexed, Books, PlanFor, OthersOk, WatchesAll, NewSessions, UpdateUser;
      if o.error.None? {
        var at := o1.reply.At();
        var plan :| Opens(w1, rid, PairsOnShare(w1.rooms[rid].users, me), plan, at, o1.world);
        ShareSessionsBase(w1, rid, me, plan, at);
        NotifiedKeeps(o1.world, rid, o.world, me);
      }
    }
  }

  lemma StopBase(w: World, me: Xid, o: Outcome)
    requires Base(w) && StopsShare(w, me, o)
    ensures if o.error.None? then Base(o.world) else BaseBut(o.world, me)
  {
    BaseWeaken(w, me);
    if InRoom(w, me) {
      var rid := w.connected[me];
      var ends :| StopsWith(w, rid, me, ends, o.world);
      var u := w.rooms[rid].users[me].(streaming := false);
      assert u.id == me;
      StopSessionsBase(w, rid, u, ends);
      hide RoomsOk, RoomsOkBut, Indexed, Books;
      NotifiedKeeps(EndSessions(UpdateUser(w, rid, u), rid, me, ends), rid, o.world, me);
    }
  }

  lemma OrderIsOrder(all: map<Xid, RoomSession>, me: Xid, leaving: bool, ends: seq<Xid>)
    requires OrderOfEnds(all, me, leaving, ends)
    ensures DistinctIds(ends) && forall s | s in ends :: s in all
  {
  }

  lemma StopSessionsBase(w: World, rid: string, u: User, ends: seq<Xid>)
    requires Base(w) && rid in w.rooms && rid != "" && u.id in w.rooms[rid].users
    requires u == w.rooms[rid].users[u.id].(streaming := false)
    requires OrderOfEnds(w.rooms[rid].sessions, u.id, false, ends)
    ensures Base(EndSessions(UpdateUser(w, rid, u), rid, u.id, ends))
  {
    hide RoomOk, Indexed, Books, OrderOfEnds;
    var w1 := UpdateUser(w, rid, u);
    OrderIsOrder(w.rooms[rid].sessions, u.id, false, ends);
    var room := EndSessions(w1, rid, u.id, ends).rooms[rid];
    UpdateBooks(w, rid, u);
    EndSessionsBooks(w1, rid, u.id, ends);
    IndexedSameUsers(w.connected, w.rooms, rid, room);
    StopCompletes(rid, w.rooms[rid], u.id, ends, room);
    RoomsOkUpdated(w.rooms, rid, room);
    assert w.rooms[rid := w1.rooms[rid]][rid := room] == w.rooms[rid := room];
  }

  lemma RenameBase(w: World, me: Xid, name: string, o: Outcome)
    requires Base(w) && Renames(w, me, name, o)
    ensures if o.error.None? then Base(o.world) else BaseBut(o.world, me)
  {
    BaseWeaken(w, me);
    if InRoom(w, me) {
      var rid := w.connected[me];
      var u := w.rooms[rid].users[me].(name := name);
      assert u.id == me;
      UpdateBase(w, rid, u);
      hide RoomsOk, RoomsOkBut, Indexed, Books;
      NotifiedKeeps(UpdateUser(w, rid, u), rid, o.world, me);
    }
  }

  lemma RelayBase(w: World, me: Xid, kind: RelayKind, sid: Xid, value: string, o: Outcome)
    requires Base(w) && Relays(w, me, kind, sid, value, o)
    ensures if o.error.None? then Base(o.world) else BaseBut(o.world, me)
  {
    BaseWeaken(w, me);
    hide RoomsOk, RoomsOkBut, Indexed, SidsOk, LookupOk, ClientIdsOk, CreatorsOk;
  }

  // ---------- Disconnecting ----------

  /** Whatever was left undone for a client that is in no room, no room is concerned. */
  lemma OutsiderUnconcerned(connected: map<Xid, string>, rooms: map<string, RoomState>, me: Xid)
    requires RoomsOkBut(rooms, me) && Indexed(connected, rooms) && (me in connected ==> connected[me] == "")
    ensures RoomsOk(rooms)
  {
  }

  lemma OtherRoomsUnconcerned(connected: map<Xid, string>, rooms: map<string, RoomState>, me: Xid, rid: string)
    requires RoomsOkBut(rooms, me) && Indexed(connected, rooms) && me in connected && connected[me] == rid
    ensures OthersOk(rooms, rid)
  {
  }

  /** The books do not depend on what was written, nor on who is connected, nor on the user counters. */
  lemma BooksFrame(w: World, w': World)
    requires Books(w) && w'.rooms == w.rooms && w'.lookup == w.lookup && w'.used == w.used && w'.authMode == w.authMode
    requires w'.stats == w.stats.(usersJoined := w'.stats.usersJoined, usersLeft := w'.stats.usersLeft)
    requires w'.connected.Keys <= w'.used
    ensures Books(w')
  {
    hide SidsOk, LookupOk, CreatorsOk;
  }

  lemma LeaveBooks(w: World, rid: string, me: Xid, code: int, reason: string, ends: seq<Xid>)
    requires Books(w) && rid in w.rooms && OrderOfEnds(w.rooms[rid].sessions, me, true, ends)
    ensures Books(EndSessions(RemoveUser(Forget(w, me, code, reason), rid, me), rid, me, ends))
  {
    var w1 := Forget(w, me, code, reason);
    var w2 := RemoveUser(w1, rid, me);
    BooksFrame(w, w1);
    RemoveUserBooks(w1, rid, me);
    hide Books;
    EndSessionsBooks(w2, rid, me, ends);
  }

  lemma RemoveUserBooks(w: World, rid: string, me: Xid)
    requires Books(w) && rid in w.rooms
    ensures Books(RemoveUser(w, rid, me))
  {
    var room := RemoveUser(w, rid, me).rooms[rid];
    UsersKeepBooks(w, rid, room);
    hide SidsOk, LookupOk, CreatorsOk;
    BooksFrame(w.(rooms := w.rooms[rid := room]), RemoveUser(w, rid, me));
  }

  lemma KickAndCloseBooks(w: World, rid: string)
    requires Books(w) && rid in w.rooms
    ensures Books(CloseRoom(KickAll(w, rid), rid))
  {
    BooksFrame(w, KickAll(w, rid));
    hide Books;
    CloseRoomBooks(KickAll(w, rid), rid);
  }

  /** A client that is in no room disconnects. */
  lemma OutsiderLeavesBase(w: World, me: Xid, code: int, reason: string)
    requires BaseBut(w, me) && Where(w, me) == ""
    ensures Base(Forget(w, me, code, reason))
  {
    var w1 := Forget(w, me, code, reason);
    OutsiderUnconcerned(w.connected, w.rooms, me);
    IndexedConnect(w.connected, w.rooms, me);
    hide RoomsOk, RoomsOkBut, Indexed;
    BooksFrame(w, w1);
  }

  /** `w3` is the state in which `me` and its sessions are gone from its room, before the room is settled. */
  ghost predicate LeftRoom(w: World, rid: string, me: Xid, w3: World) {
    && me in w.connected && rid == w.connected[me] && rid in w.rooms && rid != "" && rid in w3.rooms
    && w3.connected == w.connected - {me}
    && w3.rooms == w.rooms[rid := w3.rooms[rid]]
    && w3.rooms[rid].users == w.rooms[rid].users - {me}
  }

  lemma LeaveSteps(w: World, rid: string, me: Xid, code: int, reason: string, ends: seq<Xid>)
    requires me in w.connected && rid == w.connected[me] && rid in w.rooms && rid != ""
    requires OrderOfEnds(w.rooms[rid].sessions, me, true, ends)
    ensures LeftRoom(w, rid, me, EndSessions(RemoveUser(Forget(w, me, code, reason), rid, me), rid, me, ends))
  {
  }

  /** A member leaves and its room closes, with or without other members in it. */
  lemma CloseBase(w: World, rid: string, me: Xid, w3: World)
    requires BaseBut(w, me) && LeftRoom(w, rid, me, w3) && Books(w3)
    ensures Base(CloseRoom(KickAll(w3, rid), rid))
    ensures w3.rooms[rid].users == map[] ==> Base(CloseRoom(w3, rid))
  {
    hide RoomOk, RoomsOkBut, Indexed, Books;
    KickAndCloseBooks(w3, rid);
    CloseRoomBooks(w3, rid);
    LeaveIndexed(w, rid, me, w3.rooms[rid]);
    OtherRoomsUnconcerned(w.connected, w.rooms, me, rid);
    LastRooms(w.rooms, rid, w3.rooms);
  }

  /** A member leaves and the others stay. */
  lemma StayBase(w: World, rid: string, me: Xid, ends: seq<Xid>, w3: World)
    requires BaseBut(w, me) && LeftRoom(w, rid, me, w3) && Books(w3)
    requires OrderOfEnds(w.rooms[rid].sessions, me, true, ends)
    requires w3.rooms[rid] == w.rooms[rid].(users := w.rooms[rid].users - {me},
                                            sessions := w.rooms[rid].sessions - Elements(ends))
    requires me in w.rooms[rid].users && w3.rooms[rid].users != map[]
    requires !(w.rooms[rid].users[me].owner && w.rooms[rid].closeOnOwnerLeave)
    ensures Base(w3)
  {
    hide RoomOk, RoomOkBut, Indexed, Books, OrderOfEnds;
    LeaveIndexed(w, rid, me, w3.rooms[rid]);
    OtherRoomsUnconcerned(w.connected, w.rooms, me, rid);
    LeaveCompletes(rid, w.rooms[rid], me, ends, w3.rooms[rid]);
    RoomsOkUpdated(w.rooms, rid, w3.rooms[rid]);
  }

  /** Disconnecting restores all agreements, also after an event of the client failed halfway. */
  lemma DisconnectBase(w: World, me: Xid, code: int, reason: string, w': World)
    requires BaseBut(w, me) && Disconnects(w, me, code, reason, w')
    ensures Base(w')
  {
    hide RoomsOk, RoomsOkBut, Indexed, Books, OrderOfEnds, LeftRoom, Settles;
    var rid := Where(w, me);
    if rid == "" {
      OutsiderLeavesBase(w, me, code, reason);
    } else {
      MemberIsUser(w.connected, w.rooms, me);
      var ends :| DisconnectsWith(w, rid, me, code, reason, ends, w');
      OrderIsOrder(w.rooms[rid].sessions, me, true, ends);
      var w3 := EndSessions(RemoveUser(Forget(w, me, code, reason), rid, me), rid, me, ends);
      LeaveSteps(w, rid, me, code, reason, ends);
      LeaveBooks(w, rid, me, code, reason, ends);
      assert w3.rooms[rid] == w.rooms[rid].(users := w.rooms[rid].users - {me},
                                            sessions := w.rooms[rid].sessions - Elements(ends));
      SettleBase(w, rid, me, ends, w3, w');
    }
  }

  lemma MemberIsUser(connected: map<Xid, string>, rooms: map<string, RoomState>, me: Xid)
    requires Indexed(connected, rooms) && me in connected && connected[me] != ""
    ensures connected[me] in rooms && me in rooms[connected[me]].users
  {
  }

  lemma SettleBase(w: World, rid: string, me: Xid, ends: seq<Xid>, w3: World, w': World)
    requires BaseBut(w, me) && LeftRoom(w, rid, me, w3) && Books(w3)
    requires OrderOfEnds(w.rooms[rid].sessions, me, true, ends)
    requires w3.rooms[rid] == w.rooms[rid].(users := w.rooms[rid].users - {me},
                                            sessions := w.rooms[rid].sessions - Elements(ends))
    requires me in w.rooms[rid].users && Settles(w3, rid, w.rooms[rid].users[me].owner, w')
    ensures Base(w')
  {
    hide RoomsOk, RoomsOkBut, Indexed, Books, OrderOfEnds;
    CloseBase(w, rid, me, w3);
    if !(w.rooms[rid].users[me].owner && w.rooms[rid].closeOnOwnerLeave) && w3.rooms[rid].users != map[] {
      StayBase(w, rid, me, ends, w3);
      NotifiedKeeps(w3, rid, w', me);
    }
  }

  /** The rooms once the room of the leaver is closed. */
  lemma LastRooms(rooms: map<string, RoomState>, rid: string, rooms': map<string, RoomState>)
    requires OthersOk(rooms, rid) && rid in rooms'
    requires rooms' == rooms[rid := rooms'[rid]]
    ensures RoomsOk(rooms' - {rid})
  {
    hide RoomOk;
  }

  lemma LeaveIndexed(w: World, rid: string, me: Xid, room: RoomState)
    requires Indexed(w.connected, w.rooms) && me in w.connected && rid == w.connected[me] && rid in w.rooms && rid != ""
    requires room.users == w.rooms[rid].users - {me}
    ensures Indexed(w.connected - {me}, w.rooms[rid := room])
    ensures Indexed(w.connected - {me} - room.users.Keys, w.rooms[rid := room] - {rid})
    ensures room.users == map[] ==> Indexed(w.connected - {me}, w.rooms[rid := room] - {rid})
  {
    assert room.users.Keys == w.rooms[rid].users.Keys - {me};
    IndexedLeave(w.connected, w.rooms, me, rid, room);
    hide Indexed;
    IndexedClose(w.connected - {me}, w.rooms[rid := room], rid);
    if room.users == map[] {
      assert w.connected - {me} - room.users.Keys == w.connected - {me};
    }
  }

  // ---------- Events and runs ----------

  lemma ConnectBase(w: World, me: Xid)
    requires Base(w) && me !in w.used
    ensures Base(w.(connected := w.connected[me := ""], used := w.used + {me}))
  {
    hide RoomOk, LookupOk, CreatorsOk;
    assert me !in w.connected by {
      assert w.connected.Keys <= w.used;
    }
    IndexedConnect(w.connected, w.rooms, me);
    hide Indexed;
    GrowUsed(w, me);
  }

  lemma GrowUsed(w: World, me: Xid)
    requires SidsOk(w.rooms, w.used) && ClientIdsOk(w.connected, w.rooms, w.used)
    ensures SidsOk(w.rooms, w.used + {me}) && ClientIdsOk(w.connected[me := ""], w.rooms, w.used + {me})
  {
  }

  lemma CreateBase(w: World, info: ClientInfo, e: Event, o: Outcome)
    requires e.Create? && Base(w) && info.id in w.used && Creates(w, info, e, o)
    ensures if o.error.None? then Base(o.world) else BaseBut(o.world, info.id)
  {
    hide RoomsOk, RoomsOkBut, Indexed, Books, Joins;
    BaseWeaken(w, info.id);
    if Where(w, info.id) == "" {
      if e.id in w.rooms {
        if e.joinIfExist {
          JoinBase(w, info, e.id, e.userName, o);
        }
      } else if CreateRefused(w.authMode, info, e.mode).None? {
        var name :| NameFor(info, e.userName, name) && Notified(OpenRoom(w, info, e, name), e.id, o.world);
        OpenRoomBase(w, info, e, name);
        NotifiedKeeps(OpenRoom(w, info, e, name), e.id, o.world, info.id);
      }
    }
  }

  lemma ExecuteBase(w: World, info: ClientInfo, e: Event, o: Outcome)
    requires Base(w) && Executes(w, info, e, o)
    requires if e.Connected? then info.id !in w.used else info.id in w.used
    ensures if o.error.None? then Base(o.world) else BaseBut(o.world, info.id)
  {
    hide Base, BaseBut, Creates, Joins, StartsShare, StopsShare, Renames, Relays, Disconnects;
    match e
    case Connected => ConnectBase(w, info.id);
    case Create(_, _, _, _, _) => CreateBase(w, info, e, o);
    case Join(id, userName) => JoinBase(w, info, id, userName, o);
    case StartShare => ShareBase(w, info.id, o);
    case StopShare => StopBase(w, info.id, o);
    case Name(userName) => RenameBase(w, info.id, userName, o);
    case Relay(kind, sid, value) => RelayBase(w, info.id, kind, sid, value, o);
    case Disconnected(code, reason) =>
      BaseWeaken(w, info.id);
      DisconnectBase(w, info.id, code, reason, o.world);
  }

  /** The sender of a message that is not dropped. */
  lemma KnownSender(w: World, m: ClientMessage)
    requires Base(w) && Arrives(w, m) && (m.skipConnectedCheck || m.info.id in w.connected)
    ensures if m.event.Connected? then m.info.id !in w.used else m.info.id in w.used
  {
    hide RoomsOk, Indexed, Ledger, CreatorsOk;
  }

  /**
   * One iteration of the event loop keeps every agreement, whatever the event, also when the event fails
   * after having changed the state and is rolled back.
   */
  lemma NextKeepsBase(w: World, m: ClientMessage, w': World)
    requires Base(w) && Arrives(w, m) && Next(w, m, w')
    ensures Base(w')
  {
    if m.skipConnectedCheck || m.info.id in w.connected {
      assert m.info.id in w.connected ==> m.info.id in w.used;
      hide Base, BaseBut, Executes, Disconnects;
      var o :| Executes(w, m.info, m.event, o) && o.reply == m.reply && Completes(o, m.info.id, w');
      ExecuteBase(w, m.info, m.event, o);
      if o.error.Some? {
        DisconnectBase(o.world, m.info.id, NORMAL_CLOSURE, o.error.value, w');
      }
    }
  }

  lemma InitBase(authMode: AuthMode)
    ensures Base(Init(authMode))
  {
  }

  /** All agreements hold in every state of every run. */
  lemma {:induction false} RunsKeepBase(authMode: AuthMode, ms: seq<ClientMessage>, ws: seq<World>, i: nat)
    requires IsRun(authMode, ms, ws) && i < |ws|
    ensures Base(ws[i])
  {
    hide Base, Next, Arrives, Init;
    if i == 0 {
      InitBase(authMode);
    } else {
      RunsKeepBase(authMode, ms, ws, i - 1);
      NextKeepsBase(ws[i - 1], ms[i - 1], ws[i]);
    }
  }
}
