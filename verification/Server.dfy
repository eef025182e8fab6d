/**
 * The room server: its state as objects that handlers update in place. Each handler is shown to do what the
 * specification allows, and to reach every user and session it needs without a miss.
 */
module Server {
  import opened Types
  import opened MemberList
  import opened Spec
  import opened Invariants
  import opened RoomProofs
  import opened BaseProofs
  import opened StepLemmas
  import opened RunProofs
  import opened Refusals
  import opened Focus
  import opened Turn

  class Room {
    const id: string
    const closeOnOwnerLeave: bool
    const mode: ConnectionMode
    ghost const creatorAuthenticated: bool
    var users: map<Xid, User>
    var sessions: map<Xid, RoomSession>

    constructor (id: string, closeOnOwnerLeave: bool, mode: ConnectionMode, owner: User, ghost authenticated: bool)
      ensures State() == RoomState(id, closeOnOwnerLeave, mode, map[owner.id := owner], map[], authenticated)
    {
      this.id := id;
      this.closeOnOwnerLeave := closeOnOwnerLeave;
      this.mode := mode;
      this.creatorAuthenticated := authenticated;
      users := map[owner.id := owner];
      sessions := map[];
    }

    ghost function State(): RoomState
      reads this
    {
      RoomState(id, closeOnOwnerLeave, mode, users, sessions, creatorAuthenticated)
    }

    /** Writes to a member; the member must be there. */
    method Send(u: Xid, m: Message, rooms: Rooms)
      requires u in users && (m.CloseWriter? ==> u !in rooms.connected)
      modifies rooms`out
      ensures rooms.out == Post(old(rooms.out), u, m)
    {
      rooms.WriteTimeout(u, m);
    }

    /** The ICE servers for both ends of a session, with credentials from the TURN server if it is used. */
    method IceServers(host: Xid, client: Xid, sid: Xid, server: InternalServer, at: Addresses)
      returns (iceHost: seq<IceServer>, iceClient: seq<IceServer>, ghost p: Pairing)
      requires host in users && client in users
      modifies server
      ensures p.host == host && p.client == client && p.sid == sid
      ensures iceHost == Ice(mode, at, HostKey(sid), p.hostPassword)
      ensures iceClient == Ice(mode, at, ClientKey(sid), p.clientPassword)
      ensures server.lookup == if mode.Turn? then PlanLookup(old(server.lookup), users, [p]) else old(server.lookup)
    {
      iceHost, iceClient, p := [], [], Pairing(host, client, sid, "", "");
      match mode {
        case Stun =>
          iceHost := [IceServer("stun", at, false, "", "")];
          iceClient := [IceServer("stun", at, false, "", "")];
        case Turn =>
          var hostName, hostPassword := server.Credentials(sid + "host", users[host].addr);
          var clientName, clientPassword := server.Credentials(sid + "client", users[client].addr);
          iceHost := [IceServer("turn", at, true, hostName, hostPassword)];
          iceClient := [IceServer("turn", at, true, clientName, clientPassword)];
          p := Pairing(host, client, sid, hostPassword, clientPassword);
          assert [p][..0] == [];
        case _ =>
      }
    }

    /** Opens a session between two members and tells both. */
    method NewSession(host: Xid, client: Xid, rooms: Rooms, at: Addresses) returns (ghost p: Pairing)
      requires host in users && client in users
      modifies `sessions, rooms`stats, rooms`out, rooms`used, rooms.server
      ensures p.host == host && p.client == client && p.sid !in old(rooms.used)
      ensures rooms.Focus(this) == NewSessions(old(rooms.Focus(this)), id, [p], at)
    {
      var sid := rooms.NewXid();
      sessions := sessions[sid := RoomSession(host, client)];
      rooms.stats := rooms.stats.(sessionsCreated := rooms.stats.sessionsCreated + 1);
      var iceHost, iceClient;
      iceHost, iceClient, p := IceServers(host, client, sid, rooms.server, at);
      hide PlanLookup, Ice;
      Send(host, HostSession(sid, client, iceHost), rooms);
      Send(client, ClientSession(sid, host, iceClient), rooms);
      OutOfOne(old(rooms.out), mode, p, at);
      hide PlanOut, Post;
      TableOfOne(old(sessions), p);
      hide PlanTable;
      Overwrite(id, old(State()), State());
    }

    /** Drops a session and its credentials. */
    method CloseSession(sid: Xid, rooms: Rooms)
      modifies `sessions, rooms`stats, rooms.server
      ensures sessions == old(sessions) - {sid}
      ensures rooms.stats == old(rooms.stats).(sessionsClosed := old(rooms.stats).sessionsClosed + 1)
      ensures rooms.server.lookup ==
              if mode.Turn? then old(rooms.server.lookup) - {HostKey(sid), ClientKey(sid)} else old(rooms.server.lookup)
    {
      if mode.Turn? {
        rooms.server.Disallow(sid + "host");
        rooms.server.Disallow(sid + "client");
      }
      sessions := sessions - {sid};
      rooms.stats := rooms.stats.(sessionsClosed := rooms.stats.sessionsClosed + 1);
    }

    /** The member list as shown to `me`. */
    method MembersFor(me: Xid) returns (l: seq<Member>)
      requires forall u | u in users :: users[u].id == u
      ensures IsListing(l, users, me)
      ensures |l| == |users| && forall i | 0 <= i < |l| :: LineRight(l[i], users, me)
    {
      l := [];
      var todo := users.Keys;
      while todo != {}
        invariant todo <= users.Keys
        invariant multiset(l) == multiset(set u | u in users && u !in todo :: Shown(users[u], me))
      {
        ghost var done := set u | u in users && u !in todo :: Shown(users[u], me);
        var u :| u in todo;
        todo := todo - {u};
        l := l + [Member(users[u].id, users[u].name, users[u].streaming, u == me, users[u].owner)];
        assert (set u | u in users && u !in todo :: Shown(users[u], me)) == done + {Shown(users[u], me)};
        assert Shown(users[u], me) !in done;
      }
      assert (set u | u in users && u !in todo :: Shown(users[u], me)) == ShownAll(users, me);
      l := Sort(l);
      ListingMeaning(l, users, me);
    }

    /** Sends every member the list of members. */
    method NotifyInfoChanged(rooms: Rooms) returns (ghost lists: map<Xid, seq<Member>>)
      requires forall u | u in users :: users[u].id == u
      modifies rooms`out
      ensures ListingsFor(users, lists)
      ensures rooms.out == PostAll(old(rooms.out), map c | c in lists :: RoomInfo(id, lists[c]))
    {
      hide IsListing, PostAll;
      lists := map[];
      ghost var sent: map<Xid, Message> := map[];
      PostAllNone(rooms.out);
      var todo := users.Keys;
      while todo != {}
        invariant todo <= users.Keys && lists.Keys == users.Keys - todo
        invariant forall c | c in lists :: IsListing(lists[c], users, c)
        invariant sent == map c | c in lists :: RoomInfo(id, lists[c])
        invariant rooms.out == PostAll(old(rooms.out), sent)
      {
        var c :| c in todo;
        todo := todo - {c};
        var l := MembersFor(c);
        Send(c, RoomInfo(id, l), rooms);
        PostAllSnoc(old(rooms.out), sent, c, RoomInfo(id, l));
        lists, sent := lists[c := l], sent[c := RoomInfo(id, l)];
      }
    }
  }

  class Rooms {
    const authMode: AuthMode
    const server: InternalServer
    var connected: map<Xid, string>
    var rooms: map<string, Room>
    var out: map<Xid, seq<Message>>  // what was written to each client's channel
    var stats: Counters
    var used: set<Xid>               // the ids the generator has handed out

    constructor (authMode: AuthMode)
      ensures Valid() && State() == Init(authMode) && fresh(server)
    {
      this.authMode := authMode;
      server := new InternalServer();
      connected := map[];
      rooms := map[];
      out := map[];
      stats := Counters(0, 0, 0, 0, 0, 0);
      used := {};
    }

    /** Different ids lead to different rooms. */
    ghost predicate Valid()
      reads `rooms
    {
      forall q, r | q in rooms && r in rooms && rooms[q] == rooms[r] :: q == r
    }

    ghost function RoomStates(): map<string, RoomState>
      reads `rooms, rooms.Values
    {
      map r | r in rooms :: rooms[r].State()
    }

    ghost function State(): World
      reads this, server, rooms.Values
    {
      World(authMode, connected, RoomStates(), server.lookup, out, stats, used)
    }

    /** The state as if `room` were the only one. */
    ghost function Focus(room: Room): World
      reads this, server, room
    {
      World(authMode, connected, map[room.id := room.State()], server.lookup, out, stats, used)
    }

    /** An id that was not handed out before. */
    method NewXid() returns (id: Xid)
      modifies `used
      ensures id !in old(used) && used == old(used) + {id}
    {
      FreshExists(used);
      id :| id !in used;
      used := used + {id};
    }

    /** Writes to a client; it is told to close only when it is out of the index already. */
    method WriteTimeout(c: Xid, m: Message)
      requires m.CloseWriter? ==> c !in connected
      modifies `out
      ensures out == Post(old(out), c, m)
    {
      out := out[c := (if c in out then out[c] else []) + [m]];
    }

    /** The room a client is in. */
    method CurrentRoom(me: Xid) returns (room: Option<Room>, error: string)
      ensures room.Some? <==> InRoom(State(), me)
      ensures room.Some? ==> room.value == rooms[connected[me]]
      ensures room.None? ==> error == NotInRoom(State(), me)
    {
      if me !in connected {
        return None, "not connected";
      }
      if connected[me] == "" {
        return None, "not in a room";
      }
      if connected[me] !in rooms {
        return None, "room with id " + connected[me] + " does not exist";
      }
      return Some(rooms[connected[me]]), "";
    }

    /** The display name; one is invented if none is known. */
    method DisplayName(info: ClientInfo, asked: string) returns (name: string)
      ensures NameFor(info, asked, name)
    {
      name := asked;
      if info.authenticated {
        name := info.authenticatedUser;
      }
      if name == "" {
        name := *;
      }
    }

    /** What a handler finds when it looks a room up. */
    lemma RoomFacts(rid: string)
      requires rid in rooms && Base(State())
      ensures rooms[rid].id == rid && Alone(State(), Focus(rooms[rid]), rid)
      ensures forall u | u in rooms[rid].users :: rooms[rid].users[u].id == u
      ensures EndsAreMembers(rooms[rid].State())
    {
      hide Sharing, SharingBut, EndsAreMembers, HasOwner, AtMostOneOwner;
      assert RoomStates()[rid] == rooms[rid].State();
      assert RoomOk(rid, RoomStates()[rid]);
    }

    /** A client that is in a room is one of its users. */
    lemma MemberFacts(me: Xid)
      requires InRoom(State(), me) && Base(State())
      ensures me in rooms[connected[me]].users
    {
      hide RoomsOk, Books;
      assert RoomStates()[connected[me]] == rooms[connected[me]].State();
    }

    /** One session from each streaming member to the newcomer. */
    method ConnectToStreams(room: Room, me: Xid, at: Addresses) returns (ghost plan: seq<Pairing>)
      requires me in room.users && forall u | u in room.users :: room.users[u].id == u
      modifies room`sessions, `stats, `out, `used, server
      ensures Opens(old(Focus(room)), room.id, PairsOnJoin(room.users, me), plan, at, Focus(room))
    {
      hide NewSessions;
      ghost var v := Focus(room);
      plan := [];
      ghost var served: set<(Xid, Xid)> := {};
      NewSessionsNone(v, room.id, at);
      var todo := room.users.Keys;
      while todo != {}
        invariant todo <= room.users.Keys
        invariant served == set u | u in room.users && u !in todo && u != me && room.users[u].streaming :: (u, me)
        invariant PlanFor(v.used, served, plan)
        invariant Focus(room) == NewSessions(v, room.id, plan, at)
      {
        var u :| u in todo;
        todo := todo - {u};
        if me == room.users[u].id || !room.users[u].streaming {
          continue;
        }
        ghost var p := room.NewSession(u, me, this, at);
        NextSession(v, room.id, served, plan, p, at);
        plan, served := plan + [p], served + {(u, me)};
      }
      assert served == PairsOnJoin(room.users, me);
    }

    /** One session from the sharing user to each other member. */
    method ConnectToMembers(room: Room, me: Xid, at: Addresses) returns (ghost plan: seq<Pairing>)
      requires me in room.users && forall u | u in room.users :: room.users[u].id == u
      modifies room`sessions, `stats, `out, `used, server
      ensures Opens(old(Focus(room)), room.id, PairsOnShare(room.users, me), plan, at, Focus(room))
    {
      hide NewSessions;
      ghost var v := Focus(room);
      plan := [];
      ghost var served: set<(Xid, Xid)> := {};
      NewSessionsNone(v, room.id, at);
      var todo := room.users.Keys;
      while todo != {}
        invariant todo <= room.users.Keys
        invariant served == set u | u in room.users && u !in todo && u != me :: (me, u)
        invariant PlanFor(v.used, served, plan)
        invariant Focus(room) == NewSessions(v, room.id, plan, at)
      {
        var u :| u in todo;
        todo := todo - {u};
        if me == room.users[u].id {
          continue;
        }
        ghost var p := room.NewSession(me, u, this, at);
        NextSession(v, room.id, served, plan, p, at);
        plan, served := plan + [p], served + {(me, u)};
      }
      assert served == PairsOnShare(room.users, me);
    }

    /** Ends a session and tells one of its ends, if still a member. */
    method EndSession(room: Room, sid: Xid, peer: Xid)
      modifies room`sessions, `stats, `out, server
      ensures Focus(room) == EndOne(old(Focus(room)), room.id, sid, peer)
    {
      if peer in room.users {
        room.Send(peer, EndShare(sid), this);
      }
      room.CloseSession(sid, this);
      hide Post;
      Overwrite(room.id, old(room.State()), room.State());
    }

    /** Ends every session the user hosts and tells the other end. */
    method EndHosted(room: Room, me: Xid) returns (ghost ends: seq<Xid>)
      modifies room`sessions, `stats, `out, server
      ensures OrderOfEnds(old(room.sessions), me, false, ends)
      ensures Focus(room) == EndSessions(old(Focus(room)), room.id, me, ends)
    {
      hide EndSessions, EndOne, Ended;
      ghost var v := Focus(room);
      ends := [];
      EndSessionsNone(v, room.id, me);
      EndedNone(room.sessions, me, false);
      var todo := room.sessions.Keys;
      while todo != {}
        invariant todo <= v.rooms[room.id].sessions.Keys
        invariant Ended(v.rooms[room.id].sessions, todo, me, false, ends)
        invariant forall s | s in ends :: s in v.rooms[room.id].sessions
        invariant Focus(room) == EndSessions(v, room.id, me, ends)
      {
        var id :| id in todo;
        Remaining(v, room.id, me, false, ends, todo, id);
        todo := todo - {id};
        assert Focus(room).rooms[room.id] == room.State();
        var session := room.sessions[id];
        if session.host == me {
          EndSession(room, id, session.client);
          EndSessionsSnoc(v, room.id, me, ends, id);
          ends := ends + [id];
        }
      }
      EndedAll(old(room.sessions), me, false, ends);
    }

    /** Ends every session of a user who left and tells the other end. */
    method EndAll(room: Room, me: Xid) returns (ghost ends: seq<Xid>)
      requires forall s | s in room.sessions :: room.sessions[s].host != room.sessions[s].client
      modifies room`sessions, `stats, `out, server
      ensures OrderOfEnds(old(room.sessions), me, true, ends)
      ensures Focus(room) == EndSessions(old(Focus(room)), room.id, me, ends)
    {
      hide EndSessions, EndOne, Ended;
      ghost var v := Focus(room);
      ends := [];
      EndSessionsNone(v, room.id, me);
      EndedNone(room.sessions, me, true);
      var todo := room.sessions.Keys;
      while todo != {}
        invariant todo <= v.rooms[room.id].sessions.Keys
        invariant Ended(v.rooms[room.id].sessions, todo, me, true, ends)
        invariant forall s | s in ends :: s in v.rooms[room.id].sessions
        invariant Focus(room) == EndSessions(v, room.id, me, ends)
      {
        var id :| id in todo;
        Remaining(v, room.id, me, true, ends, todo, id);
        todo := todo - {id};
        assert Focus(room).rooms[room.id] == room.State();
        var session := room.sessions[id];
        if session.client == me {
          EndSession(room, id, session.host);
        }
        if session.host == me {
          EndSession(room, id, session.client);
        }
        if IsEnd(session, me, true) {
          EndSessionsSnoc(v, room.id, me, ends, id);
          ends := ends + [id];
        }
      }
      EndedAll(old(room.sessions), me, true, ends);
    }

    // ---------- Events ----------

    method Join(info: ClientInfo, id: string, userName: string, reply: Reply) returns (error: Option<string>)
      requires Valid() && Base(State())
      modifies this, server, rooms.Values
      ensures rooms == old(rooms)
      ensures Joins(old(State()), info, id, userName, Outcome(State(), error, reply))
      ensures Where(old(State()), info.id) == "" && id in rooms ==> error == reply.error
    {
      hide Base, JoinsAs;
      if info.id in connected && connected[info.id] != "" {
        return Some("cannot join room, you are already in one");
      }
      if id !in rooms {
        return Some("room with id " + id + " does not exist");
      }
      var room := rooms[id];
      ghost var w, v := State(), Focus(room);
      RoomFacts(id);
      ghost var name, v1;
      error, name, v1 := JoinRoom(room, info, userName, reply);
      JoinWithin(w, v, info, id, userName, name, v1, Outcome(Focus(room), error, reply));
      assert RoomStates() == w.rooms[id := room.State()];
    }

    method JoinRoom(room: Room, info: ClientInfo, userName: string, reply: Reply)
      returns (error: Option<string>, ghost name: string, ghost v1: World)
      requires forall u | u in room.users :: room.users[u].id == u
      modifies room, `connected, `stats, `out, `used, server
      ensures JoinsAs(old(Focus(room)), info, room.id, userName, name, v1, Outcome(Focus(room), error, reply))
      ensures error == reply.error
    {
      hide OpensSessions, ListingsFor, PostAll;
      ghost var v := Focus(room);
      var displayName := DisplayName(info, userName);
      name := displayName;
      room.users := room.users[info.id := User(info.id, info.addr, displayName, false, false)];
      connected := connected[info.id := room.id];
      ghost var lists := room.NotifyInfoChanged(this);
      stats := stats.(usersJoined := stats.usersJoined + 1);
      v1 := Focus(room);
      ghost var entered := Enter(v, room.id, User(info.id, info.addr, name, false, false));
      Overwrite(room.id, v.rooms[room.id], room.State());
      assert v1 == entered.(out := v1.out);
      AnyLists(entered, room.id, lists, v1);
      hide Notified, Enter;
      error := reply.error;
      if error.None? {
        ghost var plan := ConnectToStreams(room, info.id, reply.At());
        OpensAny(v1, room.id, PairsOnJoin(room.users, info.id), plan, reply, Focus(room));
      } else {
        OpensNothing(v1, room.id, PairsOnJoin(room.users, info.id), reply);
      }
    }

    method StartShare(me: Xid, reply: Reply) returns (error: Option<string>)
      requires Valid() && Base(State())
      modifies this, server, rooms.Values
      ensures rooms == old(rooms)
      ensures StartsShare(old(State()), me, Outcome(State(), error, reply))
      ensures InRoom(old(State()), me) ==> error == reply.error
    {
      hide Base, SharesAs;
      var found, reason := CurrentRoom(me);
      if found.None? {
        return Some(reason);
      }
      var room := found.value;
      ghost var w, v := State(), Focus(room);
      RoomFacts(connected[me]);
      MemberFacts(me);
      ghost var o1;
      error, o1 := ShareRoom(room, me, reply);
      ShareWithin(w, v, room.id, me, o1, Outcome(Focus(room), error, reply));
      assert RoomStates() == w.rooms[room.id := room.State()];
    }

    method ShareRoom(room: Room, me: Xid, reply: Reply) returns (error: Option<string>, ghost o1: Outcome)
      requires me in room.users && forall u | u in room.users :: room.users[u].id == u
      modifies room, `stats, `out, `used, server
      ensures SharesAs(old(Focus(room)), room.id, me, o1, Outcome(Focus(room), error, reply))
      ensures error == reply.error
    {
      hide OpensSessions, ListingsFor, PostAll;
      ghost var v := Focus(room);
      room.users := room.users[me := room.users[me].(streaming := true)];
      ghost var v1 := Focus(room);
      Overwrite(room.id, v.rooms[room.id], room.State());
      assert v1 == UpdateUser(v, room.id, room.users[me]);
      error := reply.error;
      if error.Some? {
        OpensNothing(v1, room.id, PairsOnShare(room.users, me), reply);
        o1 := Outcome(v1, error, reply);
        return;
      }
      ghost var plan := ConnectToMembers(room, me, reply.At());
      o1 := Done(Focus(room), reply);
      OpensAny(v1, room.id, PairsOnShare(room.users, me), plan, reply, o1.world);
      ghost var lists := room.NotifyInfoChanged(this);
      AnyLists(o1.world, room.id, lists, Focus(room));
      hide Notified;
    }

    method StopShare(me: Xid, ghost reply: Reply) returns (error: Option<string>)
      requires Valid() && Base(State())
      modifies this, server, rooms.Values
      ensures rooms == old(rooms)
      ensures StopsShare(old(State()), me, Outcome(State(), error, reply))
    {
      hide Base, StopsWith;
      var found, reason := CurrentRoom(me);
      if found.None? {
        return Some(reason);
      }
      var room := found.value;
      ghost var w, v := State(), Focus(room);
      RoomFacts(connected[me]);
      MemberFacts(me);
      ghost var ends := StopRoom(room, me);
      StopWithin(w, v, room.id, me, ends, Focus(room), reply);
      assert RoomStates() == w.rooms[room.id := room.State()];
      error := None;
    }

    method StopRoom(room: Room, me: Xid) returns (ghost ends: seq<Xid>)
      requires me in room.users && forall u | u in room.users :: room.users[u].id == u
      modifies room, `stats, `out, server
      ensures StopsWith(old(Focus(room)), room.id, me, ends, Focus(room))
    {
      hide OrderOfEnds, EndSessions, ListingsFor, PostAll;
      ghost var v := Focus(room);
      room.users := room.users[me := room.users[me].(streaming := false)];
      Overwrite(room.id, v.rooms[room.id], room.State());
      assert Focus(room) == UpdateUser(v, room.id, room.users[me]);
      ends := EndHosted(room, me);
      ghost var v2 := Focus(room);
      ghost var lists := room.NotifyInfoChanged(this);
      AnyLists(v2, room.id, lists, Focus(room));
      hide Notified;
    }

    method Name(me: Xid, userName: string, ghost reply: Reply) returns (error: Option<string>)
      requires Valid() && Base(State())
      modifies this, server, rooms.Values
      ensures rooms == old(rooms)
      ensures Renames(old(State()), me, userName, Outcome(State(), error, reply))
    {
      hide Base, Notified;
      var found, reason := CurrentRoom(me);
      if found.None? {
        return Some(reason);
      }
      var room := found.value;
      ghost var w, v := State(), Focus(room);
      RoomFacts(connected[me]);
      MemberFacts(me);
      RenameUser(room, me, userName);
      RenameWithin(w, v, room.id, me, userName, Focus(room), reply);
      assert RoomStates() == w.rooms[room.id := room.State()];
      error := None;
    }

    method RenameUser(room: Room, me: Xid, userName: string)
      requires me in room.users && forall u | u in room.users :: room.users[u].id == u
      modifies room`users, `out
      ensures Notified(UpdateUser(old(Focus(room)), room.id, old(room.users[me]).(name := userName)), room.id,
                       Focus(room))
    {
      hide Notified, ListingsFor, PostAll;
      ghost var v := Focus(room);
      room.users := room.users[me := room.users[me].(name := userName)];
      Overwrite(room.id, v.rooms[room.id], room.State());
      assert Focus(room) == UpdateUser(v, room.id, room.users[me]);
      ghost var lists := room.NotifyInfoChanged(this);
      AnyLists(UpdateUser(v, room.id, room.users[me]), room.id, lists, Focus(room));
    }

    /** The four peer-to-peer events. */
    method Relay(me: Xid, kind: RelayKind, sid: Xid, value: string, ghost reply: Reply) returns (error: Option<string>)
      requires Valid() && Base(State())
      modifies `out
      ensures Relays(old(State()), me, kind, sid, value, Outcome(State(), error, reply))
    {
      hide Base, Post, Alone;
      ghost var w := State();
      var found, reason := CurrentRoom(me);
      if found.None? {
        return Some(reason);
      }
      var room := found.value;
      RoomFacts(connected[me]);
      assert RoomStates()[connected[me]] == room.State();
      if sid !in room.sessions {
        return None;
      }
      var session := room.sessions[sid];
      assert session.host in room.users && session.client in room.users;
      hide EndsAreMembers;
      if kind.FromHost() {
        if session.host != me {
          return Some("permission denied for session " + sid);
        }
        room.Send(session.client, Relayed(kind, sid, value), this);
      } else {
        if session.client != me {
          return Some("permission denied for session " + sid);
        }
        room.Send(session.host, Relayed(kind, sid, value), this);
      }
      assert RoomStates() == w.rooms;
      error := None;
    }

    method Create(info: ClientInfo, e: Event, reply: Reply) returns (error: Option<string>)
      requires e.Create? && Valid() && Base(State())
      modifies this, server, rooms.Values
      ensures Valid() && fresh(rooms.Values - old(rooms.Values))
      ensures Creates(old(State()), info, e, Outcome(State(), error, reply))
    {
      hide Base, Joins, Notified, OpenRoom;
      if info.id in connected && connected[info.id] != "" {
        return Some("cannot join room, you are already in one");
      }
      if e.id in rooms {
        if e.joinIfExist {
          error := Join(info, e.id, e.userName, reply);
          return;
        }
        return Some("room with id " + e.id + " does already exist");
      }
      var name := DisplayName(info, e.userName);
      error := MayCreate(info, e.mode);
      if error.None? {
        OpensRoom(info, e, name);
      }
    }

    /** Does the authentication mode let this client create a room of this mode? */
    method MayCreate(info: ClientInfo, mode: ConnectionMode) returns (error: Option<string>)
      ensures error == CreateRefused(authMode, info, mode)
      ensures error.None? <==> CreatorOk(authMode, mode, info.authenticated)
    {
      match authMode {
        case AuthNone =>
        case AuthAll =>
          if !info.authenticated {
            return Some("you need to login");
          }
        case AuthTurn =>
          if mode != Stun && mode != Local && !info.authenticated {
            return Some("you need to login");
          }
        case OtherAuth(text) =>
          return Some("invalid authmode:" + text);
      }
      error := None;
    }

    method OpensRoom(info: ClientInfo, e: Event, name: string)
      requires e.Create? && Valid() && e.id !in rooms
      modifies this
      ensures Valid() && fresh(rooms.Values - old(rooms.Values))
      ensures Notified(Spec.OpenRoom(old(State()), info, e, name), e.id, State())
    {
      hide ListingsFor, PostAll, Valid;
      ghost var w := State();
      var room := AddRoom(info, e, name);
      ghost var lists := room.NotifyInfoChanged(this);
      stats := stats.(usersJoined := stats.usersJoined + 1, roomsCreated := stats.roomsCreated + 1);
      ghost var w1 := Spec.OpenRoom(w, info, e, name);
      assert w1.rooms[e.id].users == room.users && w1.rooms[e.id].id == room.id;
      hide Spec.OpenRoom;
      AnyLists(w1, e.id, lists, State());
    }

    method AddRoom(info: ClientInfo, e: Event, name: string) returns (room: Room)
      requires e.Create? && Valid() && e.id !in rooms
      modifies `connected, `rooms
      ensures Valid() && fresh(rooms.Values - old(rooms.Values))
      ensures room.users == map[info.id := User(info.id, info.addr, name, false, true)] && room.id == e.id
      ensures State() == Spec.OpenRoom(old(State()), info, e, name).(stats := stats)
    {
      ghost var w := State();
      var owner := User(info.id, info.addr, name, false, true);
      room := new Room(e.id, e.closeOnOwnerLeave, e.mode, owner, info.authenticated);
      connected := connected[info.id := room.id];
      rooms := rooms[e.id := room];
      assert RoomStates() == w.rooms[e.id := room.State()];
    }

    // ---------- Disconnecting ----------

    /** Ends all sessions of a room and drops the room. */
    method CloseRoom(rid: string)
      requires Valid()
      modifies this, server, rooms.Values
      ensures rooms == old(rooms) - {rid}
      ensures rid in old(rooms) ==> State() == Spec.CloseRoom(old(State()), rid)
      ensures rid !in old(rooms) ==> State() == old(State())
    {
      hide Spec.CloseRoom, Cleared, Dropped;
      if rid !in rooms {
        assert rooms - {rid} == rooms;
        return;
      }
      ghost var w := State();
      ghost var closed := ClearRoom(rid);
      hide Valid;
      DropRoom(rid);
      ClearedDropped(w, rid, closed);
    }

    method ClearRoom(rid: string) returns (ghost closed: RoomState)
      requires Valid() && rid in rooms
      modifies `stats, server, rooms.Values
      ensures State() == Cleared(old(State()), rid, closed)
    {
      hide KeysOf;
      ghost var w := State();
      var room := rooms[rid];
      ghost var before := room.State();
      assert w.rooms[rid] == before;
      stats := stats.(usersLeft := stats.usersLeft + |room.users|);
      CloseSessions(room);
      closed := room.State();
      assert stats == Cleared(w, rid, closed).stats;
      assert server.lookup == Cleared(w, rid, closed).lookup;
      hide Cleared;
      assert RoomStates() == w.rooms[rid := closed];
      hide Valid;
      ghost var cleared := w.(rooms := w.rooms[rid := closed], lookup := server.lookup, stats := stats);
      assert State() == cleared;
      ClearedParts(w, rid, closed, cleared);
    }

    method DropRoom(rid: string)
      modifies `rooms, `stats
      ensures rooms == old(rooms) - {rid}
      ensures State() == Dropped(old(State()), rid)
    {
      ghost var w := State();
      rooms := rooms - {rid};
      stats := stats.(roomsClosed := stats.roomsClosed + 1);
      assert RoomStates() == w.rooms - {rid};
    }

    method CloseSessions(room: Room)
      modifies room`sessions, `stats, server
      ensures stats == old(stats).(sessionsClosed := old(stats).sessionsClosed + |old(room.sessions)|)
      ensures server.lookup ==
              if room.mode.Turn? then old(server.lookup) - KeysOf(old(room.sessions).Keys) else old(server.lookup)
    {
      hide KeysOf;
      ghost var closed: seq<Xid> := [];
      ghost var all := room.sessions.Keys;
      NoKeys(server.lookup);
      var todo := room.sessions.Keys;
      while todo != {}
        invariant todo <= all && Elements(closed) == all - todo && |closed| + |todo| == |all|
        invariant stats == old(stats).(sessionsClosed := old(stats).sessionsClosed + |closed|)
        invariant server.lookup ==
                  if room.mode.Turn? then old(server.lookup) - KeysOf(Elements(closed)) else old(server.lookup)
      {
        var id :| id in todo;
        todo := todo - {id};
        room.CloseSession(id, this);
        LookupEndSnoc(old(server.lookup), closed, id);
        ElementsSnoc(closed, id);
        closed := closed + [id];
      }
      assert Elements(closed) == old(room.sessions).Keys;
    }

    /** Forgets all members of a room and tells them that the owner left. */
    method KickMembers(room: Room)
      requires forall u | u in room.users :: room.users[u].id == u
      modifies `connected, `out
      ensures connected == old(connected) - room.users.Keys
      ensures out == PostAll(old(out), map c | c in room.users :: CloseWriter(NORMAL_CLOSURE, OWNER_LEFT))
    {
      hide PostAll;
      ghost var sent: map<Xid, Message> := map[];
      PostAllNone(out);
      var todo := room.users.Keys;
      while todo != {}
        invariant todo <= room.users.Keys
        invariant connected == old(connected) - (room.users.Keys - todo)
        invariant sent == map c | c in room.users.Keys - todo :: CloseWriter(NORMAL_CLOSURE, OWNER_LEFT)
        invariant out == PostAll(old(out), sent)
      {
        var c :| c in todo;
        todo := todo - {c};
        connected := connected - {room.users[c].id};
        room.Send(c, CloseWriter(NORMAL_CLOSURE, OWNER_LEFT), this);
        PostAllSnoc(old(out), sent, c, CloseWriter(NORMAL_CLOSURE, OWNER_LEFT));
        sent := sent[c := CloseWriter(NORMAL_CLOSURE, OWNER_LEFT)];
      }
      assert sent == map c | c in room.users :: CloseWriter(NORMAL_CLOSURE, OWNER_LEFT);
    }

    /** A user leaves its room; the other ends of its sessions are told. */
    method LeaveRoom(room: Room, me: Xid) returns (ghost ends: seq<Xid>)
      requires forall s | s in room.sessions :: room.sessions[s].host != room.sessions[s].client
      modifies room, `stats, `out, server
      ensures OrderOfEnds(old(room.sessions), me, true, ends)
      ensures Focus(room) == EndSessions(RemoveUser(old(Focus(room)), room.id, me), room.id, me, ends)
    {
      hide EndSessions, OrderOfEnds;
      ghost var v := Focus(room);
      room.users := room.users - {me};
      stats := stats.(usersLeft := stats.usersLeft + 1);
      Overwrite(room.id, v.rooms[room.id], room.State());
      assert Focus(room) == RemoveUser(v, room.id, me);
      ends := EndAll(room, me);
    }

    /** The room closes if its owner left or nobody is left; otherwise those who stay are told. */
    method Settle(rid: string, ownerLeft: bool)
      requires Valid() && rid in rooms && rooms[rid].id == rid
      requires forall u | u in rooms[rid].users :: rooms[rid].users[u].id == u
      modifies this, server, rooms.Values
      ensures Valid() && rooms.Values <= old(rooms.Values)
      ensures Settles(old(State()), rid, ownerLeft, State())
    {
      hide PostAll, ListingsFor;
      var room := rooms[rid];
      ghost var w := State();
      assert w.rooms[rid] == room.State();
      if ownerLeft && room.closeOnOwnerLeave {
        KickMembers(room);
        assert State() == KickAll(w, rid);
        CloseRoom(rid);
        return;
      }
      if |room.users| == 0 {
        CloseRoom(rid);
        return;
      }
      ghost var lists := room.NotifyInfoChanged(this);
      AnyLists(w, rid, lists, State());
    }

    /** The user is taken out of its room, with all its sessions. */
    method Leave(rid: string, me: Xid) returns (ghost ends: seq<Xid>)
      requires Valid() && rid in rooms && rooms[rid].id == rid && EndsAreMembers(rooms[rid].State())
      modifies `stats, `out, server, rooms.Values
      ensures OrderOfEnds(old(State()).rooms[rid].sessions, me, true, ends)
      ensures forall s | s in ends :: s in old(State()).rooms[rid].sessions
      ensures rooms[rid].users == old(rooms[rid].users) - {me}
      ensures State() == EndSessions(RemoveUser(old(State()), rid, me), rid, me, ends)
    {
      hide OrderOfEnds;
      var room := rooms[rid];
      ghost var w, v := State(), Focus(room);
      assert RoomStates()[rid] == room.State();
      ends := LeaveRoom(room, me);
      EndsExist(w.rooms[rid].sessions, me, true, ends);
      LeaveWithin(w, v, rid, me, ends);
      assert Focus(room).rooms[rid] == room.State();
      assert RoomStates() == w.rooms[rid := room.State()];
    }

    /** A user leaves its room, which may close. */
    method Remove(rid: string, me: Xid) returns (ghost ends: seq<Xid>)
      requires Valid() && rid in rooms && rooms[rid].id == rid && EndsAreMembers(rooms[rid].State())
      requires me in rooms[rid].users && forall u | u in rooms[rid].users :: rooms[rid].users[u].id == u
      modifies this, server, rooms.Values
      ensures Valid() && rooms.Values <= old(rooms.Values)
      ensures OrderOfEnds(old(State()).rooms[rid].sessions, me, true, ends)
      ensures forall s | s in ends :: s in old(State()).rooms[rid].sessions
      ensures Settles(EndSessions(RemoveUser(old(State()), rid, me), rid, me, ends), rid,
                      old(rooms[rid].users[me]).owner, State())
    {
      hide OrderOfEnds, Settles, EndSessions, EndsAreMembers;
      var user := rooms[rid].users[me];
      ends := Leave(rid, me);
      hide RemoveUser;
      Settle(rid, user.owner);
    }

    /** What a disconnect finds, also after an event of the client failed halfway. */
    lemma LeaverFacts(rid: string, me: Xid)
      requires BaseBut(State(), me)
      ensures rid in rooms ==>
                && rooms[rid].id == rid && EndsAreMembers(rooms[rid].State())
                && (forall u | u in rooms[rid].users :: rooms[rid].users[u].id == u)
                && State().rooms[rid] == rooms[rid].State()
    {
      hide Sharing, SharingBut, EndsAreMembers, HasOwner, AtMostOneOwner;
      if rid in rooms {
        assert RoomStates()[rid] == rooms[rid].State();
        assert RoomOkBut(rid, RoomStates()[rid], me);
      }
    }

    /** The Disconnected event, and the rollback of an event that failed. */
    method Disconnect(me: Xid, code: int, reason: string)
      requires Valid() && BaseBut(State(), me)
      modifies this, server, rooms.Values
      ensures Valid() && rooms.Values <= old(rooms.Values)
      ensures Disconnects(old(State()), me, code, reason, State())
    {
      hide BaseBut, EndsAreMembers, OrderOfEnds, Settles, EndSessions, RemoveUser;
      ghost var w := State();
      var roomID := if me in connected then connected[me] else "";
      LeaverFacts(roomID, me);
      connected := connected - {me};
      WriteTimeout(me, CloseWriter(code, reason));
      ghost var w1 := State();
      assert w1 == Forget(w, me, code, reason);
      if roomID == "" || roomID !in rooms || me !in rooms[roomID].users {
        return;
      }
      ghost var ends := Remove(roomID, me);
      hide Valid, Post;
      assert DisconnectsWith(w, roomID, me, code, reason, ends, State());
    }

    // ---------- The event loop ----------

    method Execute(info: ClientInfo, e: Event, reply: Reply) returns (error: Option<string>)
      requires Valid() && Base(State())
      modifies this, server, rooms.Values
      ensures Valid() && fresh(rooms.Values - old(rooms.Values))
      ensures Executes(old(State()), info, e, Outcome(State(), error, reply))
      ensures error == Refusal(old(State()), info, e, reply)
    {
      hide Base, Creates, Joins, StartsShare, StopsShare, Renames, Relays, Disconnects;
      error := None;
      match e {
        case Connected =>
          connected := connected[info.id := ""];
          used := used + {info.id};
        case Create(_, _, _, _, _) => error := Create(info, e, reply);
        case Join(id, userName) => error := Join(info, id, userName, reply);
        case StartShare => error := StartShare(info.id, reply);
        case StopShare => error := StopShare(info.id, reply);
        case Name(userName) => error := Name(info.id, userName, reply);
        case Relay(kind, sid, value) => error := Relay(info.id, kind, sid, value, reply);
        case Disconnected(code, reason) =>
          StillBase(info.id);
          Disconnect(info.id, code, reason);
      }
      ExecuteFails(old(State()), info, e, Outcome(State(), error, reply));
    }

    lemma StillBase(me: Xid)
      requires Base(State())
      ensures BaseBut(State(), me)
    {
      BaseWeaken(State(), me);
    }

    /** One message: messages of unknown clients are dropped, and a client whose event fails is disconnected. */
    method Dispatch(m: ClientMessage)
      requires Valid() && Base(State()) && Arrives(State(), m)
      modifies this, server, rooms.Values
      ensures Valid() && fresh(rooms.Values - old(rooms.Values))
      ensures Next(old(State()), m, State()) && Base(State())
    {
      hide Base, BaseBut, Executes, Disconnects;
      ghost var w := State();
      if !m.skipConnectedCheck && m.info.id !in connected {
        return;
      }
      KnownSender(w, m);
      var error := Execute(m.info, m.event, m.reply);
      ghost var o := Outcome(State(), error, m.reply);
      ExecuteBase(w, m.info, m.event, o);
      if error.Some? {
        Disconnect(m.info.id, NORMAL_CLOSURE, error.value);
      }
      assert Completes(o, m.info.id, State());
      hide Completes, Valid, Arrives;
      assert Next(w, m, State());
      NextKeepsBase(w, m, State());
    }

    /** The message that an input puts in the incoming channel: a new connection announces itself under a fresh id. */
    method Receive(input: Input) returns (m: ClientMessage)
      requires input.FromClient? ==> !input.event.Connected?
      ensures Arrives(State(), m)
      ensures m.reply == input.reply
      ensures input.FromClient? ==> m.info == input.info && m.event == input.event
    {
      match input {
        case NewConnection(authenticated, user, addr, reply) =>
          FreshExists(used);
          var id :| id !in used;
          m := ClientMessage(ClientInfo(id, authenticated, user, addr), true, Connected, reply);
        case FromClient(info, event, reply) =>
          m := ClientMessage(info, false, event, reply);
      }
    }

    /** The event loop. Its states, one after each message, form a run. */
    method Start(inputs: seq<Input>) returns (ghost ms: seq<ClientMessage>, ghost ws: seq<World>)
      requires Valid() && State() == Init(authMode) && rooms == map[]
      requires forall i | 0 <= i < |inputs| :: inputs[i].FromClient? ==> !inputs[i].event.Connected?
      modifies this, server
      ensures |ms| == |inputs| && IsRun(authMode, ms, ws) && ws[|ms|] == State() && Base(State())
    {
      hide Base, Next, Arrives, Valid;
      ms, ws := [], [State()];
      InitBase(authMode);
      for i := 0 to |inputs|
        invariant Valid() && Base(State()) && fresh(rooms.Values)
        invariant |ms| == i && IsRun(authMode, ms, ws) && ws[i] == State()
      {
        var m := Receive(inputs[i]);
        ghost var w := State();
        Dispatch(m);
        RunExtend(authMode, ms, ws, m, State());
        ms, ws := ms + [m], ws + [State()];
      }
    }
  }

  /**
   * What reaches the server: a new connection, or a message decoded from what a client sent; and what the IP
   * provider replies, if it is asked meanwhile.
   */
  datatype Input =
    | NewConnection(authenticated: bool, user: string, addr: Ip, reply: Reply)
    | FromClient(info: ClientInfo, event: Event, reply: Reply)

  /** All sessions of a room were ended; what is left of the room is `closed`. */
  function Cleared(w: World, rid: string, closed: RoomState): World
    requires rid in w.rooms
  {
    var room := w.rooms[rid];
    w.(rooms := w.rooms[rid := closed],
       lookup := if room.mode.Turn? then w.lookup - KeysOf(room.sessions.Keys) else w.lookup,
       stats := w.stats.(usersLeft := w.stats.usersLeft + |room.users|,
                         sessionsClosed := w.stats.sessionsClosed + |room.sessions|))
  }

  function Dropped(w: World, rid: string): World {
    w.(rooms := w.rooms - {rid}, stats := w.stats.(roomsClosed := w.stats.roomsClosed + 1))
  }

  lemma ClearedParts(w: World, rid: string, closed: RoomState, w': World)
    requires rid in w.rooms && w' == w.(rooms := w.rooms[rid := closed], lookup := w'.lookup, stats := w'.stats)
    requires w'.stats == Cleared(w, rid, closed).stats && w'.lookup == Cleared(w, rid, closed).lookup
    ensures w' == Cleared(w, rid, closed)
  {
  }

  lemma ClearedDropped(w: World, rid: string, closed: RoomState)
    requires rid in w.rooms
    ensures Dropped(Cleared(w, rid, closed), rid) == Spec.CloseRoom(w, rid)
  {
    assert w.rooms[rid := closed] - {rid} == w.rooms - {rid};
  }

  lemma NoKeys(lookup: map<string, Entry>)
    ensures Elements([]) == {} && lookup - KeysOf({}) == lookup
  {
    assert KeysOf({}) == {};
  }

  lemma OpensNothing(v: World, rid: string, pairs: set<(Xid, Xid)>, reply: Reply)
    requires rid in v.rooms && reply.error.Some?
    ensures OpensSessions(v, rid, pairs, Outcome(v, reply.error, reply))
  {
  }

  lemma OpensAny(v: World, rid: string, pairs: set<(Xid, Xid)>, plan: seq<Pairing>, reply: Reply, v': World)
    requires rid in v.rooms && reply.error.None? && Opens(v, rid, pairs, plan, reply.At(), v')
    ensures OpensSessions(v, rid, pairs, Done(v', reply))
  {
  }

  lemma Overwrite(rid: string, before: RoomState, after: RoomState)
    ensures map[rid := before][rid := after] == map[rid := after]
  {
  }

  lemma AnyLists(v: World, rid: string, lists: map<Xid, seq<Member>>, v': World)
    requires rid in v.rooms && ListingsFor(v.rooms[rid].users, lists)
    requires v' == SendLists(v, rid, lists)
    ensures Notified(v, rid, v')
  {
  }

  /** The sessions of `me` that are no longer to do were ended, each once. */
  ghost predicate Ended(all: map<Xid, RoomSession>, todo: set<Xid>, me: Xid, leaving: bool, ends: seq<Xid>) {
    && (forall s :: s in ends <==> s in all && s !in todo && IsEnd(all[s], me, leaving))
    && (forall i, j | 0 <= i < j < |ends| :: ends[i] != ends[j])
  }

  predicate IsEnd(s: RoomSession, me: Xid, leaving: bool) {
    s.host == me || (leaving && s.client == me)
  }

  lemma EndedNone(all: map<Xid, RoomSession>, me: Xid, leaving: bool)
    ensures Ended(all, all.Keys, me, leaving, [])
  {
  }

  lemma EndedAll(all: map<Xid, RoomSession>, me: Xid, leaving: bool, ends: seq<Xid>)
    requires Ended(all, {}, me, leaving, ends)
    ensures OrderOfEnds(all, me, leaving, ends)
  {
  }

  /** A session still to do is as it was; ending it, if it is one of `me`, is the next step. */
  lemma Remaining(v: World, rid: string, me: Xid, leaving: bool, ends: seq<Xid>, todo: set<Xid>, sid: Xid)
    requires rid in v.rooms && Ended(v.rooms[rid].sessions, todo, me, leaving, ends)
    requires sid in todo && todo <= v.rooms[rid].sessions.Keys
    ensures
      var all := v.rooms[rid].sessions;
      && (forall s | s in ends :: s in all)
      && rid in EndSessions(v, rid, me, ends).rooms
      && sid in EndSessions(v, rid, me, ends).rooms[rid].sessions
      && EndSessions(v, rid, me, ends).rooms[rid].sessions[sid] == all[sid]
      && (forall s | s in ends + [sid] :: s in all)
      && Ended(all, todo - {sid}, me, leaving, if IsEnd(all[sid], me, leaving) then ends + [sid] else ends)
  {
  }

  lemma NextSession(v: World, rid: string, served: set<(Xid, Xid)>, plan: seq<Pairing>, p: Pairing, at: Addresses)
    requires rid in v.rooms && PlanFor(v.used, served, plan) && (p.host, p.client) !in served
    requires p.sid !in NewSessions(v, rid, plan, at).used
    ensures rid in NewSessions(v, rid, plan, at).rooms
    ensures NewSessions(NewSessions(v, rid, plan, at), rid, [p], at) == NewSessions(v, rid, plan + [p], at)
    ensures PlanFor(v.used, served + {(p.host, p.client)}, plan + [p])
  {
    hide PlanFor, PlanTable, PlanLookup, PlanOut;
    NewSessionsSnoc(v, rid, plan, p, at);
    PlanForSnoc(v, served, plan, p);
  }

  /** A plan with a single item, spelled out. */
  lemma OutOfOne(out: map<Xid, seq<Message>>, mode: ConnectionMode, p: Pairing, at: Addresses)
    ensures PlanOut(out, mode, [p], at) ==
            Post(Post(out, p.host, HostSession(p.sid, p.client, Ice(mode, at, HostKey(p.sid), p.hostPassword))),
                 p.client, ClientSession(p.sid, p.host, Ice(mode, at, ClientKey(p.sid), p.clientPassword)))
  {
    assert [p][..0] == [];
  }

  lemma TableOfOne(sessions: map<Xid, RoomSession>, p: Pairing)
    ensures sessions + PlanTable([p]) == sessions[p.sid := RoomSession(p.host, p.client)]
    ensures PlanTable([p]).Keys == {p.sid}
  {
    PlanOne(p);
  }
}
