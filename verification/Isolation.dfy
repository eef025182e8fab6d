/** What an event cannot touch: other rooms, departed clients, and where the rooms that exist come from. */
module Isolation {
  import opened Types
  import opened Spec
  import opened Invariants
  import opened RoomProofs
  import opened BaseProofs

  /** All rooms but `rid` are the same, and nobody but `me` (and, if `rid` closed, its users) left the index. */
  ghost predicate OnlyRoom(w: World, rid: string, w': World) {
    && w'.authMode == w.authMode
    && w.used <= w'.used
    && (forall r | r != rid :: r in w'.rooms <==> r in w.rooms)
    && (forall r | r != rid && r in w.rooms :: w'.rooms[r] == w.rooms[r])
  }

  /** A room keeps its identity and the record of its creator. */
  predicate SameOrigin(a: RoomState, b: RoomState) {
    a.id == b.id && a.mode == b.mode && a.closeOnOwnerLeave == b.closeOnOwnerLeave &&
    a.creatorAuthenticated == b.creatorAuthenticated
  }

  /** The room has the id, the mode, the closing rule and the login record of a create message. */
  predicate CreatedBy(info: ClientInfo, e: Event, r: string, room: RoomState) {
    && e.Create? && e.id == r && e.mode == room.mode && e.closeOnOwnerLeave == room.closeOnOwnerLeave
    && info.authenticated == room.creatorAuthenticated
  }

  ghost predicate KeepsOrigin(w: World, rid: string, w': World) {
    rid in w.rooms && rid in w'.rooms ==> SameOrigin(w.rooms[rid], w'.rooms[rid])
  }

  /** The room an event of a client can touch. */
  function Concerned(w: World, me: Xid, e: Event): string {
    if Where(w, me) == "" && (e.Create? || e.Join?) then e.id else Where(w, me)
  }

  lemma NotifiedOnlyOut(w: World, rid: string, w': World)
    requires rid in w.rooms && Notified(w, rid, w')
    ensures w' == w.(out := w'.out)
  {
  }

  lemma OpensFrame(w: World, rid: string, pairs: set<(Xid, Xid)>, o: Outcome)
    requires rid in w.rooms && OpensSessions(w, rid, pairs, o)
    ensures OnlyRoom(w, rid, o.world) && rid in o.world.rooms && SameOrigin(w.rooms[rid], o.world.rooms[rid])
    ensures o.world.connected == w.connected
    ensures o.world.rooms[rid] == w.rooms[rid].(sessions := o.world.rooms[rid].sessions)
    ensures w.stats == o.world.stats.(sessionsCreated := w.stats.sessionsCreated)
  {
    hide PlanFor;
  }

  lemma JoinFrame(w: World, info: ClientInfo, id: string, asked: string, o: Outcome)
    requires Joins(w, info, id, asked, o) && info.id in w.connected
    ensures Where(w, info.id) == "" ==>
              OnlyRoom(w, id, o.world) && KeepsOrigin(w, id, o.world) && (id in o.world.rooms <==> id in w.rooms)
    ensures Where(w, info.id) != "" ==> o.world == w
    ensures o.world.connected.Keys == w.connected.Keys
    ensures o.error.Some? ==>
              Where(o.world, info.id) == if Where(w, info.id) == "" && id in w.rooms then id else Where(w, info.id)
  {
    hide OpensSessions, Notified;
    if Where(w, info.id) == "" && id in w.rooms {
      var name, w1 :| JoinsAs(w, info, id, asked, name, w1, o);
      var entered := Enter(w, id, User(info.id, info.addr, name, false, false));
      NotifiedOnlyOut(entered, id, w1);
      OpensFrame(w1, id, PairsOnJoin(w1.rooms[id].users, info.id), o);
    }
  }

  lemma CreateFrame(w: World, info: ClientInfo, e: Event, o: Outcome)
    requires e.Create? && Creates(w, info, e, o) && info.id in w.connected
    ensures if Where(w, info.id) == "" then OnlyRoom(w, e.id, o.world) && KeepsOrigin(w, e.id, o.world)
            else o.world == w
    ensures e.id in w.rooms ==> e.id in o.world.rooms
    ensures Where(w, info.id) == "" && e.id !in w.rooms && e.id in o.world.rooms ==>
              CreatedBy(info, e, e.id, o.world.rooms[e.id])
    ensures o.world.connected.Keys == w.connected.Keys
    ensures o.error.Some? ==> Where(o.world, info.id) == Where(w, info.id) ||
                              (Where(w, info.id) == "" && Where(o.world, info.id) == e.id)
  {
    hide Joins, Notified;
    if Where(w, info.id) == "" {
      if e.id in w.rooms {
        if e.joinIfExist {
          JoinFrame(w, info, e.id, e.userName, o);
        }
      } else if CreateRefused(w.authMode, info, e.mode).None? {
        var name :| NameFor(info, e.userName, name) && Notified(OpenRoom(w, info, e, name), e.id, o.world);
        NotifiedOnlyOut(OpenRoom(w, info, e, name), e.id, o.world);
      }
    }
  }

  lemma ShareFrame(w: World, me: Xid, o: Outcome)
    requires StartsShare(w, me, o)
    ensures OnlyRoom(w, Where(w, me), o.world) && KeepsOrigin(w, Where(w, me), o.world)
    ensures o.world.rooms.Keys == w.rooms.Keys && o.world.connected == w.connected
  {
    hide OpensSessions, Notified;
    if InRoom(w, me) {
      var rid := w.connected[me];
      var o1 :| SharesAs(w, rid, me, o1, o);
      var w1 := UpdateUser(w, rid, w.rooms[rid].users[me].(streaming := true));
      OpensFrame(w1, rid, PairsOnShare(w1.rooms[rid].users, me), o1);
      if o.error.None? {
        NotifiedOnlyOut(o1.world, rid, o.world);
      }
    }
  }

  lemma StopFrame(w: World, me: Xid, o: Outcome)
    requires StopsShare(w, me, o)
    ensures OnlyRoom(w, Where(w, me), o.world) && KeepsOrigin(w, Where(w, me), o.world)
    ensures o.world.rooms.Keys == w.rooms.Keys && o.world.connected == w.connected
  {
    hide OrderOfEnds, Notified;
    if InRoom(w, me) {
      var rid := w.connected[me];
      var ends :| StopsWith(w, rid, me, ends, o.world);
      OrderIsOrder(w.rooms[rid].sessions, me, false, ends);
      var w1 := UpdateUser(w, rid, w.rooms[rid].users[me].(streaming := false));
      NotifiedOnlyOut(EndSessions(w1, rid, me, ends), rid, o.world);
    }
  }

  lemma RenameFrame(w: World, me: Xid, name: string, o: Outcome)
    requires Renames(w, me, name, o)
    ensures OnlyRoom(w, Where(w, me), o.world) && KeepsOrigin(w, Where(w, me), o.world)
    ensures o.world.rooms.Keys == w.rooms.Keys && o.world.connected == w.connected
  {
    hide Notified;
    if InRoom(w, me) {
      var rid := w.connected[me];
      NotifiedOnlyOut(UpdateUser(w, rid, w.rooms[rid].users[me].(name := name)), rid, o.world);
    }
  }

  lemma SettleFrame(w: World, rid: string, ownerLeft: bool, w': World)
    requires rid in w.rooms && Settles(w, rid, ownerLeft, w')
    ensures OnlyRoom(w, rid, w') && KeepsOrigin(w, rid, w')
    ensures w'.connected.Keys <= w.connected.Keys && w'.rooms.Keys <= w.rooms.Keys
  {
    hide Notified, KeysOf, PostAll;
    if !(ownerLeft && w.rooms[rid].closeOnOwnerLeave) && w.rooms[rid].users != map[] {
      NotifiedOnlyOut(w, rid, w');
    } else {
      DropFrame(w, rid, w');
      hide OnlyRoom, KeepsOrigin;
    }
  }

  lemma DropFrame(w: World, rid: string, w': World)
    requires w'.rooms == w.rooms - {rid} && w'.authMode == w.authMode && w'.used == w.used
    ensures OnlyRoom(w, rid, w') && KeepsOrigin(w, rid, w')
  {
  }

  lemma DisconnectFrame(w: World, me: Xid, code: int, reason: string, w': World)
    requires Disconnects(w, me, code, reason, w')
    ensures OnlyRoom(w, Where(w, me), w') && KeepsOrigin(w, Where(w, me), w')
    ensures w'.connected.Keys <= w.connected.Keys - {me} && w'.rooms.Keys <= w.rooms.Keys
    ensures Where(w, me) == "" ==> w'.rooms == w.rooms
  {
    hide OrderOfEnds, Settles;
    var rid := Where(w, me);
    if rid != "" && rid in w.rooms && me in w.rooms[rid].users {
      var ends :| DisconnectsWith(w, rid, me, code, reason, ends, w');
      OrderIsOrder(w.rooms[rid].sessions, me, true, ends);
      var w3 := EndSessions(RemoveUser(Forget(w, me, code, reason), rid, me), rid, me, ends);
      SettleFrame(w3, rid, w.rooms[rid].users[me].owner, w');
    }
  }

  lemma ExecuteFrame(w: World, info: ClientInfo, e: Event, o: Outcome)
    requires Executes(w, info, e, o) && (e.Connected? || info.id in w.connected)
    ensures
      var rid := Concerned(w, info.id, e);
      && OnlyRoom(w, rid, o.world) && KeepsOrigin(w, rid, o.world)
      && (rid in o.world.rooms && rid !in w.rooms ==>
            CreatedBy(info, e, rid, o.world.rooms[rid]))
      && o.world.connected.Keys <= w.connected.Keys + (if e.Connected? then {info.id} else {})
      && (o.error.Some? ==> Where(o.world, info.id) == rid || Where(o.world, info.id) == "" || o.world == w)
      && ("" in w.rooms ==> "" in o.world.rooms)
  {
    hide Creates, Joins, StartsShare, StopsShare, Renames, Disconnects, OnlyRoom, KeepsOrigin;
    OnlyRoomReflexive(w, Concerned(w, info.id, e));
    match e
    case Connected => ConnectFrame(w, info.id);
    case Create(_, _, _, _, _) => CreateFrame(w, info, e, o); NamelessKept(w, e.id, o.world);
    case Join(id, userName) => JoinFrame(w, info, id, userName, o); NamelessKept(w, id, o.world);
    case StartShare => ShareFrame(w, info.id, o); NamelessKept(w, Where(w, info.id), o.world);
    case StopShare => StopFrame(w, info.id, o); NamelessKept(w, Where(w, info.id), o.world);
    case Name(userName) => RenameFrame(w, info.id, userName, o); NamelessKept(w, Where(w, info.id), o.world);
    case Relay(kind, sid, value) => RelayFrame(w, info.id, kind, sid, value, o);
    case Disconnected(code, reason) =>
      DisconnectFrame(w, info.id, code, reason, o.world);
      NamelessKept(w, Where(w, info.id), o.world);
  }

  lemma OnlyRoomReflexive(w: World, rid: string)
    ensures OnlyRoom(w, rid, w) && KeepsOrigin(w, rid, w)
  {
  }

  lemma NamelessKept(w: World, rid: string, w': World)
    requires OnlyRoom(w, rid, w')
    ensures rid != "" && "" in w.rooms ==> "" in w'.rooms
  {
  }

  lemma ConnectFrame(w: World, me: Xid)
    ensures
      var v := w.(connected := w.connected[me := ""], used := w.used + {me});
      OnlyRoom(w, Where(w, me), v) && KeepsOrigin(w, Where(w, me), v)
  {
  }

  lemma RelayFrame(w: World, me: Xid, kind: RelayKind, sid: Xid, value: string, o: Outcome)
    requires Relays(w, me, kind, sid, value, o)
    ensures OnlyRoom(w, Where(w, me), o.world) && KeepsOrigin(w, Where(w, me), o.world)
    ensures o.world.rooms == w.rooms && o.world.connected == w.connected
  {
  }

  /**
   * An event touches at most one room: the one its sender is in or, if it is in none, the one it asks to
   * enter. All other rooms, their users, sessions and owners are exactly as before, even if the event fails.
   */
  lemma NextTouchesOneRoom(w: World, m: ClientMessage, w': World)
    requires Next(w, m, w') && (m.skipConnectedCheck ==> m.event.Connected? && m.info.id !in w.connected)
    ensures OnlyRoom(w, Concerned(w, m.info.id, m.event), w') && KeepsOrigin(w, Concerned(w, m.info.id, m.event), w')
    ensures "" in w.rooms ==> "" in w'.rooms
    ensures w'.connected.Keys <= w.connected.Keys + (if m.event.Connected? then {m.info.id} else {})
    ensures forall r | r in w'.rooms && r !in w.rooms :: CreatedBy(m.info, m.event, r, w'.rooms[r])
  {
    var rid := Concerned(w, m.info.id, m.event);
    if m.skipConnectedCheck || m.info.id in w.connected {
      var o :| Executes(w, m.info, m.event, o) && o.reply == m.reply && Completes(o, m.info.id, w');
      ExecuteFrame(w, m.info, m.event, o);
      if o.error.Some? {
        DisconnectFrame(o.world, m.info.id, NORMAL_CLOSURE, o.error.value, w');
        hide Executes, Disconnects, OnlyRoom, KeepsOrigin;
        Rollback(w, m.info.id, m.event, o.world, w');
        Origins(w, rid, o.world, w');
      } else {
        hide Executes, OnlyRoom;
        Origins(w, rid, o.world, w');
      }
    } else {
      OnlyRoomReflexive(w, rid);
    }
  }

  /** The rollback of a failed event stays in the room the event concerned. */
  lemma Rollback(w: World, me: Xid, e: Event, u: World, w': World)
    requires
      var rid := Concerned(w, me, e);
      && OnlyRoom(w, rid, u) && KeepsOrigin(w, rid, u)
      && (Where(u, me) == rid || Where(u, me) == "" || u == w)
    requires OnlyRoom(u, Where(u, me), w') && KeepsOrigin(u, Where(u, me), w') && w'.rooms.Keys <= u.rooms.Keys
    requires Where(u, me) == "" ==> w'.rooms == u.rooms
    requires "" in w.rooms ==> "" in u.rooms
    ensures OnlyRoom(w, Concerned(w, me, e), w') && KeepsOrigin(w, Concerned(w, me, e), w')
    ensures "" in w.rooms ==> "" in w'.rooms
    ensures KeepsOrigin(u, Concerned(w, me, e), w')
  {
  }

  /** Where a room that was not there before comes from. */
  lemma Origins(w: World, rid: string, u: World, w': World)
    requires OnlyRoom(w, rid, w') && w'.rooms.Keys <= u.rooms.Keys && KeepsOrigin(u, rid, w')
    ensures forall r | r in w'.rooms && r !in w.rooms ::
              r == rid && r in u.rooms && SameOrigin(u.rooms[r], w'.rooms[r])
  {
  }

  lemma GoneAfterOne(w: World, m: ClientMessage, w': World, c: Xid)
    requires Base(w) && Arrives(w, m) && Next(w, m, w')
    requires c in w.used && c !in w.connected
    ensures c in w'.used && c !in w'.connected
  {
    hide Next, Base, KeepsOrigin, Concerned;
    ArrivesFresh(w, m);
    NextTouchesOneRoom(w, m, w');
  }

  /** A client that is gone stays gone: its id never re-enters the index. */
  lemma {:induction false} GoneStaysGone(authMode: AuthMode, ms: seq<ClientMessage>, ws: seq<World>, c: Xid,
                                         i: nat, j: nat)
    requires IsRun(authMode, ms, ws) && i <= j < |ws|
    requires c in ws[i].used && c !in ws[i].connected
    ensures c in ws[j].used && c !in ws[j].connected
  {
    hide Next, Base, Arrives, OnlyRoom, KeepsOrigin;
    if i < j {
      GoneStaysGone(authMode, ms, ws, c, i, j - 1);
      RunsKeepBase(authMode, ms, ws, j - 1);
      GoneAfterOne(ws[j - 1], ms[j - 1], ws[j], c);
    }
  }

  lemma ArrivesFresh(w: World, m: ClientMessage)
    requires Base(w) && Arrives(w, m)
    ensures w.connected.Keys <= w.used
    ensures m.skipConnectedCheck ==> m.event.Connected? && m.info.id !in w.connected && m.info.id !in w.used
  {
    hide RoomsOk, Indexed, Ledger, CreatorsOk;
  }

  /**
   * Message `j` of the run made the room `r` of state `i`: there was no such room before it, there was one in
   * every state since, and what the message asked for is what the room is.
   */
  predicate MadeBy(ms: seq<ClientMessage>, ws: seq<World>, r: string, j: nat, i: nat)
    requires j < i < |ws| && j < |ms| && r in ws[i].rooms
  {
    && r !in ws[j].rooms && CreatedBy(ms[j].info, ms[j].event, r, ws[i].rooms[r])
    && forall k | j < k <= i :: r in ws[k].rooms
  }

  /** Every room that exists was made by a create message, and is still as that message asked. */
  lemma {:induction false} RoomHasCreator(authMode: AuthMode, ms: seq<ClientMessage>, ws: seq<World>, i: nat, r: string)
    returns (j: nat)
    requires IsRun(authMode, ms, ws) && i < |ws| && r in ws[i].rooms
    ensures j < i && MadeBy(ms, ws, r, j, i)
  {
    hide Next, Base, Arrives, SameOrigin;
    RunsKeepBase(authMode, ms, ws, i - 1);
    CreatorKept(ws[i - 1], ms[i - 1], ws[i], r);
    if r in ws[i - 1].rooms {
      j := RoomHasCreator(authMode, ms, ws, i - 1, r);
      SameCreator(ms[j], r, ws[i - 1].rooms[r], ws[i].rooms[r]);
    } else {
      j := i - 1;
    }
  }

  lemma SameCreator(m: ClientMessage, r: string, a: RoomState, b: RoomState)
    requires CreatedBy(m.info, m.event, r, a) && SameOrigin(a, b)
    ensures CreatedBy(m.info, m.event, r, b)
  {
  }

  lemma CreatorKept(w: World, m: ClientMessage, w': World, r: string)
    requires Base(w) && Arrives(w, m) && Next(w, m, w') && r in w'.rooms
    ensures if r in w.rooms then SameOrigin(w.rooms[r], w'.rooms[r]) else CreatedBy(m.info, m.event, r, w'.rooms[r])
  {
    ArrivesFresh(w, m);
    hide Next, Base, Concerned, CreatedBy;
    NextTouchesOneRoom(w, m, w');
  }

  lemma {:induction false} ModeIsFixed(authMode: AuthMode, ms: seq<ClientMessage>, ws: seq<World>, i: nat)
    requires IsRun(authMode, ms, ws) && i < |ws|
    ensures ws[i].authMode == authMode
  {
    hide Next, Base, Arrives;
    if i > 0 {
      ModeIsFixed(authMode, ms, ws, i - 1);
      RunsKeepBase(authMode, ms, ws, i - 1);
      ModeKept(ws[i - 1], ms[i - 1], ws[i]);
    }
  }

  lemma ModeKept(w: World, m: ClientMessage, w': World)
    requires Base(w) && Arrives(w, m) && Next(w, m, w')
    ensures w'.authMode == w.authMode
  {
    ArrivesFresh(w, m);
    hide Next, Base, Concerned, KeepsOrigin;
    NextTouchesOneRoom(w, m, w');
  }

  /** The room `r` of state `i` was made by a message of a logged-in client. */
  ghost predicate MadeByLogin(ms: seq<ClientMessage>, ws: seq<World>, r: string, i: nat)
    requires i < |ws| && i <= |ms| && r in ws[i].rooms
  {
    exists j: nat :: j < i && MadeBy(ms, ws, r, j, i) && ms[j].info.authenticated
  }

  /**
   * The login policy over whole runs. With "all", every existing room was made by a logged-in client; with
   * "turn", every room that is neither STUN nor local was; so whoever holds TURN credentials does so in a room
   * that a logged-in client made.
   */
  lemma LoginPolicy(authMode: AuthMode, ms: seq<ClientMessage>, ws: seq<World>, i: nat)
    requires IsRun(authMode, ms, ws) && i < |ws|
    ensures authMode.AuthAll? ==> forall r | r in ws[i].rooms :: MadeByLogin(ms, ws, r, i)
    ensures authMode.AuthTurn? ==>
              forall r | r in ws[i].rooms && !ws[i].rooms[r].mode.Stun? && !ws[i].rooms[r].mode.Local? ::
              MadeByLogin(ms, ws, r, i)
    ensures !authMode.AuthNone? && ws[i].lookup != map[] ==>
              exists r :: r in ws[i].rooms && ws[i].rooms[r].mode.Turn? && ws[i].rooms[r].sessions != map[] &&
                          MadeByLogin(ms, ws, r, i)
    ensures authMode.OtherAuth? ==> ws[i].rooms == map[]
  {
    hide Next, Arrives, Indexed, RoomsOk, SidsOk, ClientIdsOk, SessionsCounted, RoomsCounted, LookupOk, MadeByLogin;
    RunsKeepBase(authMode, ms, ws, i);
    ModeIsFixed(authMode, ms, ws, i);
    var w := ws[i];
    assert CreatorsOk(authMode, w.rooms);
    forall r | r in w.rooms && w.rooms[r].creatorAuthenticated
      ensures MadeByLogin(ms, ws, r, i)
    {
      LoginOnRecord(authMode, ms, ws, i, r);
    }
    if w.lookup != map[] {
      SomeTurnSession(w);
    }
    if authMode.OtherAuth? {
      assert forall r :: r !in w.rooms;
    }
  }

  lemma LoginOnRecord(authMode: AuthMode, ms: seq<ClientMessage>, ws: seq<World>, i: nat, r: string)
    requires IsRun(authMode, ms, ws) && i < |ws| && r in ws[i].rooms && ws[i].rooms[r].creatorAuthenticated
    ensures MadeByLogin(ms, ws, r, i)
  {
    hide Next, Arrives;
    var j := RoomHasCreator(authMode, ms, ws, i, r);
  }

  lemma SomeTurnSession(w: World)
    requires LookupOk(w.lookup, w.rooms) && w.lookup != map[]
    ensures exists r :: r in w.rooms && w.rooms[r].mode.Turn? && w.rooms[r].sessions != map[]
  {
    var k :| k in w.lookup;
    assert k in KeysOf(TurnSids(w.rooms));
    var s :| s in TurnSids(w.rooms);
    var r :| r in w.rooms && w.rooms[r].mode.Turn? && s in w.rooms[r].sessions;
  }

  // ---------- The owner leaves ----------

  /** The counters after a room closed with all its users and sessions. */
  function CountedOut(stats: Counters, room: RoomState): Counters {
    stats.(roomsClosed := stats.roomsClosed + 1, usersLeft := stats.usersLeft + |room.users|,
           sessionsClosed := stats.sessionsClosed + |room.sessions|)
  }

  /** The room of `me`, with all its users, sessions and keys, is gone from `w'`, and nothing else is. */
  ghost predicate RoomGone(w: World, me: Xid, w': World) {
    && me in w.connected && w.connected[me] in w.rooms
    && var rid := w.connected[me];
       var room := w.rooms[rid];
       w' == w.(rooms := w.rooms - {rid},
                connected := w.connected - room.users.Keys,
                lookup := w.lookup - KeysOf(room.sessions.Keys),
                stats := CountedOut(w.stats, room),
                out := w'.out)
  }

  /** `me` owns its room, which closes when its owner leaves. */
  predicate OwnsClosing(w: World, me: Xid) {
    && me in w.connected && w.connected[me] != "" && w.connected[me] in w.rooms
    && var room := w.rooms[w.connected[me]];
       me in room.users && room.users[me].owner && room.closeOnOwnerLeave
  }

  /**
   * When the owner of a room that closes with its owner disconnects, nothing of the room survives: neither
   * the room, nor any of its users in the index, nor any of its keys; and no other client is disconnected.
   * This holds also when an event of the owner had failed halfway.
   */
  lemma OwnerTakesRoomAlong(w: World, me: Xid, code: int, reason: string, w': World)
    requires BaseBut(w, me) && OwnsClosing(w, me) && Disconnects(w, me, code, reason, w')
    ensures RoomGone(w, me, w')
  {
    hide RoomsOk, RoomsOkBut, Indexed, SidsOk, LookupOk, ClientIdsOk, CreatorsOk, SessionsCounted, RoomsCounted,
         Settles, OrderOfEnds, KeysOf;
    var rid := w.connected[me];
    DisconnectBase(w, me, code, reason, w');
    RoomAndUsersGone(w, me, code, reason, w');
    DisconnectFewer(w, me, code, reason, w');
    hide Disconnects;
    KeysGone(w.lookup, w.rooms, w.used, rid, w'.lookup);
  }

  /** Some entries may be missing from `after`; those that are left are as in `before`. */
  ghost predicate OnlyFewer(before: map<string, Entry>, after: map<string, Entry>) {
    forall k | k in after :: k in before && after[k] == before[k]
  }

  lemma SettleFewer(w: World, rid: string, ownerLeft: bool, w': World)
    requires rid in w.rooms && Settles(w, rid, ownerLeft, w')
    ensures OnlyFewer(w.lookup, w'.lookup)
  {
    hide KeysOf, ListingsFor, PostAll;
  }

  /** A disconnect adds nothing to the credential table and changes none of its entries. */
  lemma DisconnectFewer(w: World, me: Xid, code: int, reason: string, w': World)
    requires Disconnects(w, me, code, reason, w')
    ensures OnlyFewer(w.lookup, w'.lookup)
  {
    hide OrderOfEnds, KeysOf, Settles, EndOut;
    var rid := Where(w, me);
    if rid != "" && rid in w.rooms && me in w.rooms[rid].users {
      var ends :| DisconnectsWith(w, rid, me, code, reason, ends, w');
      OrderIsOrder(w.rooms[rid].sessions, me, true, ends);
      SettleFewer(EndSessions(RemoveUser(Forget(w, me, code, reason), rid, me), rid, me, ends), rid,
                  w.rooms[rid].users[me].owner, w');
    }
  }

  lemma RoomAndUsersGone(w: World, me: Xid, code: int, reason: string, w': World)
    requires OwnsClosing(w, me) && Disconnects(w, me, code, reason, w')
    ensures
      var room := w.rooms[w.connected[me]];
      w' == w.(rooms := w.rooms - {w.connected[me]}, connected := w.connected - room.users.Keys,
               lookup := w'.lookup, stats := CountedOut(w.stats, room), out := w'.out)
  {
    hide Settles, OrderOfEnds;
    var rid := w.connected[me];
    var ends :| DisconnectsWith(w, rid, me, code, reason, ends, w');
    OrderIsOrder(w.rooms[rid].sessions, me, true, ends);
    EveryoneGone(w, rid, me, code, reason, ends, w');
  }

  lemma EveryoneGone(w: World, rid: string, me: Xid, code: int, reason: string, ends: seq<Xid>, w': World)
    requires rid in w.rooms && me in w.rooms[rid].users
    requires w.rooms[rid].users[me].owner && w.rooms[rid].closeOnOwnerLeave
    requires DistinctIds(ends) && (forall s | s in ends :: s in w.rooms[rid].sessions)
    requires Settles(EndSessions(RemoveUser(Forget(w, me, code, reason), rid, me), rid, me, ends), rid, true, w')
    ensures w' == w.(rooms := w.rooms - {rid}, connected := w.connected - w.rooms[rid].users.Keys,
                     lookup := w'.lookup, stats := CountedOut(w.stats, w.rooms[rid]), out := w'.out)
  {
    hide Notified, DistinctIds, PostAll, EndOut, KeysOf;
    var room := w.rooms[rid];
    DistinctSize(ends);
    TableShrinks(room.sessions, Elements(ends));
    LeaverAndRest(w.connected, room.users, me);
    var w2 := RemoveUser(Forget(w, me, code, reason), rid, me);
    RoomUpdatedAndDropped(w.rooms, rid, w2.rooms[rid], EndSessions(w2, rid, me, ends).rooms[rid]);
  }

  lemma LeaverAndRest(connected: map<Xid, string>, users: map<Xid, User>, me: Xid)
    requires me in users
    ensures connected - {me} - (users - {me}).Keys == connected - users.Keys
    ensures |users - {me}| == |users| - 1
  {
    assert (users - {me}).Keys == users.Keys - {me};
  }

  lemma RoomUpdatedAndDropped(rooms: map<string, RoomState>, rid: string, a: RoomState, b: RoomState)
    ensures rooms[rid := a][rid := b] - {rid} == rooms - {rid}
  {
  }

  lemma KeysGone(lookup: map<string, Entry>, rooms: map<string, RoomState>, used: set<Xid>, rid: string,
                 lookup': map<string, Entry>)
    requires SidsOk(rooms, used) && LookupOk(lookup, rooms) && LookupOk(lookup', rooms - {rid}) && rid in rooms
    requires OnlyFewer(lookup, lookup')
    ensures lookup' == lookup - KeysOf(rooms[rid].sessions.Keys)
  {
    hide SidsOk, OnlyFewer;
    OtherSidsApart(rooms, used, rid);
    OthersApart(rooms, used, rid);
    KeysOfDifference(TurnSids(rooms), rooms[rid].sessions.Keys);
    assert TurnSids(rooms) - rooms[rid].sessions.Keys == TurnSids(rooms - {rid});
    hide TurnSids, KeysOf;
    FewerByKeys(lookup, lookup', KeysOf(rooms[rid].sessions.Keys));
  }

  lemma FewerByKeys(before: map<string, Entry>, after: map<string, Entry>, gone: set<string>)
    requires OnlyFewer(before, after) && after.Keys == before.Keys - gone
    ensures after == before - gone
  {
  }

  lemma OtherSidsApart(rooms: map<string, RoomState>, used: set<Xid>, rid: string)
    requires SidsOk(rooms, used) && rid in rooms
    ensures TurnSids(rooms - {rid}) !! rooms[rid].sessions.Keys
  {
  }
}
