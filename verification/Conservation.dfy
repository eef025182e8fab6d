/** What the counters say about the state: nothing is created or closed without being counted. */
module Conservation {
  import opened Types
  import opened Spec
  import opened Totals
  import opened Invariants
  import opened BaseProofs
  import opened Isolation

  /** By how much "users joined minus users left" exceeds the number of users in all rooms. */
  ghost function Surplus(w: World): int {
    w.stats.usersJoined - w.stats.usersLeft - Total(UsersPerRoom(w.rooms))
  }

  /** A client enters a room whose user it already is; possible only for the nameless room. */
  predicate Rejoins(w: World, m: ClientMessage) {
    && m.info.id in w.connected && Where(w, m.info.id) == ""
    && (m.event.Join? || (m.event.Create? && m.event.joinIfExist))
    && m.event.id in w.rooms && m.info.id in w.rooms[m.event.id].users
  }

  lemma RoomSurplus(w: World, rid: string, w': World)
    requires rid in w.rooms && rid in w'.rooms && w'.rooms == w.rooms[rid := w'.rooms[rid]]
    ensures Surplus(w') == Surplus(w) + (w'.stats.usersJoined - w.stats.usersJoined)
                         - (w'.stats.usersLeft - w.stats.usersLeft)
                         - (|w'.rooms[rid].users| - |w.rooms[rid].users|)
  {
    TotalsUpdated(w.rooms, rid, w'.rooms[rid]);
  }

  lemma EnterSurplus(w: World, rid: string, u: User)
    requires rid in w.rooms
    ensures Surplus(Enter(w, rid, u)) == Surplus(w) + if u.id in w.rooms[rid].users then 1 else 0
  {
    hide Surplus;
    RoomSurplus(w, rid, Enter(w, rid, u));
    UsersGrow(w.rooms[rid].users, u);
  }

  lemma UsersGrow(users: map<Xid, User>, u: User)
    ensures |users[u.id := u]| == |users| + if u.id in users then 0 else 1
  {
    assert users[u.id := u].Keys == users.Keys + {u.id};
  }

  lemma UsersShrink(users: map<Xid, User>, me: Xid)
    requires me in users
    ensures |users - {me}| == |users| - 1
  {
    assert (users - {me}).Keys == users.Keys - {me};
  }

  lemma UpdateSurplus(w: World, rid: string, u: User)
    requires rid in w.rooms && u.id in w.rooms[rid].users
    ensures Surplus(UpdateUser(w, rid, u)) == Surplus(w)
  {
    hide Surplus;
    RoomSurplus(w, rid, UpdateUser(w, rid, u));
    UsersGrow(w.rooms[rid].users, u);
  }

  lemma OpenSurplus(w: World, info: ClientInfo, e: Event, name: string)
    requires e.Create? && e.id !in w.rooms
    ensures Surplus(OpenRoom(w, info, e, name)) == Surplus(w)
  {
    AddedRoomTotals(w.rooms, e.id, OpenRoom(w, info, e, name).rooms[e.id]);
  }

  lemma OpensSurplus(w: World, rid: string, pairs: set<(Xid, Xid)>, o: Outcome)
    requires rid in w.rooms && OpensSessions(w, rid, pairs, o)
    ensures Surplus(o.world) == Surplus(w)
  {
    OpensFrame(w, rid, pairs, o);
    hide Surplus, OpensSessions;
    OnlyRoomUpdates(w, rid, o.world);
    RoomSurplus(w, rid, o.world);
  }

  lemma OnlyRoomUpdates(w: World, rid: string, w': World)
    requires OnlyRoom(w, rid, w') && rid in w.rooms && rid in w'.rooms
    ensures w'.rooms == w.rooms[rid := w'.rooms[rid]]
  {
  }

  lemma JoinSurplus(w: World, info: ClientInfo, id: string, asked: string, o: Outcome)
    requires Joins(w, info, id, asked, o)
    ensures Surplus(o.world) == Surplus(w) +
              if Where(w, info.id) == "" && id in w.rooms && info.id in w.rooms[id].users then 1 else 0
  {
    hide Surplus, OpensSessions, Notified;
    if Where(w, info.id) == "" && id in w.rooms {
      var name, w1 :| JoinsAs(w, info, id, asked, name, w1, o);
      var u := User(info.id, info.addr, name, false, false);
      EnterSurplus(w, id, u);
      NotifiedSurplus(Enter(w, id, u), id, w1);
      OpensSurplus(w1, id, PairsOnJoin(w1.rooms[id].users, info.id), o);
    }
  }

  lemma NotifiedSurplus(w: World, rid: string, w': World)
    requires rid in w.rooms && Notified(w, rid, w')
    ensures Surplus(w') == Surplus(w)
  {
    NotifiedOnlyOut(w, rid, w');
  }

  lemma CreateSurplus(w: World, info: ClientInfo, e: Event, o: Outcome)
    requires e.Create? && Creates(w, info, e, o)
    ensures Surplus(o.world) == Surplus(w) +
              if e.joinIfExist && Where(w, info.id) == "" && e.id in w.rooms && info.id in w.rooms[e.id].users
              then 1 else 0
  {
    hide Surplus, Joins, Notified;
    if Where(w, info.id) == "" {
      if e.id in w.rooms {
        if e.joinIfExist {
          JoinSurplus(w, info, e.id, e.userName, o);
        }
      } else if CreateRefused(w.authMode, info, e.mode).None? {
        var name :| NameFor(info, e.userName, name) && Notified(OpenRoom(w, info, e, name), e.id, o.world);
        OpenSurplus(w, info, e, name);
        NotifiedSurplus(OpenRoom(w, info, e, name), e.id, o.world);
      }
    }
  }

  lemma ShareSurplus(w: World, me: Xid, o: Outcome)
    requires Base(w) && StartsShare(w, me, o)
    ensures Surplus(o.world) == Surplus(w)
  {
    hide Surplus, OpensSessions, Notified;
    if InRoom(w, me) {
      var rid := w.connected[me];
      var o1 :| SharesAs(w, rid, me, o1, o);
      var u := w.rooms[rid].users[me].(streaming := true);
      assert u.id == me by {
        assert RoomOk(rid, w.rooms[rid]);
      }
      hide Base;
      UpdateSurplus(w, rid, u);
      OpensSurplus(UpdateUser(w, rid, u), rid, PairsOnShare(UpdateUser(w, rid, u).rooms[rid].users, me), o1);
      if o.error.None? {
        NotifiedSurplus(o1.world, rid, o.world);
      }
    }
  }

  lemma EndSurplus(w: World, rid: string, me: Xid, ends: seq<Xid>)
    requires rid in w.rooms && forall s | s in ends :: s in w.rooms[rid].sessions
    ensures Surplus(EndSessions(w, rid, me, ends)) == Surplus(w)
  {
    hide Surplus;
    RoomSurplus(w, rid, EndSessions(w, rid, me, ends));
  }

  lemma StopSurplus(w: World, me: Xid, o: Outcome)
    requires Base(w) && StopsShare(w, me, o)
    ensures Surplus(o.world) == Surplus(w)
  {
    hide Surplus, Notified, OrderOfEnds;
    if InRoom(w, me) {
      var rid := w.connected[me];
      var ends :| StopsWith(w, rid, me, ends, o.world);
      OrderIsOrder(w.rooms[rid].sessions, me, false, ends);
      var u := w.rooms[rid].users[me].(streaming := false);
      assert u.id == me by {
        assert RoomOk(rid, w.rooms[rid]);
      }
      hide Base;
      UpdateSurplus(w, rid, u);
      EndSurplus(UpdateUser(w, rid, u), rid, me, ends);
      NotifiedSurplus(EndSessions(UpdateUser(w, rid, u), rid, me, ends), rid, o.world);
    }
  }

  lemma RenameSurplus(w: World, me: Xid, name: string, o: Outcome)
    requires Base(w) && Renames(w, me, name, o)
    ensures Surplus(o.world) == Surplus(w)
  {
    hide Surplus, Notified;
    if InRoom(w, me) {
      var rid := w.connected[me];
      var u := w.rooms[rid].users[me].(name := name);
      assert u.id == me by {
        assert RoomOk(rid, w.rooms[rid]);
      }
      hide Base;
      UpdateSurplus(w, rid, u);
      NotifiedSurplus(UpdateUser(w, rid, u), rid, o.world);
    }
  }

  lemma CloseSurplus(w: World, rid: string)
    requires rid in w.rooms
    ensures Surplus(CloseRoom(w, rid)) == Surplus(w)
  {
    TotalsDropped(w.rooms, rid);
  }

  lemma SettleSurplus(w: World, rid: string, ownerLeft: bool, w': World)
    requires rid in w.rooms && Settles(w, rid, ownerLeft, w')
    ensures Surplus(w') == Surplus(w)
  {
    hide Notified;
    CloseSurplus(w, rid);
    CloseSurplus(KickAll(w, rid), rid);
    if !(ownerLeft && w.rooms[rid].closeOnOwnerLeave) && w.rooms[rid].users != map[] {
      NotifiedSurplus(w, rid, w');
    }
  }

  lemma RemoveSurplus(w: World, rid: string, me: Xid)
    requires rid in w.rooms && me in w.rooms[rid].users
    ensures Surplus(RemoveUser(w, rid, me)) == Surplus(w)
  {
    hide Surplus;
    RoomSurplus(w, rid, RemoveUser(w, rid, me));
    UsersShrink(w.rooms[rid].users, me);
  }

  lemma ForgetSurplus(w: World, me: Xid, code: int, reason: string)
    ensures Surplus(Forget(w, me, code, reason)) == Surplus(w)
  {
  }

  lemma DisconnectSurplus(w: World, me: Xid, code: int, reason: string, w': World)
    requires Disconnects(w, me, code, reason, w')
    ensures Surplus(w') == Surplus(w)
  {
    hide Surplus, OrderOfEnds, Settles;
    var rid := Where(w, me);
    var w1 := Forget(w, me, code, reason);
    ForgetSurplus(w, me, code, reason);
    if rid != "" && rid in w.rooms && me in w.rooms[rid].users {
      var ends :| DisconnectsWith(w, rid, me, code, reason, ends, w');
      OrderIsOrder(w.rooms[rid].sessions, me, true, ends);
      var w2 := RemoveUser(w1, rid, me);
      RemoveSurplus(w1, rid, me);
      EndSurplus(w2, rid, me, ends);
      SettleSurplus(EndSessions(w2, rid, me, ends), rid, w.rooms[rid].users[me].owner, w');
    }
  }

  lemma ExecuteSurplus(w: World, m: ClientMessage, o: Outcome)
    requires Base(w) && Executes(w, m.info, m.event, o) && (m.event.Connected? || m.info.id in w.connected)
    ensures Surplus(o.world) == Surplus(w) + if Rejoins(w, m) then 1 else 0
  {
    hide Base, Creates, Joins, StartsShare, StopsShare, Renames, Disconnects;
    var info := m.info;
    match m.event
    case Connected =>
    case Create(_, _, _, _, _) => CreateSurplus(w, info, m.event, o);
    case Join(id, userName) => JoinSurplus(w, info, id, userName, o);
    case StartShare => ShareSurplus(w, info.id, o);
    case StopShare => StopSurplus(w, info.id, o);
    case Name(userName) => RenameSurplus(w, info.id, userName, o);
    case Relay(kind, sid, value) =>
    case Disconnected(code, reason) => DisconnectSurplus(w, info.id, code, reason, o.world);
  }

  /**
   * One event changes the surplus exactly when a client re-enters a room it is already a user of, which
   * counts it as joined a second time.
   */
  lemma NextSurplus(w: World, m: ClientMessage, w': World)
    requires Base(w) && Arrives(w, m) && Next(w, m, w')
    ensures Surplus(w') == Surplus(w) + if Rejoins(w, m) then 1 else 0
    ensures Rejoins(w, m) ==> m.event.id == ""
  {
    RejoinsNameless(w, m);
    hide Base, Surplus;
    if m.skipConnectedCheck || m.info.id in w.connected {
      var o :| Executes(w, m.info, m.event, o) && o.reply == m.reply && Completes(o, m.info.id, w');
      ExecuteSurplus(w, m, o);
      hide Executes;
      if o.error.Some? {
        DisconnectSurplus(o.world, m.info.id, NORMAL_CLOSURE, o.error.value, w');
      }
    }
  }

  lemma RejoinsNameless(w: World, m: ClientMessage)
    requires Indexed(w.connected, w.rooms)
    ensures Rejoins(w, m) ==> m.event.id == ""
  {
  }

  /** How often clients re-entered the nameless room in the first `i` steps of a run. */
  function RejoinCount(ms: seq<ClientMessage>, ws: seq<World>, i: nat): nat
    requires i <= |ms| < |ws|
  {
    if i == 0 then 0 else RejoinCount(ms, ws, i - 1) + if Rejoins(ws[i - 1], ms[i - 1]) then 1 else 0
  }

  /**
   * Conservation over whole runs: rooms and sessions created minus closed are those that exist, and users
   * joined minus left are those in the rooms plus one for each re-entry into the nameless room.
   */
  lemma {:induction false} CountersAreRight(authMode: AuthMode, ms: seq<ClientMessage>, ws: seq<World>, i: nat)
    requires IsRun(authMode, ms, ws) && i < |ws|
    ensures ws[i].stats.roomsCreated - ws[i].stats.roomsClosed == |ws[i].rooms|
    ensures ws[i].stats.sessionsCreated - ws[i].stats.sessionsClosed == Total(SessionsPerRoom(ws[i].rooms))
    ensures ws[i].stats.usersJoined - ws[i].stats.usersLeft ==
            Total(UsersPerRoom(ws[i].rooms)) + RejoinCount(ms, ws, i)
  {
    hide Base, Next, Arrives, Rejoins;
    RunsKeepBase(authMode, ms, ws, i);
    BaseCounts(ws[i]);
    if i > 0 {
      CountersAreRight(authMode, ms, ws, i - 1);
      RunsKeepBase(authMode, ms, ws, i - 1);
      NextSurplus(ws[i - 1], ms[i - 1], ws[i]);
    }
  }

  /**
   * Users joined minus users left are the users in the rooms exactly if no earlier step of the run let a
   * client into the nameless room again.
   */
  lemma UsersExactly(authMode: AuthMode, ms: seq<ClientMessage>, ws: seq<World>, i: nat)
    requires IsRun(authMode, ms, ws) && i < |ws|
    ensures UsersCounted(ws[i].stats, ws[i].rooms) <==> forall j | 0 <= j < i :: !Rejoins(ws[j], ms[j])
  {
    CountersAreRight(authMode, ms, ws, i);
    NoneRejoined(ms, ws, i);
    hide IsRun, RejoinCount, Rejoins;
  }

  lemma {:induction false} NoneRejoined(ms: seq<ClientMessage>, ws: seq<World>, i: nat)
    requires i <= |ms| < |ws|
    ensures RejoinCount(ms, ws, i) == 0 <==> forall j | 0 <= j < i :: !Rejoins(ws[j], ms[j])
  {
    hide Rejoins;
    if i > 0 {
      NoneRejoined(ms, ws, i - 1);
    }
  }

  lemma BaseCounts(w: World)
    requires Base(w)
    ensures RoomsCounted(w.stats, w.rooms) && SessionsCounted(w.stats, w.rooms)
  {
  }
}
