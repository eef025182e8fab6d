/** Every event keeps the clients' views in step with the server's state, in every run. */
module GoodProofs {
  import opened Types
  import opened Spec
  import opened Invariants
  import opened RoomProofs
  import opened BaseProofs
  import opened StepLemmas
  import opened Views
  import opened ViewProofs
  import opened Leaving
  import opened OneRoom
  import opened Closing

  /** All that holds in every state of every run. */
  ghost predicate Good(w: World) {
    Base(w) && PartedRight(w) && ClientsOk(w)
  }

  lemma IndexedMembers(w: World, rid: string)
    requires Indexed(w.connected, w.rooms) && rid in w.rooms && rid != ""
    ensures MembersConnected(w, rid)
  {
  }

  lemma PlanIsFresh(w: World, pairs: set<(Xid, Xid)>, plan: seq<Pairing>, users: map<Xid, User>)
    requires PlanFor(w.used, pairs, plan)
    requires forall p | p in pairs :: p.0 in users && p.1 in users && p.0 != p.1
    ensures FreshPlan(w.used, plan) && PlanWithin(users, plan)
  {
    forall p | p in plan
      ensures p.host in users && p.client in users && p.host != p.client
    {
      var i :| 0 <= i < |plan| && plan[i] == p;
      assert (plan[i].host, plan[i].client) in pairs;
    }
  }

  /** Opening the sessions for some pairs of members keeps the views. */
  lemma OpensViews(w: World, rid: string, pairs: set<(Xid, Xid)>, o: Outcome)
    requires ClientsOk(w) && MembersConnected(w, rid) && w.connected.Keys <= w.used
    requires SidsOk(w.rooms, w.used) && OpensSessions(w, rid, pairs, o)
    requires forall p | p in pairs :: p.0 in w.rooms[rid].users && p.1 in w.rooms[rid].users && p.0 != p.1
    ensures ClientsOk(o.world) && MembersConnected(o.world, rid) && o.world.connected.Keys <= o.world.used
  {
    hide ClientsOk, SidsOk, PlanFor;
    if o.error.None? {
      var at := o.reply.At();
      var plan :| Opens(w, rid, pairs, plan, at, o.world);
      PlanIsFresh(w, pairs, plan, w.rooms[rid].users);
      NewSessionsViews(w, rid, plan, at);
    }
  }

  /** Where nobody streams, a newcomer is given no session. */
  lemma OpensNothingViews(w: World, rid: string, o: Outcome)
    requires ClientsOk(w) && rid in w.rooms && OpensSessions(w, rid, {}, o)
    ensures ClientsOk(o.world)
  {
    hide ClientsOk;
    if o.error.None? {
      var at := o.reply.At();
      var plan: seq<Pairing> :| Opens(w, rid, {}, plan, at, o.world);
      PlanServesPairs(w.used, {}, plan);
      NewSessionsNone(w, rid, at);
    }
  }

  lemma PlanServesPairs(used: set<Xid>, pairs: set<(Xid, Xid)>, plan: seq<Pairing>)
    requires PlanFor(used, pairs, plan)
    ensures plan != [] ==> exists p :: p in pairs
  {
    if plan != [] {
      assert (plan[0].host, plan[0].client) in pairs;
    }
  }

  // ---------- Joining and creating ----------

  lemma {:induction false} ClosedReplay(ms: seq<Message>)
    requires Closed(ms)
    ensures Replay(ms).closed
  {
    var n := |ms| - 1;
    if !ms[n].CloseWriter? {
      var i :| 0 <= i < n && ms[i].CloseWriter?;
      assert ms[..n][i].CloseWriter?;
      ClosedReplay(ms[..n]);
    }
  }

  /** The users of the room with the empty id are known, once one more is let in. */
  lemma NamelessKnown(w: World, me: Xid, v: World)
    requires Base(w) && PartedRight(w) && me in w.connected && me in v.connected
    requires "" in v.rooms && v.rooms[""].users.Keys <= UsersOf(w, "") + {me}
    requires v.out == w.out && v.used == w.used && v.connected.Keys == w.connected.Keys
    ensures UsersKnown(v, "")
  {
    UsersAreUsed(w);
    hide Base, UsersOf, Written, Replay, Closed;
    forall u | u in v.rooms[""].users
      ensures u in v.used && (u in v.connected || View(v.out, u).closed)
    {
      if u !in v.connected {
        ClosedReplay(Written(w.out, u));
      }
    }
  }

  lemma EnterIsUsersOnly(w: World, rid: string, u: User)
    requires rid in w.rooms
    ensures UsersOnly(w, Enter(w, rid, u), u.id, rid)
  {
  }

  lemma LedgerSids(w: World)
    requires Books(w)
    ensures SidsOk(w.rooms, w.used) && w.connected.Keys <= w.used
  {
  }

  lemma EnterViews(w: World, info: ClientInfo, id: string, name: string)
    requires Good(w) && info.id in w.connected && id in w.rooms && Where(w, info.id) == ""
    ensures
      var entered := Enter(w, id, User(info.id, info.addr, name, false, false));
      && ClientsOk(entered) && UsersKnown(entered, id) && (id != "" ==> MembersConnected(entered, id))
      && entered.connected.Keys <= entered.used && SidsOk(entered.rooms, entered.used)
  {
    hide ClientsOk, Ledger, CreatorsOk, MembersConnected, UsersKnown, RoomsOk, RoomsOkBut, Indexed, NoSessionsOf,
         PartedRight;
    var u := User(info.id, info.addr, name, false, false);
    var entered := Enter(w, id, u);
    JoinReady(w, id, u);
    EnterBase(w, id, u);
    LedgerSids(entered);
    if id != "" {
      IndexedMembers(entered, id);
      MembersKnown(entered, id);
    } else {
      NamelessKnown(w, info.id, entered);
    }
    EnterIsUsersOnly(w, id, u);
    hide SidsOk, Books, UsersOnly;
    EnteredViews(w, entered, info.id, id);
  }

  /** The second half of a join: everyone is sent the list, then the newcomer's sessions are opened. */
  lemma NotifyAndOpenViews(w: World, rid: string, me: Xid, w1: World, o: Outcome)
    requires ClientsOk(w) && UsersKnown(w, rid) && w.connected.Keys <= w.used && SidsOk(w.rooms, w.used)
    requires rid != "" ==> MembersConnected(w, rid)
    requires rid == "" ==> forall u | u in w.rooms[rid].users :: !w.rooms[rid].users[u].streaming
    requires me in w.rooms[rid].users
    requires Notified(w, rid, w1) && rid in w1.rooms && OpensSessions(w1, rid, PairsOnJoin(w1.rooms[rid].users, me), o)
    ensures ClientsOk(o.world)
  {
    hide ClientsOk, SidsOk, OpensSessions;
    NotifiedViews(w, rid, w1);
    NotifiedKeeps(w, rid, w1, me);
    if rid == "" {
      assert PairsOnJoin(w1.rooms[rid].users, me) == {};
      OpensNothingViews(w1, rid, o);
    } else {
      assert MembersConnected(w1, rid);
      OpensViews(w1, rid, PairsOnJoin(w1.rooms[rid].users, me), o);
    }
  }

  lemma NamelessQuiet(w: World, u: User)
    requires Base(w) && "" in w.rooms && !u.streaming
    ensures forall c | c in Enter(w, "", u).rooms[""].users :: !Enter(w, "", u).rooms[""].users[c].streaming
  {
    hide Indexed, Books, Sharing, EndsAreMembers, HasOwner, AtMostOneOwner;
    assert RoomOk("", w.rooms[""]);
  }

  lemma JoinViews(w: World, info: ClientInfo, id: string, asked: string, o: Outcome)
    requires Good(w) && info.id in w.connected && Joins(w, info, id, asked, o)
    ensures ClientsOk(o.world)
  {
    hide ClientsOk, PartedRight, Base, NoSessionsOf, OpensSessions, Notified, UsersKnown, MembersConnected;
    if Where(w, info.id) == "" && id in w.rooms {
      var name, w1 :| JoinsAs(w, info, id, asked, name, w1, o);
      var u := User(info.id, info.addr, name, false, false);
      EnterViews(w, info, id, name);
      if id == "" {
        NamelessQuiet(w, u);
      }
      NotifyAndOpenViews(Enter(w, id, u), id, info.id, w1, o);
    }
  }

  lemma OpenViews(w: World, info: ClientInfo, e: Event, name: string)
    requires e.Create? && Good(w) && info.id in w.connected && Where(w, info.id) == "" && e.id !in w.rooms
    requires CreateRefused(w.authMode, info, e.mode).None?
    ensures
      var v := OpenRoom(w, info, e, name);
      ClientsOk(v) && UsersKnown(v, e.id)
  {
    hide ClientsOk, Ledger, CreatorsOk, RoomsOk, PartedRight;
    var v := OpenRoom(w, info, e, name);
    LedgerSids(w);
    OpenIsUsersOnly(w, info, e, name);
    hide UsersOnly, Indexed, SidsOk, Books;
    EnteredViews(w, v, info.id, e.id);
  }

  lemma OpenIsUsersOnly(w: World, info: ClientInfo, e: Event, name: string)
    requires e.Create? && e.id !in w.rooms && Indexed(w.connected, w.rooms)
    ensures UsersOnly(w, OpenRoom(w, info, e, name), info.id, e.id)
  {
  }

  lemma CreateViews(w: World, info: ClientInfo, e: Event, o: Outcome)
    requires e.Create? && Good(w) && info.id in w.connected && Creates(w, info, e, o)
    ensures ClientsOk(o.world)
  {
    hide ClientsOk, Base, PartedRight, Joins, UsersKnown;
    if Where(w, info.id) == "" {
      if e.id in w.rooms {
        if e.joinIfExist {
          JoinViews(w, info, e.id, e.userName, o);
        }
      } else if CreateRefused(w.authMode, info, e.mode).None? {
        var name :| NameFor(info, e.userName, name) && Notified(OpenRoom(w, info, e, name), e.id, o.world);
        OpenViews(w, info, e, name);
        hide OpenRoom;
        NotifiedViews(OpenRoom(w, info, e, name), e.id, o.world);
      }
    }
  }

  // ---------- Sharing, renaming, relaying ----------

  /** A change of one's own entry, up to the notification. */
  lemma UpdateViews(w: World, rid: string, u: User)
    requires Good(w) && rid in w.rooms && rid != "" && u.id in w.rooms[rid].users
    ensures
      var v := UpdateUser(w, rid, u);
      && ClientsOk(v) && MembersConnected(v, rid) && UsersKnown(v, rid)
      && v.connected.Keys <= v.used && SidsOk(v.rooms, v.used)
  {
    hide ClientsOk, RoomsOk, Ledger, CreatorsOk, PartedRight, UsersKnown;
    var v := UpdateUser(w, rid, u);
    IndexedMembers(w, rid);
    UpdatedViews(w, rid, u);
    UpdateBooks(w, rid, u);
    LedgerSids(v);
    assert MembersConnected(v, rid);
    hide Books, Indexed, SidsOk, MembersConnected, UpdateUser;
    MembersKnown(v, rid);
  }

  lemma ShareViews(w: World, me: Xid, o: Outcome)
    requires Good(w) && StartsShare(w, me, o)
    ensures ClientsOk(o.world)
  {
    hide ClientsOk, PartedRight, SidsOk, OpensSessions, Notified, UsersKnown;
    if InRoom(w, me) {
      var rid := w.connected[me];
      var o1 :| SharesAs(w, rid, me, o1, o);
      var u := w.rooms[rid].users[me].(streaming := true);
      UserIdIsKey(w, rid, me);
      UpdateViews(w, rid, u);
      hide Base;
      var w1 := UpdateUser(w, rid, u);
      OpensViews(w1, rid, PairsOnShare(w1.rooms[rid].users, me), o1);
      if o.error.None? {
        MembersKnown(o1.world, rid);
        NotifiedViews(o1.world, rid, o.world);
      }
    }
  }

  lemma UserIdIsKey(w: World, rid: string, me: Xid)
    requires Base(w) && rid in w.rooms && me in w.rooms[rid].users
    ensures w.rooms[rid].users[me].id == me
  {
    assert RoomOk(rid, w.rooms[rid]);
  }

  lemma StopViews(w: World, me: Xid, o: Outcome)
    requires Good(w) && StopsShare(w, me, o)
    ensures ClientsOk(o.world)
  {
    hide ClientsOk, PartedRight, SidsOk, Notified, OrderOfEnds, UsersKnown, MembersConnected;
    if InRoom(w, me) {
      var rid := w.connected[me];
      var ends :| StopsWith(w, rid, me, ends, o.world);
      var u := w.rooms[rid].users[me].(streaming := false);
      UserIdIsKey(w, rid, me);
      UpdateViews(w, rid, u);
      var w1 := UpdateUser(w, rid, u);
      StopEnds(w, rid, me, ends, w1.rooms[rid]);
      hide Base, EndsOf, UpdateUser;
      EndAndNotifyViews(w1, rid, me, ends, o.world);
    }
  }

  lemma EndAndNotifyViews(w: World, rid: string, me: Xid, ends: seq<Xid>, w': World)
    requires ClientsOk(w) && MembersConnected(w, rid) && w.connected.Keys <= w.used
    requires SidsOk(w.rooms, w.used) && EndsOf(w.rooms[rid], me, ends)
    requires Notified(EndSessions(w, rid, me, ends), rid, w')
    ensures ClientsOk(w')
  {
    var w2 := EndSessions(w, rid, me, ends);
    EndSessionsViews(w, rid, me, ends);
    hide ClientsOk, SidsOk, Notified, EndsOf;
    assert MembersConnected(w2, rid);
    MembersKnown(w2, rid);
    NotifiedViews(w2, rid, w');
  }

  lemma StopEnds(w: World, rid: string, me: Xid, ends: seq<Xid>, room: RoomState)
    requires Base(w) && rid in w.rooms && OrderOfEnds(w.rooms[rid].sessions, me, false, ends)
    requires room.sessions == w.rooms[rid].sessions
    ensures EndsOf(room, me, ends)
  {
    assert RoomOk(rid, w.rooms[rid]);
  }

  lemma RenameViews(w: World, me: Xid, name: string, o: Outcome)
    requires Good(w) && Renames(w, me, name, o)
    ensures ClientsOk(o.world)
  {
    hide ClientsOk, PartedRight, SidsOk, Notified, UsersKnown, MembersConnected;
    if InRoom(w, me) {
      var rid := w.connected[me];
      var u := w.rooms[rid].users[me].(name := name);
      UserIdIsKey(w, rid, me);
      UpdateViews(w, rid, u);
      hide Base;
      NotifiedViews(UpdateUser(w, rid, u), rid, o.world);
    }
  }

  /** A relayed message reaches its receiver only while the session is open there. */
  lemma RelayViews(w: World, me: Xid, kind: RelayKind, sid: Xid, value: string, o: Outcome)
    requires Good(w) && Relays(w, me, kind, sid, value, o)
    ensures ClientsOk(o.world)
  {
    if o.world != w {
      var rid := w.connected[me];
      var s := w.rooms[rid].sessions[sid];
      var to := if kind.FromHost() then s.client else s.host;
      RelayTarget(w, rid, sid);
      LedgerSids(w);
      hide Base, PartedRight, ClientsOk;
      RelayClients(w, rid, to, kind, sid, value);
    }
  }

  lemma RelayTarget(w: World, rid: string, sid: Xid)
    requires Base(w) && rid in w.rooms && rid != "" && sid in w.rooms[rid].sessions
    ensures
      var s := w.rooms[rid].sessions[sid];
      && s.host in w.rooms[rid].users && s.client in w.rooms[rid].users
      && s.host in w.connected && w.connected[s.host] == rid
      && s.client in w.connected && w.connected[s.client] == rid
  {
    hide Books;
    assert RoomOk(rid, w.rooms[rid]);
    IndexedMembers(w, rid);
  }

  lemma RelayClients(w: World, rid: string, to: Xid, kind: RelayKind, sid: Xid, value: string)
    requires ClientsOk(w) && rid in w.rooms && rid != "" && sid in w.rooms[rid].sessions
    requires to in w.connected && w.connected[to] == rid && w.connected.Keys <= w.used
    requires to == if kind.FromHost() then w.rooms[rid].sessions[sid].client else w.rooms[rid].sessions[sid].host
    ensures ClientsOk(w.(out := Post(w.out, to, Relayed(kind, sid, value))))
  {
    var w' := w.(out := Post(w.out, to, Relayed(kind, sid, value)));
    forall c
      ensures ClientOk(w', c)
    {
      PostView(w.out, to, Relayed(kind, sid, value), c);
      assert ClientOk(w, c);
      assert ClientOk(w, to);
      hide View, CredentialOk;
    }
  }

  lemma ConnectViews(w: World, me: Xid)
    requires Good(w) && me !in w.used
    ensures ClientsOk(w.(connected := w.connected[me := ""], used := w.used + {me}))
  {
    var v := w.(connected := w.connected[me := ""], used := w.used + {me});
    hide RoomsOk, Indexed, Ledger, CreatorsOk, PartedRight;
    forall c
      ensures ClientOk(v, c)
    {
      assert ClientOk(w, c);
      hide Follows;
    }
  }

  // ---------- Disconnecting ----------

  /** The sessions that end with a leaver: each has one end left in the room. */
  lemma LeaveEnds(room: RoomState, me: Xid, ends: seq<Xid>, room': RoomState)
    requires EndsAreMembers(room) && OrderOfEnds(room.sessions, me, true, ends)
    requires room'.sessions == room.sessions && room'.users == room.users - {me}
    ensures EndsOf(room', me, ends)
  {
  }

  /** The leaver is forgotten and told so, and is no user of the room any more. */
  lemma LeftViews(w: World, rid: string, me: Xid, code: int, reason: string)
    requires BaseBut(w, me) && ClientsOk(w) && me in w.connected && rid == w.connected[me]
    requires rid in w.rooms && rid != ""
    ensures
      var v := RemoveUser(Forget(w, me, code, reason), rid, me);
      && ClientsOk(v) && MembersConnected(v, rid) && v.connected.Keys <= v.used && SidsOk(v.rooms, v.used)
  {
    var w1 := Forget(w, me, code, reason);
    var v := RemoveUser(w1, rid, me);
    LedgerSids(w);
    IndexedMembers(w, rid);
    hide Indexed, RoomsOkBut, Ledger, CreatorsOk, ClientsOk;
    ForgetViews(w, me, code, reason);
    RemoveUserViews(w1, rid, me);
    UsersKeepSids(w.rooms, w.used, rid, v.rooms[rid]);
  }

  lemma RemoveUserViews(w: World, rid: string, me: Xid)
    requires ClientsOk(w) && rid in w.rooms
    ensures ClientsOk(RemoveUser(w, rid, me))
  {
    var v := RemoveUser(w, rid, me);
    forall c
      ensures ClientOk(v, c)
    {
      hide View, Follows;
      assert ClientOk(w, c);
    }
  }

  lemma SettleViews(w: World, rid: string, ownerLeft: bool, w': World)
    requires ClientsOk(w) && MembersConnected(w, rid) && w.connected.Keys <= w.used
    requires SidsOk(w.rooms, w.used) && Settles(w, rid, ownerLeft, w')
    ensures ClientsOk(w')
  {
    hide ClientsOk, SidsOk, Notified;
    if ownerLeft && w.rooms[rid].closeOnOwnerLeave {
      KickViews(w, rid);
      CloseRoomViews(KickAll(w, rid), rid);
    } else if w.rooms[rid].users == map[] {
      CloseRoomViews(w, rid);
    } else {
      MembersKnown(w, rid);
      NotifiedViews(w, rid, w');
    }
  }

  lemma EndAndSettleViews(w: World, rid: string, me: Xid, ends: seq<Xid>, ownerLeft: bool, w': World)
    requires ClientsOk(w) && MembersConnected(w, rid) && w.connected.Keys <= w.used
    requires SidsOk(w.rooms, w.used) && EndsOf(w.rooms[rid], me, ends)
    requires Settles(EndSessions(w, rid, me, ends), rid, ownerLeft, w')
    ensures ClientsOk(w')
  {
    var w2 := EndSessions(w, rid, me, ends);
    EndSessionsViews(w, rid, me, ends);
    EndedStaysSids(w, rid, me, ends);
    hide ClientsOk, SidsOk, Settles, EndsOf;
    assert MembersConnected(w2, rid);
    SettleViews(w2, rid, ownerLeft, w');
  }

  lemma EndedStaysSids(w: World, rid: string, me: Xid, ends: seq<Xid>)
    requires SidsOk(w.rooms, w.used) && rid in w.rooms && EndsOf(w.rooms[rid], me, ends)
    ensures SidsOk(EndSessions(w, rid, me, ends).rooms, w.used)
  {
    EndedSids(w.rooms, w.used, rid, ends, EndSessions(w, rid, me, ends).rooms[rid]);
  }

  lemma DisconnectViews(w: World, me: Xid, code: int, reason: string, w': World)
    requires BaseBut(w, me) && ClientsOk(w) && me in w.connected && Disconnects(w, me, code, reason, w')
    ensures ClientsOk(w')
  {
    var rid := Where(w, me);
    LedgerSids(w);
    hide ClientsOk, SidsOk, Settles, OrderOfEnds, Ledger, CreatorsOk;
    if rid == "" {
      ForgetViews(w, me, code, reason);
    } else {
      MemberIsUser(w.connected, w.rooms, me);
      var ends :| DisconnectsWith(w, rid, me, code, reason, ends, w');
      var w2 := RemoveUser(Forget(w, me, code, reason), rid, me);
      LeftViews(w, rid, me, code, reason);
      assert RoomOkBut(rid, w.rooms[rid], me);
      LeaveEnds(w.rooms[rid], me, ends, w2.rooms[rid]);
      hide BaseBut, EndsOf;
      EndAndSettleViews(w2, rid, me, ends, w.rooms[rid].users[me].owner, w');
    }
  }

  // ---------- One event, whole runs ----------

  lemma ExecuteViews(w: World, info: ClientInfo, e: Event, o: Outcome)
    requires Good(w) && Executes(w, info, e, o) && !e.Disconnected?
    requires if e.Connected? then info.id !in w.used else info.id in w.connected
    ensures ClientsOk(o.world)
  {
    hide Good, ClientsOk, Creates, Joins, StartsShare, StopsShare, Renames, Relays;
    match e
    case Connected => ConnectViews(w, info.id);
    case Create(_, _, _, _, _) => CreateViews(w, info, e, o);
    case Join(id, userName) => JoinViews(w, info, id, userName, o);
    case StartShare => ShareViews(w, info.id, o);
    case StopShare => StopViews(w, info.id, o);
    case Name(userName) => RenameViews(w, info.id, userName, o);
    case Relay(kind, sid, value) => RelayViews(w, info.id, kind, sid, value, o);
  }

  /**
   * One iteration of the event loop keeps the views of all clients right, whatever the event and whether or
   * not it fails halfway.
   */
  lemma NextKeepsGood(w: World, m: ClientMessage, w': World)
    requires Good(w) && Arrives(w, m) && Next(w, m, w')
    ensures Good(w')
  {
    hide ClientsOk, PartedRight, Base, BaseBut, Executes, Disconnects;
    NextKeepsBase(w, m, w');
    NextPartedRight(w, m, w');
    if m.skipConnectedCheck || m.info.id in w.connected {
      var o :| Executes(w, m.info, m.event, o) && o.reply == m.reply && Completes(o, m.info.id, w');
      KnownSender(w, m);
      if m.event.Disconnected? {
        DisconnectOnly(w, m.info, m.event, o);
        BaseWeaken(w, m.info.id);
        DisconnectViews(w, m.info.id, m.event.code, m.event.reason, w');
      } else {
        ExecuteViews(w, m.info, m.event, o);
        if o.error.Some? {
          ExecuteBase(w, m.info, m.event, o);
          ExecuteStays(w, m.info, m.event, o);
          FailsInIndex(w, m, o);
          DisconnectViews(o.world, m.info.id, NORMAL_CLOSURE, o.error.value, w');
        }
      }
    }
  }

  lemma FailsInIndex(w: World, m: ClientMessage, o: Outcome)
    requires Executes(w, m.info, m.event, o) && o.error.Some?
    ensures !m.event.Connected?
  {
  }

  lemma InitGood(authMode: AuthMode)
    ensures Good(Init(authMode))
  {
    InitBase(authMode);
    InitPartsRight(authMode);
  }

  /** In every state of every run the views of all clients are right. */
  lemma {:induction false} RunsKeepGood(authMode: AuthMode, ms: seq<ClientMessage>, ws: seq<World>, i: nat)
    requires IsRun(authMode, ms, ws) && i < |ws|
    ensures Good(ws[i])
  {
    hide Next, Arrives, Good, Init;
    if i == 0 {
      InitGood(authMode);
    } else {
      RunsKeepGood(authMode, ms, ws, i - 1);
      NextKeepsGood(ws[i - 1], ms[i - 1], ws[i]);
    }
  }
}
