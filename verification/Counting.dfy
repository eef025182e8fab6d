/** How many sessions a room has, and exactly which event makes them too many. */
module Counting {
  import opened Types
  import opened Spec
  import opened Invariants
  import opened BaseProofs
  import opened Isolation
  import opened Progress
  import opened Refusals

  // ---------- One session for each pair ----------

  /** No two sessions of the room join the same host with the same client. */
  ghost predicate OneEach(sessions: map<Xid, RoomSession>) {
    forall s, t | s in sessions && t in sessions && sessions[s] == sessions[t] :: s == t
  }

  ghost predicate AllOneEach(rooms: map<string, RoomState>) {
    forall r | r in rooms :: OneEach(rooms[r].sessions)
  }

  function Streamers(users: map<Xid, User>): set<Xid> {
    set u | u in users && users[u].streaming
  }

  /** The pairs of a streaming member and another member. */
  function StreamPairs(hosts: set<Xid>, users: set<Xid>): set<(Xid, Xid)> {
    set h, c | h in hosts && c in users && c != h :: (h, c)
  }

  lemma {:induction false} PairCount(hosts: set<Xid>, users: set<Xid>)
    requires hosts <= users
    ensures |StreamPairs(hosts, users)| == |hosts| * (|users| - 1)
    decreases hosts
  {
    if hosts != {} {
      var h :| h in hosts;
      var rest := hosts - {h};
      PairCount(rest, users);
      RowCount(h, users - {h});
      PairSplit(hosts, users, h);
      Distribute(|rest|, |users| - 1);
    }
  }

  lemma Distribute(k: int, n: int)
    ensures (k + 1) * n == k * n + n
  {
  }

  lemma PairSplit(hosts: set<Xid>, users: set<Xid>, h: Xid)
    requires h in hosts && hosts <= users
    ensures |StreamPairs(hosts, users)| == |StreamPairs(hosts - {h}, users)| + |Row(h, users - {h})|
  {
    assert StreamPairs(hosts, users) == StreamPairs(hosts - {h}, users) + Row(h, users - {h});
    assert StreamPairs(hosts - {h}, users) !! Row(h, users - {h});
  }

  function SessionPairs(sessions: map<Xid, RoomSession>, sids: set<Xid>): set<(Xid, Xid)>
    requires sids <= sessions.Keys
  {
    set s | s in sids :: (sessions[s].host, sessions[s].client)
  }

  lemma {:induction false} SessionCount(sessions: map<Xid, RoomSession>, sids: set<Xid>)
    requires OneEach(sessions) && sids <= sessions.Keys
    ensures |SessionPairs(sessions, sids)| == |sids|
    decreases sids
  {
    if sids != {} {
      var s :| s in sids;
      SessionCount(sessions, sids - {s});
      assert SessionPairs(sessions, sids) ==
             SessionPairs(sessions, sids - {s}) + {(sessions[s].host, sessions[s].client)};
    }
  }

  lemma {:induction false} PairsAtMost(sessions: map<Xid, RoomSession>, sids: set<Xid>)
    requires sids <= sessions.Keys
    ensures |SessionPairs(sessions, sids)| <= |sids|
    decreases sids
  {
    if sids != {} {
      var s :| s in sids;
      PairsAtMost(sessions, sids - {s});
      assert SessionPairs(sessions, sids) ==
             SessionPairs(sessions, sids - {s}) + {(sessions[s].host, sessions[s].client)};
    }
  }

  /** Two sessions of the same pair make fewer pairs than sessions. */
  lemma PairTwice(sessions: map<Xid, RoomSession>, s: Xid, t: Xid)
    requires s in sessions && t in sessions && s != t && sessions[s] == sessions[t]
    ensures |SessionPairs(sessions, sessions.Keys)| < |sessions|
  {
    PairsAtMost(sessions, sessions.Keys - {s});
    assert SessionPairs(sessions, sessions.Keys) == SessionPairs(sessions, sessions.Keys - {s});
  }

  /** The number of pairs of a streaming member and another member. */
  function Expected(room: RoomState): int {
    |Streamers(room.users)| * (|room.users| - 1)
  }

  /**
   * A room with n users of whom k stream has at least k * (n - 1) sessions, and exactly that many exactly if
   * no pair is joined twice. There are two keys for each session.
   */
  lemma SessionsAreCounted(rid: string, room: RoomState)
    requires RoomOk(rid, room)
    ensures |room.sessions| >= Expected(room)
    ensures |room.sessions| == Expected(room) <==> OneEach(room.sessions)
    ensures |KeysOf(room.sessions.Keys)| == 2 * |room.sessions|
  {
    PairsAgree(rid, room);
    hide RoomOk, SessionPairs;
    PairCount(Streamers(room.users), room.users.Keys);
    PairsAtMost(room.sessions, room.sessions.Keys);
    KeyCount(room.sessions.Keys);
    if OneEach(room.sessions) {
      SessionCount(room.sessions, room.sessions.Keys);
    } else {
      var s, t :| s in room.sessions && t in room.sessions && room.sessions[s] == room.sessions[t] && s != t;
      PairTwice(room.sessions, s, t);
    }
  }

  lemma PairsAgree(rid: string, room: RoomState)
    requires RoomOk(rid, room)
    ensures SessionPairs(room.sessions, room.sessions.Keys) == StreamPairs(Streamers(room.users), room.users.Keys)
  {
    forall h, c
      ensures (h, c) in SessionPairs(room.sessions, room.sessions.Keys) <==>
              h in room.users && c in room.users && h != c && Joined(room.sessions, h, c)
    {
      if (h, c) in SessionPairs(room.sessions, room.sessions.Keys) {
        var s :| s in room.sessions && (room.sessions[s].host, room.sessions[s].client) == (h, c);
        assert room.sessions[s] == RoomSession(h, c);
      }
    }
  }

  lemma {:induction false} KeyCount(sids: set<Xid>)
    ensures |KeysOf(sids)| == 2 * |sids|
    decreases sids
  {
    if sids != {} {
      var s :| s in sids;
      var rest := sids - {s};
      KeyCount(rest);
      assert sids == rest + {s};
      KeysOfUnion(rest, {s});
      KeysOfDifference(sids, {s});
      KeysOfOne(s);
      hide KeysOf;
      assert KeysOf(sids) == KeysOf(rest) + KeysOf({s}) && KeysOf(rest) !! KeysOf({s});
    }
  }

  lemma KeysOfOne(s: Xid)
    ensures |KeysOf({s})| == 2
  {
    KeysAreInjective(s, s);
    assert KeysOf({s}) == {HostKey(s), ClientKey(s)};
  }

  // ---------- When pairs stay single ----------

  lemma PlanOneEach(plan: seq<Pairing>)
    requires forall i, j | 0 <= i < j < |plan| :: plan[i].sid != plan[j].sid
    requires forall i, j | 0 <= i < j < |plan| :: (plan[i].host, plan[i].client) != (plan[j].host, plan[j].client)
    ensures OneEach(PlanTable(plan))
  {
    PlanTableIs(plan);
  }

  predicate Shares(a: map<Xid, RoomSession>, b: map<Xid, RoomSession>) {
    exists s, t :: s in a && t in b && a[s] == b[t]
  }

  lemma OneEachUnion(a: map<Xid, RoomSession>, b: map<Xid, RoomSession>)
    requires OneEach(a) && OneEach(b) && a.Keys !! b.Keys
    ensures OneEach(a + b) <==> !Shares(a, b)
  {
    var u := a + b;
    if Shares(a, b) {
      var s, t :| s in a && t in b && a[s] == b[t];
      assert u[s] == u[t];
    } else {
      assert forall s, t | s in a && t in b :: a[s] != b[t];
    }
  }

  /** Opening a plan keeps pairs single exactly if none of its pairs was joined before. */
  lemma OneEachAfterPlan(used: set<Xid>, sessions: map<Xid, RoomSession>, plan: seq<Pairing>)
    requires OneEach(sessions) && sessions.Keys <= used && FreshPlan(used, plan)
    requires forall i, j | 0 <= i < j < |plan| :: (plan[i].host, plan[i].client) != (plan[j].host, plan[j].client)
    ensures OneEach(sessions + PlanTable(plan)) <==>
            forall i | 0 <= i < |plan| :: !Joined(sessions, plan[i].host, plan[i].client)
  {
    PlanOneEach(plan);
    PlanTableFresh(plan, used);
    OneEachUnion(sessions, PlanTable(plan));
    SharesMeaning(sessions, plan);
  }

  lemma SharesMeaning(sessions: map<Xid, RoomSession>, plan: seq<Pairing>)
    requires forall i, j | 0 <= i < j < |plan| :: plan[i].sid != plan[j].sid
    ensures Shares(sessions, PlanTable(plan)) <==>
            exists i :: 0 <= i < |plan| && Joined(sessions, plan[i].host, plan[i].client)
  {
    PlanTableIs(plan);
    if Shares(sessions, PlanTable(plan)) {
      var s, t :| s in sessions && t in PlanTable(plan) && sessions[s] == PlanTable(plan)[t];
      var i :| 0 <= i < |plan| && plan[i].sid == t;
      assert sessions[s] == RoomSession(plan[i].host, plan[i].client);
      assert Joined(sessions, plan[i].host, plan[i].client);
    }
    if i :| 0 <= i < |plan| && Joined(sessions, plan[i].host, plan[i].client) {
      var s :| s in sessions && sessions[s] == RoomSession(plan[i].host, plan[i].client);
      assert plan[i].sid in PlanTable(plan) && PlanTable(plan)[plan[i].sid] == sessions[s];
    }
  }

  lemma OneEachFewer(sessions: map<Xid, RoomSession>, gone: set<Xid>)
    requires OneEach(sessions)
    ensures OneEach(sessions - gone)
  {
  }

  /**
   * A user who was already streaming shares again, and there is someone else in the room; the addresses are
   * found, so the event succeeds.
   */
  predicate SharesAgain(w: World, me: Xid, o: Outcome) {
    && InRoom(w, me) && me in w.rooms[w.connected[me]].users && w.rooms[w.connected[me]].users[me].streaming
    && |w.rooms[w.connected[me]].users| >= 2 && o.error.None?
  }

  lemma OpensOneEach(w: World, rid: string, pairs: set<(Xid, Xid)>, o: Outcome)
    requires rid in w.rooms && OneEach(w.rooms[rid].sessions) && w.rooms[rid].sessions.Keys <= w.used
    requires OpensSessions(w, rid, pairs, o)
    ensures rid in o.world.rooms
    ensures OneEach(o.world.rooms[rid].sessions) <==>
            o.error.Some? || forall p | p in pairs :: !Joined(w.rooms[rid].sessions, p.0, p.1)
  {
    if o.error.None? {
      var at := o.reply.At();
      var plan: seq<Pairing> :| Opens(w, rid, pairs, plan, at, o.world);
      var sessions := w.rooms[rid].sessions;
      OneEachAfterPlan(w.used, sessions, plan);
      hide Joined, OneEach;
      forall p | p in pairs
        ensures exists i :: 0 <= i < |plan| && (plan[i].host, plan[i].client) == p
      {
      }
      forall i | 0 <= i < |plan|
        ensures (plan[i].host, plan[i].client) in pairs
      {
      }
    }
  }

  /**
   * Sharing keeps pairs single exactly if it is not a repeated share.
   */
  lemma ShareOneEach(w: World, me: Xid, o: Outcome)
    requires Base(w) && StartsShare(w, me, o) && InRoom(w, me) && OneEach(w.rooms[w.connected[me]].sessions)
    ensures w.connected[me] in o.world.rooms
    ensures OneEach(o.world.rooms[w.connected[me]].sessions) <==> !SharesAgain(w, me, o)
  {
    hide Books, Indexed, OneEach, OpensSessions, Notified;
    var rid := w.connected[me];
    var room := w.rooms[rid];
    var o1 :| SharesAs(w, rid, me, o1, o);
    var w1 := UpdateUser(w, rid, room.users[me].(streaming := true));
    assert RoomOk(rid, room);
    SidsUsed(w, rid);
    OpensOneEach(w1, rid, PairsOnShare(w1.rooms[rid].users, me), o1);
    if o.error.None? {
      NotifiedOnlyOut(o1.world, rid, o.world);
    }
    ShareJoins(rid, room, me, w1.rooms[rid].users);
  }

  lemma SidsUsed(w: World, rid: string)
    requires Books(w) && rid in w.rooms
    ensures w.rooms[rid].sessions.Keys <= w.used
  {
  }

  /** The pairs of a share were joined before exactly if the user was streaming already. */
  lemma ShareJoins(rid: string, room: RoomState, me: Xid, users: map<Xid, User>)
    requires RoomOk(rid, room) && me in room.users && users.Keys == room.users.Keys
    ensures (forall p | p in PairsOnShare(users, me) :: !Joined(room.sessions, p.0, p.1)) <==>
            !(room.users[me].streaming && |room.users| >= 2)
  {
    if |room.users| >= 2 {
      var u := SomeoneElse(room.users.Keys, me);
      assert (me, u) in PairsOnShare(users, me);
    } else {
      OnlyOne(room.users.Keys, me);
    }
  }

  lemma SomeoneElse(ids: set<Xid>, me: Xid) returns (u: Xid)
    requires me in ids && |ids| >= 2
    ensures u in ids && u != me
  {
    assert |ids - {me}| >= 1;
    u :| u in ids - {me};
  }

  lemma OnlyOne(ids: set<Xid>, me: Xid)
    requires me in ids && |ids| < 2
    ensures ids == {me}
  {
    assert |ids - {me}| == 0;
    assert ids == {me} + (ids - {me});
  }

  /** One room's sessions change, the others' do not. */
  lemma OthersOneEach(w: World, rid: string, w': World)
    requires AllOneEach(w.rooms) && OnlyRoom(w, rid, w')
    requires rid in w'.rooms ==> OneEach(w'.rooms[rid].sessions)
    ensures AllOneEach(w'.rooms)
  {
    hide OneEach;
  }

  lemma EndOneEach(w: World, rid: string, me: Xid, ends: seq<Xid>)
    requires AllOneEach(w.rooms) && rid in w.rooms && forall s | s in ends :: s in w.rooms[rid].sessions
    ensures AllOneEach(EndSessions(w, rid, me, ends).rooms)
  {
    OneEachFewer(w.rooms[rid].sessions, Elements(ends));
    hide OneEach;
  }

  lemma SettleOneEach(w: World, rid: string, ownerLeft: bool, w': World)
    requires AllOneEach(w.rooms) && rid in w.rooms && Settles(w, rid, ownerLeft, w')
    ensures AllOneEach(w'.rooms)
  {
    hide OneEach, Notified;
    if !(ownerLeft && w.rooms[rid].closeOnOwnerLeave) && w.rooms[rid].users != map[] {
      NotifiedOnlyOut(w, rid, w');
    }
  }

  lemma DisconnectOneEach(w: World, me: Xid, code: int, reason: string, w': World)
    requires AllOneEach(w.rooms) && Disconnects(w, me, code, reason, w')
    ensures AllOneEach(w'.rooms)
  {
    hide OneEach, Settles, OrderOfEnds;
    var rid := Where(w, me);
    if rid != "" && rid in w.rooms && me in w.rooms[rid].users {
      var ends :| DisconnectsWith(w, rid, me, code, reason, ends, w');
      OrderIsOrder(w.rooms[rid].sessions, me, true, ends);
      var w2 := RemoveUser(Forget(w, me, code, reason), rid, me);
      EndOneEach(w2, rid, me, ends);
      hide AllOneEach;
      SettleOneEach(EndSessions(w2, rid, me, ends), rid, w.rooms[rid].users[me].owner, w');
    }
  }

  lemma JoinOneEach(w: World, info: ClientInfo, id: string, asked: string, o: Outcome)
    requires Base(w) && AllOneEach(w.rooms) && info.id in w.connected && Joins(w, info, id, asked, o)
    ensures AllOneEach(o.world.rooms)
  {
    hide Books, OneEach, OpensSessions, Notified, Indexed, RoomsOk;
    JoinFrame(w, info, id, asked, o);
    if Where(w, info.id) == "" && id in w.rooms {
      var name, w1 :| JoinsAs(w, info, id, asked, name, w1, o);
      var u := User(info.id, info.addr, name, false, false);
      NotifiedOnlyOut(Enter(w, id, u), id, w1);
      SidsUsed(w, id);
      OpensOneEach(w1, id, PairsOnJoin(w1.rooms[id].users, info.id), o);
      JoinNotJoined(w, id, u);
      OthersOneEach(w, id, o.world);
    }
  }

  /** A newcomer was in no session with the members that stream. */
  lemma JoinNotJoined(w: World, rid: string, u: User)
    requires Indexed(w.connected, w.rooms) && RoomsOk(w.rooms) && rid in w.rooms && Where(w, u.id) == "" && !u.streaming
    ensures forall p | p in PairsOnJoin(Enter(w, rid, u).rooms[rid].users, u.id) ::
              !Joined(w.rooms[rid].sessions, p.0, p.1)
  {
    if rid != "" {
      JoinReady(w, rid, u);
    } else {
      assert RoomOk(rid, w.rooms[rid]);
    }
  }

  lemma CreateOneEach(w: World, info: ClientInfo, e: Event, o: Outcome)
    requires e.Create? && Base(w) && AllOneEach(w.rooms) && info.id in w.connected && Creates(w, info, e, o)
    ensures AllOneEach(o.world.rooms)
  {
    hide Base, OneEach, Joins, Notified;
    if Where(w, info.id) == "" {
      if e.id in w.rooms {
        if e.joinIfExist {
          JoinOneEach(w, info, e.id, e.userName, o);
        }
      } else if CreateRefused(w.authMode, info, e.mode).None? {
        var name :| NameFor(info, e.userName, name) && Notified(OpenRoom(w, info, e, name), e.id, o.world);
        NotifiedOnlyOut(OpenRoom(w, info, e, name), e.id, o.world);
        EmptyOneEach();
      }
    }
  }

  lemma EmptyOneEach()
    ensures OneEach(map[])
  {
  }

  lemma StopOneEach(w: World, me: Xid, o: Outcome)
    requires AllOneEach(w.rooms) && StopsShare(w, me, o)
    ensures AllOneEach(o.world.rooms)
  {
    hide OneEach, Notified, OrderOfEnds;
    if InRoom(w, me) {
      var rid := w.connected[me];
      var ends :| StopsWith(w, rid, me, ends, o.world);
      OrderIsOrder(w.rooms[rid].sessions, me, false, ends);
      var w1 := UpdateUser(w, rid, w.rooms[rid].users[me].(streaming := false));
      EndOneEach(w1, rid, me, ends);
      NotifiedOnlyOut(EndSessions(w1, rid, me, ends), rid, o.world);
    }
  }

  lemma RenameOneEach(w: World, me: Xid, name: string, o: Outcome)
    requires AllOneEach(w.rooms) && Renames(w, me, name, o)
    ensures AllOneEach(o.world.rooms)
  {
    hide OneEach, Notified;
    if InRoom(w, me) {
      var rid := w.connected[me];
      NotifiedOnlyOut(UpdateUser(w, rid, w.rooms[rid].users[me].(name := name)), rid, o.world);
    }
  }

  lemma ShareAllOneEach(w: World, me: Xid, o: Outcome)
    requires Base(w) && AllOneEach(w.rooms) && StartsShare(w, me, o)
    ensures AllOneEach(o.world.rooms) <==> !SharesAgain(w, me, o)
  {
    ShareFrame(w, me, o);
    hide Base, OneEach, StartsShare;
    if InRoom(w, me) {
      ShareOneEach(w, me, o);
      if !SharesAgain(w, me, o) {
        OthersOneEach(w, w.connected[me], o.world);
      }
    } else {
      ShareRefused(w, me, o);
    }
  }

  lemma ShareRefused(w: World, me: Xid, o: Outcome)
    requires StartsShare(w, me, o) && !InRoom(w, me)
    ensures o.world == w
  {
  }

  lemma ExecuteOneEach(w: World, info: ClientInfo, e: Event, o: Outcome)
    requires Base(w) && AllOneEach(w.rooms) && Executes(w, info, e, o) && (e.Connected? || info.id in w.connected)
    ensures AllOneEach(o.world.rooms) <==> !(e.StartShare? && SharesAgain(w, info.id, o))
  {
    hide Base, AllOneEach, SharesAgain, Creates, Joins, StartsShare, StopsShare, Renames, Disconnects;
    match e
    case Connected =>
    case Create(_, _, _, _, _) => CreateOneEach(w, info, e, o);
    case Join(id, userName) => JoinOneEach(w, info, id, userName, o);
    case StartShare => ShareAllOneEach(w, info.id, o);
    case StopShare => StopOneEach(w, info.id, o);
    case Name(userName) => RenameOneEach(w, info.id, userName, o);
    case Relay(kind, sid, value) =>
    case Disconnected(code, reason) => DisconnectOneEach(w, info.id, code, reason, o.world);
  }

  /** A member that already streams shares again while others are in the room. */
  predicate Repeats(w: World, m: ClientMessage) {
    && m.event.StartShare? && InRoom(w, m.info.id)
    && m.info.id in w.rooms[w.connected[m.info.id]].users
    && w.rooms[w.connected[m.info.id]].users[m.info.id].streaming
    && |w.rooms[w.connected[m.info.id]].users| >= 2
  }

  /** The repeated share succeeds: the IP provider replies. */
  predicate Reshares(w: World, m: ClientMessage) {
    Repeats(w, m) && m.reply.error.None?
  }

  /** Every event keeps pairs single, except a repeated share that succeeds, which never does. */
  lemma NextOneEach(w: World, m: ClientMessage, w': World)
    requires Base(w) && AllOneEach(w.rooms) && Arrives(w, m) && Next(w, m, w')
    ensures AllOneEach(w'.rooms) <==> !Reshares(w, m)
  {
    ArrivesFresh(w, m);
    hide Base, AllOneEach;
    if m.skipConnectedCheck || m.info.id in w.connected {
      var o :| Executes(w, m.info, m.event, o) && o.reply == m.reply && Completes(o, m.info.id, w');
      ExecuteOneEach(w, m.info, m.event, o);
      ExecuteFails(w, m.info, m.event, o);
      hide Executes;
      if o.error.Some? {
        DisconnectOneEach(o.world, m.info.id, NORMAL_CLOSURE, o.error.value, w');
      }
    }
  }

  /** Every room has as many sessions as it has pairs of a streaming member and another member. */
  ghost predicate SessionsRight(rooms: map<string, RoomState>) {
    forall r | r in rooms :: |rooms[r].sessions| == Expected(rooms[r])
  }

  /** The number of sessions is right exactly if no pair is joined twice. */
  lemma RightIsOneEach(w: World)
    requires Base(w)
    ensures SessionsRight(w.rooms) <==> AllOneEach(w.rooms)
  {
    hide RoomOk, Indexed, Books, OneEach, Expected;
    forall r | r in w.rooms
      ensures |w.rooms[r].sessions| == Expected(w.rooms[r]) <==> OneEach(w.rooms[r].sessions)
    {
      SessionsAreCounted(r, w.rooms[r]);
    }
  }

  /** Every event keeps the number of sessions right, except a repeated share that succeeds, which never does. */
  lemma NextSessions(w: World, m: ClientMessage, w': World)
    requires Base(w) && SessionsRight(w.rooms) && Arrives(w, m) && Next(w, m, w')
    ensures SessionsRight(w'.rooms) <==> !Reshares(w, m)
  {
    hide Base, Next, Arrives, SessionsRight, AllOneEach, Reshares;
    RightIsOneEach(w);
    NextKeepsBase(w, m, w');
    RightIsOneEach(w');
    NextOneEach(w, m, w');
  }

  /**
   * An event is sure to keep the number of sessions right, whatever the ids drawn and the answer of the IP
   * provider, exactly if it is not a repeated share.
   */
  lemma SureSessions(w: World, m: ClientMessage)
    requires Base(w) && SessionsRight(w.rooms) && Arrives(w, m)
    ensures (forall reply, w' | Next(w, m.(reply := reply), w') :: SessionsRight(w'.rooms)) <==> !Repeats(w, m)
  {
    hide Next, Base, SessionsRight;
    if Repeats(w, m) {
      var reply := Reply(None, None, None);
      var w' := RepeatSucceeds(w, m.(reply := reply));
      NextSessions(w, m.(reply := reply), w');
    } else {
      forall reply, w' | Next(w, m.(reply := reply), w')
        ensures SessionsRight(w'.rooms)
      {
        NextSessions(w, m.(reply := reply), w');
      }
    }
  }

  lemma RepeatSucceeds(w: World, m: ClientMessage) returns (w': World)
    requires Base(w) && Arrives(w, m) && Reshares(w, m)
    ensures Next(w, m, w')
  {
    var rid := w.connected[m.info.id];
    assert RoomOk(rid, w.rooms[rid]);
    hide RoomOk, RoomsOk, Indexed, LookupOk, ClientIdsOk, CreatorsOk, SessionsCounted, RoomsCounted, StartsShare;
    w' := ShareCan(w, m.info.id, m.reply);
    SucceedsNext(w, m, w');
  }

  /**
   * Up to a state of a run every room with n users of whom k stream had k * (n - 1) sessions at every moment,
   * exactly if no step before it was a repeated share that succeeded.
   */
  lemma {:induction false} SessionsExactly(authMode: AuthMode, ms: seq<ClientMessage>, ws: seq<World>, i: nat)
    requires IsRun(authMode, ms, ws) && i < |ws|
    ensures (forall j | 0 <= j <= i :: SessionsRight(ws[j].rooms)) <==>
            forall j | 0 <= j < i :: !Reshares(ws[j], ms[j])
  {
    hide Base, Next, Arrives, Init, SessionsRight, Reshares;
    if i == 0 {
      InitSessions(authMode);
    } else {
      SessionsExactly(authMode, ms, ws, i - 1);
      if SessionsRight(ws[i - 1].rooms) {
        RunsKeepBase(authMode, ms, ws, i - 1);
        NextSessions(ws[i - 1], ms[i - 1], ws[i]);
      }
    }
  }

  lemma InitSessions(authMode: AuthMode)
    ensures SessionsRight(Init(authMode).rooms)
  {
  }

  /** In every state of every run, a TURN room accounts for two keys of the table for each of its sessions. */
  lemma KeysOverRuns(authMode: AuthMode, ms: seq<ClientMessage>, ws: seq<World>, i: nat, r: string)
    requires IsRun(authMode, ms, ws) && i < |ws| && r in ws[i].rooms && ws[i].rooms[r].mode.Turn?
    ensures KeysOf(ws[i].rooms[r].sessions.Keys) <= ws[i].lookup.Keys
    ensures |KeysOf(ws[i].rooms[r].sessions.Keys)| == 2 * |ws[i].rooms[r].sessions|
  {
    hide IsRun, RoomOk, Indexed, SidsOk, ClientIdsOk, CreatorsOk, SessionsCounted, RoomsCounted;
    RunsKeepBase(authMode, ms, ws, i);
    KeysInTable(ws[i], r);
    hide LookupOk, KeysOf;
    KeyCount(ws[i].rooms[r].sessions.Keys);
  }

  lemma KeysInTable(w: World, r: string)
    requires LookupOk(w.lookup, w.rooms) && r in w.rooms && w.rooms[r].mode.Turn?
    ensures KeysOf(w.rooms[r].sessions.Keys) <= w.lookup.Keys
  {
    assert w.rooms[r].sessions.Keys <= TurnSids(w.rooms);
  }
}
