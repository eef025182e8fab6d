/** What each event achieves, as an equation between the whole states before and after it, messages apart. */
module Effects {
  import opened Types
  import opened Spec
  import opened Invariants
  import opened RoomProofs
  import opened BaseProofs
  import opened Isolation
  import opened Leaving
  import opened OneRoom
  import opened Refusals
  import opened StepLemmas

  // ---------- Sessions that end ----------

  function HostedBy(sessions: map<Xid, RoomSession>, me: Xid): set<Xid> {
    set s | s in sessions && sessions[s].host == me
  }

  function WithEnd(sessions: map<Xid, RoomSession>, me: Xid): set<Xid> {
    set s | s in sessions && (sessions[s].host == me || sessions[s].client == me)
  }

  lemma EndsAreThose(all: map<Xid, RoomSession>, me: Xid, leaving: bool, ends: seq<Xid>)
    requires OrderOfEnds(all, me, leaving, ends)
    ensures Elements(ends) == if leaving then WithEnd(all, me) else HostedBy(all, me)
    ensures |Elements(ends)| == |ends| && Elements(ends) <= all.Keys && forall s | s in ends :: s in all
  {
    DistinctSize(ends);
  }

  /** A room that is not a TURN room has no keys to drop. */
  lemma NoKeysToDrop(lookup: map<string, Entry>, rooms: map<string, RoomState>, used: set<Xid>, rid: string,
                     gone: set<Xid>)
    requires SidsOk(rooms, used) && LookupOk(lookup, rooms) && rid in rooms && !rooms[rid].mode.Turn?
    requires gone <= rooms[rid].sessions.Keys
    ensures lookup - KeysOf(gone) == lookup
  {
    OthersApart(rooms, used, rid);
    OtherSidsApart(rooms, used, rid);
    hide SidsOk;
    KeysOfDifference(TurnSids(rooms), gone);
    assert TurnSids(rooms) - gone == TurnSids(rooms);
    hide TurnSids, KeysOf;
  }

  // ---------- Stopping to share ----------

  /** The user no longer streams, and the sessions it hosted are gone, with their keys. */
  function Stopped(w: World, me: Xid, out: map<Xid, seq<Message>>): World
    requires InRoom(w, me) && me in w.rooms[w.connected[me]].users
  {
    var rid := w.connected[me];
    var room := w.rooms[rid];
    var ended := HostedBy(room.sessions, me);
    w.(rooms := w.rooms[rid := room.(users := room.users[me := room.users[me].(streaming := false)],
                                     sessions := room.sessions - ended)],
       lookup := w.lookup - KeysOf(ended),
       stats := w.stats.(sessionsClosed := w.stats.sessionsClosed + |ended|),
       out := out)
  }

  lemma StopStops(w: World, me: Xid, o: Outcome)
    requires Base(w) && StopsShare(w, me, o) && InRoom(w, me)
    ensures me in w.rooms[w.connected[me]].users && o.world == Stopped(w, me, o.world.out)
  {
    hide RoomsOk, Indexed, SidsOk, LookupOk, Notified, OrderOfEnds, EndSessions, Elements, Stopped, HostedBy;
    var rid := w.connected[me];
    var room := w.rooms[rid];
    OwnId(w, me);
    var ends :| StopsWith(w, rid, me, ends, o.world);
    EndsAreThose(room.sessions, me, false, ends);
    var w1 := UpdateUser(w, rid, room.users[me].(streaming := false));
    EndsKeepRoom(w1, rid, me, ends);
    NotifiedOnlyOut(EndSessions(w1, rid, me, ends), rid, o.world);
    if !room.mode.Turn? {
      NoKeysToDrop(w.lookup, w.rooms, w.used, rid, Elements(ends));
    }
    StoppedIs(w, me, ends, o.world.out);
  }

  lemma EndsKeepRoom(w: World, rid: string, me: Xid, ends: seq<Xid>)
    requires rid in w.rooms && forall s | s in ends :: s in w.rooms[rid].sessions
    ensures rid in EndSessions(w, rid, me, ends).rooms
  {
  }

  lemma StoppedIs(w: World, me: Xid, ends: seq<Xid>, out: map<Xid, seq<Message>>)
    requires InRoom(w, me) && me in w.rooms[w.connected[me]].users && w.rooms[w.connected[me]].users[me].id == me
    requires
      var room := w.rooms[w.connected[me]];
      && Elements(ends) == HostedBy(room.sessions, me) && |Elements(ends)| == |ends|
      && (forall s | s in ends :: s in room.sessions)
      && (!room.mode.Turn? ==> w.lookup - KeysOf(Elements(ends)) == w.lookup)
    ensures
      var rid := w.connected[me];
      var w1 := UpdateUser(w, rid, w.rooms[rid].users[me].(streaming := false));
      && rid in w1.rooms && (forall s | s in ends :: s in w1.rooms[rid].sessions)
      && EndSessions(w1, rid, me, ends).(out := out) == Stopped(w, me, out)
  {
    hide KeysOf, EndOut, HostedBy, Elements;
  }

  lemma OwnId(w: World, me: Xid)
    requires Base(w) && InRoom(w, me)
    ensures me in w.rooms[w.connected[me]].users && w.rooms[w.connected[me]].users[me].id == me
  {
    assert RoomOk(w.connected[me], w.rooms[w.connected[me]]);
  }

  // ---------- Leaving ----------

  /** The room closes when this user leaves: it is the last one, or the owner of a room that closes with it. */
  predicate ClosesWithout(room: RoomState, me: Xid) {
    room.users.Keys == {me} || (me in room.users && room.users[me].owner && room.closeOnOwnerLeave)
  }

  /**
   * The client is gone. Of the room it was in, if any, its own sessions are gone with it; or all sessions and
   * the room itself, if the room closes; then all users of the room are gone, too.
   */
  function Parted(w: World, me: Xid, out: map<Xid, seq<Message>>): World {
    if !InRoom(w, me) then w.(connected := w.connected - {me}, out := out)
    else
      var rid := w.connected[me];
      var room := w.rooms[rid];
      if ClosesWithout(room, me) then
        w.(connected := w.connected - room.users.Keys,
           rooms := w.rooms - {rid},
           lookup := w.lookup - KeysOf(room.sessions.Keys),
           stats := CountedOut(w.stats, room),
           out := out)
      else
        var ended := WithEnd(room.sessions, me);
        w.(connected := w.connected - {me},
           rooms := w.rooms[rid := room.(users := room.users - {me}, sessions := room.sessions - ended)],
           lookup := w.lookup - KeysOf(ended),
           stats := w.stats.(usersLeft := w.stats.usersLeft + 1,
                             sessionsClosed := w.stats.sessionsClosed + |ended|),
           out := out)
  }

  lemma LeaverIsMember(w: World, me: Xid)
    requires BaseBut(w, me) && InRoom(w, me)
    ensures me in w.rooms[w.connected[me]].users
    ensures RoomOkBut(w.connected[me], w.rooms[w.connected[me]], me)
    ensures SidsOk(w.rooms, w.used) && LookupOk(w.lookup, w.rooms)
  {
    hide RoomOkBut;
  }

  /** The last user of a room is in no session. */
  lemma LastHasNone(rid: string, room: RoomState, me: Xid)
    requires RoomOkBut(rid, room, me) && room.users.Keys == {me}
    ensures room.sessions == map[] && room.users - {me} == map[]
  {
    assert EndsAreMembers(room);
  }

  lemma StaysIs(w: World, me: Xid, code: int, reason: string, ends: seq<Xid>, out: map<Xid, seq<Message>>)
    requires InRoom(w, me) && me in w.rooms[w.connected[me]].users && !ClosesWithout(w.rooms[w.connected[me]], me)
    requires
      var room := w.rooms[w.connected[me]];
      && Elements(ends) == WithEnd(room.sessions, me) && |Elements(ends)| == |ends|
      && (forall s | s in ends :: s in room.sessions)
      && (!room.mode.Turn? ==> w.lookup - KeysOf(Elements(ends)) == w.lookup)
    ensures
      var rid := w.connected[me];
      var w2 := RemoveUser(Forget(w, me, code, reason), rid, me);
      && rid in w2.rooms && (forall s | s in ends :: s in w2.rooms[rid].sessions)
      && EndSessions(w2, rid, me, ends).(out := out) == Parted(w, me, out)
  {
    hide KeysOf, EndOut, WithEnd, Elements;
  }

  lemma LastIs(w: World, me: Xid, code: int, reason: string, out: map<Xid, seq<Message>>)
    requires InRoom(w, me)
    requires
      var room := w.rooms[w.connected[me]];
      room.users.Keys == {me} && room.sessions == map[] && room.users - {me} == map[]
    ensures
      var rid := w.connected[me];
      var w2 := RemoveUser(Forget(w, me, code, reason), rid, me);
      rid in w2.rooms && CloseRoom(w2, rid).(out := out) == Parted(w, me, out)
  {
    hide KeysOf, WithEnd, RemoveUser, Forget, CloseRoom;
    var rid := w.connected[me];
    var room := w.rooms[rid];
    NoKeysOfNone(w.lookup, room.sessions);
    assert |room.users| == |room.users.Keys| == 1;
    EmptyCloses(w, rid, me, code, reason);
  }

  lemma EmptyCloses(w: World, rid: string, me: Xid, code: int, reason: string)
    requires rid in w.rooms && w.rooms[rid].users - {me} == map[] && w.rooms[rid].sessions == map[]
    requires w.lookup - KeysOf(w.rooms[rid].sessions.Keys) == w.lookup
    ensures
      var w2 := RemoveUser(Forget(w, me, code, reason), rid, me);
      && rid in w2.rooms
      && var w' := CloseRoom(w2, rid);
         w' == w.(connected := w.connected - {me}, rooms := w.rooms - {rid}, out := w'.out,
                  stats := w.stats.(usersLeft := w.stats.usersLeft + 1, roomsClosed := w.stats.roomsClosed + 1))
  {
    hide KeysOf, Post;
    var w2 := RemoveUser(Forget(w, me, code, reason), rid, me);
    RoomUpdatedAndDropped(w.rooms, rid, w2.rooms[rid], w2.rooms[rid]);
  }

  lemma NoKeysOfNone(lookup: map<string, Entry>, sessions: map<Xid, RoomSession>)
    ensures sessions == map[] ==> lookup - KeysOf(sessions.Keys) == lookup
  {
  }

  /** What a disconnect does, also after an event of the client failed halfway. */
  lemma DisconnectParts(w: World, me: Xid, code: int, reason: string, w': World)
    requires BaseBut(w, me) && Disconnects(w, me, code, reason, w')
    ensures w' == Parted(w, me, w'.out)
  {
    if InRoom(w, me) {
      LeaverIsMember(w, me);
      var room := w.rooms[w.connected[me]];
      if OwnsClosing(w, me) {
        hide BaseBut, Disconnects;
        OwnerTakesRoomAlong(w, me, code, reason, w');
      } else if room.users.Keys == {me} {
        hide BaseBut, RoomOkBut, Disconnects;
        LastParts(w, me, code, reason, w');
      } else {
        hide BaseBut, RoomOkBut, Disconnects;
        OneParts(w, me, code, reason, w');
      }
    }
  }

  lemma LastParts(w: World, me: Xid, code: int, reason: string, w': World)
    requires BaseBut(w, me) && Disconnects(w, me, code, reason, w') && InRoom(w, me) && !OwnsClosing(w, me)
    requires w.rooms[w.connected[me]].users.Keys == {me}
    ensures w' == Parted(w, me, w'.out)
  {
    hide BaseBut, RoomOkBut, Notified, EndSessions, Parted;
    LeaverIsMember(w, me);
    var rid := w.connected[me];
    var room := w.rooms[rid];
    LastHasNone(rid, room, me);
    var ends :| DisconnectsWith(w, rid, me, code, reason, ends, w');
    NoneEnd(room.sessions, me, ends);
    LastIs(w, me, code, reason, w'.out);
    var w2 := RemoveUser(Forget(w, me, code, reason), rid, me);
    EndSessionsNone(w2, rid, me);
  }

  lemma NoneEnd(all: map<Xid, RoomSession>, me: Xid, ends: seq<Xid>)
    requires OrderOfEnds(all, me, true, ends) && all == map[]
    ensures ends == []
  {
    EndsAreThose(all, me, true, ends);
  }

  lemma EndsKeepUsers(w: World, rid: string, me: Xid, ends: seq<Xid>)
    requires rid in w.rooms && forall s | s in ends :: s in w.rooms[rid].sessions
    ensures rid in EndSessions(w, rid, me, ends).rooms
    ensures EndSessions(w, rid, me, ends).rooms[rid].users == w.rooms[rid].users
    ensures EndSessions(w, rid, me, ends).rooms[rid].closeOnOwnerLeave == w.rooms[rid].closeOnOwnerLeave
  {
  }

  lemma OneParts(w: World, me: Xid, code: int, reason: string, w': World)
    requires BaseBut(w, me) && Disconnects(w, me, code, reason, w') && InRoom(w, me) && !OwnsClosing(w, me)
    requires w.rooms[w.connected[me]].users.Keys != {me}
    ensures w' == Parted(w, me, w'.out)
  {
    hide BaseBut, RoomOkBut, Notified, EndSessions, Parted, SidsOk, LookupOk, OrderOfEnds, WithEnd, Elements;
    LeaverIsMember(w, me);
    var rid := w.connected[me];
    var room := w.rooms[rid];
    var ends :| DisconnectsWith(w, rid, me, code, reason, ends, w');
    EndsAreThose(room.sessions, me, true, ends);
    if !room.mode.Turn? {
      NoKeysToDrop(w.lookup, w.rooms, w.used, rid, Elements(ends));
    }
    StaysIs(w, me, code, reason, ends, w'.out);
    var w2 := RemoveUser(Forget(w, me, code, reason), rid, me);
    EndsKeepUsers(w2, rid, me, ends);
    NotLast(room.users, me);
    NotifiedOnlyOut(EndSessions(w2, rid, me, ends), rid, w');
  }

  lemma NotLast(users: map<Xid, User>, me: Xid)
    requires me in users && users.Keys != {me}
    ensures users - {me} != map[]
  {
    assert (users - {me}).Keys == users.Keys - {me};
    assert users.Keys - {me} != {};
  }

  // ---------- Sessions that are opened ----------

  /** Of the sessions `after`, those not in `before` are fresh: one for each pair, and no others. */
  ghost predicate OneForEach(before: map<Xid, RoomSession>, after: map<Xid, RoomSession>, pairs: set<(Xid, Xid)>,
                             used: set<Xid>)
  {
    && (forall s | s in before :: s in after && after[s] == before[s])
    && (forall s | s in after && s !in before :: s !in used && (after[s].host, after[s].client) in pairs)
    && (forall p | p in pairs :: exists s :: s in after && s !in before && after[s] == RoomSession(p.0, p.1))
    && (forall s, t | s in after && s !in before && t in after && t !in before && after[s] == after[t] :: s == t)
  }

  /** The two keys of each opened session are added to the table, if the room uses it, and nothing else changes. */
  ghost predicate OnlyMore(before: map<string, Entry>, after: map<string, Entry>, added: set<string>) {
    after.Keys == before.Keys + added && OnlyFewer(after, before)
  }

  /** `w'` is `w` with one fresh session more in the room for each of the pairs, messages apart. */
  ghost predicate OpensFor(w: World, rid: string, pairs: set<(Xid, Xid)>, w': World) {
    && rid in w.rooms && rid in w'.rooms
    && OneForEach(w.rooms[rid].sessions, w'.rooms[rid].sessions, pairs, w.used)
    && var added := w'.rooms[rid].sessions.Keys - w.rooms[rid].sessions.Keys;
       && OnlyMore(w.lookup, w'.lookup, if w.rooms[rid].mode.Turn? then KeysOf(added) else {})
       && w' == w.(rooms := w.rooms[rid := w.rooms[rid].(sessions := w'.rooms[rid].sessions)],
                   lookup := w'.lookup,
                   used := w.used + added,
                   stats := w.stats.(sessionsCreated := w.stats.sessionsCreated + |added|),
                   out := w'.out)
  }

  lemma PlanServes(pairs: set<(Xid, Xid)>, used: set<Xid>, plan: seq<Pairing>)
    requires PlanFor(used, pairs, plan)
    ensures
      var all := PlanTable(plan);
      && (forall s | s in all :: s !in used && (all[s].host, all[s].client) in pairs)
      && (forall p | p in pairs :: exists s :: s in all && all[s] == RoomSession(p.0, p.1))
  {
    PlanTableIs(plan);
    var all := PlanTable(plan);
    hide PlanTable;
    forall s | s in all
      ensures s !in used && (all[s].host, all[s].client) in pairs
    {
      var i :| 0 <= i < |plan| && plan[i].sid == s;
    }
    forall p | p in pairs
      ensures exists s :: s in all && all[s] == RoomSession(p.0, p.1)
    {
      var i :| 0 <= i < |plan| && (plan[i].host, plan[i].client) == p;
      assert all[plan[i].sid] == RoomSession(p.0, p.1);
    }
  }

  lemma PlanServesOnce(pairs: set<(Xid, Xid)>, used: set<Xid>, plan: seq<Pairing>, s: Xid, t: Xid)
    requires PlanFor(used, pairs, plan)
    requires s in PlanTable(plan) && t in PlanTable(plan) && PlanTable(plan)[s] == PlanTable(plan)[t]
    ensures s == t
  {
    PlanTableIs(plan);
    var i :| 0 <= i < |plan| && plan[i].sid == s;
    var j :| 0 <= j < |plan| && plan[j].sid == t;
    hide PlanTable;
    assert (plan[i].host, plan[i].client) == (plan[j].host, plan[j].client);
    assert i == j;
  }

  lemma PlanIsOneForEach(before: map<Xid, RoomSession>, pairs: set<(Xid, Xid)>, used: set<Xid>, plan: seq<Pairing>)
    requires PlanFor(used, pairs, plan) && before.Keys <= used
    ensures OneForEach(before, before + PlanTable(plan), pairs, used)
    ensures (before + PlanTable(plan)).Keys - before.Keys == PlanTable(plan).Keys && |PlanTable(plan)| == |plan|
  {
    PlanServes(pairs, used, plan);
    PlanTableFresh(plan, used);
    var all := PlanTable(plan);
    forall s, t | s in all && t in all && all[s] == all[t]
      ensures s == t
    {
      PlanServesOnce(pairs, used, plan, s, t);
    }
    hide PlanTable, PlanFor;
    AddedIsOneForEach(before, all, pairs, used);
  }

  lemma AddedIsOneForEach(before: map<Xid, RoomSession>, all: map<Xid, RoomSession>, pairs: set<(Xid, Xid)>,
                          used: set<Xid>)
    requires before.Keys <= used
    requires forall s | s in all :: s !in used && (all[s].host, all[s].client) in pairs
    requires forall p | p in pairs :: exists s :: s in all && all[s] == RoomSession(p.0, p.1)
    requires forall s, t | s in all && t in all && all[s] == all[t] :: s == t
    ensures OneForEach(before, before + all, pairs, used)
    ensures (before + all).Keys - before.Keys == all.Keys
  {
    var after := before + all;
    forall p | p in pairs
      ensures exists s :: s in after && s !in before && after[s] == RoomSession(p.0, p.1)
    {
      var s :| s in all && all[s] == RoomSession(p.0, p.1);
      assert after[s] == RoomSession(p.0, p.1);
    }
  }

  /** A key of a fresh session is not in the table yet. */
  lemma {:induction false} PlanOnlyMore(lookup: map<string, Entry>, users: map<Xid, User>, plan: seq<Pairing>,
                                        sids: set<Xid>)
    requires lookup.Keys == KeysOf(sids) && forall i | 0 <= i < |plan| :: plan[i].sid !in sids
    ensures OnlyMore(lookup, PlanLookup(lookup, users, plan), KeysOf(PlanTable(plan).Keys))
  {
    PlanLookupKeys(lookup, users, plan);
    if plan != [] {
      var n := |plan| - 1;
      PlanOnlyMore(lookup, users, plan[..n], sids);
      FreshKeys(sids, plan[n].sid);
      hide KeysOf, PlanTable;
    }
  }

  lemma FreshKeys(sids: set<Xid>, s: Xid)
    requires s !in sids
    ensures HostKey(s) !in KeysOf(sids) && ClientKey(s) !in KeysOf(sids)
  {
    forall t | t in sids
      ensures HostKey(t) != HostKey(s) && HostKey(t) != ClientKey(s)
      ensures ClientKey(t) != HostKey(s) && ClientKey(t) != ClientKey(s)
    {
      KeysAreInjective(s, t);
      KeysAreInjective(t, s);
    }
  }

  lemma OpensOpens(w: World, rid: string, pairs: set<(Xid, Xid)>, o: Outcome)
    requires SidsOk(w.rooms, w.used) && LookupOk(w.lookup, w.rooms)
    requires rid in w.rooms && OpensSessions(w, rid, pairs, o) && o.error.None?
    ensures OpensFor(w, rid, pairs, o.world)
  {
    hide OneForEach, OnlyMore, PlanTable, PlanLookup, PlanOut, TurnSids, KeysOf, PlanFor, OpensFor;
    var plan: seq<Pairing> :| Opens(w, rid, pairs, plan, o.reply.At(), o.world);
    var room := w.rooms[rid];
    TurnSidsUsed(w.rooms, w.used);
    PlanIsOneForEach(room.sessions, pairs, w.used, plan);
    PlanIsFresh(pairs, w.used, plan);
    if room.mode.Turn? {
      PlanOnlyMore(w.lookup, room.users, plan, TurnSids(w.rooms));
    } else {
      SameIsOnlyMore(w.lookup);
    }
    hide SidsOk, LookupOk, OpensSessions;
    NewSessionsOpen(w, rid, pairs, plan, o.reply.At());
  }

  lemma PlanIsFresh(pairs: set<(Xid, Xid)>, used: set<Xid>, plan: seq<Pairing>)
    requires PlanFor(used, pairs, plan)
    ensures forall i | 0 <= i < |plan| :: plan[i].sid !in used
  {
  }

  lemma NewSessionsOpen(w: World, rid: string, pairs: set<(Xid, Xid)>, plan: seq<Pairing>, at: Addresses)
    requires rid in w.rooms
    requires
      var room := w.rooms[rid];
      && OneForEach(room.sessions, room.sessions + PlanTable(plan), pairs, w.used)
      && (room.sessions + PlanTable(plan)).Keys - room.sessions.Keys == PlanTable(plan).Keys
      && |PlanTable(plan)| == |plan|
      && OnlyMore(w.lookup, if room.mode.Turn? then PlanLookup(w.lookup, room.users, plan) else w.lookup,
                  if room.mode.Turn? then KeysOf(PlanTable(plan).Keys) else {})
    ensures OpensFor(w, rid, pairs, NewSessions(w, rid, plan, at))
  {
    hide OneForEach, OnlyMore, PlanTable, PlanLookup, PlanOut, KeysOf;
    assert |PlanTable(plan).Keys| == |PlanTable(plan)|;
  }

  lemma SameIsOnlyMore(lookup: map<string, Entry>)
    ensures OnlyMore(lookup, lookup, {})
  {
  }

  lemma TurnSidsUsed(rooms: map<string, RoomState>, used: set<Xid>)
    requires SidsOk(rooms, used)
    ensures TurnSids(rooms) <= used
  {
  }

  // ---------- Entering ----------

  /** The name of a logged-in client is its login name; otherwise it is the one it asked for, if any. */
  predicate Named(info: ClientInfo, asked: string, name: string) {
    && (info.authenticated && info.authenticatedUser != "" ==> name == info.authenticatedUser)
    && (!info.authenticated && asked != "" ==> name == asked)
  }

  /** The client is a user of the room under this name, neither streaming nor its owner, and indexed there. */
  function Entered(w: World, id: string, info: ClientInfo, name: string): World
    requires id in w.rooms
  {
    var users := w.rooms[id].users[info.id := User(info.id, info.addr, name, false, false)];
    w.(connected := w.connected[info.id := id],
       rooms := w.rooms[id := w.rooms[id].(users := users)],
       stats := w.stats.(usersJoined := w.stats.usersJoined + 1))
  }

  /** The streaming members, each with the newcomer. */
  function StreamsTo(users: map<Xid, User>, me: Xid): set<(Xid, Xid)> {
    set h | h in users && h != me && users[h].streaming :: (h, me)
  }

  lemma EnteredBooks(w: World, id: string, info: ClientInfo, name: string)
    requires SidsOk(w.rooms, w.used) && LookupOk(w.lookup, w.rooms) && id in w.rooms
    ensures
      var v := Entered(w, id, info, name);
      SidsOk(v.rooms, v.used) && LookupOk(v.lookup, v.rooms)
  {
    var room := Entered(w, id, info, name).rooms[id];
    UsersKeepSids(w.rooms, w.used, id, room);
    UsersKeepLookup(w.lookup, w.rooms, w.used, id, room);
  }

  lemma JoinJoins(w: World, info: ClientInfo, id: string, asked: string, o: Outcome) returns (name: string)
    requires SidsOk(w.rooms, w.used) && LookupOk(w.lookup, w.rooms)
    requires Joins(w, info, id, asked, o) && Where(w, info.id) == "" && id in w.rooms
    ensures Named(info, asked, name)
    ensures o.error.None? ==> OpensFor(Entered(w, id, info, name), id, StreamsTo(w.rooms[id].users, info.id), o.world)
    ensures o.error.Some? ==> o.world == Entered(w, id, info, name).(out := o.world.out)
  {
    hide SidsOk, LookupOk, Notified, OpensSessions, OpensFor;
    var n, w1 :| JoinsAs(w, info, id, asked, n, w1, o);
    name := n;
    var v := Entered(w, id, info, name);
    NotifiedOnlyOut(v, id, w1);
    EnteredBooks(w, id, info, name);
    assert PairsOnJoin(w1.rooms[id].users, info.id) == StreamsTo(w.rooms[id].users, info.id);
    if o.error.None? {
      OpensOpens(w1, id, PairsOnJoin(w1.rooms[id].users, info.id), o);
      OpensForOut(v, id, StreamsTo(w.rooms[id].users, info.id), w1.out, o.world);
    } else {
      OpensNone(w1, id, PairsOnJoin(w1.rooms[id].users, info.id), o);
    }
  }

  lemma OpensForOut(v: World, id: string, pairs: set<(Xid, Xid)>, out: map<Xid, seq<Message>>, w': World)
    requires OpensFor(v.(out := out), id, pairs, w')
    ensures OpensFor(v, id, pairs, w')
  {
    hide OneForEach, OnlyMore, KeysOf;
  }

  lemma OpensNone(w: World, rid: string, pairs: set<(Xid, Xid)>, o: Outcome)
    requires rid in w.rooms && OpensSessions(w, rid, pairs, o) && o.error.Some?
    ensures o.world == w
  {
  }

  // ---------- Starting to share ----------

  /** The user streams. */
  function Streaming(w: World, me: Xid): World
    requires InRoom(w, me) && me in w.rooms[w.connected[me]].users
  {
    var rid := w.connected[me];
    var users := w.rooms[rid].users[me := w.rooms[rid].users[me].(streaming := true)];
    w.(rooms := w.rooms[rid := w.rooms[rid].(users := users)])
  }

  /** The user, with each other member. */
  function StreamsFrom(users: map<Xid, User>, me: Xid): set<(Xid, Xid)> {
    set c | c in users && c != me :: (me, c)
  }

  lemma StreamingBooks(w: World, me: Xid)
    requires SidsOk(w.rooms, w.used) && LookupOk(w.lookup, w.rooms)
    requires InRoom(w, me) && me in w.rooms[w.connected[me]].users
    ensures
      var v := Streaming(w, me);
      SidsOk(v.rooms, v.used) && LookupOk(v.lookup, v.rooms)
  {
    var rid := w.connected[me];
    var room := Streaming(w, me).rooms[rid];
    UsersKeepSids(w.rooms, w.used, rid, room);
    UsersKeepLookup(w.lookup, w.rooms, w.used, rid, room);
  }

  lemma ShareShares(w: World, me: Xid, o: Outcome)
    requires Base(w) && StartsShare(w, me, o) && InRoom(w, me)
    ensures me in w.rooms[w.connected[me]].users
    ensures o.error.None? ==>
              OpensFor(Streaming(w, me), w.connected[me], StreamsFrom(w.rooms[w.connected[me]].users, me), o.world)
    ensures o.error.Some? ==> o.world == Streaming(w, me)
  {
    hide RoomsOk, Indexed, SidsOk, LookupOk, Notified, OpensSessions, OpensFor;
    var rid := w.connected[me];
    OwnId(w, me);
    var o1 :| SharesAs(w, rid, me, o1, o);
    var v := Streaming(w, me);
    StreamingBooks(w, me);
    assert PairsOnShare(v.rooms[rid].users, me) == StreamsFrom(w.rooms[rid].users, me);
    if o.error.None? {
      OpensOpens(v, rid, PairsOnShare(v.rooms[rid].users, me), o1);
      NotifiedOnlyOut(o1.world, rid, o.world);
      OpensForOutAfter(v, rid, StreamsFrom(w.rooms[rid].users, me), o1.world, o.world.out);
    } else {
      OpensNone(v, rid, PairsOnShare(v.rooms[rid].users, me), o1);
    }
  }

  lemma OpensForOutAfter(v: World, id: string, pairs: set<(Xid, Xid)>, w': World, out: map<Xid, seq<Message>>)
    requires OpensFor(v, id, pairs, w')
    ensures OpensFor(v, id, pairs, w'.(out := out))
  {
    hide OneForEach, OnlyMore, KeysOf;
  }

  // ---------- Creating ----------

  /** There is a new room, as asked for, whose only user is the client, its owner; it is indexed there. */
  function Created(w: World, info: ClientInfo, e: Event, name: string, out: map<Xid, seq<Message>>): World
    requires e.Create?
  {
    var users := map[info.id := User(info.id, info.addr, name, false, true)];
    w.(connected := w.connected[info.id := e.id],
       rooms := w.rooms[e.id := RoomState(e.id, e.closeOnOwnerLeave, e.mode, users, map[], info.authenticated)],
       stats := w.stats.(usersJoined := w.stats.usersJoined + 1, roomsCreated := w.stats.roomsCreated + 1),
       out := out)
  }

  lemma CreateCreates(w: World, info: ClientInfo, e: Event, o: Outcome) returns (name: string)
    requires e.Create? && Creates(w, info, e, o) && o.error.None? && e.id !in w.rooms
    ensures Named(info, e.userName, name) && o.world == Created(w, info, e, name, o.world.out)
  {
    hide Notified;
    var n :| NameFor(info, e.userName, n) && Notified(OpenRoom(w, info, e, n), e.id, o.world);
    name := n;
    NotifiedOnlyOut(OpenRoom(w, info, e, name), e.id, o.world);
  }

  // ---------- Renaming ----------

  function Renamed(w: World, me: Xid, name: string, out: map<Xid, seq<Message>>): World
    requires InRoom(w, me) && me in w.rooms[w.connected[me]].users
  {
    var rid := w.connected[me];
    var users := w.rooms[rid].users[me := w.rooms[rid].users[me].(name := name)];
    w.(rooms := w.rooms[rid := w.rooms[rid].(users := users)], out := out)
  }

  lemma RenameRenames(w: World, me: Xid, name: string, o: Outcome)
    requires Base(w) && Renames(w, me, name, o) && InRoom(w, me)
    ensures me in w.rooms[w.connected[me]].users && o.world == Renamed(w, me, name, o.world.out)
  {
    hide RoomsOk, Indexed, Books, Notified;
    var rid := w.connected[me];
    OwnId(w, me);
    NotifiedOnlyOut(UpdateUser(w, rid, w.rooms[rid].users[me].(name := name)), rid, o.world);
  }

  // ---------- Main results ----------

  /** The outcome of an event of a client in the index, and what becomes of it. */
  lemma OutcomeOf(w: World, m: ClientMessage, w': World) returns (o: Outcome)
    requires Next(w, m, w') && m.info.id in w.connected
    ensures Executes(w, m.info, m.event, o) && o.reply == m.reply
    ensures o.error == Refusal(w, m.info, m.event, m.reply)
    ensures if o.error.None? then w' == o.world
            else Disconnects(o.world, m.info.id, NORMAL_CLOSURE, o.error.value, w')
  {
    hide Executes, Disconnects, Refusal;
    o :| Executes(w, m.info, m.event, o) && o.reply == m.reply && Completes(o, m.info.id, w');
    ExecuteFails(w, m.info, m.event, o);
  }

  /** A disconnect takes the client out, and nothing more than goes with it. */
  lemma DisconnectEffect(w: World, m: ClientMessage, w': World)
    requires Base(w) && Next(w, m, w') && m.info.id in w.connected && m.event.Disconnected?
    ensures w' == Parted(w, m.info.id, w'.out)
  {
    hide Base, BaseBut, Next, Executes, Disconnects, Parted;
    var o := OutcomeOf(w, m, w');
    DisconnectOnly(w, m.info, m.event, o);
    BaseWeaken(w, m.info.id);
    DisconnectParts(w, m.info.id, m.event.code, m.event.reason, w');
  }

  /**
   * A member that stops sharing no longer streams; the sessions it hosted are gone, with their keys; and
   * nothing else changes.
   */
  lemma StopEffect(w: World, m: ClientMessage, w': World)
    requires Base(w) && Next(w, m, w') && m.event.StopShare? && InRoom(w, m.info.id)
    ensures m.info.id in w.rooms[w.connected[m.info.id]].users && w' == Stopped(w, m.info.id, w'.out)
  {
    hide Base, Next, StopsShare, Disconnects, Stopped;
    var o := OutcomeOf(w, m, w');
    StopStops(w, m.info.id, o);
  }

  /** A rename gives the member the name it asked for, and changes nothing else. */
  lemma RenameEffect(w: World, m: ClientMessage, w': World)
    requires Base(w) && Next(w, m, w') && m.event.Name? && InRoom(w, m.info.id)
    ensures m.info.id in w.rooms[w.connected[m.info.id]].users
    ensures w' == Renamed(w, m.info.id, m.event.userName, w'.out)
  {
    hide Base, Next, Renames, Disconnects, Renamed;
    var o := OutcomeOf(w, m, w');
    RenameRenames(w, m.info.id, m.event.userName, o);
  }

  /** The client asks for a room that does not exist, in a mode in which it may create one. */
  predicate MayOpen(w: World, m: ClientMessage) {
    && m.event.Create? && m.info.id in w.connected && Where(w, m.info.id) == "" && m.event.id !in w.rooms
    && CreatorOk(w.authMode, m.event.mode, m.info.authenticated)
  }

  /** Whoever may create a room gets it: the room is there as asked for, and the client is its owner. */
  lemma CreateEffect(w: World, m: ClientMessage, w': World) returns (name: string)
    requires Next(w, m, w') && MayOpen(w, m)
    ensures Named(m.info, m.event.userName, name) && w' == Created(w, m.info, m.event, name, w'.out)
  {
    hide Next, Creates, Disconnects, CreatorOk, Named, Created;
    var o := OutcomeOf(w, m, w');
    name := CreateCreates(w, m.info, m.event, o);
  }

  /**
   * Whoever is let into an existing room, the IP provider replying, is a user of it with one session from each
   * streaming member; nothing else changes.
   */
  lemma JoinEffect(w: World, m: ClientMessage, w': World) returns (name: string)
    requires Base(w) && Next(w, m, w') && LetIn(w, m) && m.event.id in w.rooms && m.reply.error.None?
    ensures Named(m.info, m.event.userName, name)
    ensures OpensFor(Entered(w, m.event.id, m.info, name), m.event.id,
                     StreamsTo(w.rooms[m.event.id].users, m.info.id), w')
  {
    BaseTables(w);
    hide Base, Next, Joins, Disconnects, SidsOk, LookupOk, CreatorOk, Named, OpensFor;
    var o := OutcomeOf(w, m, w');
    name := JoinJoins(w, m.info, m.event.id, m.event.userName, o);
  }

  lemma BaseTables(w: World)
    requires Base(w)
    ensures SidsOk(w.rooms, w.used) && LookupOk(w.lookup, w.rooms)
  {
  }

  /**
   * A member that shares, the IP provider replying, streams and has one more session to each other member;
   * nothing else changes.
   */
  lemma ShareEffect(w: World, m: ClientMessage, w': World)
    requires Base(w) && Next(w, m, w') && m.event.StartShare? && InRoom(w, m.info.id) && m.reply.error.None?
    ensures m.info.id in w.rooms[w.connected[m.info.id]].users
    ensures OpensFor(Streaming(w, m.info.id), w.connected[m.info.id],
                     StreamsFrom(w.rooms[w.connected[m.info.id]].users, m.info.id), w')
  {
    hide Base, Next, StartsShare, Disconnects, OpensFor;
    var o := OutcomeOf(w, m, w');
    ShareShares(w, m.info.id, o);
  }

  /** A new connection is indexed, in no room; a relayed message changes nothing but what is written. */
  lemma OtherEffects(w: World, m: ClientMessage, w': World)
    requires Arrives(w, m) && Next(w, m, w')
    ensures m.event.Connected? ==>
              w' == w.(connected := w.connected[m.info.id := ""], used := w.used + {m.info.id})
    ensures m.event.Relay? && m.info.id in w.connected && Refusal(w, m.info, m.event, m.reply).None? ==>
              w' == w.(out := w'.out)
    ensures !m.event.Connected? && m.info.id !in w.connected ==> w' == w
  {
    hide Disconnects;
    if m.event.Relay? && m.info.id in w.connected {
      var o := OutcomeOf(w, m, w');
    }
  }

  // ---------- When an event fails ----------

  /** The IP provider failed after the client had entered: it was counted in and out again. */
  function Turned(w: World, m: ClientMessage, name: string, out: map<Xid, seq<Message>>): World
    requires LetIn(w, m) && m.event.id in w.rooms
  {
    var v := Entered(w, m.event.id, m.info, name);
    w.(connected := w.connected - {m.info.id},
       rooms := if m.event.id == "" then v.rooms else w.rooms,
       stats := if m.event.id == "" then v.stats else v.stats.(usersLeft := v.stats.usersLeft + 1),
       out := out)
  }

  /** A newcomer that owns nothing and is in no session leaves the room as it was. */
  lemma NewcomerParts(w: World, m: ClientMessage, name: string, out: map<Xid, seq<Message>>)
    requires Base(w) && LetIn(w, m) && m.event.id in w.rooms
    ensures Parted(Entered(w, m.event.id, m.info, name), m.info.id, out) == Turned(w, m, name, out)
  {
    hide Base, LetIn, Parted, WithEnd;
    EntrantIsKnown(w, m);
    var rid := m.event.id;
    if rid != "" {
      NewcomerFacts(w, m);
      NewcomerGone(w, rid, m.info, name, out);
    } else {
      NamelessParts(Entered(w, rid, m.info, name), m.info.id, out);
      assert Entered(w, rid, m.info, name).connected - {m.info.id} == w.connected - {m.info.id};
    }
  }

  lemma NamelessParts(w: World, me: Xid, out: map<Xid, seq<Message>>)
    requires !InRoom(w, me)
    ensures Parted(w, me, out) == w.(connected := w.connected - {me}, out := out)
  {
  }

  lemma NewcomerFacts(w: World, m: ClientMessage)
    requires Base(w) && LetIn(w, m) && m.event.id in w.rooms && m.event.id != ""
    ensures
      var room := w.rooms[m.event.id];
      && m.info.id !in room.users && room.users != map[] && WithEnd(room.sessions, m.info.id) == {}
      && m.info.id in w.connected
  {
    hide Books, Sharing, HasOwner, AtMostOneOwner;
    assert RoomOk(m.event.id, w.rooms[m.event.id]);
  }

  lemma NewcomerGone(w: World, rid: string, info: ClientInfo, name: string, out: map<Xid, seq<Message>>)
    requires rid != "" && rid in w.rooms && info.id !in w.rooms[rid].users && w.rooms[rid].users != map[]
    requires WithEnd(w.rooms[rid].sessions, info.id) == {}
    ensures
      var v := Entered(w, rid, info, name);
      Parted(v, info.id, out) == w.(connected := w.connected - {info.id}, out := out,
                                    stats := v.stats.(usersLeft := v.stats.usersLeft + 1))
  {
    var v := Entered(w, rid, info, name);
    var room, room' := w.rooms[rid], v.rooms[rid];
    NotTheLast(room.users, room'.users[info.id]);
    NoKeysOfNone(w.lookup, map[]);
    assert room'.sessions - {} == room.sessions;
    assert v.connected - {info.id} == w.connected - {info.id};
    hide KeysOf, WithEnd, CountedOut;
    assert v.rooms[rid := room] == w.rooms;
  }

  lemma NotTheLast(users: map<Xid, User>, u: User)
    requires users != map[] && u.id !in users
    ensures users[u.id := u].Keys != {u.id} && users[u.id := u] - {u.id} == users
  {
    var v :| v in users;
    assert v in users[u.id := u].Keys;
  }

  /** Leaving after the mark of a failed share is leaving. */
  lemma StreamerParts(w: World, me: Xid, out: map<Xid, seq<Message>>)
    requires InRoom(w, me) && me in w.rooms[w.connected[me]].users
    ensures Parted(Streaming(w, me), me, out) == Parted(w, me, out)
  {
    hide KeysOf, WithEnd, ClosesWithout, CountedOut;
    var rid := w.connected[me];
    var u := w.rooms[rid].users[me].(streaming := true);
    MarkIsNothing(w.rooms[rid], me, u);
    MarkVanishes(w.rooms, rid, u, me, WithEnd(w.rooms[rid].sessions, me));
    CountedSame(w.stats, w.rooms[rid], Streaming(w, me).rooms[rid]);
  }

  lemma MarkIsNothing(room: RoomState, me: Xid, u: User)
    requires me in room.users && u == room.users[me].(streaming := u.streaming)
    ensures
      var room' := room.(users := room.users[me := u]);
      && room'.users.Keys == room.users.Keys && |room'.users| == |room.users|
      && room'.users - {me} == room.users - {me} && (ClosesWithout(room', me) <==> ClosesWithout(room, me))
  {
    var room' := room.(users := room.users[me := u]);
    assert room'.users.Keys == room.users.Keys;
    assert |room'.users| == |room'.users.Keys|;
  }

  lemma CountedSame(stats: Counters, a: RoomState, b: RoomState)
    requires |a.users| == |b.users| && a.sessions == b.sessions
    ensures CountedOut(stats, a) == CountedOut(stats, b)
  {
  }

  lemma MarkVanishes(rooms: map<string, RoomState>, rid: string, u: User, me: Xid, ended: set<Xid>)
    requires rid in rooms && me in rooms[rid].users
    ensures
      var room := rooms[rid].(users := rooms[rid].users[me := u]);
      && rooms[rid := room] - {rid} == rooms - {rid}
      && rooms[rid := room][rid := room.(users := room.users - {me}, sessions := room.sessions - ended)] ==
         rooms[rid := rooms[rid].(users := rooms[rid].users - {me}, sessions := rooms[rid].sessions - ended)]
  {
    var room := rooms[rid].(users := rooms[rid].users[me := u]);
    assert room.users - {me} == rooms[rid].users - {me};
  }

  /** What a failed event leaves behind before its sender is thrown out. */
  lemma FailedLeaves(w: World, m: ClientMessage, o: Outcome) returns (name: string)
    requires Base(w) && Executes(w, m.info, m.event, o) && o.error.Some? && m.info.id in w.connected
    ensures if LetIn(w, m) then
              && m.event.id in w.rooms && Named(m.info, m.event.userName, name)
              && o.world == Entered(w, m.event.id, m.info, name).(out := o.world.out)
            else
              o.world == w || (InRoom(w, m.info.id) && m.info.id in w.rooms[w.connected[m.info.id]].users &&
                               o.world == Streaming(w, m.info.id))
  {
    BaseTables(w);
    hide Base, Joins, StartsShare, SidsOk, LookupOk, CreatorOk, Named, Entered, Streaming;
    ExecuteFails(w, m.info, m.event, o);
    name := "";
    if LetIn(w, m) {
      name := JoinJoins(w, m.info, m.event.id, m.event.userName, o);
    } else if m.event.StartShare? && InRoom(w, m.info.id) {
      ShareShares(w, m.info.id, o);
    } else {
      RefusedAtOnce(w, m, o);
    }
  }

  lemma RefusedAtOnce(w: World, m: ClientMessage, o: Outcome)
    requires Executes(w, m.info, m.event, o) && o.error.Some? && m.info.id in w.connected && !LetIn(w, m)
    requires !(m.event.StartShare? && InRoom(w, m.info.id))
    ensures o.world == w
  {
    hide Notified, OpensSessions;
    ExecuteFails(w, m.info, m.event, o);
  }

  /**
   * The sender of an event that fails is thrown out: it leaves as by a disconnect, except that if it was let
   * into a room before the IP provider failed, it is counted in and out.
   */
  lemma RefusedEffect(w: World, m: ClientMessage, w': World) returns (name: string)
    requires Base(w) && Arrives(w, m) && Next(w, m, w') && m.info.id in w.connected
    requires Refusal(w, m.info, m.event, m.reply).Some?
    ensures if LetIn(w, m) then
              && m.event.id in w.rooms && Named(m.info, m.event.userName, name)
              && w' == Turned(w, m, name, w'.out)
            else w' == Parted(w, m.info.id, w'.out)
  {
    KnownSender(w, m);
    hide Base, BaseBut, Next, Executes, Disconnects, Refusal, LetIn, InRoom, Entered, Streaming, Turned, Parted, Named;
    var o := OutcomeOf(w, m, w');
    ExecuteBase(w, m.info, m.event, o);
    DisconnectParts(o.world, m.info.id, NORMAL_CLOSURE, o.error.value, w');
    name := FailedLeaves(w, m, o);
    if LetIn(w, m) {
      NewcomerParts(w, m, name, w'.out);
      PartedOut(Entered(w, m.event.id, m.info, name), m.info.id, o.world.out, w'.out);
    } else if o.world != w {
      StreamerParts(w, m.info.id, w'.out);
    }
  }

  lemma PartedOut(w: World, me: Xid, before: map<Xid, seq<Message>>, out: map<Xid, seq<Message>>)
    ensures Parted(w.(out := before), me, out) == Parted(w, me, out)
  {
  }
}
