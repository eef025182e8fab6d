/** How the handlers keep one room right: its session relation, its users and its owner. */
module RoomProofs {
  import opened Types
  import opened Spec
  import opened Invariants

  /** The session relation for pairs that do not involve `me`, whose event failed halfway. */
  ghost predicate SharingBut(room: RoomState, me: Xid) {
    forall h, c | h in room.users && c in room.users && h != c && h != me && c != me ::
      Joined(room.sessions, h, c) <==> room.users[h].streaming
  }

  /** A room that is right up to the sessions of `me`. */
  ghost predicate RoomOkBut(rid: string, room: RoomState, me: Xid) {
    && room.id == rid
    && room.users != map[]
    && (forall u | u in room.users :: room.users[u].id == u)
    && EndsAreMembers(room)
    && (if rid == "" then Sharing(room) else SharingBut(room, me))
    && AtMostOneOwner(room)
    && (room.closeOnOwnerLeave && rid != "" ==> HasOwner(room))
    && (rid == "" ==> forall u | u in room.users :: !room.users[u].streaming)
  }

  ghost predicate RoomsOkBut(rooms: map<string, RoomState>, me: Xid) {
    forall r | r in rooms :: RoomOkBut(r, rooms[r], me)
  }

  ghost predicate NoSessionsOf(sessions: map<Xid, RoomSession>, me: Xid) {
    forall s | s in sessions :: sessions[s].host != me && sessions[s].client != me
  }

  lemma RoomsOkWeaken(rooms: map<string, RoomState>, me: Xid)
    requires RoomsOk(rooms)
    ensures RoomsOkBut(rooms, me)
  {
  }

  // ---------- Opening sessions ----------

  /** The sessions of a plan exist afterwards, and so do exactly the earlier ones. */
  lemma JoinedAfterPlan(used: set<Xid>, sessions: map<Xid, RoomSession>, plan: seq<Pairing>, h: Xid, c: Xid)
    requires sessions.Keys <= used && FreshPlan(used, plan)
    ensures Joined(sessions + PlanTable(plan), h, c) <==>
            Joined(sessions, h, c) || exists i :: 0 <= i < |plan| && (plan[i].host, plan[i].client) == (h, c)
  {
    var after := sessions + PlanTable(plan);
    PlanTableIs(plan);
    PlanTableFresh(plan, used);
    if Joined(sessions, h, c) {
      var s :| s in sessions && sessions[s] == RoomSession(h, c);
      assert s in after && after[s] == RoomSession(h, c);
    }
    if i :| 0 <= i < |plan| && (plan[i].host, plan[i].client) == (h, c) {
      assert plan[i].sid in after && after[plan[i].sid] == RoomSession(h, c);
    }
  }

  lemma PlanHas(w: World, pairs: set<(Xid, Xid)>, plan: seq<Pairing>, h: Xid, c: Xid)
    requires PlanFor(w.used, pairs, plan)
    ensures (exists i :: 0 <= i < |plan| && (plan[i].host, plan[i].client) == (h, c)) <==> (h, c) in pairs
  {
  }

  lemma EndsAfterPlan(used: set<Xid>, room: RoomState, plan: seq<Pairing>)
    requires room.sessions.Keys <= used && FreshPlan(used, plan) && EndsAreMembers(room)
    requires forall i | 0 <= i < |plan| ::
               plan[i].host in room.users && plan[i].client in room.users && plan[i].host != plan[i].client
    ensures EndsAreMembers(room.(sessions := room.sessions + PlanTable(plan)))
  {
    PlanTableIs(plan);
  }

  /** A user who joins is given one session with each streaming member, which completes the relation. */
  lemma JoinCompletes(w: World, rid: string, room: RoomState, me: Xid, plan: seq<Pairing>)
    requires RoomOkBut(rid, room, me) && me in room.users && !room.users[me].streaming
    requires room.sessions.Keys <= w.used && PlanFor(w.used, PairsOnJoin(room.users, me), plan)
    requires rid != "" ==> NoSessionsOf(room.sessions, me)
    ensures RoomOk(rid, room.(sessions := room.sessions + PlanTable(plan)))
  {
    var room' := room.(sessions := room.sessions + PlanTable(plan));
    EndsAfterPlan(w.used, room, plan);
    forall h, c | h in room.users && c in room.users && h != c
      ensures Joined(room'.sessions, h, c) <==> room.users[h].streaming
    {
      JoinedAfterPlan(w.used, room.sessions, plan, h, c);
      PlanHas(w, PairsOnJoin(room.users, me), plan, h, c);
    }
  }

  /** A user who starts to share is given one session with each other member. */
  lemma ShareCompletes(w: World, rid: string, room: RoomState, me: Xid, plan: seq<Pairing>)
    requires RoomOkBut(rid, room, me) && me in room.users && room.users[me].streaming && rid != ""
    requires room.sessions.Keys <= w.used && PlanFor(w.used, PairsOnShare(room.users, me), plan)
    requires forall h | h in room.users && h != me :: Joined(room.sessions, h, me) <==> room.users[h].streaming
    ensures RoomOk(rid, room.(sessions := room.sessions + PlanTable(plan)))
  {
    var room' := room.(sessions := room.sessions + PlanTable(plan));
    EndsAfterPlan(w.used, room, plan);
    forall h, c | h in room.users && c in room.users && h != c
      ensures Joined(room'.sessions, h, c) <==> room.users[h].streaming
    {
      JoinedAfterPlan(w.used, room.sessions, plan, h, c);
      PlanHas(w, PairsOnShare(room.users, me), plan, h, c);
    }
  }

  // ---------- Ending sessions ----------

  lemma JoinedAfterEnds(sessions: map<Xid, RoomSession>, me: Xid, leaving: bool, ends: seq<Xid>, h: Xid, c: Xid)
    requires OrderOfEnds(sessions, me, leaving, ends)
    ensures Joined(sessions - Elements(ends), h, c) <==>
            Joined(sessions, h, c) && h != me && !(leaving && c == me)
  {
    var after := sessions - Elements(ends);
    if Joined(sessions, h, c) && h != me && !(leaving && c == me) {
      var s :| s in sessions && sessions[s] == RoomSession(h, c);
      assert s in after && after[s] == RoomSession(h, c);
    }
  }

  /** A user who stops sharing keeps only the sessions in which it watches. */
  lemma StopCompletes(rid: string, room: RoomState, me: Xid, ends: seq<Xid>, room': RoomState)
    requires RoomOk(rid, room) && me in room.users && OrderOfEnds(room.sessions, me, false, ends)
    requires room' == room.(users := room.users[me := room.users[me].(streaming := false)],
                            sessions := room.sessions - Elements(ends))
    ensures RoomOk(rid, room')
  {
    forall h, c | h in room'.users && c in room'.users && h != c
      ensures Joined(room'.sessions, h, c) <==> room'.users[h].streaming
    {
      JoinedAfterEnds(room.sessions, me, false, ends, h, c);
    }
    OwnersKept(room, me, room');
  }

  lemma OwnersKept(room: RoomState, me: Xid, room': RoomState)
    requires me in room.users
    requires room'.users.Keys == room.users.Keys
    requires forall u | u in room.users :: room'.users[u].owner == room.users[u].owner
    ensures AtMostOneOwner(room) ==> AtMostOneOwner(room')
    ensures HasOwner(room) ==> HasOwner(room')
  {
    if HasOwner(room) {
      var u :| u in room.users && room.users[u].owner;
      assert room'.users[u].owner;
    }
  }

  /** A user who leaves takes all its sessions along; whatever failed for it is thereby undone. */
  lemma LeaveCompletes(rid: string, room: RoomState, me: Xid, ends: seq<Xid>, room': RoomState)
    requires RoomOkBut(rid, room, me) && rid != "" && me in room.users
    requires OrderOfEnds(room.sessions, me, true, ends)
    requires room' == room.(users := room.users - {me}, sessions := room.sessions - Elements(ends))
    requires room'.users != map[]
    requires !(room.users[me].owner && room.closeOnOwnerLeave)
    ensures RoomOk(rid, room')
  {
    forall h, c | h in room'.users && c in room'.users && h != c
      ensures Joined(room'.sessions, h, c) <==> room'.users[h].streaming
    {
      JoinedAfterEnds(room.sessions, me, true, ends, h, c);
    }
    if HasOwner(room) && room.closeOnOwnerLeave {
      var u :| u in room.users && room.users[u].owner;
      assert u in room'.users;
    }
  }

  // ---------- Users ----------

  /** A newcomer who does not stream and is not the owner; its sessions are still to be opened. */
  lemma EnterKeepsRest(rid: string, room: RoomState, u: User, room': RoomState)
    requires RoomOk(rid, room) && !u.streaming && !u.owner
    requires rid != "" ==> u.id !in room.users
    requires room' == room.(users := room.users[u.id := u])
    ensures RoomOkBut(rid, room', u.id)
  {
    if HasOwner(room) && rid != "" {
      var o :| o in room.users && room.users[o].owner;
      assert o in room'.users && room'.users[o].owner;
    }
  }

  /** A member's name or streaming flag changes. */
  lemma UpdateKeepsRest(rid: string, room: RoomState, u: User, room': RoomState)
    requires RoomOk(rid, room) && rid != "" && u.id in room.users && u.owner == room.users[u.id].owner
    requires room' == room.(users := room.users[u.id := u])
    ensures RoomOkBut(rid, room', u.id)
    ensures u.streaming == room.users[u.id].streaming ==> RoomOk(rid, room')
  {
    OwnersKept(room, u.id, room');
  }
}
