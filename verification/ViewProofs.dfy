/** Every small step keeps the clients' views in step with the server's state. */
module ViewProofs {
  import opened Types
  import opened Spec
  import opened Invariants
  import opened RoomProofs
  import opened Views

  /** The view of a connected client follows the sessions of its room; outside a room it is blank. */
  ghost predicate Placed(w: World, c: Xid, v: ClientView)
    requires c in w.connected
  {
    var rid := w.connected[c];
    if rid != "" && rid in w.rooms then Follows(v, w.rooms[rid].mode, w.rooms[rid].sessions, w.lookup, c)
    else v.watching == map[] && v.hosting == map[]
  }

  /**
   * Nothing out of place was written to `c`. It was sent the closing message iff it is no longer connected,
   * and while connected its view follows the server.
   */
  ghost predicate ClientOk(w: World, c: Xid) {
    var v := View(w.out, c);
    && v.clean
    && v.seen <= w.used
    && (c !in w.used ==> Written(w.out, c) == [])
    && (if c in w.connected then !v.closed && Placed(w, c, v) else v.closed || Written(w.out, c) == [])
  }

  ghost predicate ClientsOk(w: World) {
    forall c :: ClientOk(w, c)
  }

  /** The users of a room are exactly the clients indexed under it. */
  ghost predicate MembersConnected(w: World, rid: string) {
    rid in w.rooms && rid != "" && forall u :: u in w.rooms[rid].users <==> u in w.connected && w.connected[u] == rid
  }

  /** The users of a room are still connected or were told to go. */
  ghost predicate UsersKnown(w: World, rid: string) {
    rid in w.rooms && forall u | u in w.rooms[rid].users :: u in w.used && (u in w.connected || View(w.out, u).closed)
  }

  // ---------- Notifying ----------

  lemma SendListsView(w: World, rid: string, lists: map<Xid, seq<Member>>, c: Xid)
    requires rid in w.rooms && lists.Keys == w.rooms[rid].users.Keys
    ensures View(SendLists(w, rid, lists).out, c) == View(w.out, c)
    ensures c !in w.rooms[rid].users ==> Written(SendLists(w, rid, lists).out, c) == Written(w.out, c)
  {
    if c in w.rooms[rid].users {
      ReplayOne(Written(w.out, c), RoomInfo(w.rooms[rid].id, lists[c]));
    } else {
      assert Written(w.out, c) + [] == Written(w.out, c);
    }
  }

  lemma SendListsClient(w: World, rid: string, lists: map<Xid, seq<Member>>, c: Xid)
    requires ClientOk(w, c) && UsersKnown(w, rid) && lists.Keys == w.rooms[rid].users.Keys
    ensures ClientOk(SendLists(w, rid, lists), c)
  {
    SendListsView(w, rid, lists, c);
    hide View, Follows, Written, PostAll;
  }

  lemma NotifiedViews(w: World, rid: string, w': World)
    requires ClientsOk(w) && UsersKnown(w, rid) && Notified(w, rid, w')
    ensures ClientsOk(w')
  {
    hide ClientOk, PostAll;
    var lists :| ListingsFor(w.rooms[rid].users, lists) && w' == SendLists(w, rid, lists);
    hide UsersKnown;
    forall c
      ensures ClientOk(w', c)
    {
      SendListsClient(w, rid, lists, c);
    }
  }

  lemma MembersKnown(w: World, rid: string)
    requires MembersConnected(w, rid) && w.connected.Keys <= w.used
    ensures UsersKnown(w, rid)
  {
  }

  // ---------- Steps that leave a client alone ----------

  /** From the point of view of `c`, only keys of other sessions changed. */
  ghost predicate Untouched(w: World, w': World, c: Xid) {
    && Written(w'.out, c) == Written(w.out, c)
    && w.used <= w'.used
    && (c in w'.connected <==> c in w.connected)
    && (c in w.connected ==>
          w'.connected[c] == w.connected[c] && (w.connected[c] == "" || RoomKept(w, w', w.connected[c])))
  }

  /** The sessions of a room and their keys are the same. */
  ghost predicate RoomKept(w: World, w': World, rid: string) {
    && (rid in w'.rooms <==> rid in w.rooms)
    && (rid in w.rooms ==>
          && w'.rooms[rid].mode == w.rooms[rid].mode
          && w'.rooms[rid].sessions == w.rooms[rid].sessions
          && SameKeys(w.rooms[rid].sessions.Keys, w.lookup, w'.lookup))
  }

  lemma UntouchedOk(w: World, w': World, c: Xid)
    requires ClientOk(w, c) && Untouched(w, w', c)
    ensures ClientOk(w', c)
  {
    hide Follows, SameKeys;
    if c in w.connected && w.connected[c] != "" && w.connected[c] in w.rooms {
      var room := w.rooms[w.connected[c]];
      FollowsElsewhere(View(w.out, c), room.mode, room.sessions, w.lookup, w'.lookup, c);
    }
  }

  lemma SameLookup(sids: set<Xid>, lookup: map<string, Entry>)
    ensures SameKeys(sids, lookup, lookup)
  {
  }

  // ---------- Entering and changing users ----------

  /** A step that changes the users of room `rid` and the index entry of `me`, but writes nothing. */
  ghost predicate UsersOnly(w: World, w': World, me: Xid, rid: string) {
    && w'.out == w.out && w'.lookup == w.lookup && w'.used == w.used
    && (forall c | c != me :: c in w'.connected <==> c in w.connected)
    && (forall c | c != me && c in w.connected :: w'.connected[c] == w.connected[c])
    && (forall r | r != rid :: r in w'.rooms <==> r in w.rooms)
    && (forall r | r != rid && r in w.rooms :: w'.rooms[r] == w.rooms[r])
    && rid in w'.rooms
    && (if rid in w.rooms then
          w'.rooms[rid].mode == w.rooms[rid].mode && w'.rooms[rid].sessions == w.rooms[rid].sessions
        else rid == "" || forall c | c in w.connected :: w.connected[c] != rid)
  }

  lemma UsersOnlyOthers(w: World, w': World, me: Xid, rid: string, c: Xid)
    requires ClientOk(w, c) && UsersOnly(w, w', me, rid) && c != me
    ensures ClientOk(w', c)
  {
    hide ClientOk, View;
    if c in w.connected && w.connected[c] in w.rooms {
      SameLookup(w.rooms[w.connected[c]].sessions.Keys, w.lookup);
    }
    UntouchedOk(w, w', c);
  }

  /** A client that is in no room enters one, in which it has no session yet. */
  lemma EnteredViews(w: World, w': World, me: Xid, rid: string)
    requires ClientsOk(w) && UsersOnly(w, w', me, rid)
    requires me in w.connected && w.connected[me] == ""
    requires me in w'.connected && w'.connected[me] == rid && (rid != "" ==> NoSessionsOf(w'.rooms[rid].sessions, me))
    ensures ClientsOk(w')
  {
    assert ClientOk(w', me) by {
      assert ClientOk(w, me);
    }
    hide ClientOk, UsersOnly;
    forall c
      ensures ClientOk(w', c)
    {
      if c != me {
        UsersOnlyOthers(w, w', me, rid, c);
      }
    }
  }

  /** A member's entry changes. */
  lemma UpdatedViews(w: World, rid: string, u: User)
    requires ClientsOk(w) && rid in w.rooms
    ensures ClientsOk(UpdateUser(w, rid, u))
  {
    var w' := UpdateUser(w, rid, u);
    forall c
      ensures ClientOk(w', c)
    {
      hide View, Follows;
      assert ClientOk(w, c);
    }
  }

  // ---------- Opening sessions ----------

  ghost predicate PlanWithin(users: map<Xid, User>, plan: seq<Pairing>) {
    forall p | p in plan :: p.host in users && p.client in users && p.host != p.client
  }

  lemma NewSessionsMember(w: World, rid: string, plan: seq<Pairing>, at: Addresses, c: Xid)
    requires ClientOk(w, c) && rid in w.rooms && rid != "" && c in w.connected && w.connected[c] == rid && c in w.used
    requires w.rooms[rid].sessions.Keys <= w.used && FreshPlan(w.used, plan) && PlanWithin(w.rooms[rid].users, plan)
    ensures ClientOk(NewSessions(w, rid, plan, at), c)
  {
    var room := w.rooms[rid];
    PlanFollows(w.out, room.mode, w.lookup, room.users, room.sessions, w.used, plan, at, c);
    hide Follows, View, FreshPlan;
  }

  lemma NewSessionsOther(w: World, rid: string, plan: seq<Pairing>, at: Addresses, c: Xid)
    requires ClientOk(w, c) && rid in w.rooms && c !in w.rooms[rid].users
    requires c in w.connected ==> w.connected[c] != rid
    requires SidsOk(w.rooms, w.used) && FreshPlan(w.used, plan) && PlanWithin(w.rooms[rid].users, plan)
    ensures ClientOk(NewSessions(w, rid, plan, at), c)
  {
    var w' := NewSessions(w, rid, plan, at);
    PlanSilent(w.out, w.rooms[rid].mode, plan, at, c);
    if c in w.connected && w.connected[c] in w.rooms {
      PlanOtherKeys(w.rooms[rid].mode, w.lookup, w.rooms[rid].users, plan, w.rooms[w.connected[c]].sessions.Keys);
    }
    hide ClientOk, SameKeys, FreshPlan, SidsOk, PlanWithin;
    UntouchedOk(w, w', c);
  }

  lemma NewSessionsViews(w: World, rid: string, plan: seq<Pairing>, at: Addresses)
    requires ClientsOk(w) && MembersConnected(w, rid) && w.connected.Keys <= w.used
    requires SidsOk(w.rooms, w.used) && FreshPlan(w.used, plan) && PlanWithin(w.rooms[rid].users, plan)
    ensures ClientsOk(NewSessions(w, rid, plan, at))
  {
    assert w.rooms[rid].sessions.Keys <= w.used;
    hide ClientOk, FreshPlan, SidsOk, PlanWithin, NewSessions;
    forall c
      ensures ClientOk(NewSessions(w, rid, plan, at), c)
    {
      if c in w.rooms[rid].users {
        NewSessionsMember(w, rid, plan, at, c);
      } else {
        NewSessionsOther(w, rid, plan, at, c);
      }
    }
  }

  // ---------- Ending sessions ----------

  /** Sessions of `me` that are to end; if `me` is still a member, it is their host. */
  ghost predicate EndsOf(room: RoomState, me: Xid, ends: seq<Xid>) {
    && DistinctIds(ends)
    && forall s | s in ends ::
         && s in room.sessions && room.sessions[s].host != room.sessions[s].client
         && (room.sessions[s].host == me || (room.sessions[s].client == me && me !in room.users))
  }

  lemma EndSessionsMember(w: World, rid: string, me: Xid, ends: seq<Xid>, c: Xid)
    requires ClientOk(w, c) && rid in w.rooms && rid != "" && c in w.connected && w.connected[c] == rid
    requires c in w.rooms[rid].users && EndsOf(w.rooms[rid], me, ends) && c in w.used
    ensures ClientOk(EndSessions(w, rid, me, ends), c)
  {
    var room := w.rooms[rid];
    EndFollows(w.out, room.mode, w.lookup, room.users, room.sessions, me, ends, c);
    hide Follows, View;
  }

  lemma EndSessionsOther(w: World, rid: string, me: Xid, ends: seq<Xid>, c: Xid)
    requires ClientOk(w, c) && rid in w.rooms && c !in w.rooms[rid].users
    requires c in w.connected ==> w.connected[c] != rid
    requires SidsOk(w.rooms, w.used) && EndsOf(w.rooms[rid], me, ends)
    ensures ClientOk(EndSessions(w, rid, me, ends), c)
  {
    var w' := EndSessions(w, rid, me, ends);
    EndSilent(w.out, w.rooms[rid].users, me, ends, w.rooms[rid].sessions, c);
    if c in w.connected && w.connected[c] in w.rooms {
      OtherKeysStay(w.rooms[rid].mode, w.lookup, Elements(ends), w.rooms[w.connected[c]].sessions.Keys);
    }
    hide ClientOk, SameKeys, SidsOk;
    UntouchedOk(w, w', c);
  }

  lemma EndSessionsViews(w: World, rid: string, me: Xid, ends: seq<Xid>)
    requires ClientsOk(w) && MembersConnected(w, rid) && w.connected.Keys <= w.used
    requires SidsOk(w.rooms, w.used) && EndsOf(w.rooms[rid], me, ends)
    ensures ClientsOk(EndSessions(w, rid, me, ends))
  {
    hide ClientOk, SidsOk;
    forall c
      ensures ClientOk(EndSessions(w, rid, me, ends), c)
    {
      if c in w.rooms[rid].users {
        EndSessionsMember(w, rid, me, ends, c);
      } else {
        EndSessionsOther(w, rid, me, ends, c);
      }
    }
  }

  // ---------- Closing ----------

  lemma ForgetViews(w: World, me: Xid, code: int, reason: string)
    requires ClientsOk(w) && me in w.connected && me in w.used
    ensures ClientsOk(Forget(w, me, code, reason))
  {
    var w' := Forget(w, me, code, reason);
    forall c
      ensures ClientOk(w', c)
    {
      PostView(w.out, me, CloseWriter(code, reason), c);
      assert ClientOk(w, c);
      hide View, Follows;
    }
  }

  lemma KickView(w: World, rid: string, c: Xid)
    requires rid in w.rooms
    ensures View(KickAll(w, rid).out, c) ==
            if c in w.rooms[rid].users then Observe(View(w.out, c), CloseWriter(NORMAL_CLOSURE, OWNER_LEFT))
            else View(w.out, c)
    ensures c !in w.rooms[rid].users ==> Written(KickAll(w, rid).out, c) == Written(w.out, c)
  {
    if c in w.rooms[rid].users {
      ReplayOne(Written(w.out, c), CloseWriter(NORMAL_CLOSURE, OWNER_LEFT));
    } else {
      assert Written(w.out, c) + [] == Written(w.out, c);
    }
  }

  lemma KickOk(w: World, rid: string, c: Xid)
    requires ClientOk(w, c) && MembersConnected(w, rid) && w.connected.Keys <= w.used
    ensures ClientOk(KickAll(w, rid), c)
  {
    KickView(w, rid, c);
    hide View, Follows, PostAll, Written;
  }

  lemma KickViews(w: World, rid: string)
    requires ClientsOk(w) && MembersConnected(w, rid) && w.connected.Keys <= w.used
    ensures ClientsOk(KickAll(w, rid))
    ensures forall c | c in KickAll(w, rid).connected :: KickAll(w, rid).connected[c] != rid
  {
    forall c
      ensures ClientOk(KickAll(w, rid), c)
    {
      KickOk(w, rid, c);
    }
    hide ClientOk, PostAll;
  }

  lemma CloseRoomViews(w: World, rid: string)
    requires ClientsOk(w) && rid in w.rooms && SidsOk(w.rooms, w.used)
    requires forall c | c in w.connected :: w.connected[c] != rid
    ensures ClientsOk(CloseRoom(w, rid))
  {
    var w' := CloseRoom(w, rid);
    forall c
      ensures ClientOk(w', c)
    {
      if c in w.connected && w.connected[c] in w.rooms {
        OtherKeysStay(w.rooms[rid].mode, w.lookup, w.rooms[rid].sessions.Keys, w.rooms[w.connected[c]].sessions.Keys);
      }
      hide ClientOk, SameKeys, SidsOk;
      UntouchedOk(w, w', c);
    }
  }
}
