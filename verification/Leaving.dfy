/** Who leaves the index in a step, and what goes with an owner whose room closes. */
module Leaving {
  import opened Types
  import opened Spec
  import opened Invariants
  import opened BaseProofs
  import opened Isolation

  /** A disconnect removes the client alone, or with all users of its room if it owns it and the room closes. */
  lemma DisconnectRemoves(w: World, me: Xid, code: int, reason: string, w': World)
    requires Disconnects(w, me, code, reason, w')
    ensures w'.connected ==
            w.connected - {me} - (if OwnsClosing(w, me) then w.rooms[w.connected[me]].users.Keys else {})
  {
    hide OrderOfEnds, Settles;
    var rid := Where(w, me);
    if rid != "" && rid in w.rooms && me in w.rooms[rid].users {
      var ends :| DisconnectsWith(w, rid, me, code, reason, ends, w');
      OrderIsOrder(w.rooms[rid].sessions, me, true, ends);
      var w3 := EndSessions(RemoveUser(Forget(w, me, code, reason), rid, me), rid, me, ends);
      SettleRemoves(w3, rid, w.rooms[rid].users[me].owner, w');
      assert (w.rooms[rid].users - {me}).Keys == w.rooms[rid].users.Keys - {me};
    }
  }

  lemma SettleRemoves(w: World, rid: string, ownerLeft: bool, w': World)
    requires rid in w.rooms && Settles(w, rid, ownerLeft, w')
    ensures w'.connected ==
            w.connected - (if ownerLeft && w.rooms[rid].closeOnOwnerLeave then w.rooms[rid].users.Keys else {})
  {
    hide ListingsFor, PostAll;
  }

  /** What a failed event leaves behind: nothing, a newcomer who owns nothing, or the mark of a user who streams. */
  ghost predicate Halfway(w: World, me: Xid, u: World) {
    || u == w
    || (Where(w, me) == "" && !OwnsClosing(u, me))
    || (InRoom(w, me) && me in w.rooms[w.connected[me]].users &&
        u == UpdateUser(w, w.connected[me], w.rooms[w.connected[me]].users[me].(streaming := true)))
  }

  lemma JoinHalfway(w: World, info: ClientInfo, id: string, asked: string, o: Outcome)
    requires Joins(w, info, id, asked, o) && o.error.Some?
    ensures Halfway(w, info.id, o.world)
  {
    hide Notified, PlanFor;
    if Where(w, info.id) == "" && id in w.rooms {
      var name, w1 :| JoinsAs(w, info, id, asked, name, w1, o);
      NotifiedOnlyOut(Enter(w, id, User(info.id, info.addr, name, false, false)), id, w1);
    }
  }

  lemma ShareHalfway(w: World, me: Xid, o: Outcome)
    requires StartsShare(w, me, o) && o.error.Some?
    ensures Halfway(w, me, o.world) && (o.world.connected == w.connected)
  {
    hide Notified, PlanFor;
    if InRoom(w, me) {
      var o1 :| SharesAs(w, w.connected[me], me, o1, o);
    }
  }

  lemma CreateHalfway(w: World, info: ClientInfo, e: Event, o: Outcome)
    requires e.Create? && Creates(w, info, e, o) && o.error.Some?
    ensures Halfway(w, info.id, o.world)
  {
    hide Joins, Notified, Halfway;
    UnchangedIsHalfway(w, info.id);
    if Where(w, info.id) == "" && e.id in w.rooms && e.joinIfExist {
      JoinHalfway(w, info, e.id, e.userName, o);
    }
  }

  lemma UnchangedIsHalfway(w: World, me: Xid)
    ensures Halfway(w, me, w)
  {
  }

  lemma FailsHalfway(w: World, info: ClientInfo, e: Event, o: Outcome)
    requires Executes(w, info, e, o) && o.error.Some?
    ensures Halfway(w, info.id, o.world)
  {
    hide Halfway, Joins, Creates, StartsShare, Notified, Disconnects;
    UnchangedIsHalfway(w, info.id);
    if e.Create? {
      CreateHalfway(w, info, e, o);
    } else if e.Join? {
      JoinHalfway(w, info, e.id, e.userName, o);
    } else if e.StartShare? {
      ShareHalfway(w, info.id, o);
    }
  }

  /** An event other than a disconnect moves nobody out of the index, and nobody but its sender within it. */
  ghost predicate Stays(w: World, me: Xid, u: World) {
    forall c | c in w.connected :: c in u.connected && (c != me ==> u.connected[c] == w.connected[c])
  }

  lemma JoinStays(w: World, info: ClientInfo, id: string, asked: string, o: Outcome)
    requires Joins(w, info, id, asked, o)
    ensures Stays(w, info.id, o.world)
  {
    hide Notified, PlanFor;
    if Where(w, info.id) == "" && id in w.rooms {
      var name, w1 :| JoinsAs(w, info, id, asked, name, w1, o);
      NotifiedOnlyOut(Enter(w, id, User(info.id, info.addr, name, false, false)), id, w1);
    }
  }

  lemma CreateStays(w: World, info: ClientInfo, e: Event, o: Outcome)
    requires e.Create? && Creates(w, info, e, o)
    ensures Stays(w, info.id, o.world)
  {
    hide Joins, Notified;
    if Where(w, info.id) == "" {
      if e.id in w.rooms {
        if e.joinIfExist {
          JoinStays(w, info, e.id, e.userName, o);
        }
      } else if CreateRefused(w.authMode, info, e.mode).None? {
        var name :| NameFor(info, e.userName, name) && Notified(OpenRoom(w, info, e, name), e.id, o.world);
        NotifiedOnlyOut(OpenRoom(w, info, e, name), e.id, o.world);
      }
    }
  }

  lemma ExecuteStays(w: World, info: ClientInfo, e: Event, o: Outcome)
    requires Executes(w, info, e, o) && !e.Disconnected?
    ensures Stays(w, info.id, o.world)
  {
    hide Creates, Joins, StartsShare, StopsShare, Renames;
    match e
    case Connected =>
    case Create(_, _, _, _, _) => CreateStays(w, info, e, o);
    case Join(id, userName) => JoinStays(w, info, id, userName, o);
    case StartShare => ShareFrame(w, info.id, o);
    case StopShare => StopFrame(w, info.id, o);
    case Name(userName) => RenameFrame(w, info.id, userName, o);
    case Relay(_, _, _) =>
  }

  /** Whoever leaves the index in a step is the sender, or a user of the closing room that the sender owns. */
  lemma WhoLeaves(w: World, m: ClientMessage, w': World, c: Xid)
    requires Base(w) && Next(w, m, w') && c in w.connected && c !in w'.connected && c != m.info.id
    ensures OwnsClosing(w, m.info.id) && c in w.rooms[w.connected[m.info.id]].users
  {
    var me := m.info.id;
    hide Base, Executes, Disconnects, OwnsClosing;
    var o :| Executes(w, m.info, m.event, o) && o.reply == m.reply && Completes(o, me, w');
    if m.event.Disconnected? {
      DisconnectOnly(w, m.info, m.event, o);
      DisconnectRemoves(w, me, m.event.code, m.event.reason, w');
    } else {
      ExecuteStays(w, m.info, m.event, o);
      FailsHalfway(w, m.info, m.event, o);
      DisconnectRemoves(o.world, me, NORMAL_CLOSURE, o.error.value, w');
      HalfwayOwner(w, me, o.world);
    }
  }

  lemma DisconnectOnly(w: World, info: ClientInfo, e: Event, o: Outcome)
    requires Executes(w, info, e, o) && e.Disconnected?
    ensures o.error.None? && Disconnects(w, info.id, e.code, e.reason, o.world)
  {
  }

  lemma HalfwayOwner(w: World, me: Xid, u: World)
    requires Base(w) && Halfway(w, me, u) && OwnsClosing(u, me)
    ensures OwnsClosing(w, me) && u.connected == w.connected
    ensures u.rooms[u.connected[me]].users.Keys == w.rooms[w.connected[me]].users.Keys
  {
    hide Indexed, Books, Sharing, EndsAreMembers, HasOwner, AtMostOneOwner;
  }

  lemma OwnerIsOnlyOne(w: World, a: Xid, b: Xid)
    requires Base(w) && OwnsClosing(w, a) && OwnsClosing(w, b) && b in w.rooms[w.connected[a]].users
    ensures a == b
  {
    hide Books, Sharing, EndsAreMembers, HasOwner;
    assert RoomOk(w.connected[a], w.rooms[w.connected[a]]);
    assert w.connected[b] == w.connected[a];
  }

  lemma OwnerLeavesByItself(w: World, m: ClientMessage, w': World, u: Xid)
    requires Base(w) && Next(w, m, w') && OwnsClosing(w, u) && u !in w'.connected
    ensures u == m.info.id
  {
    assert u in w.connected;
    hide Base, Next, OwnsClosing;
    if u != m.info.id {
      WhoLeaves(w, m, w', u);
      OwnerIsOnlyOne(w, m.info.id, u);
    }
  }

  lemma StreamingOnly(rooms: map<string, RoomState>, rid: string, u: User)
    requires rid in rooms && u.id in rooms[rid].users
    ensures
      var room := rooms[rid].(users := rooms[rid].users[u.id := u]);
      && rooms[rid := room] - {rid} == rooms - {rid}
      && room.users.Keys == rooms[rid].users.Keys && |room.users| == |rooms[rid].users|
  {
    var room := rooms[rid].(users := rooms[rid].users[u.id := u]);
    assert room.users.Keys == rooms[rid].users.Keys;
  }

  /** What is gone after the rollback of a failed event is what was there before the event. */
  lemma GoneAsBefore(w: World, me: Xid, u: World, w': World)
    requires OwnsClosing(w, me) && w.rooms[w.connected[me]].users[me].id == me
    requires Halfway(w, me, u) && RoomGone(u, me, w')
    ensures RoomGone(w, me, w')
  {
    hide KeysOf;
    var rid := w.connected[me];
    StreamingOnly(w.rooms, rid, w.rooms[rid].users[me].(streaming := true));
  }

  lemma OwnerStillThere(w: World, me: Xid, u: World)
    requires OwnsClosing(w, me) && Halfway(w, me, u)
    requires me in w.rooms[w.connected[me]].users && w.rooms[w.connected[me]].users[me].id == me
    ensures OwnsClosing(u, me)
  {
  }

  lemma OwnUser(w: World, me: Xid)
    requires Base(w) && OwnsClosing(w, me)
    ensures w.rooms[w.connected[me]].users[me].id == me && me in w.used
  {
    hide Indexed, Ledger, CreatorsOk, Sharing, EndsAreMembers, HasOwner, AtMostOneOwner;
    assert RoomOk(w.connected[me], w.rooms[w.connected[me]]);
  }

  /**
   * Whenever the owner of a room that closes with its owner leaves the index, be it by its disconnect or by
   * the rollback of any failed event, its room, all the room's users, sessions and credentials are gone, and
   * all other rooms, clients and credentials are as before.
   */
  lemma OwnerGoneMeansRoomGone(w: World, m: ClientMessage, w': World, u: Xid)
    requires Base(w) && Arrives(w, m) && Next(w, m, w') && OwnsClosing(w, u) && u !in w'.connected
    ensures RoomGone(w, u, w')
  {
    OwnerLeavesByItself(w, m, w', u);
    OwnUser(w, u);
    assert u in w.connected && !m.event.Connected?;
    hide Base, BaseBut, Executes, Disconnects, OwnsClosing, RoomGone;
    var o :| Executes(w, m.info, m.event, o) && o.reply == m.reply && Completes(o, u, w');
    if m.event.Disconnected? {
      DisconnectOnly(w, m.info, m.event, o);
      BaseWeaken(w, u);
      OwnerTakesRoomAlong(w, u, m.event.code, m.event.reason, w');
    } else {
      ExecuteStays(w, m.info, m.event, o);
      FailsHalfway(w, m.info, m.event, o);
      ExecuteBase(w, m.info, m.event, o);
      OwnerStillThere(w, u, o.world);
      OwnerTakesRoomAlong(o.world, u, NORMAL_CLOSURE, o.error.value, w');
      GoneAsBefore(w, u, o.world, w');
    }
  }
}
