/** Whom a step writes to. */
module Reach {
  import opened Types
  import opened Spec
  import opened Invariants
  import opened BaseProofs
  import opened Views
  import opened Isolation
  import opened Leaving
  import opened OneRoom

  /** Nothing was written to `c`. */
  ghost predicate Silent(out: map<Xid, seq<Message>>, out': map<Xid, seq<Message>>, c: Xid) {
    Written(out', c) == Written(out, c)
  }

  /** Besides its sender, those whom an event can reach: the users of the sender's room, or of the room it enters. */
  function Reached(w: World, m: ClientMessage): set<Xid> {
    if Where(w, m.info.id) != "" then UsersOf(w, Where(w, m.info.id))
    else if LetIn(w, m) then UsersOf(w, m.event.id)
    else {}
  }

  lemma PostAllSilent(out: map<Xid, seq<Message>>, to: map<Xid, Message>, c: Xid)
    requires c !in to
    ensures Silent(out, PostAll(out, to), c)
  {
    assert Written(out, c) + [] == Written(out, c);
  }

  lemma NotifiedSilent(w: World, rid: string, w': World, c: Xid)
    requires rid in w.rooms && Notified(w, rid, w') && c !in w.rooms[rid].users
    ensures Silent(w.out, w'.out, c)
  {
    hide PostAll, Silent;
    var lists :| ListingsFor(w.rooms[rid].users, lists) && w' == SendLists(w, rid, lists);
    PostAllSilent(w.out, map u | u in lists :: RoomInfo(w.rooms[rid].id, lists[u]), c);
  }

  lemma OpensSilent(w: World, rid: string, pairs: set<(Xid, Xid)>, o: Outcome, c: Xid)
    requires rid in w.rooms && OpensSessions(w, rid, pairs, o) && forall p | p in pairs :: p.0 != c && p.1 != c
    ensures Silent(w.out, o.world.out, c)
  {
    if o.error.None? {
      var at := o.reply.At();
      var plan: seq<Pairing> :| Opens(w, rid, pairs, plan, at, o.world);
      forall p | p in plan
        ensures p.host != c && p.client != c
      {
        var i :| 0 <= i < |plan| && plan[i] == p;
        assert (plan[i].host, plan[i].client) in pairs;
      }
      PlanSilent(w.out, w.rooms[rid].mode, plan, at, c);
    }
  }

  lemma JoinSilent(w: World, info: ClientInfo, id: string, asked: string, o: Outcome, c: Xid)
    requires Joins(w, info, id, asked, o) && c != info.id
    requires Where(w, info.id) == "" && id in w.rooms ==> c !in w.rooms[id].users
    ensures Silent(w.out, o.world.out, c)
  {
    hide OpensSessions, Notified, Written;
    if Where(w, info.id) == "" && id in w.rooms {
      var name, w1 :| JoinsAs(w, info, id, asked, name, w1, o);
      var entered := Enter(w, id, User(info.id, info.addr, name, false, false));
      NotifiedOnlyOut(entered, id, w1);
      NotifiedSilent(entered, id, w1, c);
      OpensSilent(w1, id, PairsOnJoin(w1.rooms[id].users, info.id), o, c);
    }
  }

  lemma CreateSilent(w: World, info: ClientInfo, e: Event, o: Outcome, c: Xid)
    requires e.Create? && Creates(w, info, e, o) && c != info.id
    requires Where(w, info.id) == "" && e.id in w.rooms && e.joinIfExist ==> c !in w.rooms[e.id].users
    ensures Silent(w.out, o.world.out, c)
  {
    hide Joins, Notified, Written;
    if Where(w, info.id) == "" {
      if e.id in w.rooms {
        if e.joinIfExist {
          JoinSilent(w, info, e.id, e.userName, o, c);
        }
      } else if CreateRefused(w.authMode, info, e.mode).None? {
        var name :| NameFor(info, e.userName, name) && Notified(OpenRoom(w, info, e, name), e.id, o.world);
        NotifiedSilent(OpenRoom(w, info, e, name), e.id, o.world, c);
      }
    }
  }

  predicate OwnIds(room: RoomState) {
    forall u | u in room.users :: room.users[u].id == u
  }

  lemma ShareSilent(w: World, me: Xid, o: Outcome, c: Xid)
    requires StartsShare(w, me, o) && c != me && c !in UsersOf(w, Where(w, me))
    requires InRoom(w, me) ==> OwnIds(w.rooms[w.connected[me]])
    ensures Silent(w.out, o.world.out, c)
  {
    hide OpensSessions, Notified, Written;
    if InRoom(w, me) {
      var rid := w.connected[me];
      var o1 :| SharesAs(w, rid, me, o1, o);
      var w1 := UpdateUser(w, rid, w.rooms[rid].users[me].(streaming := true));
      OpensFrame(w1, rid, PairsOnShare(w1.rooms[rid].users, me), o1);
      OpensSilent(w1, rid, PairsOnShare(w1.rooms[rid].users, me), o1, c);
      if o.error.None? {
        NotifiedSilent(o1.world, rid, o.world, c);
      }
    }
  }

  lemma StopSilent(w: World, me: Xid, o: Outcome, c: Xid)
    requires StopsShare(w, me, o) && c != me && c !in UsersOf(w, Where(w, me))
    requires InRoom(w, me) ==> OwnIds(w.rooms[w.connected[me]])
    ensures Silent(w.out, o.world.out, c)
  {
    hide Notified, OrderOfEnds, Written;
    if InRoom(w, me) {
      var rid := w.connected[me];
      var ends :| StopsWith(w, rid, me, ends, o.world);
      OrderIsOrder(w.rooms[rid].sessions, me, false, ends);
      var w1 := UpdateUser(w, rid, w.rooms[rid].users[me].(streaming := false));
      EndSilent(w1.out, w1.rooms[rid].users, me, ends, w1.rooms[rid].sessions, c);
      NotifiedSilent(EndSessions(w1, rid, me, ends), rid, o.world, c);
    }
  }

  lemma RenameSilent(w: World, me: Xid, name: string, o: Outcome, c: Xid)
    requires Renames(w, me, name, o) && c != me && c !in UsersOf(w, Where(w, me))
    requires InRoom(w, me) ==> OwnIds(w.rooms[w.connected[me]])
    ensures Silent(w.out, o.world.out, c)
  {
    hide Notified, Written;
    if InRoom(w, me) {
      var rid := w.connected[me];
      NotifiedSilent(UpdateUser(w, rid, w.rooms[rid].users[me].(name := name)), rid, o.world, c);
    }
  }

  lemma RelaySilent(w: World, me: Xid, kind: RelayKind, sid: Xid, value: string, o: Outcome, c: Xid)
    requires Relays(w, me, kind, sid, value, o) && c !in UsersOf(w, Where(w, me))
    requires InRoom(w, me) ==> EndsAreMembers(w.rooms[w.connected[me]])
    ensures Silent(w.out, o.world.out, c)
  {
  }

  lemma SettleSilent(w: World, rid: string, ownerLeft: bool, w': World, c: Xid)
    requires rid in w.rooms && Settles(w, rid, ownerLeft, w') && c !in w.rooms[rid].users
    ensures Silent(w.out, w'.out, c)
  {
    hide Notified, PostAll;
    PostAllSilent(w.out, map u | u in w.rooms[rid].users :: CloseWriter(NORMAL_CLOSURE, OWNER_LEFT), c);
    if !(ownerLeft && w.rooms[rid].closeOnOwnerLeave) && w.rooms[rid].users != map[] {
      NotifiedSilent(w, rid, w', c);
    }
  }

  /** A disconnect writes to the users of the room only; to the sender, nothing but the closing message. */
  lemma DisconnectSilent(w: World, me: Xid, code: int, reason: string, w': World, c: Xid)
    requires Disconnects(w, me, code, reason, w')
    ensures c != me && (Where(w, me) == "" || c !in UsersOf(w, Where(w, me))) ==> Silent(w.out, w'.out, c)
    ensures c == me ==> Written(w'.out, c) == Written(w.out, c) + [CloseWriter(code, reason)]
  {
    hide Settles, OrderOfEnds;
    var rid := Where(w, me);
    if rid != "" && rid in w.rooms && me in w.rooms[rid].users && (c == me || c !in w.rooms[rid].users) {
      var ends :| DisconnectsWith(w, rid, me, code, reason, ends, w');
      OrderIsOrder(w.rooms[rid].sessions, me, true, ends);
      var w2 := RemoveUser(Forget(w, me, code, reason), rid, me);
      EndSilent(w2.out, w2.rooms[rid].users, me, ends, w2.rooms[rid].sessions, c);
      SettleSilent(EndSessions(w2, rid, me, ends), rid, w.rooms[rid].users[me].owner, w', c);
    }
  }

  lemma RoomTidy(w: World, me: Xid)
    requires Base(w) && InRoom(w, me)
    ensures EndsAreMembers(w.rooms[w.connected[me]]) && OwnIds(w.rooms[w.connected[me]])
  {
    hide Indexed, Books, Sharing, HasOwner, AtMostOneOwner;
    assert RoomOk(w.connected[me], w.rooms[w.connected[me]]);
  }

  lemma JoinUsers(w: World, info: ClientInfo, id: string, asked: string, o: Outcome)
    requires Joins(w, info, id, asked, o) && Where(w, info.id) == "" && id in w.rooms
    ensures Where(o.world, info.id) == id && UsersOf(o.world, id) == UsersOf(w, id) + {info.id}
  {
    hide OpensSessions, Notified;
    var name, w1 :| JoinsAs(w, info, id, asked, name, w1, o);
    NotifiedOnlyOut(Enter(w, id, User(info.id, info.addr, name, false, false)), id, w1);
    OpensFrame(w1, id, PairsOnJoin(w1.rooms[id].users, info.id), o);
  }

  /** Whom an event leaves out, its rollback leaves out too. */
  ghost predicate StillApart(u: World, me: Xid, c: Xid) {
    Where(u, me) == "" || c !in UsersOf(u, Where(u, me))
  }

  lemma JoinApart(w: World, info: ClientInfo, id: string, asked: string, o: Outcome, c: Xid)
    requires Joins(w, info, id, asked, o) && o.error.Some? && c != info.id
    requires if Where(w, info.id) != "" then c !in UsersOf(w, Where(w, info.id)) else c !in UsersOf(w, id)
    ensures StillApart(o.world, info.id, c)
  {
    if Where(w, info.id) == "" && id in w.rooms {
      JoinUsers(w, info, id, asked, o);
    }
    hide UsersOf;
  }

  lemma ShareApart(w: World, me: Xid, o: Outcome, c: Xid)
    requires StartsShare(w, me, o) && o.error.Some? && c !in UsersOf(w, Where(w, me)) && c != me
    requires InRoom(w, me) ==> OwnIds(w.rooms[w.connected[me]])
    ensures StillApart(o.world, me, c)
  {
    hide Notified, PlanFor;
    ShareHalfway(w, me, o);
  }

  lemma CreateApart(w: World, m: ClientMessage, o: Outcome, c: Xid)
    requires m.event.Create? && Creates(w, m.info, m.event, o) && c != m.info.id && c !in Reached(w, m)
    requires m.info.id in w.connected
    ensures Silent(w.out, o.world.out, c) && (o.error.Some? ==> StillApart(o.world, m.info.id, c))
  {
    hide Joins, Notified, Silent, StillApart;
    var e := m.event;
    if Where(w, m.info.id) == "" && e.id in w.rooms && e.joinIfExist {
      JoinSilent(w, m.info, e.id, e.userName, o, c);
      if o.error.Some? {
        JoinApart(w, m.info, e.id, e.userName, o, c);
      }
    } else {
      CreateSilent(w, m.info, e, o, c);
      if o.error.Some? {
        UnchangedApart(w, m, c);
      }
    }
  }

  lemma UnchangedApart(w: World, m: ClientMessage, c: Xid)
    requires c !in Reached(w, m)
    ensures StillApart(w, m.info.id, c) && Silent(w.out, w.out, c)
  {
  }

  lemma JoinLeavesApart(w: World, m: ClientMessage, o: Outcome, c: Xid)
    requires m.event.Join? && Joins(w, m.info, m.event.id, m.event.userName, o)
    requires c != m.info.id && c !in Reached(w, m) && m.info.id in w.connected
    ensures Silent(w.out, o.world.out, c) && (o.error.Some? ==> StillApart(o.world, m.info.id, c))
  {
    hide Joins, Silent, StillApart;
    JoinSilent(w, m.info, m.event.id, m.event.userName, o, c);
    if o.error.Some? {
      JoinApart(w, m.info, m.event.id, m.event.userName, o, c);
    }
  }

  /** An event in the sender's room. */
  lemma InsideApart(w: World, m: ClientMessage, o: Outcome, c: Xid)
    requires Base(w) && Executes(w, m.info, m.event, o)
    requires m.event.StartShare? || m.event.StopShare? || m.event.Name? || m.event.Relay?
    requires c != m.info.id && Where(w, m.info.id) != "" && c !in UsersOf(w, Where(w, m.info.id))
    ensures Silent(w.out, o.world.out, c) && (o.error.Some? ==> StillApart(o.world, m.info.id, c))
  {
    var me := m.info.id;
    if InRoom(w, me) {
      RoomTidy(w, me);
    }
    hide Base, StartsShare, StopsShare, Renames, Relays, Silent, StillApart;
    match m.event
    case StartShare =>
      ShareSilent(w, me, o, c);
      if o.error.Some? {
        ShareApart(w, me, o, c);
      }
    case StopShare =>
      StopSilent(w, me, o, c);
      StopFails(w, me, o, c);
    case Name(userName) =>
      RenameSilent(w, me, userName, o, c);
      RenameFails(w, me, userName, o, c);
    case Relay(kind, sid, value) =>
      RelaySilent(w, me, kind, sid, value, o, c);
      RelayFails(w, me, kind, sid, value, o, c);
  }

  lemma StopFails(w: World, me: Xid, o: Outcome, c: Xid)
    requires StopsShare(w, me, o) && c !in UsersOf(w, Where(w, me))
    ensures o.error.Some? ==> StillApart(o.world, me, c)
  {
  }

  lemma RenameFails(w: World, me: Xid, name: string, o: Outcome, c: Xid)
    requires Renames(w, me, name, o) && c !in UsersOf(w, Where(w, me))
    ensures o.error.Some? ==> StillApart(o.world, me, c)
  {
  }

  lemma RelayFails(w: World, me: Xid, kind: RelayKind, sid: Xid, value: string, o: Outcome, c: Xid)
    requires Relays(w, me, kind, sid, value, o) && c !in UsersOf(w, Where(w, me))
    ensures o.error.Some? ==> StillApart(o.world, me, c)
  {
  }

  lemma ExecuteApart(w: World, m: ClientMessage, o: Outcome, c: Xid)
    requires Base(w) && Executes(w, m.info, m.event, o) && !m.event.Disconnected?
    requires m.event.Connected? || m.info.id in w.connected
    requires c != m.info.id && c !in Reached(w, m)
    ensures Silent(w.out, o.world.out, c) && (o.error.Some? ==> StillApart(o.world, m.info.id, c))
  {
    if Where(w, m.info.id) == "" && (m.event.StartShare? || m.event.StopShare? || m.event.Name? || m.event.Relay?) {
      OutsideFails(w, m.info, m.event, o);
      UnchangedApart(w, m, c);
    } else {
      hide Base, Creates, Joins, Silent, StillApart;
      match m.event
      case Connected => UnchangedApart(w, m, c);
      case Create(_, _, _, _, _) => CreateApart(w, m, o, c);
      case Join(_, _) => JoinLeavesApart(w, m, o, c);
      case _ => InsideApart(w, m, o, c);
    }
  }

  /**
   * A step writes to its sender and to the users of one room: the one the sender is in or, if it is in none,
   * the one it is let into. Nobody else is written anything.
   */
  lemma NextReaches(w: World, m: ClientMessage, w': World, c: Xid)
    requires Base(w) && Arrives(w, m) && Next(w, m, w') && c != m.info.id && c !in Reached(w, m)
    ensures Written(w'.out, c) == Written(w.out, c)
  {
    var me := m.info.id;
    UnchangedApart(w, m, c);
    hide Base, Executes, Disconnects, Reached, UsersOf, Written;
    if m.skipConnectedCheck || me in w.connected {
      var o :| Executes(w, m.info, m.event, o) && o.reply == m.reply && Completes(o, me, w');
      if m.event.Disconnected? {
        DisconnectOnly(w, m.info, m.event, o);
        DisconnectSilent(w, me, m.event.code, m.event.reason, w', c);
      } else {
        ExecuteApart(w, m, o, c);
        if o.error.Some? {
          DisconnectSilent(o.world, me, NORMAL_CLOSURE, o.error.value, w', c);
        }
      }
    }
  }
}
