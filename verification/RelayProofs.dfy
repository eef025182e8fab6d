/** Peer-to-peer messages reach the other end of their session and nobody else. */
module RelayProofs {
  import opened Types
  import opened Spec
  import opened BaseProofs

  /** Nothing was taken back from what `c` was written, and neither a relayed nor a closing message was added. */
  ghost predicate Quiet(out: map<Xid, seq<Message>>, out': map<Xid, seq<Message>>, c: Xid) {
    Unrelayed(out, out', c) && Unclosed(out, out', c)
  }

  ghost predicate Unclosed(out: map<Xid, seq<Message>>, out': map<Xid, seq<Message>>, c: Xid) {
    forall i | |Written(out, c)| <= i < |Written(out', c)| :: !Written(out', c)[i].CloseWriter?
  }

  /** Nothing was taken back from what `c` was written, and no relayed message was added. */
  ghost predicate Unrelayed(out: map<Xid, seq<Message>>, out': map<Xid, seq<Message>>, c: Xid) {
    Written(out, c) <= Written(out', c) &&
    forall i | |Written(out, c)| <= i < |Written(out', c)| :: !Written(out', c)[i].Relayed?
  }

  lemma QuietThrough(out: map<Xid, seq<Message>>, out1: map<Xid, seq<Message>>, out2: map<Xid, seq<Message>>, c: Xid)
    requires Unrelayed(out, out1, c) && Unrelayed(out1, out2, c)
    ensures Unrelayed(out, out2, c)
    ensures Quiet(out, out1, c) && Quiet(out1, out2, c) ==> Quiet(out, out2, c)
  {
    hide Written;
  }

  lemma PostQuiet(out: map<Xid, seq<Message>>, to: Xid, m: Message, c: Xid)
    requires !m.Relayed?
    ensures Unrelayed(out, Post(out, to, m), c)
    ensures !m.CloseWriter? || c != to ==> Quiet(out, Post(out, to, m), c)
  {
  }

  lemma {:induction false} PlanQuiet(out: map<Xid, seq<Message>>, mode: ConnectionMode, plan: seq<Pairing>,
                                     at: Addresses, c: Xid)
    ensures Quiet(out, PlanOut(out, mode, plan, at), c)
  {
    if plan != [] {
      var p := plan[|plan| - 1];
      var before := PlanOut(out, mode, plan[..|plan| - 1], at);
      var m1 := HostSession(p.sid, p.client, Ice(mode, at, HostKey(p.sid), p.hostPassword));
      PlanQuiet(out, mode, plan[..|plan| - 1], at, c);
      hide Unclosed, Unrelayed, Post;
      PostQuiet(before, p.host, m1, c);
      PostQuiet(Post(before, p.host, m1), p.client,
              ClientSession(p.sid, p.host, Ice(mode, at, ClientKey(p.sid), p.clientPassword)), c);
      QuietThrough(out, before, Post(before, p.host, m1), c);
      QuietThrough(out, Post(before, p.host, m1), PlanOut(out, mode, plan, at), c);
    }
  }

  lemma {:induction false} EndQuiet(out: map<Xid, seq<Message>>, users: map<Xid, User>, me: Xid, ends: seq<Xid>,
                                  all: map<Xid, RoomSession>, c: Xid)
    requires forall s | s in ends :: s in all
    ensures Quiet(out, EndOut(out, users, me, ends, all), c)
  {
    if ends != [] {
      var n := |ends| - 1;
      var before := EndOut(out, users, me, ends[..n], all);
      EndQuiet(out, users, me, ends[..n], all, c);
      hide Unclosed, Unrelayed, Post;
      PostQuiet(before, Peer(all[ends[n]], me), EndShare(ends[n]), c);
      QuietThrough(out, before, Post(before, Peer(all[ends[n]], me), EndShare(ends[n])), c);
    }
  }

  lemma PostAllQuiet(out: map<Xid, seq<Message>>, to: map<Xid, Message>, c: Xid)
    requires forall u | u in to :: !to[u].Relayed?
    ensures Unrelayed(out, PostAll(out, to), c)
    ensures c !in to || !to[c].CloseWriter? ==> Quiet(out, PostAll(out, to), c)
  {
  }

  lemma NotifiedQuiet(w: World, rid: string, w': World, c: Xid)
    requires rid in w.rooms && Notified(w, rid, w')
    ensures Quiet(w.out, w'.out, c)
  {
    hide ListingsFor, Unclosed, Unrelayed, PostAll;
    var lists :| ListingsFor(w.rooms[rid].users, lists) && w' == SendLists(w, rid, lists);
    PostAllQuiet(w.out, map u | u in lists :: RoomInfo(w.rooms[rid].id, lists[u]), c);
  }

  lemma OpensQuiet(w: World, rid: string, pairs: set<(Xid, Xid)>, o: Outcome, c: Xid)
    requires rid in w.rooms && OpensSessions(w, rid, pairs, o)
    ensures Quiet(w.out, o.world.out, c)
  {
    hide PlanFor;
    if o.error.None? {
      var at := o.reply.At();
      var plan :| Opens(w, rid, pairs, plan, at, o.world);
      PlanQuiet(w.out, w.rooms[rid].mode, plan, at, c);
    }
  }

  lemma JoinQuiet(w: World, info: ClientInfo, id: string, asked: string, o: Outcome, c: Xid)
    requires Joins(w, info, id, asked, o)
    ensures Quiet(w.out, o.world.out, c)
  {
    hide OpensSessions, Notified;
    if Where(w, info.id) == "" && id in w.rooms {
      var name, w1 :| JoinsAs(w, info, id, asked, name, w1, o);
      NotifiedQuiet(Enter(w, id, User(info.id, info.addr, name, false, false)), id, w1, c);
      OpensQuiet(w1, id, PairsOnJoin(w1.rooms[id].users, info.id), o, c);
      QuietThrough(w.out, w1.out, o.world.out, c);
    }
  }

  lemma CreateQuiet(w: World, info: ClientInfo, e: Event, o: Outcome, c: Xid)
    requires e.Create? && Creates(w, info, e, o)
    ensures Quiet(w.out, o.world.out, c)
  {
    hide Joins, Notified;
    if Where(w, info.id) == "" {
      if e.id in w.rooms {
        if e.joinIfExist {
          JoinQuiet(w, info, e.id, e.userName, o, c);
        }
      } else if CreateRefused(w.authMode, info, e.mode).None? {
        var name :| NameFor(info, e.userName, name) && Notified(OpenRoom(w, info, e, name), e.id, o.world);
        NotifiedQuiet(OpenRoom(w, info, e, name), e.id, o.world, c);
      }
    }
  }

  lemma ShareQuiet(w: World, me: Xid, o: Outcome, c: Xid)
    requires StartsShare(w, me, o)
    ensures Quiet(w.out, o.world.out, c)
  {
    hide OpensSessions, Notified;
    if InRoom(w, me) {
      var rid := w.connected[me];
      var o1 :| SharesAs(w, rid, me, o1, o);
      var w1 := UpdateUser(w, rid, w.rooms[rid].users[me].(streaming := true));
      OpensQuiet(w1, rid, PairsOnShare(w1.rooms[rid].users, me), o1, c);
      if o.error.None? {
        NotifiedQuiet(o1.world, rid, o.world, c);
        QuietThrough(w.out, o1.world.out, o.world.out, c);
      }
    }
  }

  lemma StopQuiet(w: World, me: Xid, o: Outcome, c: Xid)
    requires StopsShare(w, me, o)
    ensures Quiet(w.out, o.world.out, c)
  {
    hide Notified, OrderOfEnds;
    if InRoom(w, me) {
      var rid := w.connected[me];
      var ends :| StopsWith(w, rid, me, ends, o.world);
      OrderIsOrder(w.rooms[rid].sessions, me, false, ends);
      var w1 := UpdateUser(w, rid, w.rooms[rid].users[me].(streaming := false));
      EndQuiet(w1.out, w1.rooms[rid].users, me, ends, w1.rooms[rid].sessions, c);
      NotifiedQuiet(EndSessions(w1, rid, me, ends), rid, o.world, c);
      QuietThrough(w.out, EndSessions(w1, rid, me, ends).out, o.world.out, c);
    }
  }

  lemma RenameQuiet(w: World, me: Xid, name: string, o: Outcome, c: Xid)
    requires Renames(w, me, name, o)
    ensures Quiet(w.out, o.world.out, c)
  {
    hide Notified;
    if InRoom(w, me) {
      var rid := w.connected[me];
      NotifiedQuiet(UpdateUser(w, rid, w.rooms[rid].users[me].(name := name)), rid, o.world, c);
    }
  }

  /** Members who are parted with may be sent a closing message; those who stay are not. */
  ghost predicate Parts(w: World, w': World, c: Xid) {
    Unrelayed(w.out, w'.out, c) && (c in w'.connected ==> Quiet(w.out, w'.out, c))
  }

  lemma KickQuiet(w: World, rid: string, c: Xid)
    requires rid in w.rooms
    ensures Parts(w, KickAll(w, rid), c)
  {
    hide PostAll, Unclosed, Unrelayed;
    PostAllQuiet(w.out, map u | u in w.rooms[rid].users :: CloseWriter(NORMAL_CLOSURE, OWNER_LEFT), c);
  }

  lemma SettleQuiet(w: World, rid: string, ownerLeft: bool, w': World, c: Xid)
    requires rid in w.rooms && Settles(w, rid, ownerLeft, w')
    ensures Parts(w, w', c)
  {
    hide Notified;
    KickQuiet(w, rid, c);
    StillQuiet(w.out, c);
    if !(ownerLeft && w.rooms[rid].closeOnOwnerLeave) && w.rooms[rid].users != map[] {
      NotifiedQuiet(w, rid, w', c);
    }
  }

  lemma DisconnectQuiet(w: World, me: Xid, code: int, reason: string, w': World, c: Xid)
    requires Disconnects(w, me, code, reason, w')
    ensures Parts(w, w', c)
  {
    hide Settles, OrderOfEnds, Unclosed, Unrelayed, Post;
    var rid := Where(w, me);
    PostQuiet(w.out, me, CloseWriter(code, reason), c);
    if rid != "" && rid in w.rooms && me in w.rooms[rid].users {
      var ends :| DisconnectsWith(w, rid, me, code, reason, ends, w');
      OrderIsOrder(w.rooms[rid].sessions, me, true, ends);
      var w2 := RemoveUser(Forget(w, me, code, reason), rid, me);
      EndQuiet(w2.out, w2.rooms[rid].users, me, ends, w2.rooms[rid].sessions, c);
      QuietThrough(w.out, w2.out, EndSessions(w2, rid, me, ends).out, c);
      SettleQuiet(EndSessions(w2, rid, me, ends), rid, w.rooms[rid].users[me].owner, w', c);
      SettleForgets(EndSessions(w2, rid, me, ends), rid, w.rooms[rid].users[me].owner, w');
      QuietThrough(w.out, EndSessions(w2, rid, me, ends).out, w'.out, c);
    }
  }

  lemma SettleForgets(w: World, rid: string, ownerLeft: bool, w': World)
    requires rid in w.rooms && Settles(w, rid, ownerLeft, w')
    ensures w'.connected.Keys <= w.connected.Keys
  {
  }

  /** The message is a peer-to-peer message from an end of a live session of the sender's room that may send it. */
  predicate Accepted(w: World, m: ClientMessage) {
    && m.event.Relay? && InRoom(w, m.info.id)
    && m.event.sid in w.rooms[w.connected[m.info.id]].sessions
    && var s := w.rooms[w.connected[m.info.id]].sessions[m.event.sid];
       m.info.id == if m.event.kind.FromHost() then s.host else s.client
  }

  function Receiver(w: World, m: ClientMessage): Xid
    requires Accepted(w, m)
  {
    var s := w.rooms[w.connected[m.info.id]].sessions[m.event.sid];
    if m.event.kind.FromHost() then s.client else s.host
  }

  /** What an event may do to what `c` was written, as far as peer-to-peer messages are concerned. */
  ghost predicate RelaysRight(w: World, m: ClientMessage, w': World, c: Xid) {
    if Accepted(w, m) && c == Receiver(w, m) then
      Written(w'.out, c) == Written(w.out, c) + [Relayed(m.event.kind, m.event.sid, m.event.value)]
    else
      Parts(w, w', c)
  }

  lemma RelayEvent(w: World, m: ClientMessage, o: Outcome, c: Xid)
    requires m.event.Relay? && Relays(w, m.info.id, m.event.kind, m.event.sid, m.event.value, o)
    ensures RelaysRight(w, m, o.world, c) && (o.error.Some? ==> !Accepted(w, m) && Quiet(w.out, o.world.out, c))
  {
  }

  lemma ExecuteRelays(w: World, m: ClientMessage, o: Outcome, c: Xid)
    requires Executes(w, m.info, m.event, o)
    ensures RelaysRight(w, m, o.world, c) && (o.error.Some? ==> !Accepted(w, m) && Quiet(w.out, o.world.out, c))
  {
    hide Unclosed, Unrelayed, Creates, Joins, StartsShare, StopsShare, Renames, Relays, Disconnects;
    var info := m.info;
    match m.event
    case Connected => ConnectQuiet(w, info.id, c);
    case Create(_, _, _, _, _) => CreateQuiet(w, info, m.event, o, c);
    case Join(id, userName) => JoinQuiet(w, info, id, userName, o, c);
    case StartShare => ShareQuiet(w, info.id, o, c);
    case StopShare => StopQuiet(w, info.id, o, c);
    case Name(userName) => RenameQuiet(w, info.id, userName, o, c);
    case Relay(kind, sid, value) =>
      hide RelaysRight;
      RelayEvent(w, m, o, c);
    case Disconnected(code, reason) => DisconnectQuiet(w, info.id, code, reason, o.world, c);
  }

  lemma ConnectQuiet(w: World, me: Xid, c: Xid)
    ensures Quiet(w.out, w.(connected := w.connected[me := ""], used := w.used + {me}).out, c)
  {
  }

  /**
   * Whatever the event, a client is sent a peer-to-peer message exactly if the event is such a message, from
   * the end of a live session that may send it, and the client is the other end; then that message is all
   * it is sent. A closing message is sent only to clients that are no longer connected afterwards. What was
   * written before is never taken back.
   */
  lemma RelayedOnlyToPeer(w: World, m: ClientMessage, w': World, c: Xid)
    requires Next(w, m, w')
    ensures
      if Accepted(w, m) && c == Receiver(w, m) then
        Written(w'.out, c) == Written(w.out, c) + [Relayed(m.event.kind, m.event.sid, m.event.value)]
      else
        Parts(w, w', c)
  {
    hide Unclosed, Unrelayed, Written, Accepted;
    if m.skipConnectedCheck || m.info.id in w.connected {
      var o :| Executes(w, m.info, m.event, o) && o.reply == m.reply && Completes(o, m.info.id, w');
      hide Executes, Disconnects;
      ExecuteRelays(w, m, o, c);
      if o.error.Some? {
        DisconnectQuiet(o.world, m.info.id, NORMAL_CLOSURE, o.error.value, w', c);
        QuietThrough(w.out, o.world.out, w'.out, c);
      }
    } else {
      StrangerNotAccepted(w, m);
      StillQuiet(w.out, c);
    }
  }

  lemma StrangerNotAccepted(w: World, m: ClientMessage)
    requires m.info.id !in w.connected
    ensures !Accepted(w, m)
  {
  }

  lemma StillQuiet(out: map<Xid, seq<Message>>, c: Xid)
    ensures Quiet(out, out, c) && Unrelayed(out, out, c)
  {
  }

  /** What was written to a client stays written, and whoever is sent a closing message is forgotten. */
  lemma WritesAreKept(w: World, m: ClientMessage, w': World, c: Xid)
    requires Next(w, m, w')
    ensures Written(w.out, c) <= Written(w'.out, c)
    ensures c in w'.connected ==>
              forall i | |Written(w.out, c)| <= i < |Written(w'.out, c)| :: !Written(w'.out, c)[i].CloseWriter?
  {
    hide Next, Written, Accepted;
    RelayedOnlyToPeer(w, m, w', c);
  }
}
