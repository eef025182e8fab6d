/** Exactly when a member is left with a member list that is not that of its room. */
module Lists {
  import opened Types
  import opened MemberList
  import opened Spec
  import opened Invariants
  import opened RoomProofs
  import opened BaseProofs
  import opened Isolation
  import opened Leaving
  import opened OneRoom
  import opened Reach

  /** The last member list among some messages. */
  function LastList(ms: seq<Message>): Option<Message> {
    if ms == [] then None
    else if ms[|ms| - 1].RoomInfo? then Some(ms[|ms| - 1])
    else LastList(ms[..|ms| - 1])
  }

  /** The last member list written to `c` lists exactly the users of the room, as shown to `c`. */
  ghost predicate Current(out: map<Xid, seq<Message>>, room: RoomState, c: Xid) {
    match LastList(Written(out, c))
    case Some(RoomInfo(id, users)) => id == room.id && IsListing(users, room.users, c)
    case _ => false
  }

  ghost predicate AllCurrent(w: World, r: string)
    requires r in w.rooms
  {
    forall c | c in w.rooms[r].users :: Current(w.out, w.rooms[r], c)
  }

  /** The last list written to each user of each room is the current list of that room. */
  ghost predicate ListsCurrent(w: World) {
    forall r | r in w.rooms :: AllCurrent(w, r)
  }

  /** `c` was sent no new list. */
  ghost predicate SameList(out: map<Xid, seq<Message>>, out': map<Xid, seq<Message>>, c: Xid) {
    LastList(Written(out', c)) == LastList(Written(out, c))
  }

  ghost predicate SameLists(out: map<Xid, seq<Message>>, out': map<Xid, seq<Message>>) {
    forall c :: SameList(out, out', c)
  }

  // ---------- Messages that are not lists ----------

  lemma LastOf(ms: seq<Message>, m: Message)
    ensures LastList(ms + [m]) == if m.RoomInfo? then Some(m) else LastList(ms)
  {
    assert (ms + [m])[..|ms|] == ms;
  }

  lemma PostSame(out: map<Xid, seq<Message>>, to: Xid, m: Message, c: Xid)
    requires !m.RoomInfo?
    ensures SameList(out, Post(out, to, m), c)
  {
    LastOf(Written(out, to), m);
  }

  lemma {:induction false} PlanSame(out: map<Xid, seq<Message>>, mode: ConnectionMode, plan: seq<Pairing>,
                                    at: Addresses, c: Xid)
    ensures SameList(out, PlanOut(out, mode, plan, at), c)
  {
    if plan != [] {
      var p := plan[|plan| - 1];
      var before := PlanOut(out, mode, plan[..|plan| - 1], at);
      var m1 := HostSession(p.sid, p.client, Ice(mode, at, HostKey(p.sid), p.hostPassword));
      PlanSame(out, mode, plan[..|plan| - 1], at, c);
      hide LastList, Written, Post;
      PostSame(before, p.host, m1, c);
      PostSame(Post(before, p.host, m1), p.client,
               ClientSession(p.sid, p.host, Ice(mode, at, ClientKey(p.sid), p.clientPassword)), c);
    }
  }

  // ---------- Lists are sent ----------

  lemma PostAllLists(out: map<Xid, seq<Message>>, to: map<Xid, Message>, c: Xid)
    requires c in to && to[c].RoomInfo?
    ensures LastList(Written(PostAll(out, to), c)) == Some(to[c])
  {
    LastOf(Written(out, c), to[c]);
  }

  lemma NotifiedCurrent(w: World, rid: string, w': World)
    requires rid in w.rooms && Notified(w, rid, w')
    ensures rid in w'.rooms && AllCurrent(w', rid)
  {
    hide IsListing, PostAll, Written, LastList;
    var lists :| ListingsFor(w.rooms[rid].users, lists) && w' == SendLists(w, rid, lists);
    var to := map u | u in lists :: RoomInfo(w.rooms[rid].id, lists[u]);
    forall c | c in w.rooms[rid].users
      ensures Current(w'.out, w'.rooms[rid], c)
    {
      PostAllLists(w.out, to, c);
    }
  }

  /** A room keeps its current lists when its users and their lists stay as they are. */
  lemma StaysCurrent(w: World, r: string, w': World)
    requires r in w.rooms && AllCurrent(w, r) && r in w'.rooms && SameLists(w.out, w'.out)
    requires w'.rooms[r].users == w.rooms[r].users && w'.rooms[r].id == w.rooms[r].id
    ensures AllCurrent(w', r)
  {
    hide LastList, Written, IsListing;
    forall c | c in w'.rooms[r].users
      ensures Current(w'.out, w'.rooms[r], c)
    {
      assert Current(w.out, w.rooms[r], c) && SameList(w.out, w'.out, c);
    }
  }

  lemma OpensSame(w: World, rid: string, pairs: set<(Xid, Xid)>, o: Outcome)
    requires rid in w.rooms && OpensSessions(w, rid, pairs, o)
    ensures SameLists(w.out, o.world.out)
  {
    hide PlanFor, LastList, Written;
    if o.error.None? {
      var at := o.reply.At();
      var plan: seq<Pairing> :| Opens(w, rid, pairs, plan, at, o.world);
      forall c
        ensures SameList(w.out, o.world.out, c)
      {
        PlanSame(w.out, w.rooms[rid].mode, plan, at, c);
      }
    }
  }

  lemma JoinCurrent(w: World, info: ClientInfo, id: string, asked: string, o: Outcome)
    requires Joins(w, info, id, asked, o) && Where(w, info.id) == "" && id in w.rooms
    ensures id in o.world.rooms && AllCurrent(o.world, id)
  {
    hide OpensSessions, Notified, AllCurrent, SameLists;
    var name, w1 :| JoinsAs(w, info, id, asked, name, w1, o);
    var entered := Enter(w, id, User(info.id, info.addr, name, false, false));
    NotifiedCurrent(entered, id, w1);
    OpensSame(w1, id, PairsOnJoin(w1.rooms[id].users, info.id), o);
    OpensFrame(w1, id, PairsOnJoin(w1.rooms[id].users, info.id), o);
    StaysCurrent(w1, id, o.world);
  }

  lemma CreateCurrent(w: World, m: ClientMessage, o: Outcome)
    requires m.event.Create? && Creates(w, m.info, m.event, o) && LetIn(w, m)
    ensures m.event.id in o.world.rooms && AllCurrent(o.world, m.event.id)
  {
    hide Joins, Notified, AllCurrent;
    var e := m.event;
    if e.id in w.rooms {
      JoinCurrent(w, m.info, e.id, e.userName, o);
    } else {
      var name :| NameFor(m.info, e.userName, name) && Notified(OpenRoom(w, m.info, e, name), e.id, o.world);
      NotifiedCurrent(OpenRoom(w, m.info, e, name), e.id, o.world);
    }
  }

  lemma ShareCurrent(w: World, me: Xid, o: Outcome)
    requires StartsShare(w, me, o) && o.error.None?
    ensures InRoom(w, me) && w.connected[me] in o.world.rooms && AllCurrent(o.world, w.connected[me])
  {
    hide OpensSessions, Notified, AllCurrent;
    var o1 :| SharesAs(w, w.connected[me], me, o1, o);
    NotifiedCurrent(o1.world, w.connected[me], o.world);
  }

  lemma StopCurrent(w: World, me: Xid, o: Outcome)
    requires StopsShare(w, me, o) && o.error.None?
    ensures InRoom(w, me) && w.connected[me] in o.world.rooms && AllCurrent(o.world, w.connected[me])
  {
    hide OrderOfEnds, Notified, AllCurrent;
    var rid := w.connected[me];
    var ends :| StopsWith(w, rid, me, ends, o.world);
    OrderIsOrder(w.rooms[rid].sessions, me, false, ends);
    NotifiedCurrent(EndSessions(UpdateUser(w, rid, w.rooms[rid].users[me].(streaming := false)), rid, me, ends), rid,
                    o.world);
  }

  lemma RenameCurrent(w: World, me: Xid, name: string, o: Outcome)
    requires Renames(w, me, name, o) && o.error.None?
    ensures InRoom(w, me) && w.connected[me] in o.world.rooms && AllCurrent(o.world, w.connected[me])
  {
    hide Notified, AllCurrent;
    var rid := w.connected[me];
    NotifiedCurrent(UpdateUser(w, rid, w.rooms[rid].users[me].(name := name)), rid, o.world);
  }

  lemma RelaySame(w: World, me: Xid, kind: RelayKind, sid: Xid, value: string, o: Outcome)
    requires Relays(w, me, kind, sid, value, o)
    ensures o.world.rooms == w.rooms && SameLists(w.out, o.world.out)
  {
    if o.world != w {
      forall c, to
        ensures SameList(w.out, Post(w.out, to, Relayed(kind, sid, value)), c)
      {
        PostSame(w.out, to, Relayed(kind, sid, value), c);
      }
    }
  }

  // ---------- Leaving ----------

  lemma SettleCurrent(w: World, rid: string, ownerLeft: bool, w': World)
    requires rid in w.rooms && Settles(w, rid, ownerLeft, w') && rid in w'.rooms
    ensures AllCurrent(w', rid)
  {
    hide Notified, AllCurrent;
    if !(ownerLeft && w.rooms[rid].closeOnOwnerLeave) && w.rooms[rid].users != map[] {
      NotifiedCurrent(w, rid, w');
    }
  }

  /** Those who stay in the room that a client leaves have its current list. */
  lemma LeaverCurrent(w: World, me: Xid, code: int, reason: string, w': World)
    requires Disconnects(w, me, code, reason, w')
    requires Where(w, me) != "" && Where(w, me) in w.rooms && me in w.rooms[Where(w, me)].users
    requires Where(w, me) in w'.rooms
    ensures AllCurrent(w', Where(w, me))
  {
    hide Settles, OrderOfEnds, AllCurrent;
    var rid := Where(w, me);
    var ends :| DisconnectsWith(w, rid, me, code, reason, ends, w');
    OrderIsOrder(w.rooms[rid].sessions, me, true, ends);
    SettleCurrent(EndSessions(RemoveUser(Forget(w, me, code, reason), rid, me), rid, me, ends), rid,
                  w.rooms[rid].users[me].owner, w');
  }

  /** A client that is in no room leaves without a trace in the lists. */
  lemma OutsiderSame(w: World, me: Xid, code: int, reason: string, w': World)
    requires Disconnects(w, me, code, reason, w') && Where(w, me) == ""
    ensures w'.rooms == w.rooms && SameLists(w.out, w'.out)
  {
    hide LastList, Written, Post;
    forall c
      ensures SameList(w.out, Post(w.out, me, CloseWriter(code, reason)), c)
    {
      PostSame(w.out, me, CloseWriter(code, reason), c);
    }
  }

  // ---------- One step ----------

  /** The users of room `r` have its current list, or as much as they had before. */
  ghost predicate AsCurrent(w: World, w': World, r: string)
    requires r in w'.rooms
  {
    || AllCurrent(w', r)
    || (r in w.rooms && w'.rooms[r].users == w.rooms[r].users && w'.rooms[r].id == w.rooms[r].id &&
        SameLists(w.out, w'.out))
  }

  lemma AsCurrentThrough(w: World, u: World, w': World, r: string)
    requires r in u.rooms && AsCurrent(w, u, r) && u.rooms == w'.rooms && SameLists(u.out, w'.out)
    ensures AsCurrent(w, w', r)
  {
    hide AllCurrent, SameList;
    if AllCurrent(u, r) {
      StaysCurrent(u, r, w');
    } else {
      SameThrough(w.out, u.out, w'.out);
    }
  }

  lemma SameThrough(out: map<Xid, seq<Message>>, out1: map<Xid, seq<Message>>, out2: map<Xid, seq<Message>>)
    requires SameLists(out, out1) && SameLists(out1, out2)
    ensures SameLists(out, out2)
  {
    hide LastList, Written;
    forall c
      ensures SameList(out, out2, c)
    {
      assert SameList(out, out1, c) && SameList(out1, out2, c);
    }
  }

  lemma UnchangedLists(w: World, w': World, r: string)
    requires w'.rooms == w.rooms && w'.out == w.out && r in w.rooms
    ensures AsCurrent(w, w', r)
  {
    hide LastList;
  }

  /** A refused entry changes nothing. */
  lemma NotLetIn(w: World, m: ClientMessage, o: Outcome)
    requires m.info.id in w.connected && !LetIn(w, m) && Executes(w, m.info, m.event, o)
    requires m.event.Create? || m.event.Join?
    ensures o.world == w && o.error.Some?
  {
    hide JoinsAs, Notified;
  }

  lemma EntryCurrent(w: World, m: ClientMessage, o: Outcome)
    requires LetIn(w, m) && Executes(w, m.info, m.event, o)
    ensures m.event.id in o.world.rooms && AllCurrent(o.world, m.event.id)
  {
    hide Creates, Joins, AllCurrent;
    if m.event.Create? {
      CreateCurrent(w, m, o);
    } else {
      JoinCurrent(w, m.info, m.event.id, m.event.userName, o);
    }
  }

  /** An event in the sender's room. */
  lemma InsideCurrent(w: World, m: ClientMessage, o: Outcome)
    requires Executes(w, m.info, m.event, o) && Where(w, m.info.id) != "" && o.error.None?
    requires m.event.StartShare? || m.event.StopShare? || m.event.Name? || m.event.Relay?
    ensures Where(w, m.info.id) in o.world.rooms ==> AsCurrent(w, o.world, Where(w, m.info.id))
  {
    hide StartsShare, StopsShare, Renames, Relays, AllCurrent, SameLists;
    match m.event
    case StartShare => ShareCurrent(w, m.info.id, o);
    case StopShare => StopCurrent(w, m.info.id, o);
    case Name(userName) => RenameCurrent(w, m.info.id, userName, o);
    case Relay(kind, sid, value) => RelaySame(w, m.info.id, kind, sid, value, o);
  }

  lemma OutsideCurrent(w: World, m: ClientMessage, o: Outcome, rid: string)
    requires Executes(w, m.info, m.event, o) && Where(w, m.info.id) == "" && rid in o.world.rooms
    requires m.event.StartShare? || m.event.StopShare? || m.event.Name? || m.event.Relay?
    ensures AsCurrent(w, o.world, rid)
  {
    OutsideFails(w, m.info, m.event, o);
    hide Executes;
    UnchangedLists(w, o.world, rid);
  }

  lemma EntryAsCurrent(w: World, m: ClientMessage, o: Outcome)
    requires m.info.id in w.connected && (m.event.Create? || m.event.Join?) && Executes(w, m.info, m.event, o)
    ensures
      var rid := Concerned(w, m.info.id, m.event);
      rid in o.world.rooms ==> AsCurrent(w, o.world, rid)
  {
    var rid := Concerned(w, m.info.id, m.event);
    if LetIn(w, m) {
      EntryCurrent(w, m, o);
      hide AllCurrent, SameLists, Executes;
    } else {
      NotLetIn(w, m, o);
      hide Executes, LetIn;
      if rid in w.rooms {
        UnchangedLists(w, o.world, rid);
      }
    }
  }

  lemma ConnectCurrent(w: World, m: ClientMessage, o: Outcome, rid: string)
    requires Executes(w, m.info, m.event, o) && m.event.Connected? && rid in o.world.rooms
    ensures AsCurrent(w, o.world, rid)
  {
    UnchangedLists(w, o.world, rid);
    hide AsCurrent;
  }

  /** A failed event in the sender's room leaves the sender in it. */
  lemma FailsInside(w: World, m: ClientMessage, o: Outcome)
    requires Executes(w, m.info, m.event, o) && o.error.Some? && Where(w, m.info.id) != ""
    ensures Where(o.world, m.info.id) == Where(w, m.info.id)
  {
    FailsHalfway(w, m.info, m.event, o);
    hide Executes;
  }

  lemma ExecuteCurrent(w: World, m: ClientMessage, o: Outcome)
    requires Executes(w, m.info, m.event, o) && !m.event.Disconnected?
    requires if m.event.Connected? then m.info.id !in w.connected else m.info.id in w.connected
    requires o.error.None? || Where(o.world, m.info.id) == ""
    ensures
      var rid := Concerned(w, m.info.id, m.event);
      rid in o.world.rooms ==> AsCurrent(w, o.world, rid)
  {
    var rid := Concerned(w, m.info.id, m.event);
    if o.error.Some? && Where(w, m.info.id) != "" {
      FailsInside(w, m, o);
    }
    hide AsCurrent, Executes;
    if rid in o.world.rooms {
      if m.event.Connected? {
        ConnectCurrent(w, m, o, rid);
      } else if m.event.Create? || m.event.Join? {
        EntryAsCurrent(w, m, o);
      } else if Where(w, m.info.id) == "" {
        OutsideCurrent(w, m, o, rid);
      } else {
        InsideCurrent(w, m, o);
      }
    }
  }

  /** A client that is taken to be in a room is one of its users, also after its event failed halfway. */
  lemma InItsRoom(w: World, me: Xid)
    requires BaseBut(w, me) && Where(w, me) != ""
    ensures Where(w, me) in w.rooms && me in w.rooms[Where(w, me)].users
  {
    hide RoomsOkBut, Books;
  }

  /** A disconnect leaves the room of the client with current lists, and other rooms as they are. */
  lemma DisconnectCurrent(w: World, u: World, me: Xid, code: int, reason: string, w': World, r: string)
    requires BaseBut(u, me) && Disconnects(u, me, code, reason, w') && r in w'.rooms
    requires Where(u, me) == "" || Where(u, me) == r
    requires Where(u, me) == "" && r in u.rooms ==> AsCurrent(w, u, r)
    ensures AsCurrent(w, w', r)
  {
    hide AllCurrent, SameLists;
    if Where(u, me) == "" {
      OutsiderSame(u, me, code, reason, w');
      hide AsCurrent, Disconnects;
      AsCurrentThrough(w, u, w', r);
    } else {
      InItsRoom(u, me);
      LeaverCurrent(u, me, code, reason, w');
    }
  }

  /** After a step, the users of the one room it can touch have the current list of that room. */
  lemma NextCurrent(w: World, m: ClientMessage, w': World)
    requires Base(w) && Arrives(w, m) && Next(w, m, w')
    requires Concerned(w, m.info.id, m.event) in w'.rooms
    ensures AsCurrent(w, w', Concerned(w, m.info.id, m.event))
  {
    var me, rid := m.info.id, Concerned(w, m.info.id, m.event);
    ArrivesFresh(w, m);
    hide Base, BaseBut, Executes, Disconnects, AsCurrent, Where;
    if m.skipConnectedCheck || me in w.connected {
      var o :| Executes(w, m.info, m.event, o) && o.reply == m.reply && Completes(o, me, w');
      if m.event.Disconnected? {
        DisconnectOnly(w, m.info, m.event, o);
        BaseWeaken(w, me);
        SameStart(w, rid);
        assert rid == Where(w, me);
        DisconnectCurrent(w, w, me, m.event.code, m.event.reason, w', rid);
      } else {
        ExecuteAt(w, m, o);
        if o.error.Some? {
          DisconnectCurrent(w, o.world, me, NORMAL_CLOSURE, o.error.value, w', rid);
        }
      }
    } else {
      SameStart(w, rid);
    }
  }

  lemma SameStart(w: World, r: string)
    ensures r in w.rooms ==> AsCurrent(w, w, r)
  {
    if r in w.rooms {
      UnchangedLists(w, w, r);
    }
  }

  lemma ExecuteAt(w: World, m: ClientMessage, o: Outcome)
    requires Base(w) && Arrives(w, m) && Executes(w, m.info, m.event, o) && !m.event.Disconnected?
    requires m.skipConnectedCheck || m.info.id in w.connected
    ensures
      var rid := Concerned(w, m.info.id, m.event);
      && (o.error.Some? ==> BaseBut(o.world, m.info.id) && Where(o.world, m.info.id) in {"", rid})
      && (rid in o.world.rooms && (o.error.None? || Where(o.world, m.info.id) == "") ==> AsCurrent(w, o.world, rid))
  {
    ArrivesFresh(w, m);
    KnownSender(w, m);
    ExecuteBase(w, m.info, m.event, o);
    ExecutePuts(w, m, o);
    hide Base, BaseBut, Executes, AsCurrent, UsersOf;
    if o.error.None? || Where(o.world, m.info.id) == "" {
      ExecuteCurrent(w, m, o);
    }
  }

  // ---------- Exactly when the lists stay current ----------

  /** Rooms are found under their own ids. */
  lemma OwnRoomIds(w: World)
    requires Base(w)
    ensures forall r | r in w.rooms :: w.rooms[r].id == r
  {
    hide Indexed, Books, Sharing, EndsAreMembers, HasOwner, AtMostOneOwner;
  }

  /** The last list is of one room only, so nobody can have current lists of two. */
  lemma CurrentMeansOneRoom(w: World)
    requires Base(w) && ListsCurrent(w)
    ensures OneRoomEach(w)
  {
    OwnRoomIds(w);
    hide Base, LastList, IsListing, Written;
    forall q, r, c | c in UsersOf(w, q) && c in UsersOf(w, r)
      ensures q == r
    {
      assert AllCurrent(w, q) && AllCurrent(w, r);
      assert Current(w.out, w.rooms[q], c) && Current(w.out, w.rooms[r], c);
    }
  }

  /** A step of a client that is in no room and not let into one changes no list. */
  lemma RefusedSame(w: World, m: ClientMessage, w': World)
    requires Next(w, m, w') && Arrives(w, m) && Base(w) && Where(w, m.info.id) == "" && !LetIn(w, m)
    ensures SameLists(w.out, w'.out)
  {
    var me := m.info.id;
    ArrivesFresh(w, m);
    hide Base, LetIn, SameLists;
    SameAsBefore(w.out);
    if m.skipConnectedCheck || me in w.connected {
      var o :| Executes(w, m.info, m.event, o) && o.reply == m.reply && Completes(o, me, w');
      RefusedExecutes(w, m, o);
      hide Executes, Disconnects, Where;
      if o.error.Some? {
        OutsiderSame(o.world, me, NORMAL_CLOSURE, o.error.value, w');
      }
    }
  }

  lemma SameAsBefore(out: map<Xid, seq<Message>>)
    ensures SameLists(out, out)
  {
  }

  lemma RefusedExecutes(w: World, m: ClientMessage, o: Outcome)
    requires Executes(w, m.info, m.event, o) && Where(w, m.info.id) == "" && !LetIn(w, m)
    requires m.event.Connected? || m.info.id in w.connected
    ensures SameLists(w.out, o.world.out) && (o.error.Some? ==> o.world == w)
  {
    hide LetIn, SameLists;
    SameAsBefore(w.out);
    if m.event.Create? || m.event.Join? {
      NotLetIn(w, m, o);
    } else if m.event.Disconnected? {
      DisconnectOnly(w, m.info, m.event, o);
      hide Executes;
      OutsiderSame(w, m.info.id, m.event.code, m.event.reason, o.world);
    } else if !m.event.Connected? {
      OutsideFails(w, m.info, m.event, o);
    }
  }

  /** A user of a room the step does not concern is sent no list. */
  lemma ElsewhereSame(w: World, m: ClientMessage, w': World, r: string, c: Xid)
    requires Base(w) && OneRoomEach(w) && Arrives(w, m) && Next(w, m, w') && !EntersElsewhere(w, m)
    requires c in UsersOf(w, r) && r != Concerned(w, m.info.id, m.event)
    ensures SameList(w.out, w'.out, c)
  {
    var me := m.info.id;
    UsersAndIndex(w);
    hide Base, UsersOf, SameLists, LastList, Written, Next, Arrives, Where;
    if c != me {
      hide OneRoomEach;
      NotReached(w, m, r, c);
      NextReaches(w, m, w', c);
      SilentSame(w.out, w'.out, c);
    } else {
      SenderElsewhere(w, m, r);
      RefusedSame(w, m, w');
      assert SameLists(w.out, w'.out);
      SamePick(w.out, w'.out, c);
    }
  }

  lemma SamePick(out: map<Xid, seq<Message>>, out': map<Xid, seq<Message>>, c: Xid)
    requires SameLists(out, out')
    ensures SameList(out, out', c)
  {
  }

  lemma SilentSame(out: map<Xid, seq<Message>>, out': map<Xid, seq<Message>>, c: Xid)
    requires Written(out', c) == Written(out, c)
    ensures SameList(out, out', c)
  {
  }

  lemma NotReached(w: World, m: ClientMessage, r: string, c: Xid)
    requires OneRoomEach(w) && c in UsersOf(w, r) && r != Concerned(w, m.info.id, m.event)
    ensures c !in Reached(w, m)
  {
    hide UsersOf, Where;
  }

  lemma SenderElsewhere(w: World, m: ClientMessage, r: string)
    requires forall q, c | q != "" :: c in UsersOf(w, q) <==> Where(w, c) == q
    requires OneRoomEach(w) && !EntersElsewhere(w, m)
    requires m.info.id in UsersOf(w, r) && r != Concerned(w, m.info.id, m.event)
    ensures Where(w, m.info.id) == "" && !LetIn(w, m)
  {
    hide UsersOf, Where;
    var at := Where(w, m.info.id);
    assert at != "" ==> m.info.id in UsersOf(w, at);
  }

  /** Unless a user of the room with the empty id is let into another one, the lists stay current. */
  lemma ListsStayCurrent(w: World, m: ClientMessage, w': World)
    requires Base(w) && ListsCurrent(w) && Arrives(w, m) && Next(w, m, w') && !EntersElsewhere(w, m)
    ensures ListsCurrent(w')
  {
    CurrentMeansOneRoom(w);
    ArrivesFresh(w, m);
    NextTouchesOneRoom(w, m, w');
    var rid := Concerned(w, m.info.id, m.event);
    hide Base, OneRoomEach, Next, Arrives, EntersElsewhere, Concerned, AllCurrent, SameLists, KeepsOrigin;
    forall r | r in w'.rooms
      ensures AllCurrent(w', r)
    {
      if r == rid {
        NextCurrent(w, m, w');
        FromAsCurrent(w, w', r);
      } else {
        OtherStaysCurrent(w, m, w', r);
      }
    }
  }

  lemma FromAsCurrent(w: World, w': World, r: string)
    requires r in w'.rooms && AsCurrent(w, w', r) && (r in w.rooms ==> AllCurrent(w, r))
    ensures AllCurrent(w', r)
  {
    hide AllCurrent, SameLists;
    if !AllCurrent(w', r) {
      StaysCurrent(w, r, w');
    }
  }

  lemma OtherStaysCurrent(w: World, m: ClientMessage, w': World, r: string)
    requires Base(w) && OneRoomEach(w) && Arrives(w, m) && Next(w, m, w') && !EntersElsewhere(w, m)
    requires r in w.rooms && r in w'.rooms && w'.rooms[r] == w.rooms[r] && AllCurrent(w, r)
    requires r != Concerned(w, m.info.id, m.event)
    ensures AllCurrent(w', r)
  {
    hide Base, OneRoomEach, Next, Arrives, EntersElsewhere, Concerned, LastList, IsListing, Written;
    forall c | c in w'.rooms[r].users
      ensures Current(w'.out, w'.rooms[r], c)
    {
      assert Current(w.out, w.rooms[r], c);
      ElsewhereSame(w, m, w', r, c);
    }
  }

  /** The client whose event is rolled back is sent no further list. */
  lemma LeaverSame(w: World, me: Xid, code: int, reason: string, w': World)
    requires Disconnects(w, me, code, reason, w')
    ensures SameList(w.out, w'.out, me)
  {
    DisconnectSilent(w, me, code, reason, w', me);
    LastOf(Written(w.out, me), CloseWriter(code, reason));
  }

  /** A client that enters a room is sent its list last, even if it is thrown out again. */
  lemma EntrantList(w: World, m: ClientMessage, w': World)
    requires Base(w) && Arrives(w, m) && Next(w, m, w') && LetIn(w, m)
    ensures
      var last := LastList(Written(w'.out, m.info.id));
      last.Some? && last.value.RoomInfo? && last.value.room == m.event.id
  {
    hide Base, BaseBut, Arrives, LetIn, Executes, Disconnects, LastList, Written, IsListing;
    var me := m.info.id;
    NotInIsNowhere(w, m);
    EntrantIsKnown(w, m);
    var o :| Executes(w, m.info, m.event, o) && o.reply == m.reply && Completes(o, me, w');
    EntryCurrent(w, m, o);
    ExecutePuts(w, m, o);
    KnownSender(w, m);
    ExecuteBase(w, m.info, m.event, o);
    EntrantIsUser(w, m, o);
    assert Current(o.world.out, o.world.rooms[m.event.id], me);
    if o.error.Some? {
      LeaverSame(o.world, me, NORMAL_CLOSURE, o.error.value, w');
    }
  }

  lemma EntrantIsUser(w: World, m: ClientMessage, o: Outcome)
    requires LetIn(w, m) && Executes(w, m.info, m.event, o)
    requires if o.error.None? then Base(o.world) else BaseBut(o.world, m.info.id)
    ensures
      && m.event.id in o.world.rooms && m.info.id in o.world.rooms[m.event.id].users
      && o.world.rooms[m.event.id].id == m.event.id
  {
    EntrantEnters(w, m, o);
    hide LetIn, Executes, Indexed, Books, Sharing, SharingBut, EndsAreMembers, HasOwner, AtMostOneOwner;
  }

  lemma EntrantEnters(w: World, m: ClientMessage, o: Outcome)
    requires LetIn(w, m) && Executes(w, m.info, m.event, o)
    ensures m.event.id in o.world.rooms && m.info.id in o.world.rooms[m.event.id].users
  {
    hide Joins, Notified;
    var e := m.event;
    if e.id in w.rooms {
      JoinUsers(w, m.info, e.id, e.userName, o);
    } else {
      var name :| NameFor(m.info, e.userName, name) && Notified(OpenRoom(w, m.info, e, name), e.id, o.world);
      NotifiedOnlyOut(OpenRoom(w, m.info, e, name), e.id, o.world);
    }
  }

  /** A user of the room with the empty id that is let into another one is left with the wrong list for the first. */
  lemma ListsGoStale(w: World, m: ClientMessage, w': World)
    requires Base(w) && Arrives(w, m) && Next(w, m, w') && EntersElsewhere(w, m)
    ensures !ListsCurrent(w')
  {
    EntrantList(w, m, w');
    NextPuts(w, m, w');
    NextKeepsBase(w, m, w');
    OwnRoomIds(w');
    hide Base, Next, Arrives, LetIn, LastList, Written, IsListing;
    assert m.info.id in w'.rooms[""].users;
    assert !Current(w'.out, w'.rooms[""], m.info.id);
    assert !AllCurrent(w', "");
  }

  /**
   * A step keeps the last list written to each user of each room current exactly if it does not let a user
   * of the room with the empty id into another one, whether or not that succeeds in the end.
   */
  lemma NextLists(w: World, m: ClientMessage, w': World)
    requires Base(w) && ListsCurrent(w) && Arrives(w, m) && Next(w, m, w')
    ensures ListsCurrent(w') <==> !EntersElsewhere(w, m)
  {
    hide Base, ListsCurrent, Next, Arrives, EntersElsewhere;
    if EntersElsewhere(w, m) {
      ListsGoStale(w, m, w');
    } else {
      ListsStayCurrent(w, m, w');
    }
  }

  /**
   * Up to a state of a run all lists were always current, exactly if no step before it let a user of the room
   * with the empty id into another one.
   */
  lemma {:induction false} ListsExactly(authMode: AuthMode, ms: seq<ClientMessage>, ws: seq<World>, i: nat)
    requires IsRun(authMode, ms, ws) && i < |ws|
    ensures (forall j | 0 <= j <= i :: ListsCurrent(ws[j])) <==> forall j | 0 <= j < i :: !EntersElsewhere(ws[j], ms[j])
  {
    hide Base, ListsCurrent, EntersElsewhere, Next, Arrives, Init;
    if i == 0 {
      InitLists(authMode);
    } else {
      ListsExactly(authMode, ms, ws, i - 1);
      if ListsCurrent(ws[i - 1]) {
        RunsKeepBase(authMode, ms, ws, i - 1);
        NextLists(ws[i - 1], ms[i - 1], ws[i]);
      }
    }
  }

  lemma InitLists(authMode: AuthMode)
    ensures ListsCurrent(Init(authMode))
  {
  }
}
