/** Exactly when a client becomes a user of two rooms. */
module OneRoom {
  import opened Types
  import opened Spec
  import opened Invariants
  import opened BaseProofs
  import opened Isolation
  import opened Leaving
  import opened Progress
  import opened Refusals

  /** The sender is not taken to be in a room, and its create or join is not refused. */
  predicate LetIn(w: World, m: ClientMessage) {
    && m.info.id in w.connected && Where(w, m.info.id) == ""
    && match m.event
       case Join(id, _) => id in w.rooms
       case Create(id, mode, _, _, joinIfExist) =>
         if id in w.rooms then joinIfExist else CreatorOk(w.authMode, mode, m.info.authenticated)
       case _ => false
  }

  function UsersOf(w: World, r: string): set<Xid> {
    if r in w.rooms then w.rooms[r].users.Keys else {}
  }

  /** A user of the room with the empty id, which is not taken to be in a room, is let into another one. */
  predicate EntersElsewhere(w: World, m: ClientMessage) {
    LetIn(w, m) && m.event.id != "" && m.info.id in UsersOf(w, "")
  }

  /** It also stays there: the room is new, or the IP provider replies. */
  predicate StaysElsewhere(w: World, m: ClientMessage) {
    EntersElsewhere(w, m) && (m.event.id in w.rooms ==> m.reply.error.None?)
  }

  /** Nobody is a user of two rooms, the one with the empty id included. */
  ghost predicate OneRoomEach(w: World) {
    forall q, r, c | c in UsersOf(w, q) && c in UsersOf(w, r) :: q == r
  }

  /** Only the room with the empty id can share a user with another one. */
  lemma OneRoomMeans(w: World)
    requires Base(w)
    ensures OneRoomEach(w) <==> forall c | c in UsersOf(w, "") :: Where(w, c) == ""
  {
    hide OneRoomEach;
    UsersAndIndex(w);
    if OneRoomEach(w) {
      forall c | c in UsersOf(w, "")
        ensures Where(w, c) == ""
      {
        ApartFromNameless(w, c);
      }
    }
    hide Base, UsersOf, Where;
    if forall c | c in UsersOf(w, "") :: Where(w, c) == "" {
      AllAsIndexed(w);
    }
  }

  /** Under a name, the users of a room are those whom the index puts there. */
  lemma UsersAndIndex(w: World)
    requires Base(w)
    ensures forall r, c | r != "" :: c in UsersOf(w, r) <==> Where(w, c) == r
  {
    hide RoomsOk, Books;
  }

  lemma ApartFromNameless(w: World, c: Xid)
    requires OneRoomEach(w) && c in UsersOf(w, "")
    requires forall r, c | r != "" :: c in UsersOf(w, r) <==> Where(w, c) == r
    ensures Where(w, c) == ""
  {
    hide UsersOf, Where;
    var r := Where(w, c);
    assert r != "" ==> c in UsersOf(w, r);
  }

  lemma AllAsIndexed(w: World)
    requires forall r, c | r != "" :: c in UsersOf(w, r) <==> Where(w, c) == r
    requires forall c | c in UsersOf(w, "") :: Where(w, c) == ""
    ensures OneRoomEach(w)
  {
    hide UsersOf, Where;
    forall q, r, c | c in UsersOf(w, q) && c in UsersOf(w, r)
      ensures q == r
    {
      assert q == Where(w, c) && r == Where(w, c);
    }
  }

  // ---------- Where a step puts its sender ----------

  /** What an event other than a disconnect does to the index and to the users of the room with the empty id. */
  ghost predicate Puts(w: World, m: ClientMessage, u: World) {
    && (forall c | c != m.info.id :: Where(u, c) == Where(w, c))
    && Where(u, m.info.id) == (if LetIn(w, m) then m.event.id else Where(w, m.info.id))
    && UsersOf(u, "") == UsersOf(w, "") + (if LetIn(w, m) && m.event.id == "" then {m.info.id} else {})
  }

  lemma JoinPuts(w: World, m: ClientMessage, id: string, asked: string, o: Outcome)
    requires m.info.id in w.connected && Joins(w, m.info, id, asked, o)
    requires (m.event.Join? || m.event.Create?) && m.event.id == id
    requires LetIn(w, m) <==> Where(w, m.info.id) == "" && id in w.rooms
    ensures Puts(w, m, o.world)
  {
    hide Notified, OpensSessions;
    if Where(w, m.info.id) == "" && id in w.rooms {
      var name, w1 :| JoinsAs(w, m.info, id, asked, name, w1, o);
      NotifiedOnlyOut(Enter(w, id, User(m.info.id, m.info.addr, name, false, false)), id, w1);
      OpensFrame(w1, id, PairsOnJoin(w1.rooms[id].users, m.info.id), o);
    }
  }

  lemma CreatePuts(w: World, m: ClientMessage, o: Outcome)
    requires m.info.id in w.connected && m.event.Create? && Creates(w, m.info, m.event, o)
    ensures Puts(w, m, o.world)
  {
    hide Notified, Joins, NameFor, CreatorOk, CreateRefused;
    var e := m.event;
    RefusedUnlessOk(w.authMode, m.info, e.mode);
    if Where(w, m.info.id) == "" {
      if e.id in w.rooms {
        if e.joinIfExist {
          JoinPuts(w, m, e.id, e.userName, o);
        }
      } else if CreateRefused(w.authMode, m.info, e.mode).None? {
        var name :| NameFor(m.info, e.userName, name) && Notified(OpenRoom(w, m.info, e, name), e.id, o.world);
        NotifiedOnlyOut(OpenRoom(w, m.info, e, name), e.id, o.world);
      }
    }
  }

  lemma RefusedUnlessOk(authMode: AuthMode, info: ClientInfo, mode: ConnectionMode)
    ensures CreateRefused(authMode, info, mode).None? <==> CreatorOk(authMode, mode, info.authenticated)
  {
  }

  /** An event in the sender's own room. */
  lemma InsidePuts(w: World, m: ClientMessage, u: World)
    requires !LetIn(w, m) && u.connected == w.connected && OnlyRoom(w, Where(w, m.info.id), u)
    requires Where(w, m.info.id) == "" ==> u.rooms == w.rooms
    ensures Puts(w, m, u)
  {
  }

  /** Without a room, a client can do nothing but enter one or leave. */
  lemma OutsideFails(w: World, info: ClientInfo, e: Event, o: Outcome)
    requires Executes(w, info, e, o) && Where(w, info.id) == ""
    requires e.StartShare? || e.StopShare? || e.Name? || e.Relay?
    ensures o.world == w
  {
  }

  lemma ExecutePuts(w: World, m: ClientMessage, o: Outcome)
    requires Executes(w, m.info, m.event, o) && !m.event.Disconnected?
    requires if m.event.Connected? then m.info.id !in w.connected else m.info.id in w.connected
    ensures Puts(w, m, o.world)
  {
    if Where(w, m.info.id) == "" && (m.event.StartShare? || m.event.StopShare? || m.event.Name? || m.event.Relay?) {
      OutsideFails(w, m.info, m.event, o);
    }
    hide Puts, Creates, Joins, StartsShare, StopsShare, Renames, OnlyRoom;
    match m.event
    case Connected => ConnectPuts(w, m);
    case Create(_, _, _, _, _) => CreatePuts(w, m, o);
    case Join(id, userName) => JoinPuts(w, m, id, userName, o);
    case StartShare => ShareFrame(w, m.info.id, o); InsidePuts(w, m, o.world);
    case StopShare => StopFrame(w, m.info.id, o); InsidePuts(w, m, o.world);
    case Name(userName) => RenameFrame(w, m.info.id, userName, o); InsidePuts(w, m, o.world);
    case Relay(kind, sid, value) =>
      RelayFrame(w, m.info.id, kind, sid, value, o);
      InsidePuts(w, m, o.world);
  }

  lemma ConnectPuts(w: World, m: ClientMessage)
    requires m.event.Connected? && m.info.id !in w.connected
    ensures Puts(w, m, w.(connected := w.connected[m.info.id := ""], used := w.used + {m.info.id}))
  {
  }

  /** A disconnect puts nobody anywhere, and never touches the room with the empty id. */
  lemma DisconnectPuts(w: World, me: Xid, code: int, reason: string, w': World)
    requires Disconnects(w, me, code, reason, w')
    ensures me !in w'.connected && forall c :: Where(w', c) == (if c in w'.connected then Where(w, c) else "")
    ensures UsersOf(w', "") == UsersOf(w, "")
  {
    DisconnectRemoves(w, me, code, reason, w');
    DisconnectFrame(w, me, code, reason, w');
    hide Disconnects, OwnsClosing;
  }

  /** Where a step leaves everyone: only a sender that is let in, and stays, is somewhere new. */
  ghost predicate Leaves(w: World, m: ClientMessage, w': World) {
    && (forall c :: Where(w', c) == "" || Where(w', c) == Where(w, c) || (c == m.info.id && LetIn(w, m)))
    && (LetIn(w, m) ==> Where(w', m.info.id) == if m.info.id in w'.connected then m.event.id else "")
    && UsersOf(w', "") == UsersOf(w, "") + (if LetIn(w, m) && m.event.id == "" then {m.info.id} else {})
  }

  lemma PutsThenParts(w: World, m: ClientMessage, u: World, code: int, reason: string, w': World)
    requires Puts(w, m, u) && Disconnects(u, m.info.id, code, reason, w')
    ensures Leaves(w, m, w')
  {
    DisconnectPuts(u, m.info.id, code, reason, w');
    hide Disconnects, LetIn, Where, UsersOf;
    AbsentIsNowhere(w', m.info.id);
  }

  lemma AbsentIsNowhere(w: World, c: Xid)
    ensures c !in w.connected ==> Where(w, c) == ""
  {
  }

  lemma PutsAndStays(w: World, m: ClientMessage, w': World)
    requires Puts(w, m, w')
    ensures Leaves(w, m, w')
  {
    hide LetIn, UsersOf;
  }

  lemma PartsOnly(w: World, m: ClientMessage, code: int, reason: string, w': World)
    requires Disconnects(w, m.info.id, code, reason, w') && !LetIn(w, m)
    ensures Leaves(w, m, w')
  {
    DisconnectPuts(w, m.info.id, code, reason, w');
    hide Disconnects, LetIn, UsersOf;
  }

  lemma NextPuts(w: World, m: ClientMessage, w': World)
    requires Base(w) && Arrives(w, m) && Next(w, m, w')
    ensures Leaves(w, m, w')
  {
    ArrivesFresh(w, m);
    hide Base, Arrives, Executes, Disconnects, LetIn, Leaves, Puts;
    if m.skipConnectedCheck || m.info.id in w.connected {
      var o :| Executes(w, m.info, m.event, o) && o.reply == m.reply && Completes(o, m.info.id, w');
      if m.event.Disconnected? {
        DisconnectOnly(w, m.info, m.event, o);
        NotByDisconnect(w, m);
        PartsOnly(w, m, m.event.code, m.event.reason, w');
      } else {
        ExecutePuts(w, m, o);
        if o.error.Some? {
          PutsThenParts(w, m, o.world, NORMAL_CLOSURE, o.error.value, w');
        } else {
          PutsAndStays(w, m, w');
        }
      }
    } else {
      NotByStranger(w, m);
      StaysAsIs(w, m);
    }
  }

  lemma StaysAsIs(w: World, m: ClientMessage)
    requires !LetIn(w, m)
    ensures Leaves(w, m, w)
  {
    hide LetIn;
  }

  lemma NotByDisconnect(w: World, m: ClientMessage)
    requires m.event.Disconnected?
    ensures !LetIn(w, m)
  {
  }

  lemma NotByStranger(w: World, m: ClientMessage)
    requires m.info.id !in w.connected
    ensures !LetIn(w, m)
  {
  }

  // ---------- Main results ----------

  /**
   * A step keeps everyone in at most one room exactly if it does not let a user of the room with the empty id
   * into another one and leave it there.
   */
  lemma NextOneRoom(w: World, m: ClientMessage, w': World)
    requires Base(w) && OneRoomEach(w) && Arrives(w, m) && Next(w, m, w')
    ensures OneRoomEach(w') <==> !StaysElsewhere(w, m)
  {
    LetInStays(w, m, w');
    hide Base, Next, Arrives, OneRoomEach, Leaves, LetIn;
    NextKeepsBase(w, m, w');
    NextPuts(w, m, w');
    OneRoomMeans(w);
    OneRoomMeans(w');
    LeavesInOne(w, m, w');
  }

  lemma LetInStays(w: World, m: ClientMessage, w': World)
    requires Next(w, m, w')
    ensures LetIn(w, m) ==> (m.info.id in w'.connected <==> (m.event.id in w.rooms ==> m.reply.error.None?))
  {
    hide Next, CreatorOk;
    if LetIn(w, m) {
      RefusedIsGone(w, m, w');
    }
  }

  lemma LeavesInOne(w: World, m: ClientMessage, w': World)
    requires Leaves(w, m, w') && forall c | c in UsersOf(w, "") :: Where(w, c) == ""
    ensures (forall c | c in UsersOf(w', "") :: Where(w', c) == "") <==>
            !(EntersElsewhere(w, m) && m.info.id in w'.connected)
  {
    var me := m.info.id;
    NotInIsNowhere(w, m);
    AbsentIsNowhere(w', me);
    hide UsersOf, Where;
  }

  lemma NotInIsNowhere(w: World, m: ClientMessage)
    ensures LetIn(w, m) ==> Where(w, m.info.id) == ""
  {
  }

  lemma EntrantIsKnown(w: World, m: ClientMessage)
    requires LetIn(w, m)
    ensures m.info.id in w.connected && (m.event.Create? || m.event.Join?)
  {
  }

  /** Being let in can succeed. */
  lemma LetInSucceeds(w: World, m: ClientMessage) returns (w': World)
    requires Base(w) && LetIn(w, m) && m.reply.error.None?
    ensures Next(w, m, w') && m.info.id in w'.connected
  {
    hide RoomsOk, Indexed, LookupOk, ClientIdsOk, CreatorsOk, SessionsCounted, RoomsCounted, Joins, Creates;
    match m.event
    case Join(id, userName) =>
      w' := JoinCan(w, m.info, id, userName, m.reply);
      SucceedsNext(w, m, w');
    case Create(id, _, _, userName, _) =>
      if id in w.rooms {
        w' := JoinCan(w, m.info, id, userName, m.reply);
        CreateByJoin(w, m, w');
      } else {
        w' := CreateCan(w, m.info, m.event, m.reply);
      }
      SucceedsNext(w, m, w');
  }

  lemma CreateByJoin(w: World, m: ClientMessage, w': World)
    requires LetIn(w, m) && m.event.Create? && m.event.id in w.rooms
    requires Joins(w, m.info, m.event.id, m.event.userName, Done(w', m.reply))
    ensures Creates(w, m.info, m.event, Done(w', m.reply))
  {
    hide Joins;
  }

  /**
   * An event is sure to keep everyone in at most one room, whatever the IP provider replies, exactly if it
   * does not let a user of the room with the empty id into another one.
   */
  lemma SureOneRoom(w: World, m: ClientMessage)
    requires Base(w) && OneRoomEach(w) && Arrives(w, m)
    ensures (forall reply, w' | Next(w, m.(reply := reply), w') :: OneRoomEach(w')) <==> !EntersElsewhere(w, m)
  {
    hide Base, OneRoomEach, Next, UsersOf, CreatorOk;
    if EntersElsewhere(w, m) {
      var reply := Reply(None, None, None);
      var w' := LetInSucceeds(w, m.(reply := reply));
      NextOneRoom(w, m.(reply := reply), w');
    } else {
      forall reply, w' | Next(w, m.(reply := reply), w')
        ensures OneRoomEach(w')
      {
        NextOneRoom(w, m.(reply := reply), w');
      }
    }
  }

  /**
   * Up to a state of a run nobody was ever in two rooms, exactly if no step before it let a user of the room
   * with the empty id into another one and left it there.
   */
  lemma {:induction false} OneRoomExactly(authMode: AuthMode, ms: seq<ClientMessage>, ws: seq<World>, i: nat)
    requires IsRun(authMode, ms, ws) && i < |ws|
    ensures (forall j | 0 <= j <= i :: OneRoomEach(ws[j])) <==>
            forall j | 0 <= j < i :: !StaysElsewhere(ws[j], ms[j])
  {
    hide Base, OneRoomEach, StaysElsewhere, Next, Arrives, Init;
    if i == 0 {
      InitOneRoom(authMode);
    } else {
      OneRoomExactly(authMode, ms, ws, i - 1);
      if OneRoomEach(ws[i - 1]) {
        RunsKeepBase(authMode, ms, ws, i - 1);
        NextOneRoom(ws[i - 1], ms[i - 1], ws[i]);
      }
    }
  }

  lemma InitOneRoom(authMode: AuthMode)
    ensures OneRoomEach(Init(authMode))
  {
  }
}
