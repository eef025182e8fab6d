/** Who is told to close, when, and exactly when something is written to a client after that. */
module Closing {
  import opened Types
  import opened Spec
  import opened Invariants
  import opened BaseProofs
  import opened Isolation
  import opened Leaving
  import opened OneRoom
  import opened Reach
  import opened RelayProofs

  ghost predicate Closed(ms: seq<Message>) {
    exists i :: 0 <= i < |ms| && ms[i].CloseWriter?
  }

  /** The closing message, if any, is the last one. */
  predicate Final(ms: seq<Message>) {
    forall i | 0 <= i < |ms| - 1 :: !ms[i].CloseWriter?
  }

  /** Nothing was written to any client after its closing message. */
  ghost predicate ClosesFinally(w: World) {
    forall c :: Final(Written(w.out, c))
  }

  /** A client that was let go is still a user of the room with the empty id, which another client enters. */
  predicate DisturbsGone(w: World, m: ClientMessage) {
    LetIn(w, m) && m.event.id == "" && exists c :: c in UsersOf(w, "") && c !in w.connected
  }

  // ---------- Being told ----------

  /** Some messages were added, of which the last one, and only that one, tells to close. */
  ghost predicate ToldToGo(ms: seq<Message>, ms': seq<Message>) {
    && |ms| < |ms'| && ms <= ms' && ms'[|ms'| - 1].CloseWriter?
    && forall i | |ms| <= i < |ms'| - 1 :: !ms'[i].CloseWriter?
  }

  ghost predicate SentAway(w: World, w': World, c: Xid) {
    ToldToGo(Written(w.out, c), Written(w'.out, c))
  }

  lemma QuietThenTold(w: World, u: World, w': World, c: Xid)
    requires Quiet(w.out, u.out, c) && SentAway(u, w', c)
    ensures SentAway(w, w', c)
  {
    hide Written;
  }

  lemma LeaverTold(w: World, me: Xid, code: int, reason: string, w': World)
    requires Disconnects(w, me, code, reason, w')
    ensures SentAway(w, w', me)
  {
    DisconnectSilent(w, me, code, reason, w', me);
  }

  lemma KickedLast(out: map<Xid, seq<Message>>, to: map<Xid, Message>, c: Xid)
    requires c in to && to[c].CloseWriter?
    ensures ToldToGo(Written(out, c), Written(PostAll(out, to), c))
  {
  }

  lemma KickTold(w: World, rid: string, c: Xid)
    requires rid in w.rooms && c in w.rooms[rid].users
    ensures SentAway(w, CloseRoom(KickAll(w, rid), rid), c)
  {
    KickedLast(w.out, map u | u in w.rooms[rid].users :: CloseWriter(NORMAL_CLOSURE, OWNER_LEFT), c);
    hide PostAll, Written, ToldToGo;
  }

  /** Those whom an owner takes along are told to go. */
  lemma KickedTold(w: World, me: Xid, code: int, reason: string, w': World, c: Xid)
    requires Disconnects(w, me, code, reason, w') && OwnsClosing(w, me)
    requires c in w.rooms[w.connected[me]].users && c != me
    ensures SentAway(w, w', c)
  {
    hide SentAway, Settles, OrderOfEnds, Written, Unclosed, Unrelayed;
    var rid := w.connected[me];
    var ends :| DisconnectsWith(w, rid, me, code, reason, ends, w');
    OrderIsOrder(w.rooms[rid].sessions, me, true, ends);
    var w1 := Forget(w, me, code, reason);
    var w2 := RemoveUser(w1, rid, me);
    var w3 := EndSessions(w2, rid, me, ends);
    PostQuiet(w.out, me, CloseWriter(code, reason), c);
    EndQuiet(w2.out, w2.rooms[rid].users, me, ends, w2.rooms[rid].sessions, c);
    QuietThrough(w.out, w2.out, w3.out, c);
    OwnerSettles(w3, rid, w');
    KickTold(w3, rid, c);
    QuietThenTold(w, w3, w', c);
  }

  lemma OwnerSettles(w: World, rid: string, w': World)
    requires rid in w.rooms && w.rooms[rid].closeOnOwnerLeave && Settles(w, rid, true, w')
    ensures w' == CloseRoom(KickAll(w, rid), rid)
  {
  }

  /** Whoever leaves the index in a step is told to go in that step, at its end, once. */
  lemma LeavingIsTold(w: World, m: ClientMessage, w': World, c: Xid)
    requires Base(w) && Arrives(w, m) && Next(w, m, w') && c in w.connected && c !in w'.connected
    ensures SentAway(w, w', c)
  {
    var me := m.info.id;
    if c != me {
      WhoLeaves(w, m, w', c);
    }
    StillQuiet(w.out, c);
    KnownHere(w, m, c, w');
    hide Base, Arrives, Executes, Disconnects, SentAway, Quiet, OwnsClosing;
    var o :| Executes(w, m.info, m.event, o) && o.reply == m.reply && Completes(o, me, w');
    if m.event.Disconnected? {
      DisconnectOnly(w, m.info, m.event, o);
      GoesAlong(w, me, m.event.code, m.event.reason, w', c);
    } else {
      ExecuteStays(w, m.info, m.event, o);
      ExecuteRelays(w, m, o, c);
      GoesAlong(o.world, me, NORMAL_CLOSURE, o.error.value, w', c);
      QuietThenTold(w, o.world, w', c);
    }
  }

  /** The last thing that `c` was written is that the owner left. */
  predicate ToldOwnerLeft(w: World, c: Xid) {
    var ms := Written(w.out, c);
    ms != [] && ms[|ms| - 1] == CloseWriter(NORMAL_CLOSURE, OWNER_LEFT)
  }

  /** Whom an owner takes along is told so in the end. */
  lemma KickedWhy(w: World, me: Xid, code: int, reason: string, w': World, c: Xid)
    requires Disconnects(w, me, code, reason, w') && OwnsClosing(w, me)
    requires c in w.rooms[w.connected[me]].users && c != me
    ensures ToldOwnerLeft(w', c)
  {
    hide Settles, OrderOfEnds, ToldOwnerLeft, EndOut, KeysOf, Elements;
    var rid := w.connected[me];
    var ends :| DisconnectsWith(w, rid, me, code, reason, ends, w');
    OrderIsOrder(w.rooms[rid].sessions, me, true, ends);
    var w3 := EndSessions(RemoveUser(Forget(w, me, code, reason), rid, me), rid, me, ends);
    OwnerSettles(w3, rid, w');
    KickWhy(w3, rid, c);
  }

  lemma KickWhy(w: World, rid: string, c: Xid)
    requires rid in w.rooms && c in w.rooms[rid].users
    ensures ToldOwnerLeft(CloseRoom(KickAll(w, rid), rid), c)
  {
    PostedLast(w.out, map u | u in w.rooms[rid].users :: CloseWriter(NORMAL_CLOSURE, OWNER_LEFT), c);
    hide PostAll;
  }

  lemma PostedLast(out: map<Xid, seq<Message>>, to: map<Xid, Message>, c: Xid)
    requires c in to
    ensures Written(PostAll(out, to), c) == Written(out, c) + [to[c]]
  {
  }

  lemma GoneWhy(u: World, me: Xid, code: int, reason: string, w': World, c: Xid)
    requires Disconnects(u, me, code, reason, w') && c != me && c in u.connected && c !in w'.connected
    ensures ToldOwnerLeft(w', c)
  {
    DisconnectRemoves(u, me, code, reason, w');
    KickedWhy(u, me, code, reason, w', c);
  }

  /** Whoever leaves the index because of another client is told, as the last thing, that the owner left. */
  lemma KickedWord(w: World, m: ClientMessage, w': World, c: Xid)
    requires Arrives(w, m) && Next(w, m, w') && c in w.connected && c !in w'.connected && c != m.info.id
    ensures ToldOwnerLeft(w', c)
  {
    KnownHere(w, m, c, w');
    hide Arrives, Executes, Disconnects, ToldOwnerLeft, OwnsClosing;
    var o :| Executes(w, m.info, m.event, o) && o.reply == m.reply && Completes(o, m.info.id, w');
    if m.event.Disconnected? {
      DisconnectOnly(w, m.info, m.event, o);
      GoneWhy(w, m.info.id, m.event.code, m.event.reason, w', c);
    } else {
      ExecuteStays(w, m.info, m.event, o);
      GoneWhy(o.world, m.info.id, NORMAL_CLOSURE, o.error.value, w', c);
    }
  }

  lemma KnownHere(w: World, m: ClientMessage, c: Xid, w': World)
    requires Arrives(w, m) && Next(w, m, w') && c in w.connected && c !in w'.connected
    ensures m.skipConnectedCheck || m.info.id in w.connected
  {
  }

  lemma GoesAlong(u: World, me: Xid, code: int, reason: string, w': World, c: Xid)
    requires Disconnects(u, me, code, reason, w')
    requires c != me ==> c in u.connected && c !in w'.connected
    ensures SentAway(u, w', c)
  {
    if c == me {
      LeaverTold(u, me, code, reason, w');
    } else {
      DisconnectRemoves(u, me, code, reason, w');
      KickedTold(u, me, code, reason, w', c);
    }
  }

  lemma StaysOrIsTold(w: World, m: ClientMessage, w': World, c: Xid)
    requires Base(w) && Arrives(w, m) && Next(w, m, w') && c in w.connected
    ensures if c in w'.connected then Unclosed(w.out, w'.out, c) else SentAway(w, w', c)
  {
    hide Base, Next, Arrives, Written, SentAway;
    if c in w'.connected {
      WritesAreKept(w, m, w', c);
    } else {
      LeavingIsTold(w, m, w', c);
    }
  }

  // ---------- Not being told ----------

  lemma SettleUntold(w: World, rid: string, ownerLeft: bool, w': World, c: Xid)
    requires rid in w.rooms && Settles(w, rid, ownerLeft, w')
    requires ownerLeft && w.rooms[rid].closeOnOwnerLeave ==> c !in w.rooms[rid].users
    ensures Quiet(w.out, w'.out, c)
  {
    hide Notified, PostAll, Unclosed, Unrelayed;
    StillQuiet(w.out, c);
    PostAllQuiet(w.out, map u | u in w.rooms[rid].users :: CloseWriter(NORMAL_CLOSURE, OWNER_LEFT), c);
    if !(ownerLeft && w.rooms[rid].closeOnOwnerLeave) && w.rooms[rid].users != map[] {
      NotifiedQuiet(w, rid, w', c);
    }
  }

  /** A disconnect tells nobody to go but the client and those whom it takes along. */
  lemma OthersUntold(w: World, me: Xid, code: int, reason: string, w': World, c: Xid)
    requires Disconnects(w, me, code, reason, w') && c != me
    requires OwnsClosing(w, me) ==> c !in w.rooms[w.connected[me]].users
    ensures Quiet(w.out, w'.out, c)
  {
    hide Settles, OrderOfEnds, Unclosed, Unrelayed, Post;
    var rid := Where(w, me);
    PostQuiet(w.out, me, CloseWriter(code, reason), c);
    if rid != "" && rid in w.rooms && me in w.rooms[rid].users {
      var ends :| DisconnectsWith(w, rid, me, code, reason, ends, w');
      OrderIsOrder(w.rooms[rid].sessions, me, true, ends);
      var w2 := RemoveUser(Forget(w, me, code, reason), rid, me);
      EndQuiet(w2.out, w2.rooms[rid].users, me, ends, w2.rooms[rid].sessions, c);
      QuietThrough(w.out, w2.out, EndSessions(w2, rid, me, ends).out, c);
      SettleUntold(EndSessions(w2, rid, me, ends), rid, w.rooms[rid].users[me].owner, w', c);
      QuietThrough(w.out, EndSessions(w2, rid, me, ends).out, w'.out, c);
    }
  }

  /** No event but a disconnect tells anyone to go, as long as it does not fail. */
  lemma ExecuteUntold(w: World, m: ClientMessage, o: Outcome, c: Xid)
    requires Executes(w, m.info, m.event, o) && !m.event.Disconnected?
    ensures Unclosed(w.out, o.world.out, c)
  {
    hide Unclosed, Unrelayed, Creates, Joins, StartsShare, StopsShare, Renames, Relays;
    var info := m.info;
    match m.event
    case Connected => ConnectQuiet(w, info.id, c);
    case Create(_, _, _, _, _) => CreateQuiet(w, info, m.event, o, c);
    case Join(id, userName) => JoinQuiet(w, info, id, userName, o, c);
    case StartShare => ShareQuiet(w, info.id, o, c);
    case StopShare => StopQuiet(w, info.id, o, c);
    case Name(userName) => RenameQuiet(w, info.id, userName, o, c);
    case Relay(kind, sid, value) => RelayUntold(w, m, o, c);
  }

  lemma RelayUntold(w: World, m: ClientMessage, o: Outcome, c: Xid)
    requires m.event.Relay? && Relays(w, m.info.id, m.event.kind, m.event.sid, m.event.value, o)
    ensures Unclosed(w.out, o.world.out, c)
  {
  }

  lemma StrangerIsNoMember(w: World, me: Xid, c: Xid)
    requires Base(w) && OwnsClosing(w, me) && c !in w.connected
    ensures c !in w.rooms[w.connected[me]].users
  {
    hide RoomsOk, Books;
  }

  lemma FailureUntold(w: World, m: ClientMessage, o: Outcome, w': World, c: Xid)
    requires Base(w) && Executes(w, m.info, m.event, o) && o.error.Some? && c !in w.connected && c != m.info.id
    requires Disconnects(o.world, m.info.id, NORMAL_CLOSURE, o.error.value, w')
    ensures Unclosed(w.out, w'.out, c)
  {
    hide Base, Executes, Disconnects, OwnsClosing, Unclosed, Unrelayed, Halfway;
    FailsHalfway(w, m.info, m.event, o);
    if OwnsClosing(o.world, m.info.id) {
      HalfwayOwner(w, m.info.id, o.world);
      StrangerIsNoMember(w, m.info.id, c);
    }
    ExecuteRelays(w, m, o, c);
    OthersUntold(o.world, m.info.id, NORMAL_CLOSURE, o.error.value, w', c);
    QuietThrough(w.out, o.world.out, w'.out, c);
  }

  /** A client that is not in the index, and is not put there, is not told to go. */
  lemma StrangerUntold(w: World, m: ClientMessage, w': World, c: Xid)
    requires Base(w) && Arrives(w, m) && Next(w, m, w') && c !in w.connected && c !in w'.connected
    ensures Unclosed(w.out, w'.out, c)
  {
    hide Base, Executes, Disconnects, OwnsClosing, Unclosed, Unrelayed;
    StillQuiet(w.out, c);
    StrangerIgnored(w, m, w', c);
    if w' != w {
      var o :| Executes(w, m.info, m.event, o) && o.reply == m.reply && Completes(o, m.info.id, w');
      if o.error.Some? {
        FailureUntold(w, m, o, w', c);
      } else if m.event.Disconnected? {
        DisconnectOnly(w, m.info, m.event, o);
        if OwnsClosing(w, m.info.id) {
          StrangerIsNoMember(w, m.info.id, c);
        }
        OthersUntold(w, m.info.id, m.event.code, m.event.reason, w', c);
      } else {
        ExecuteUntold(w, m, o, c);
      }
    }
  }

  // ---------- In every run ----------

  /**
   * Nothing is written to an id that is not in use; a client in the index has not been told to go; and a user
   * of the room with the empty id that is no longer in the index has been.
   */
  ghost predicate PartedRight(w: World) {
    && (forall c | c !in w.used :: Written(w.out, c) == [])
    && (forall c | c in w.connected :: !Closed(Written(w.out, c)))
    && (forall c | c in UsersOf(w, "") && c !in w.connected :: Closed(Written(w.out, c)))
  }

  lemma UsersAreUsed(w: World)
    requires Base(w)
    ensures w.connected.Keys <= w.used && forall r :: UsersOf(w, r) <= w.used
  {
    hide RoomsOk, Indexed, Ledger, CreatorsOk;
  }

  lemma ReachedAreUsed(w: World, m: ClientMessage)
    requires Base(w)
    ensures Reached(w, m) <= w.used
  {
    UsersAreUsed(w);
    hide Base, UsersOf, LetIn;
  }

  lemma SenderUsed(w: World, m: ClientMessage, w': World)
    requires Base(w) && Arrives(w, m) && Next(w, m, w')
    ensures w.used <= w'.used && (w' == w || m.info.id in w'.used)
  {
    ArrivesFresh(w, m);
    if m.skipConnectedCheck || m.info.id in w.connected {
      NextTouchesOneRoom(w, m, w');
      hide Base, Disconnects;
      if m.event.Connected? {
        assert w' == w.(connected := w.connected[m.info.id := ""], used := w.used + {m.info.id});
      }
    }
  }

  lemma UnusedStaysUnwritten(w: World, m: ClientMessage, w': World, c: Xid)
    requires Base(w) && PartedRight(w) && Arrives(w, m) && Next(w, m, w') && c !in w'.used
    ensures Written(w'.out, c) == []
  {
    SenderUsed(w, m, w');
    ReachedAreUsed(w, m);
    hide Base, Next, Arrives, Written, Reached;
    if w' != w {
      NextReaches(w, m, w', c);
    }
  }

  lemma IndexedIsOpen(w: World, m: ClientMessage, w': World, c: Xid)
    requires Base(w) && PartedRight(w) && Arrives(w, m) && Next(w, m, w') && c in w'.connected
    ensures !Closed(Written(w'.out, c))
  {
    ArrivesFresh(w, m);
    NextTouchesOneRoom(w, m, w');
    hide Base, Next, Written, OnlyRoom, KeepsOrigin, Concerned;
    WritesAreKept(w, m, w', c);
    if c !in w.connected {
      assert c !in w.used;
    }
  }

  lemma GoneWasTold(w: World, m: ClientMessage, w': World, c: Xid)
    requires Base(w) && PartedRight(w) && Arrives(w, m) && Next(w, m, w')
    requires c in UsersOf(w', "") && c !in w'.connected
    ensures Closed(Written(w'.out, c))
  {
    NextPuts(w, m, w');
    WritesAreKept(w, m, w', c);
    if c in w.connected {
      LeavingIsTold(w, m, w', c);
      hide Base, Next, Arrives, Written, UsersOf, LetIn;
      assert Written(w'.out, c)[|Written(w'.out, c)| - 1].CloseWriter?;
    } else {
      EntrantWasIndexed(w, m);
      hide Base, Next, Arrives, Written, UsersOf, LetIn;
      var i :| 0 <= i < |Written(w.out, c)| && Written(w.out, c)[i].CloseWriter?;
      assert Written(w'.out, c)[i].CloseWriter?;
    }
  }

  lemma EntrantWasIndexed(w: World, m: ClientMessage)
    ensures LetIn(w, m) ==> m.info.id in w.connected
  {
  }

  lemma NextPartedRight(w: World, m: ClientMessage, w': World)
    requires Base(w) && PartedRight(w) && Arrives(w, m) && Next(w, m, w')
    ensures PartedRight(w')
  {
    hide Base, PartedRight, Next, Arrives, Written, UsersOf, Closed;
    forall c | c !in w'.used
      ensures Written(w'.out, c) == []
    {
      UnusedStaysUnwritten(w, m, w', c);
    }
    forall c | c in w'.connected
      ensures !Closed(Written(w'.out, c))
    {
      IndexedIsOpen(w, m, w', c);
    }
    forall c | c in UsersOf(w', "") && c !in w'.connected
      ensures Closed(Written(w'.out, c))
    {
      GoneWasTold(w, m, w', c);
    }
    PartedFrom(w');
  }

  lemma PartedFrom(w: World)
    requires forall c | c !in w.used :: Written(w.out, c) == []
    requires forall c | c in w.connected :: !Closed(Written(w.out, c))
    requires forall c | c in UsersOf(w, "") && c !in w.connected :: Closed(Written(w.out, c))
    ensures PartedRight(w)
  {
  }

  lemma {:induction false} RunsPartRight(authMode: AuthMode, ms: seq<ClientMessage>, ws: seq<World>, i: nat)
    requires IsRun(authMode, ms, ws) && i < |ws|
    ensures PartedRight(ws[i])
  {
    hide Base, PartedRight, Next, Arrives, Init;
    if i == 0 {
      InitPartsRight(authMode);
    } else {
      RunsPartRight(authMode, ms, ws, i - 1);
      RunsKeepBase(authMode, ms, ws, i - 1);
      NextPartedRight(ws[i - 1], ms[i - 1], ws[i]);
    }
  }

  lemma InitPartsRight(authMode: AuthMode)
    ensures PartedRight(Init(authMode)) && ClosesFinally(Init(authMode))
  {
  }

  // ---------- How often a client is told to go ----------

  /** The positions of the closing messages. */
  function Closes(ms: seq<Message>): set<int> {
    set i | 0 <= i < |ms| && ms[i].CloseWriter?
  }

  lemma OpenHasNone(ms: seq<Message>)
    ensures Closes(ms) == {} <==> !Closed(ms)
  {
    if i :| 0 <= i < |ms| && ms[i].CloseWriter? {
      assert i in Closes(ms);
    }
  }

  lemma ToldIsOne(ms: seq<Message>, ms': seq<Message>)
    requires !Closed(ms) && ToldToGo(ms, ms')
    ensures |Closes(ms')| == 1
  {
    assert forall i | 0 <= i < |ms| :: ms'[i] == ms[i];
    assert Closes(ms') == {|ms'| - 1};
  }

  lemma UntoldIsSame(w: World, w': World, c: Xid)
    requires Unclosed(w.out, w'.out, c) && Written(w.out, c) <= Written(w'.out, c)
    ensures Closes(Written(w'.out, c)) == Closes(Written(w.out, c))
  {
    hide Written;
    assert forall i | 0 <= i < |Written(w.out, c)| :: Written(w'.out, c)[i] == Written(w.out, c)[i];
  }

  /** A client in the index was told nothing of the kind; one that leaves is told once; nobody else is told. */
  lemma NextTells(w: World, m: ClientMessage, w': World, c: Xid)
    requires Base(w) && PartedRight(w) && Arrives(w, m) && Next(w, m, w')
    ensures
      var before, after := Closes(Written(w.out, c)), Closes(Written(w'.out, c));
      if c in w'.connected then after == {}
      else if c in w.connected then before == {} && |after| == 1
      else after == before
  {
    hide Base, Next, Arrives, Written, Closed, Closes, Unclosed, ToldToGo;
    OpenHasNone(Written(w.out, c));
    OpenHasNone(Written(w'.out, c));
    if c in w'.connected {
      IndexedIsOpen(w, m, w', c);
    } else if c in w.connected {
      LeavingIsTold(w, m, w', c);
      ToldIsOne(Written(w.out, c), Written(w'.out, c));
    } else {
      StrangerUntold(w, m, w', c);
      WritesAreKept(w, m, w', c);
      UntoldIsSame(w, w', c);
    }
  }

  /** The client was in the index in one of the states up to `i`. */
  predicate WasThere(ws: seq<World>, i: nat, c: Xid)
    requires i < |ws|
  {
    exists j :: 0 <= j <= i && c in ws[j].connected
  }

  /**
   * In every run: a client that was in the index and no longer is has been sent exactly one closing message;
   * everyone else has been sent none.
   */
  lemma {:induction false} ToldOnce(authMode: AuthMode, ms: seq<ClientMessage>, ws: seq<World>, i: nat, c: Xid)
    requires IsRun(authMode, ms, ws) && i < |ws|
    ensures |Closes(Written(ws[i].out, c))| == if WasThere(ws, i, c) && c !in ws[i].connected then 1 else 0
  {
    hide Base, PartedRight, Next, Arrives, Closes;
    if i == 0 {
      InitTells(authMode, c);
    } else {
      ToldOnce(authMode, ms, ws, i - 1, c);
      RunsKeepBase(authMode, ms, ws, i - 1);
      RunsPartRight(authMode, ms, ws, i - 1);
      NextTells(ws[i - 1], ms[i - 1], ws[i], c);
      ThereBefore(ws, i, c);
      hide WasThere, IsRun, Written;
    }
  }

  lemma ThereBefore(ws: seq<World>, i: nat, c: Xid)
    requires 0 < i < |ws|
    ensures WasThere(ws, i, c) <==> WasThere(ws, i - 1, c) || c in ws[i].connected
    ensures c in ws[i - 1].connected ==> WasThere(ws, i - 1, c)
  {
  }

  lemma InitTells(authMode: AuthMode, c: Xid)
    ensures Closes(Written(Init(authMode).out, c)) == {} && c !in Init(authMode).connected
  {
  }

  // ---------- Exactly when something follows the closing message ----------

  lemma OpenIsFinal(ms: seq<Message>)
    requires !Closed(ms)
    ensures Final(ms)
  {
  }

  lemma ToldIsFinal(ms: seq<Message>, ms': seq<Message>)
    requires !Closed(ms) && ToldToGo(ms, ms')
    ensures Final(ms')
  {
    assert forall i | 0 <= i < |ms| :: ms'[i] == ms[i];
  }

  /** A client that is not in the index, and not a user of the room with the empty id, is out of reach. */
  lemma GoneIsUnreached(w: World, m: ClientMessage, c: Xid)
    requires Base(w) && !DisturbsGone(w, m) && c !in w.connected
    ensures c !in Reached(w, m)
  {
    UsersAndIndex(w);
    hide Base, UsersOf, LetIn;
    assert Where(w, c) == "";
  }

  lemma StaysFinal(w: World, m: ClientMessage, w': World, c: Xid)
    requires Base(w) && PartedRight(w) && PartedRight(w') && Final(Written(w.out, c))
    requires Arrives(w, m) && Next(w, m, w') && !DisturbsGone(w, m)
    ensures Final(Written(w'.out, c))
  {
    hide Base, Next, Arrives, DisturbsGone, Written, UsersOf, Closed, Final, Reached;
    if c in w'.connected {
      OpenIsFinal(Written(w'.out, c));
    } else if c in w.connected {
      LeavingIsTold(w, m, w', c);
      ToldIsFinal(Written(w.out, c), Written(w'.out, c));
    } else {
      GoneIsUnreached(w, m, c);
      StrangerIgnored(w, m, w', c);
      if c != m.info.id {
        NextReaches(w, m, w', c);
      }
    }
  }

  lemma StrangerIgnored(w: World, m: ClientMessage, w': World, c: Xid)
    requires Arrives(w, m) && Next(w, m, w') && c !in w.connected && c !in w'.connected
    ensures c == m.info.id ==> w' == w
  {
  }

  lemma NotifiedWrites(w: World, rid: string, w': World, c: Xid)
    requires rid in w.rooms && Notified(w, rid, w') && c in w.rooms[rid].users
    ensures |Written(w.out, c)| < |Written(w'.out, c)|
  {
    var lists :| ListingsFor(w.rooms[rid].users, lists) && w' == SendLists(w, rid, lists);
    assert c in lists;
  }

  lemma EntryWrites(w: World, m: ClientMessage, o: Outcome, c: Xid)
    requires LetIn(w, m) && m.event.id in w.rooms && c in UsersOf(w, m.event.id) && Executes(w, m.info, m.event, o)
    ensures |Written(w.out, c)| < |Written(o.world.out, c)|
  {
    hide OpensSessions, Notified, Written, Unclosed;
    var id := m.event.id;
    var name, w1 :| JoinsAs(w, m.info, id, m.event.userName, name, w1, o);
    var entered := Enter(w, id, User(m.info.id, m.info.addr, name, false, false));
    NotifiedOnlyOut(entered, id, w1);
    NotifiedWrites(entered, id, w1, c);
    OpensQuiet(w1, id, PairsOnJoin(w1.rooms[id].users, m.info.id), o, c);
  }

  lemma NextWrites(w: World, m: ClientMessage, w': World, c: Xid)
    requires Next(w, m, w') && LetIn(w, m) && m.event.id in w.rooms && c in UsersOf(w, m.event.id)
    ensures |Written(w.out, c)| < |Written(w'.out, c)|
  {
    EntrantWasIndexed(w, m);
    hide LetIn, Executes, Disconnects, Written, Unclosed, UsersOf;
    var o :| Executes(w, m.info, m.event, o) && o.reply == m.reply && Completes(o, m.info.id, w');
    EntryWrites(w, m, o, c);
    if o.error.Some? {
      DisconnectQuiet(o.world, m.info.id, NORMAL_CLOSURE, o.error.value, w', c);
    }
  }

  lemma WrittenAfterwards(w: World, m: ClientMessage, w': World)
    requires Base(w) && PartedRight(w) && Next(w, m, w') && DisturbsGone(w, m)
    ensures !ClosesFinally(w')
  {
    var c :| c in UsersOf(w, "") && c !in w.connected;
    assert "" in w.rooms;
    hide Base, Next, LetIn, UsersOf, Written;
    NextWrites(w, m, w', c);
    WritesAreKept(w, m, w', c);
    var i :| 0 <= i < |Written(w.out, c)| && Written(w.out, c)[i].CloseWriter?;
    assert Written(w'.out, c)[i].CloseWriter?;
    assert !Final(Written(w'.out, c));
  }

  /**
   * A step writes nothing to anyone after the closing message exactly if it does not let a client into the
   * room with the empty id while that still lists a client that was let go.
   */
  lemma NextCloses(w: World, m: ClientMessage, w': World)
    requires Base(w) && PartedRight(w) && ClosesFinally(w) && Arrives(w, m) && Next(w, m, w')
    ensures ClosesFinally(w') <==> !DisturbsGone(w, m)
  {
    hide Base, PartedRight, Next, Arrives, DisturbsGone, Written, Final;
    if DisturbsGone(w, m) {
      hide ClosesFinally;
      WrittenAfterwards(w, m, w');
    } else {
      NextPartedRight(w, m, w');
      forall c
        ensures Final(Written(w'.out, c))
      {
        StaysFinal(w, m, w', c);
      }
    }
  }

  /**
   * Up to a state of a run nothing was ever written after a closing message, exactly if no step before it let
   * a client into the room with the empty id while that still listed a client that was let go.
   */
  lemma {:induction false} ClosesExactly(authMode: AuthMode, ms: seq<ClientMessage>, ws: seq<World>, i: nat)
    requires IsRun(authMode, ms, ws) && i < |ws|
    ensures (forall j | 0 <= j <= i :: ClosesFinally(ws[j])) <==> forall j | 0 <= j < i :: !DisturbsGone(ws[j], ms[j])
  {
    hide Base, PartedRight, ClosesFinally, DisturbsGone, Next, Arrives, Init;
    if i == 0 {
      InitPartsRight(authMode);
    } else {
      ClosesExactly(authMode, ms, ws, i - 1);
      if ClosesFinally(ws[i - 1]) {
        RunsKeepBase(authMode, ms, ws, i - 1);
        RunsPartRight(authMode, ms, ws, i - 1);
        NextCloses(ws[i - 1], ms[i - 1], ws[i]);
      }
    }
  }
}
