/** Outcomes that can always occur: lists that can be sent, sessions that can be opened, events that succeed. */
module Progress {
  import opened Types
  import opened MemberList
  import opened Spec
  import opened Invariants
  import opened StepLemmas

  // ---------- Lists ----------

  lemma {:induction false} InsertExists(l: seq<Member>, m: Member) returns (r: seq<Member>)
    requires Sorted(l)
    ensures Sorted(r) && multiset(r) == multiset(l) + multiset{m}
  {
    if l == [] || !Before(l[0], m) {
      r := [m] + l;
      forall j | 0 <= j < |l|
        ensures !Before(l[j], m)
      {
        if j > 0 {
          BeforeIsStrictWeakOrder(l[j], l[0], m);
        }
      }
    } else {
      var rest := InsertExists(l[1..], m);
      r := [l[0]] + rest;
      assert l == [l[0]] + l[1..];
      forall j | 0 <= j < |rest|
        ensures !Before(rest[j], l[0])
      {
        BeforeIsStrictWeakOrder(l[0], m, l[0]);
        assert rest[j] in multiset(rest);
        assert rest[j] == m || rest[j] in l[1..];
      }
    }
  }

  lemma {:induction false} SortedExists(ms: set<Member>) returns (l: seq<Member>)
    ensures Sorted(l) && multiset(l) == multiset(ms)
    decreases ms
  {
    if ms == {} {
      l := [];
    } else {
      var m :| m in ms;
      var rest := SortedExists(ms - {m});
      l := InsertExists(rest, m);
      assert multiset(ms) == multiset(ms - {m}) + multiset{m};
    }
  }

  lemma {:induction false} ListsExist(users: map<Xid, User>, ids: set<Xid>) returns (lists: map<Xid, seq<Member>>)
    ensures lists.Keys == ids && forall c | c in ids :: IsListing(lists[c], users, c)
    decreases ids
  {
    if ids == {} {
      lists := map[];
    } else {
      var c :| c in ids;
      lists := ListsExist(users, ids - {c});
      var l := SortedExists(ShownAll(users, c));
      lists := lists[c := l];
    }
  }

  /** All members can be sent their lists. */
  lemma NotifyCan(w: World, rid: string) returns (w': World)
    requires rid in w.rooms
    ensures Notified(w, rid, w') && w' == w.(out := w'.out)
  {
    var lists := ListsExist(w.rooms[rid].users, w.rooms[rid].users.Keys);
    w' := SendLists(w, rid, lists);
    hide IsListing, PostAll;
  }

  // ---------- Sessions ----------

  /** There are always enough fresh ids to open one session for each pair. */
  lemma {:induction false} PlanExists(w: World, pairs: set<(Xid, Xid)>) returns (plan: seq<Pairing>)
    ensures PlanFor(w.used, pairs, plan) && |plan| == |pairs|
    decreases pairs
  {
    if pairs == {} {
      plan := [];
    } else {
      var p :| p in pairs;
      var rest := PlanExists(w, pairs - {p});
      FreshExists(w.used + PlanTable(rest).Keys);
      var sid :| sid !in w.used + PlanTable(rest).Keys;
      var next := Pairing(p.0, p.1, sid, "", "");
      PlanForSnoc(w, pairs - {p}, rest, next);
      assert pairs - {p} + {(p.0, p.1)} == pairs;
      plan := rest + [next];
    }
  }

  /** Sessions for all pairs can be opened, the addresses being known. */
  lemma OpenCan(w: World, rid: string, pairs: set<(Xid, Xid)>, reply: Reply) returns (w': World)
    requires reply.error.None? && rid in w.rooms && w.rooms[rid].sessions.Keys <= w.used
    ensures OpensSessions(w, rid, pairs, Done(w', reply))
    ensures w'.connected == w.connected && w'.authMode == w.authMode
    ensures w'.rooms == w.rooms[rid := w.rooms[rid].(sessions := w'.rooms[rid].sessions)] && rid in w'.rooms
    ensures |w'.rooms[rid].sessions| == |w.rooms[rid].sessions| + |pairs|
  {
    var plan := PlanExists(w, pairs);
    w' := NewSessions(w, rid, plan, reply.At());
    PlanTableFresh(plan, w.used);
    hide PlanFor, PlanLookup, PlanOut;
    TableGrows(w.rooms[rid].sessions, PlanTable(plan));
    hide PlanTable;
    assert Opens(w, rid, pairs, plan, reply.At(), w');
  }

  // ---------- Events ----------

  function SomeName(info: ClientInfo, asked: string): string {
    if info.authenticated then info.authenticatedUser else asked
  }

  /** A user lets in and is let in: joining an existing room can succeed. */
  lemma JoinCan(w: World, info: ClientInfo, id: string, asked: string, reply: Reply) returns (w': World)
    requires reply.error.None? && Where(w, info.id) == "" && id in w.rooms && w.rooms[id].sessions.Keys <= w.used
    ensures Joins(w, info, id, asked, Done(w', reply))
    ensures w'.connected == w.connected[info.id := id] && w'.authMode == w.authMode
    ensures id in w'.rooms && w'.rooms == w.rooms[id := w'.rooms[id]]
    ensures w'.rooms[id].users ==
            w.rooms[id].users[info.id := User(info.id, info.addr, SomeName(info, asked), false, false)]
    ensures |w'.rooms[id].sessions| == |w.rooms[id].sessions| + |PairsOnJoin(w'.rooms[id].users, info.id)|
  {
    var name := SomeName(info, asked);
    var entered := Enter(w, id, User(info.id, info.addr, name, false, false));
    var w1 := NotifyCan(entered, id);
    hide Notified, OpensSessions, PairsOnJoin;
    assert w1.rooms[id].sessions == w.rooms[id].sessions && w1.used == w.used;
    w' := OpenCan(w1, id, PairsOnJoin(w1.rooms[id].users, info.id), reply);
    JoinIsDone(w, info, id, asked, name, w1, w', reply);
    Twice(w.rooms, id, w1.rooms[id], w'.rooms[id]);
    hide Joins;
  }

  lemma JoinIsDone(w: World, info: ClientInfo, id: string, asked: string, name: string, w1: World, w': World,
                   reply: Reply)
    requires Where(w, info.id) == "" && id in w.rooms && NameFor(info, asked, name)
    requires Notified(Enter(w, id, User(info.id, info.addr, name, false, false)), id, w1) && id in w1.rooms
    requires OpensSessions(w1, id, PairsOnJoin(w1.rooms[id].users, info.id), Done(w', reply))
    ensures Joins(w, info, id, asked, Done(w', reply))
  {
    hide Notified, OpensSessions, Enter, PairsOnJoin, NameFor;
    assert JoinsAs(w, info, id, asked, name, w1, Done(w', reply));
  }

  lemma Twice(rooms: map<string, RoomState>, rid: string, a: RoomState, b: RoomState)
    ensures rooms[rid := a][rid := b] == rooms[rid := b]
  {
  }

  /** A member can start to share, which opens a session with each other member, whether or not one exists. */
  lemma ShareCan(w: World, me: Xid, reply: Reply) returns (w': World)
    requires reply.error.None? && InRoom(w, me) && me in w.rooms[w.connected[me]].users
    requires w.rooms[w.connected[me]].users[me].id == me && w.rooms[w.connected[me]].sessions.Keys <= w.used
    ensures StartsShare(w, me, Done(w', reply))
    ensures w'.connected == w.connected && w'.authMode == w.authMode
    ensures
      var rid := w.connected[me];
      && rid in w'.rooms && w'.rooms == w.rooms[rid := w'.rooms[rid]]
      && w'.rooms[rid].users == w.rooms[rid].users[me := w.rooms[rid].users[me].(streaming := true)]
      && |w'.rooms[rid].sessions| == |w.rooms[rid].sessions| + |w.rooms[rid].users| - 1
  {
    var rid := w.connected[me];
    var w1 := UpdateUser(w, rid, w.rooms[rid].users[me].(streaming := true));
    PairsOnShareCount(w1.rooms[rid].users, me);
    assert w1.rooms[rid].users.Keys == w.rooms[rid].users.Keys;
    hide PairsOnShare;
    var w2 := OpenCan(w1, rid, PairsOnShare(w1.rooms[rid].users, me), reply);
    hide Notified, OpensSessions;
    w' := NotifyCan(w2, rid);
    ShareIsDone(w, rid, me, w2, w', reply);
    Twice(w.rooms, rid, w1.rooms[rid], w2.rooms[rid]);
    hide StartsShare;
    assert |w1.rooms[rid].users| == |w1.rooms[rid].users.Keys| == |w.rooms[rid].users.Keys|;
  }

  lemma ShareIsDone(w: World, rid: string, me: Xid, w2: World, w': World, reply: Reply)
    requires InRoom(w, me) && rid == w.connected[me] && me in w.rooms[rid].users
    requires
      var w1 := UpdateUser(w, rid, w.rooms[rid].users[me].(streaming := true));
      rid in w1.rooms && OpensSessions(w1, rid, PairsOnShare(w1.rooms[rid].users, me), Done(w2, reply))
    requires rid in w2.rooms && Notified(w2, rid, w')
    ensures StartsShare(w, me, Done(w', reply))
  {
    hide Notified, OpensSessions, UpdateUser, PairsOnShare;
    assert SharesAs(w, rid, me, Done(w2, reply), Done(w', reply));
  }

  lemma PairsOnShareCount(users: map<Xid, User>, me: Xid)
    requires me in users
    ensures |PairsOnShare(users, me)| == |users| - 1
  {
    RowCount(me, users.Keys - {me});
    assert PairsOnShare(users, me) == Row(me, users.Keys - {me});
  }

  function Row(h: Xid, clients: set<Xid>): set<(Xid, Xid)> {
    set c | c in clients :: (h, c)
  }

  lemma {:induction false} RowCount(h: Xid, clients: set<Xid>)
    ensures |Row(h, clients)| == |clients|
    decreases clients
  {
    if clients != {} {
      var c :| c in clients;
      RowCount(h, clients - {c});
      assert Row(h, clients) == Row(h, clients - {c}) + {(h, c)};
    }
  }

  /** A room can be created if nothing refuses it. */
  lemma CreateCan(w: World, info: ClientInfo, e: Event, reply: Reply) returns (w': World)
    requires e.Create? && Where(w, info.id) == "" && e.id !in w.rooms && CreateRefused(w.authMode, info, e.mode).None?
    ensures Creates(w, info, e, Done(w', reply))
    ensures w'.connected == w.connected[info.id := e.id] && w'.authMode == w.authMode && w'.used == w.used
    ensures e.id in w'.rooms && w'.rooms == w.rooms[e.id := w'.rooms[e.id]]
    ensures w'.rooms[e.id].users == map[info.id := User(info.id, info.addr, SomeName(info, e.userName), false, true)]
    ensures w'.rooms[e.id].sessions == map[]
  {
    var name := SomeName(info, e.userName);
    w' := NotifyCan(OpenRoom(w, info, e, name), e.id);
    hide Notified;
  }

  /** A step whose event succeeds. */
  lemma SucceedsNext(w: World, m: ClientMessage, w': World)
    requires m.skipConnectedCheck || m.info.id in w.connected
    requires Executes(w, m.info, m.event, Done(w', m.reply))
    ensures Next(w, m, w')
  {
    hide Executes;
    assert Completes(Done(w', m.reply), m.info.id, w');
  }
}
