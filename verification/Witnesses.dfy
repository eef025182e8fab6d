/** Concrete runs, from the start of the server, in which expected properties fail. */
module Witnesses {
  import opened Types
  import opened Spec
  import opened Totals
  import opened Invariants
  import opened BaseProofs
  import opened OneRoom
  import opened Lists
  import opened Closing
  import opened Conservation
  import opened Counting
  import opened Progress
  import opened Effects
  import opened RunProofs

  /** In these runs the IP provider always replies. */
  const GOOD := Reply(Some("192.0.2.1"), None, None)

  function Hello(info: ClientInfo): ClientMessage {
    ClientMessage(info, true, Connected, GOOD)
  }

  function Says(info: ClientInfo, e: Event): ClientMessage {
    ClientMessage(info, false, e, GOOD)
  }

  function CreateEvent(id: string): Event {
    Create(id, Local, false, "a", false)
  }

  // ---------- Steps ----------

  lemma ConnectStep(w: World, info: ClientInfo) returns (w': World)
    requires info.id !in w.used
    ensures Arrives(w, Hello(info)) && Next(w, Hello(info), w')
    ensures w' == w.(connected := w.connected[info.id := ""], used := w.used + {info.id})
  {
    w' := w.(connected := w.connected[info.id := ""], used := w.used + {info.id});
    assert Executes(w, info, Connected, Done(w', GOOD));
    SucceedsNext(w, Hello(info), w');
  }

  lemma CreateStep(w: World, info: ClientInfo, id: string) returns (w': World)
    requires w.authMode.AuthNone? && info.id in w.connected && Where(w, info.id) == "" && id !in w.rooms
    ensures Arrives(w, Says(info, CreateEvent(id))) && Next(w, Says(info, CreateEvent(id)), w')
    ensures w'.connected == w.connected[info.id := id] && w'.authMode == w.authMode && w'.used == w.used
    ensures id in w'.rooms && w'.rooms == w.rooms[id := w'.rooms[id]] && w'.rooms[id].sessions == map[]
    ensures w'.rooms[id].users == map[info.id := User(info.id, info.addr, SomeName(info, "a"), false, true)]
  {
    hide Creates;
    w' := CreateCan(w, info, CreateEvent(id), GOOD);
    assert Executes(w, info, CreateEvent(id), Done(w', GOOD));
    SucceedsNext(w, Says(info, CreateEvent(id)), w');
  }

  lemma JoinStep(w: World, info: ClientInfo, id: string) returns (w': World)
    requires Base(w) && info.id in w.connected && Where(w, info.id) == "" && id in w.rooms
    ensures Arrives(w, Says(info, Join(id, "a"))) && Next(w, Says(info, Join(id, "a")), w')
    ensures w'.connected == w.connected[info.id := id] && w'.authMode == w.authMode
    ensures id in w'.rooms && w'.rooms == w.rooms[id := w'.rooms[id]]
    ensures w'.rooms[id].users ==
            w.rooms[id].users[info.id := User(info.id, info.addr, SomeName(info, "a"), false, false)]
    ensures |w'.rooms[id].sessions| == |w.rooms[id].sessions| + |PairsOnJoin(w'.rooms[id].users, info.id)|
  {
    hide Joins, RoomsOk, Indexed, LookupOk, ClientIdsOk, CreatorsOk, SessionsCounted, RoomsCounted;
    w' := JoinCan(w, info, id, "a", GOOD);
    assert Executes(w, info, Join(id, "a"), Done(w', GOOD));
    SucceedsNext(w, Says(info, Join(id, "a")), w');
  }

  lemma ShareStep(w: World, info: ClientInfo) returns (w': World)
    requires Base(w) && InRoom(w, info.id)
    ensures Arrives(w, Says(info, StartShare)) && Next(w, Says(info, StartShare), w')
    ensures w'.connected == w.connected && w'.authMode == w.authMode
    ensures
      var rid := w.connected[info.id];
      && rid in w'.rooms && w'.rooms == w.rooms[rid := w'.rooms[rid]] && info.id in w.rooms[rid].users
      && w'.rooms[rid].users == w.rooms[rid].users[info.id := w.rooms[rid].users[info.id].(streaming := true)]
      && |w'.rooms[rid].sessions| == |w.rooms[rid].sessions| + |w.rooms[rid].users| - 1
  {
    hide StartsShare, RoomOk, LookupOk, ClientIdsOk, CreatorsOk, SessionsCounted, RoomsCounted;
    OwnId(w, info.id);
    hide RoomsOk, Indexed;
    w' := ShareCan(w, info.id, GOOD);
    assert Executes(w, info, StartShare, Done(w', GOOD));
    SucceedsNext(w, Says(info, StartShare), w');
  }

  /** A client that is in no room disconnects. */
  lemma LeaveStep(w: World, info: ClientInfo) returns (w': World)
    requires info.id in w.connected && Where(w, info.id) == ""
    ensures Arrives(w, Says(info, Disconnected(0, ""))) && Next(w, Says(info, Disconnected(0, "")), w')
    ensures w' == Forget(w, info.id, 0, "")
  {
    w' := Forget(w, info.id, 0, "");
    assert Executes(w, info, Disconnected(0, ""), Done(w', GOOD));
    SucceedsNext(w, Says(info, Disconnected(0, "")), w');
  }

  // ---------- In two rooms ----------

  /**
   * A client that creates a room under the empty id is not taken to be in it, so it can create another: it is
   * then a user of two rooms, and its list of the first is not current.
   */
  lemma InTwoRoomsAtOnce(a: ClientInfo) returns (ms: seq<ClientMessage>, ws: seq<World>)
    ensures IsRun(AuthNone, ms, ws) && |ms| == 3
    ensures a.id in UsersOf(ws[3], "") && a.id in UsersOf(ws[3], "x")
    ensures !OneRoomEach(ws[3]) && !ListsCurrent(ws[3])
  {
    hide Next, Arrives, Base, ListsCurrent;
    var w1 := ConnectStep(Init(AuthNone), a);
    var w2 := CreateStep(w1, a, "");
    var w3 := CreateStep(w2, a, "x");
    ms := [Hello(a), Says(a, CreateEvent("")), Says(a, CreateEvent("x"))];
    ws := [Init(AuthNone), w1, w2, w3];
    assert a.id in UsersOf(w3, "") && a.id in UsersOf(w3, "x");
    RunsKeepBase(AuthNone, ms, ws, 3);
    if ListsCurrent(w3) {
      CurrentMeansOneRoom(w3);
    }
  }

  // ---------- Written to after the end ----------

  lemma ListedButGone(w: World, a: Xid, b: ClientInfo)
    requires a in UsersOf(w, "") && a !in w.connected && b.id in w.connected && Where(w, b.id) == "" && "" in w.rooms
    ensures DisturbsGone(w, Says(b, Join("", "a")))
  {
  }

  /**
   * A client creates a room under the empty id and disconnects. It stays listed there, and when another client
   * joins, it is written the new list after its closing message.
   */
  lemma WrittenAfterTheEnd(a: ClientInfo, b: ClientInfo) returns (ms: seq<ClientMessage>, ws: seq<World>)
    requires a.id != b.id
    ensures IsRun(AuthNone, ms, ws) && |ms| == 5 && !ClosesFinally(ws[5])
  {
    hide Next, Arrives, Base, PartedRight, ClosesFinally;
    var w1 := ConnectStep(Init(AuthNone), a);
    var w2 := CreateStep(w1, a, "");
    var w3 := LeaveStep(w2, a);
    var w4 := ConnectStep(w3, b);
    ms := [Hello(a), Says(a, CreateEvent("")), Says(a, Disconnected(0, "")), Hello(b)];
    ws := [Init(AuthNone), w1, w2, w3, w4];
    RunsKeepBase(AuthNone, ms, ws, 4);
    RunsPartRight(AuthNone, ms, ws, 4);
    var w5 := JoinStep(w4, b, "");
    ListedButGone(w4, a.id, b);
    hide DisturbsGone;
    WrittenAfterwards(w4, Says(b, Join("", "a")), w5);
    RunExtend(AuthNone, ms, ws, Says(b, Join("", "a")), w5);
    ms, ws := ms + [Says(b, Join("", "a"))], ws + [w5];
  }

  // ---------- Counted twice ----------

  /**
   * A client that joins the room under the empty id, whose user it is already, is counted as joined again: two
   * joined, nobody left, and one is there.
   */
  lemma CountedTwice(a: ClientInfo) returns (ms: seq<ClientMessage>, ws: seq<World>)
    ensures IsRun(AuthNone, ms, ws) && |ms| == 3 && RejoinCount(ms, ws, 3) == 1
    ensures ws[3].stats.usersJoined - ws[3].stats.usersLeft == Total(UsersPerRoom(ws[3].rooms)) + 1
  {
    hide Next, Arrives, Base;
    var w1 := ConnectStep(Init(AuthNone), a);
    var w2 := CreateStep(w1, a, "");
    ms := [Hello(a), Says(a, CreateEvent(""))];
    ws := [Init(AuthNone), w1, w2];
    RunsKeepBase(AuthNone, ms, ws, 2);
    var w3 := JoinStep(w2, a, "");
    RunExtend(AuthNone, ms, ws, Says(a, Join("", "a")), w3);
    ms, ws := [Hello(a), Says(a, CreateEvent("")), Says(a, Join("", "a"))], [Init(AuthNone), w1, w2, w3];
    OneRejoin(ms, ws);
    CountersAreRight(AuthNone, ms, ws, 3);
  }

  lemma OneRejoin(ms: seq<ClientMessage>, ws: seq<World>)
    requires |ms| == 3 && |ws| == 4
    requires !Rejoins(ws[0], ms[0]) && !Rejoins(ws[1], ms[1]) && Rejoins(ws[2], ms[2])
    ensures RejoinCount(ms, ws, 3) == 1
  {
    hide Rejoins;
    assert RejoinCount(ms, ws, 0) == 0;
    assert RejoinCount(ms, ws, 1) == 0;
    assert RejoinCount(ms, ws, 2) == 0;
  }

  // ---------- Too many sessions ----------

  /** The users of room "x" are `a`, who alone may stream, and `b`; it has `n` sessions. */
  ghost predicate Pair(w: World, a: Xid, b: Xid, streams: bool, n: nat) {
    && "x" in w.rooms && Where(w, a) == "x"
    && var room := w.rooms["x"];
       && room.users.Keys == {a, b} && |room.sessions| == n
       && room.users[a].streaming == streams && !room.users[b].streaming
  }

  lemma TwoInARoom(a: ClientInfo, b: ClientInfo) returns (ms: seq<ClientMessage>, ws: seq<World>)
    requires a.id != b.id
    ensures IsRun(AuthNone, ms, ws) && |ms| == 4 && Pair(ws[4], a.id, b.id, false, 0)
  {
    hide Next, Arrives, Base;
    var w1 := ConnectStep(Init(AuthNone), a);
    var w2 := ConnectStep(w1, b);
    var w3 := CreateStep(w2, a, "x");
    ms := [Hello(a), Hello(b), Says(a, CreateEvent("x"))];
    ws := [Init(AuthNone), w1, w2, w3];
    RunsKeepBase(AuthNone, ms, ws, 3);
    var w4 := JoinStep(w3, b, "x");
    RunExtend(AuthNone, ms, ws, Says(b, Join("x", "a")), w4);
    ms, ws := ms + [Says(b, Join("x", "a"))], ws + [w4];
    assert PairsOnJoin(w4.rooms["x"].users, b.id) == {};
  }

  /** A member of room "x" shares, at the end of a run. */
  lemma ShareNext(a: ClientInfo, b: Xid, streams: bool, n: nat, ms: seq<ClientMessage>, ws: seq<World>)
    returns (ms': seq<ClientMessage>, ws': seq<World>)
    requires IsRun(AuthNone, ms, ws) && Pair(ws[|ms|], a.id, b, streams, n) && a.id != b
    ensures IsRun(AuthNone, ms', ws') && |ms'| == |ms| + 1 && Pair(ws'[|ms'|], a.id, b, true, n + 1)
  {
    hide Next, Arrives, Base;
    RunsKeepBase(AuthNone, ms, ws, |ms|);
    var w := ws[|ms|];
    var w' := ShareStep(w, a);
    PairShares(w, a.id, b, streams, n, w');
    RunExtend(AuthNone, ms, ws, Says(a, StartShare), w');
    ms', ws' := ms + [Says(a, StartShare)], ws + [w'];
  }

  lemma PairShares(w: World, a: Xid, b: Xid, streams: bool, n: nat, w': World)
    requires Pair(w, a, b, streams, n) && a != b && w'.connected == w.connected && "x" in w'.rooms
    requires w'.rooms["x"].users == w.rooms["x"].users[a := w.rooms["x"].users[a].(streaming := true)]
    requires |w'.rooms["x"].sessions| == |w.rooms["x"].sessions| + |w.rooms["x"].users| - 1
    ensures Pair(w', a, b, true, n + 1)
  {
    assert |w.rooms["x"].users| == |w.rooms["x"].users.Keys| == |{a, b}| == 2;
  }

  /**
   * Two clients are in a room; one shares, and shares again. One of the two streams, so there should be one
   * session, but there are two.
   */
  lemma SharedTwice(a: ClientInfo, b: ClientInfo) returns (ms: seq<ClientMessage>, ws: seq<World>)
    requires a.id != b.id
    ensures IsRun(AuthNone, ms, ws) && |ms| == 6 && "x" in ws[6].rooms
    ensures
      var room := ws[6].rooms["x"];
      |room.sessions| == 2 && |Streamers(room.users)| * (|room.users| - 1) == 1
  {
    hide Next, Arrives, Pair;
    ms, ws := TwoInARoom(a, b);
    ms, ws := ShareNext(a, b.id, false, 0, ms, ws);
    ms, ws := ShareNext(a, b.id, true, 1, ms, ws);
    PairCounts(ws[6], a.id, b.id, 2);
  }

  lemma PairCounts(w: World, a: Xid, b: Xid, n: nat)
    requires Pair(w, a, b, true, n) && a != b
    ensures "x" in w.rooms && |w.rooms["x"].sessions| == n
    ensures |Streamers(w.rooms["x"].users)| * (|w.rooms["x"].users| - 1) == 1
  {
    var users := w.rooms["x"].users;
    assert |users| == |users.Keys| == |{a, b}| == 2;
    assert Streamers(users) == {a};
  }
}
