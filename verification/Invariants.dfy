/** The agreements between the server's structures, which no code states but every handler relies on. */
module Invariants {
  import opened Types
  import opened Spec
  import opened Totals

  // ---------- One room ----------

  /** A session with this host and this client exists. */
  ghost predicate Joined(sessions: map<Xid, RoomSession>, h: Xid, c: Xid) {
    exists s :: s in sessions && sessions[s] == RoomSession(h, c)
  }

  /** Every session joins two distinct members. */
  ghost predicate EndsAreMembers(room: RoomState) {
    forall s | s in room.sessions ::
      && room.sessions[s].host in room.users
      && room.sessions[s].client in room.users
      && room.sessions[s].host != room.sessions[s].client
  }

  /** For two distinct members, the first streams iff there is a session from it to the second. */
  ghost predicate Sharing(room: RoomState) {
    forall h, c | h in room.users && c in room.users && h != c ::
      Joined(room.sessions, h, c) <==> room.users[h].streaming
  }

  ghost predicate HasOwner(room: RoomState) {
    exists u :: u in room.users && room.users[u].owner
  }

  ghost predicate AtMostOneOwner(room: RoomState) {
    forall u, v | u in room.users && v in room.users && room.users[u].owner && room.users[v].owner :: u == v
  }

  ghost predicate RoomOk(rid: string, room: RoomState) {
    && room.id == rid
    && room.users != map[]
    && (forall u | u in room.users :: room.users[u].id == u)
    && EndsAreMembers(room)
    && Sharing(room)
    && AtMostOneOwner(room)
    && (room.closeOnOwnerLeave && rid != "" ==> HasOwner(room))
    && (rid == "" ==> forall u | u in room.users :: !room.users[u].streaming)
  }

  // ---------- All rooms ----------

  /** A client is indexed under a (non-empty) room id iff that room exists and lists it as a user. */
  ghost predicate Indexed(connected: map<Xid, string>, rooms: map<string, RoomState>) {
    && (forall c | c in connected && connected[c] != "" ::
          connected[c] in rooms && c in rooms[connected[c]].users)
    && (forall r, c | r in rooms && r != "" && c in rooms[r].users :: c in connected && connected[c] == r)
  }

  /** Clients and users carry ids that were handed out. */
  ghost predicate ClientIdsOk(connected: map<Xid, string>, rooms: map<string, RoomState>, used: set<Xid>) {
    connected.Keys <= used && forall r | r in rooms :: rooms[r].users.Keys <= used
  }

  /** Session ids were handed out, and no two rooms share one. */
  ghost predicate SidsOk(rooms: map<string, RoomState>, used: set<Xid>) {
    && (forall r | r in rooms :: rooms[r].sessions.Keys <= used)
    && (forall q, r | q in rooms && r in rooms && q != r :: rooms[q].sessions.Keys !! rooms[r].sessions.Keys)
  }

  /** The live sessions of TURN rooms. */
  function TurnSids(rooms: map<string, RoomState>): set<Xid> {
    set r, s | r in rooms && rooms[r].mode.Turn? && s in rooms[r].sessions :: s
  }

  /** The keys of the TURN table are exactly the two keys of each live session of each TURN room. */
  ghost predicate LookupOk(lookup: map<string, Entry>, rooms: map<string, RoomState>) {
    lookup.Keys == KeysOf(TurnSids(rooms))
  }

  function SessionsPerRoom(rooms: map<string, RoomState>): map<string, nat> {
    map r | r in rooms :: |rooms[r].sessions|
  }

  function UsersPerRoom(rooms: map<string, RoomState>): map<string, nat> {
    map r | r in rooms :: |rooms[r].users|
  }

  ghost predicate SessionsCounted(stats: Counters, rooms: map<string, RoomState>) {
    stats.sessionsCreated - stats.sessionsClosed == Total(SessionsPerRoom(rooms))
  }

  ghost predicate RoomsCounted(stats: Counters, rooms: map<string, RoomState>) {
    stats.roomsCreated - stats.roomsClosed == |rooms|
  }

  ghost predicate UsersCounted(stats: Counters, rooms: map<string, RoomState>) {
    stats.usersJoined - stats.usersLeft == Total(UsersPerRoom(rooms))
  }

  /** May a room of this mode exist under the authentication mode, given who created it? */
  predicate CreatorOk(authMode: AuthMode, mode: ConnectionMode, authenticated: bool) {
    && (authMode.AuthAll? ==> authenticated)
    && (authMode.AuthTurn? && !mode.Stun? && !mode.Local? ==> authenticated)
    && (authMode.AuthNone? || authMode.AuthAll? || authMode.AuthTurn?)
  }

  ghost predicate CreatorsOk(authMode: AuthMode, rooms: map<string, RoomState>) {
    forall r | r in rooms :: CreatorOk(authMode, rooms[r].mode, rooms[r].creatorAuthenticated)
  }

  ghost predicate RoomsOk(rooms: map<string, RoomState>) {
    forall r | r in rooms :: RoomOk(r, rooms[r])
  }

  /** The book-keeping that every small step on sessions keeps. */
  ghost predicate Ledger(w: World) {
    SidsOk(w.rooms, w.used) && LookupOk(w.lookup, w.rooms) && SessionsCounted(w.stats, w.rooms)
  }

  /** The agreements across rooms, other than the index. */
  ghost predicate Books(w: World) {
    && Ledger(w)
    && ClientIdsOk(w.connected, w.rooms, w.used)
    && RoomsCounted(w.stats, w.rooms)
    && CreatorsOk(w.authMode, w.rooms)
  }

  /** What holds in every state of every run. */
  ghost predicate Base(w: World) {
    RoomsOk(w.rooms) && Indexed(w.connected, w.rooms) && Books(w)
  }

  // ---------- Small steps keep the ledger ----------

  lemma PerRoomUpdated(rooms: map<string, RoomState>, rid: string, room: RoomState)
    ensures SessionsPerRoom(rooms[rid := room]) == SessionsPerRoom(rooms)[rid := |room.sessions|]
    ensures UsersPerRoom(rooms[rid := room]) == UsersPerRoom(rooms)[rid := |room.users|]
  {
  }

  lemma PerRoomDropped(rooms: map<string, RoomState>, rid: string)
    ensures SessionsPerRoom(rooms - {rid}) == SessionsPerRoom(rooms) - {rid}
    ensures UsersPerRoom(rooms - {rid}) == UsersPerRoom(rooms) - {rid}
  {
  }

  /** How the sums over all rooms change when one room changes. */
  lemma TotalsUpdated(rooms: map<string, RoomState>, rid: string, room: RoomState)
    requires rid in rooms
    ensures Total(SessionsPerRoom(rooms[rid := room])) ==
            Total(SessionsPerRoom(rooms)) - |rooms[rid].sessions| + |room.sessions|
    ensures Total(UsersPerRoom(rooms[rid := room])) ==
            Total(UsersPerRoom(rooms)) - |rooms[rid].users| + |room.users|
  {
    PerRoomUpdated(rooms, rid, room);
    TotalUpdate(SessionsPerRoom(rooms), rid, |room.sessions|);
    TotalUpdate(UsersPerRoom(rooms), rid, |room.users|);
  }

  lemma TotalsDropped(rooms: map<string, RoomState>, rid: string)
    requires rid in rooms
    ensures Total(SessionsPerRoom(rooms - {rid})) == Total(SessionsPerRoom(rooms)) - |rooms[rid].sessions|
    ensures Total(UsersPerRoom(rooms - {rid})) == Total(UsersPerRoom(rooms)) - |rooms[rid].users|
  {
    PerRoomDropped(rooms, rid);
    TotalSplit(SessionsPerRoom(rooms), rid);
    TotalSplit(UsersPerRoom(rooms), rid);
  }

  // ---------- The keys of the TURN table ----------

  lemma KeysOfUnion(a: set<Xid>, b: set<Xid>)
    ensures KeysOf(a + b) == KeysOf(a) + KeysOf(b)
  {
  }

  /** Dropping sessions drops exactly their keys, because keys of different sessions differ. */
  lemma KeysOfDifference(a: set<Xid>, b: set<Xid>)
    ensures KeysOf(a - b) == KeysOf(a) - KeysOf(b)
  {
    forall s, t
      ensures HostKey(s) != ClientKey(t)
      ensures (HostKey(s) == HostKey(t) ==> s == t) && (ClientKey(s) == ClientKey(t) ==> s == t)
    {
      KeysAreInjective(s, t);
    }
  }

  function Own(room: RoomState): set<Xid> {
    if room.mode.Turn? then room.sessions.Keys else {}
  }

  /** The TURN sessions are those of one room and those of the others. */
  lemma TurnSidsSplit(rooms: map<string, RoomState>, rid: string, room: RoomState)
    ensures TurnSids(rooms[rid := room]) == TurnSids(rooms - {rid}) + Own(room)
  {
    var all := rooms[rid := room];
    forall s | s in TurnSids(all)
      ensures s in TurnSids(rooms - {rid}) + Own(room)
    {
      var r :| r in all && all[r].mode.Turn? && s in all[r].sessions;
      assert r == rid || (r in rooms - {rid} && (rooms - {rid})[r] == all[r]);
    }
    forall s | s in TurnSids(rooms - {rid})
      ensures s in TurnSids(all)
    {
      var r :| r in rooms - {rid} && rooms[r].mode.Turn? && s in rooms[r].sessions;
      assert all[r] == rooms[r];
    }
    forall s | s in Own(room)
      ensures s in TurnSids(all)
    {
      assert all[rid] == room;
    }
  }

  lemma SameRoom(rooms: map<string, RoomState>, rid: string)
    requires rid in rooms
    ensures rooms[rid := rooms[rid]] == rooms
  {
  }

  /** No other room shares a session with this one. */
  lemma OthersApart(rooms: map<string, RoomState>, used: set<Xid>, rid: string)
    requires SidsOk(rooms, used) && rid in rooms
    ensures TurnSids(rooms - {rid}) <= used
    ensures TurnSids(rooms - {rid}) !! Own(rooms[rid])
    ensures TurnSids(rooms) == TurnSids(rooms - {rid}) + Own(rooms[rid])
  {
    TurnSidsSplit(rooms, rid, rooms[rid]);
    SameRoom(rooms, rid);
  }

  lemma TurnSidsGrow(rooms: map<string, RoomState>, used: set<Xid>, rid: string, added: set<Xid>, room: RoomState)
    requires SidsOk(rooms, used) && rid in rooms
    requires room.sessions.Keys == rooms[rid].sessions.Keys + added && room.mode == rooms[rid].mode
    ensures TurnSids(rooms[rid := room]) == if room.mode.Turn? then TurnSids(rooms) + added else TurnSids(rooms)
  {
    TurnSidsSplit(rooms, rid, room);
    OthersApart(rooms, used, rid);
  }

  lemma TurnSidsShrink(rooms: map<string, RoomState>, used: set<Xid>, rid: string, gone: set<Xid>, room: RoomState)
    requires SidsOk(rooms, used) && rid in rooms
    requires room.sessions.Keys == rooms[rid].sessions.Keys - gone && room.mode == rooms[rid].mode
    requires gone <= rooms[rid].sessions.Keys
    ensures TurnSids(rooms[rid := room]) == if room.mode.Turn? then TurnSids(rooms) - gone else TurnSids(rooms)
  {
    TurnSidsSplit(rooms, rid, room);
    OthersApart(rooms, used, rid);
  }

  lemma SidsKept(rooms: map<string, RoomState>, used: set<Xid>, rid: string, added: set<Xid>, room: RoomState)
    requires SidsOk(rooms, used) && rid in rooms && added !! used
    requires room.sessions.Keys <= rooms[rid].sessions.Keys + added
    ensures SidsOk(rooms[rid := room], used + added)
  {
  }

  lemma TableGrows(m: map<Xid, RoomSession>, added: map<Xid, RoomSession>)
    ensures (m + added).Keys == m.Keys + added.Keys
    ensures m.Keys !! added.Keys ==> |m + added| == |m| + |added|
  {
    assert (m + added).Keys == m.Keys + added.Keys;
    if m.Keys !! added.Keys {
      assert |m.Keys + added.Keys| == |m.Keys| + |added.Keys|;
    }
  }

  lemma TableShrinks(m: map<Xid, RoomSession>, gone: set<Xid>)
    requires gone <= m.Keys
    ensures |m - gone| == |m| - |gone| && (m - gone).Keys == m.Keys - gone
  {
    assert (m - gone).Keys == m.Keys - gone;
    assert |m.Keys - gone| == |m.Keys| - |gone|;
  }

  // ---------- Opening and ending sessions ----------

  ghost predicate FreshPlan(used: set<Xid>, plan: seq<Pairing>) {
    && (forall i | 0 <= i < |plan| :: plan[i].sid !in used)
    && (forall i, j | 0 <= i < j < |plan| :: plan[i].sid != plan[j].sid)
  }

  /** A plan with distinct ids opens one session per item. */
  lemma {:induction false} PlanTableIs(plan: seq<Pairing>)
    requires forall i, j | 0 <= i < j < |plan| :: plan[i].sid != plan[j].sid
    ensures |PlanTable(plan)| == |plan|
    ensures forall i | 0 <= i < |plan| ::
              && plan[i].sid in PlanTable(plan)
              && PlanTable(plan)[plan[i].sid] == RoomSession(plan[i].host, plan[i].client)
    ensures forall s | s in PlanTable(plan) :: exists i :: 0 <= i < |plan| && plan[i].sid == s
  {
    if plan != [] {
      var n := |plan| - 1;
      var rest := plan[..n];
      PlanTableIs(rest);
      assert forall i | 0 <= i < n :: rest[i] == plan[i];
      assert plan[n].sid !in PlanTable(rest);
    }
  }

  lemma PlanTableFresh(plan: seq<Pairing>, used: set<Xid>)
    requires FreshPlan(used, plan)
    ensures PlanTable(plan).Keys !! used && |PlanTable(plan)| == |plan|
  {
    PlanTableIs(plan);
  }

  lemma KeysOfSingle(s: Xid)
    ensures KeysOf({s}) == {HostKey(s), ClientKey(s)}
  {
  }

  lemma {:induction false} PlanLookupKeys(lookup: map<string, Entry>, users: map<Xid, User>, plan: seq<Pairing>)
    ensures PlanLookup(lookup, users, plan).Keys == lookup.Keys + KeysOf(PlanTable(plan).Keys)
  {
    if plan != [] {
      var n := |plan| - 1;
      PlanLookupKeys(lookup, users, plan[..n]);
      KeysOfUnion(PlanTable(plan[..n]).Keys, {plan[n].sid});
      KeysOfSingle(plan[n].sid);
      assert PlanTable(plan).Keys == PlanTable(plan[..n]).Keys + {plan[n].sid};
      hide KeysOf, PlanTable;
    }
  }

  lemma OpenedKeys(lookup: map<string, Entry>, rooms: map<string, RoomState>, used: set<Xid>, rid: string,
                   plan: seq<Pairing>, room: RoomState)
    requires SidsOk(rooms, used) && LookupOk(lookup, rooms) && rid in rooms
    requires room == rooms[rid].(sessions := rooms[rid].sessions + PlanTable(plan))
    ensures LookupOk(if room.mode.Turn? then PlanLookup(lookup, room.users, plan) else lookup, rooms[rid := room])
  {
    TableGrows(rooms[rid].sessions, PlanTable(plan));
    TurnSidsGrow(rooms, used, rid, PlanTable(plan).Keys, room);
    if room.mode.Turn? {
      KeysOfUnion(TurnSids(rooms), PlanTable(plan).Keys);
      PlanLookupKeys(lookup, room.users, plan);
    }
  }

  lemma OpenedSids(rooms: map<string, RoomState>, used: set<Xid>, rid: string, plan: seq<Pairing>, room: RoomState)
    requires SidsOk(rooms, used) && rid in rooms && FreshPlan(used, plan)
    requires room == rooms[rid].(sessions := rooms[rid].sessions + PlanTable(plan))
    ensures SidsOk(rooms[rid := room], used + PlanTable(plan).Keys)
    ensures |room.sessions| == |rooms[rid].sessions| + |plan|
  {
    PlanTableFresh(plan, used);
    TableGrows(rooms[rid].sessions, PlanTable(plan));
    SidsKept(rooms, used, rid, PlanTable(plan).Keys, room);
  }

  lemma NewSessionsLedger(w: World, rid: string, plan: seq<Pairing>, at: Addresses)
    requires Ledger(w) && rid in w.rooms && FreshPlan(w.used, plan)
    ensures Ledger(NewSessions(w, rid, plan, at))
  {
    var room := NewSessions(w, rid, plan, at).rooms[rid];
    OpenedKeys(w.lookup, w.rooms, w.used, rid, plan, room);
    OpenedSids(w.rooms, w.used, rid, plan, room);
    TotalsUpdated(w.rooms, rid, room);
  }

  ghost predicate DistinctIds(ids: seq<Xid>) {
    forall i, j | 0 <= i < j < |ids| :: ids[i] != ids[j]
  }

  lemma {:induction false} DistinctSize(ids: seq<Xid>)
    requires DistinctIds(ids)
    ensures |Elements(ids)| == |ids|
  {
    if ids != [] {
      var n := |ids| - 1;
      DistinctSize(ids[..n]);
      assert ids == ids[..n] + [ids[n]];
      assert Elements(ids) == Elements(ids[..n]) + {ids[n]};
    }
  }

  lemma EndedKeys(lookup: map<string, Entry>, rooms: map<string, RoomState>, used: set<Xid>, rid: string,
                  gone: set<Xid>, room: RoomState)
    requires SidsOk(rooms, used) && LookupOk(lookup, rooms) && rid in rooms && gone <= rooms[rid].sessions.Keys
    requires room == rooms[rid].(sessions := rooms[rid].sessions - gone)
    ensures LookupOk(if room.mode.Turn? then lookup - KeysOf(gone) else lookup, rooms[rid := room])
  {
    TableShrinks(rooms[rid].sessions, gone);
    TurnSidsShrink(rooms, used, rid, gone, room);
    if room.mode.Turn? {
      KeysOfDifference(TurnSids(rooms), gone);
    }
  }

  lemma EndedSids(rooms: map<string, RoomState>, used: set<Xid>, rid: string, ends: seq<Xid>, room: RoomState)
    requires SidsOk(rooms, used) && rid in rooms && DistinctIds(ends) && Elements(ends) <= rooms[rid].sessions.Keys
    requires room == rooms[rid].(sessions := rooms[rid].sessions - Elements(ends))
    ensures SidsOk(rooms[rid := room], used)
    ensures |room.sessions| == |rooms[rid].sessions| - |ends|
  {
    DistinctSize(ends);
    TableShrinks(rooms[rid].sessions, Elements(ends));
    SidsKept(rooms, used, rid, {}, room);
    assert used + {} == used;
  }

  lemma EndSessionsLedger(w: World, rid: string, me: Xid, ends: seq<Xid>)
    requires Ledger(w) && rid in w.rooms
    requires DistinctIds(ends) && forall s | s in ends :: s in w.rooms[rid].sessions
    ensures Ledger(EndSessions(w, rid, me, ends))
  {
    var room := EndSessions(w, rid, me, ends).rooms[rid];
    EndedKeys(w.lookup, w.rooms, w.used, rid, Elements(ends), room);
    EndedSids(w.rooms, w.used, rid, ends, room);
    TotalsUpdated(w.rooms, rid, room);
  }

  /** A room disappears, and its keys if it is a TURN room. */
  lemma ClosedRoomKeys(lookup: map<string, Entry>, rooms: map<string, RoomState>, used: set<Xid>, rid: string)
    requires SidsOk(rooms, used) && LookupOk(lookup, rooms) && rid in rooms
    ensures LookupOk(if rooms[rid].mode.Turn? then lookup - KeysOf(rooms[rid].sessions.Keys) else lookup, rooms - {rid})
  {
    OthersApart(rooms, used, rid);
    if rooms[rid].mode.Turn? {
      assert TurnSids(rooms - {rid}) == TurnSids(rooms) - Own(rooms[rid]);
      KeysOfDifference(TurnSids(rooms), Own(rooms[rid]));
    }
  }

  lemma CloseRoomLedger(w: World, rid: string)
    requires Ledger(w) && rid in w.rooms
    ensures Ledger(CloseRoom(w, rid))
  {
    ClosedRoomKeys(w.lookup, w.rooms, w.used, rid);
    TotalsDropped(w.rooms, rid);
  }
}
