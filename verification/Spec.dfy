/**
 * What one iteration of the room server's event loop does, over immutable states.
 *
 * The small steps (writing to a client, opening or closing a session, ...) are functions. A handler is a
 * relation between the state before it and its outcome, because the order of a map iteration, the ids drawn,
 * the passwords, the invented names and the answer of the IP provider are not determined by the code.
 */
module Spec {
  import opened Types
  import opened MemberList

  datatype RoomState = RoomState(
    id: string,
    closeOnOwnerLeave: bool,
    mode: ConnectionMode,
    users: map<Xid, User>,
    sessions: map<Xid, RoomSession>,
    creatorAuthenticated: bool)  // history: was the client that created the room logged in?

  datatype Counters = Counters(
    roomsCreated: int, roomsClosed: int,
    usersJoined: int, usersLeft: int,
    sessionsCreated: int, sessionsClosed: int)

  datatype World = World(
    authMode: AuthMode,
    connected: map<Xid, string>,
    rooms: map<string, RoomState>,
    lookup: map<string, Entry>,
    out: map<Xid, seq<Message>>,  // everything written to each client so far
    stats: Counters,
    used: set<Xid>)               // history: ids handed out to clients and sessions

  function Init(authMode: AuthMode): World {
    World(authMode, map[], map[], map[], map[], Counters(0, 0, 0, 0, 0, 0), {})
  }

  // ---------- Small steps ----------

  /** Everything written to client `c`. */
  function Written(out: map<Xid, seq<Message>>, c: Xid): seq<Message> {
    if c in out then out[c] else []
  }

  function Post(out: map<Xid, seq<Message>>, c: Xid, m: Message): map<Xid, seq<Message>> {
    out[c := Written(out, c) + [m]]
  }

  /** The entry of the `connected` index, with Go's zero value for a missing key. */
  function Where(w: World, c: Xid): string {
    if c in w.connected then w.connected[c] else ""
  }

  /** Each of `to` is sent one more message. */
  function PostAll(out: map<Xid, seq<Message>>, to: map<Xid, Message>): map<Xid, seq<Message>> {
    map c | c in out.Keys + to.Keys :: Written(out, c) + if c in to then [to[c]] else []
  }

  /** Each member of the room is sent its member list. */
  function SendLists(w: World, rid: string, lists: map<Xid, seq<Member>>): World
    requires rid in w.rooms
  {
    w.(out := PostAll(w.out, map c | c in lists :: RoomInfo(w.rooms[rid].id, lists[c])))
  }

  /** The ids and passwords drawn for one new session between `host` and `client`. */
  datatype Pairing = Pairing(host: Xid, client: Xid, sid: Xid, hostPassword: string, clientPassword: string)

  function Ice(mode: ConnectionMode, at: Addresses, username: string, password: string): seq<IceServer> {
    if mode.Stun? then [IceServer("stun", at, false, "", "")]
    else if mode.Turn? then [IceServer("turn", at, true, username, password)]
    else []
  }

  function Allowed(lookup: map<string, Entry>, username: string, password: string, addr: Ip): map<string, Entry> {
    lookup[username := Entry(addr, AuthKey(username, REALM, password))]
  }

  /** The sessions of a plan. */
  function PlanTable(plan: seq<Pairing>): map<Xid, RoomSession> {
    if plan == [] then map[]
    else
      var n := |plan| - 1;
      PlanTable(plan[..n])[plan[n].sid := RoomSession(plan[n].host, plan[n].client)]
  }

  function AddrOf(users: map<Xid, User>, u: Xid): Ip {
    if u in users then users[u].addr else ""
  }

  /** The TURN table after both ends of each session of a plan were given credentials. */
  function PlanLookup(lookup: map<string, Entry>, users: map<Xid, User>, plan: seq<Pairing>): map<string, Entry> {
    if plan == [] then lookup
    else
      var n := |plan| - 1;
      var p := plan[n];
      Allowed(Allowed(PlanLookup(lookup, users, plan[..n]), HostKey(p.sid), p.hostPassword, AddrOf(users, p.host)),
              ClientKey(p.sid), p.clientPassword, AddrOf(users, p.client))
  }

  /** What was written after both ends of each session of a plan were told of it, in order. */
  function PlanOut(out: map<Xid, seq<Message>>, mode: ConnectionMode, plan: seq<Pairing>, at: Addresses)
    : map<Xid, seq<Message>>
  {
    if plan == [] then out
    else
      var n := |plan| - 1;
      var p := plan[n];
      Post(Post(PlanOut(out, mode, plan[..n], at),
                p.host, HostSession(p.sid, p.client, Ice(mode, at, HostKey(p.sid), p.hostPassword))),
           p.client, ClientSession(p.sid, p.host, Ice(mode, at, ClientKey(p.sid), p.clientPassword)))
  }

  /** Opens the sessions of `plan` in order. */
  function NewSessions(w: World, rid: string, plan: seq<Pairing>, at: Addresses): World
    requires rid in w.rooms
  {
    var room := w.rooms[rid];
    w.(rooms := w.rooms[rid := room.(sessions := room.sessions + PlanTable(plan))],
       stats := w.stats.(sessionsCreated := w.stats.sessionsCreated + |plan|),
       lookup := if room.mode.Turn? then PlanLookup(w.lookup, room.users, plan) else w.lookup,
       out := PlanOut(w.out, room.mode, plan, at),
       used := w.used + PlanTable(plan).Keys)
  }

  /** The keys of the TURN table that belong to the sessions `sids`. */
  function KeysOf(sids: set<Xid>): set<string> {
    (set s | s in sids :: HostKey(s)) + (set s | s in sids :: ClientKey(s))
  }

  /** The other end of a session. */
  function Peer(s: RoomSession, me: Xid): Xid {
    if s.client == me then s.host else s.client
  }

  /** What was written after the other end of each ended session of `me`, if still a member, was told. */
  function EndOut(out: map<Xid, seq<Message>>, users: map<Xid, User>, me: Xid, ends: seq<Xid>,
                  all: map<Xid, RoomSession>)
    : map<Xid, seq<Message>>
    requires forall s | s in ends :: s in all
  {
    if ends == [] then out
    else
      var n := |ends| - 1;
      var sofar := EndOut(out, users, me, ends[..n], all);
      var peer := Peer(all[ends[n]], me);
      if peer in users then Post(sofar, peer, EndShare(ends[n])) else sofar
  }

  function Elements(ids: seq<Xid>): set<Xid> {
    set s | s in ids
  }

  /** Ends the sessions `ends` of `me` in order. */
  function EndSessions(w: World, rid: string, me: Xid, ends: seq<Xid>): World
    requires rid in w.rooms && forall s | s in ends :: s in w.rooms[rid].sessions
  {
    var room := w.rooms[rid];
    var gone := Elements(ends);
    w.(rooms := w.rooms[rid := room.(sessions := room.sessions - gone)],
       stats := w.stats.(sessionsClosed := w.stats.sessionsClosed + |ends|),
       lookup := if room.mode.Turn? then w.lookup - KeysOf(gone) else w.lookup,
       out := EndOut(w.out, room.users, me, ends, room.sessions))
  }

  function CloseRoom(w: World, rid: string): World
    requires rid in w.rooms
  {
    var room := w.rooms[rid];
    w.(rooms := w.rooms - {rid},
       lookup := if room.mode.Turn? then w.lookup - KeysOf(room.sessions.Keys) else w.lookup,
       stats := w.stats.(roomsClosed := w.stats.roomsClosed + 1,
                         usersLeft := w.stats.usersLeft + |room.users|,
                         sessionsClosed := w.stats.sessionsClosed + |room.sessions|))
  }

  /** All members of the room are forgotten and told that the owner left. */
  function KickAll(w: World, rid: string): World
    requires rid in w.rooms
  {
    var users := w.rooms[rid].users;
    w.(connected := w.connected - users.Keys,
       out := PostAll(w.out, map c | c in users :: CloseWriter(NORMAL_CLOSURE, OWNER_LEFT)))
  }

  function Forget(w: World, me: Xid, code: int, reason: string): World {
    w.(connected := w.connected - {me}, out := Post(w.out, me, CloseWriter(code, reason)))
  }

  function RemoveUser(w: World, rid: string, me: Xid): World
    requires rid in w.rooms
  {
    w.(rooms := w.rooms[rid := w.rooms[rid].(users := w.rooms[rid].users - {me})],
       stats := w.stats.(usersLeft := w.stats.usersLeft + 1))
  }

  /** Puts a user in an existing room and points the index at it. */
  function Enter(w: World, rid: string, u: User): World
    requires rid in w.rooms
  {
    w.(connected := w.connected[u.id := rid],
       rooms := w.rooms[rid := w.rooms[rid].(users := w.rooms[rid].users[u.id := u])],
       stats := w.stats.(usersJoined := w.stats.usersJoined + 1))
  }

  /** Adds a room whose only user is its owner. */
  function OpenRoom(w: World, info: ClientInfo, e: Event, name: string): World
    requires e.Create?
  {
    var owner := User(info.id, info.addr, name, false, true);
    w.(connected := w.connected[info.id := e.id],
       rooms := w.rooms[e.id := RoomState(e.id, e.closeOnOwnerLeave, e.mode, map[info.id := owner], map[],
                                          info.authenticated)],
       stats := w.stats.(usersJoined := w.stats.usersJoined + 1, roomsCreated := w.stats.roomsCreated + 1))
  }

  function UpdateUser(w: World, rid: string, u: User): World
    requires rid in w.rooms
  {
    w.(rooms := w.rooms[rid := w.rooms[rid].(users := w.rooms[rid].users[u.id := u])])
  }

  // ---------- Choices ----------

  /** A possible result of notifying all members of the room. */
  ghost predicate Notified(w: World, rid: string, w': World)
    requires rid in w.rooms
  {
    exists lists :: ListingsFor(w.rooms[rid].users, lists) && w' == SendLists(w, rid, lists)
  }

  ghost predicate ListingsFor(users: map<Xid, User>, lists: map<Xid, seq<Member>>) {
    lists.Keys == users.Keys && forall c | c in users :: IsListing(lists[c], users, c)
  }

  /** A plan with fresh, distinct session ids that opens exactly one session for each pair of `pairs`. */
  ghost predicate PlanFor(used: set<Xid>, pairs: set<(Xid, Xid)>, plan: seq<Pairing>) {
    && (forall i | 0 <= i < |plan| :: plan[i].sid !in used && (plan[i].host, plan[i].client) in pairs)
    && (forall i, j | 0 <= i < j < |plan| :: plan[i].sid != plan[j].sid)
    && (forall i, j | 0 <= i < j < |plan| :: (plan[i].host, plan[i].client) != (plan[j].host, plan[j].client))
    && (forall p | p in pairs :: exists i :: 0 <= i < |plan| && (plan[i].host, plan[i].client) == p)
  }

  /** Some order of the sessions that have `me` as host, or (when leaving) as either end. */
  ghost predicate OrderOfEnds(all: map<Xid, RoomSession>, me: Xid, leaving: bool, ends: seq<Xid>) {
    && (forall s :: s in ends <==> s in all && (all[s].host == me || (leaving && all[s].client == me)))
    && (forall i, j | 0 <= i < j < |ends| :: ends[i] != ends[j])
  }

  /** The display name: the login name if logged in, else the one asked for, else an invented one. */
  predicate NameFor(info: ClientInfo, asked: string, name: string) {
    var base := if info.authenticated then info.authenticatedUser else asked;
    base == "" || name == base
  }

  // ---------- Handlers ----------

  /** `reply` is what the IP provider replies, if it is asked. */
  datatype Outcome = Outcome(world: World, error: Option<string>, reply: Reply)

  predicate Failed(w: World, reason: string, o: Outcome) {
    o.world == w && o.error == Some(reason)
  }

  function Done(w: World, reply: Reply): Outcome { Outcome(w, None, reply) }

  /** The room of a client that is in one. */
  predicate InRoom(w: World, me: Xid) {
    me in w.connected && w.connected[me] != "" && w.connected[me] in w.rooms
  }

  function NotInRoom(w: World, me: Xid): string {
    if me !in w.connected then "not connected"
    else if w.connected[me] == "" then "not in a room"
    else "room with id " + w.connected[me] + " does not exist"
  }

  /** Asks for the addresses, and opens one session for each of `pairs` unless that fails. */
  ghost predicate OpensSessions(w: World, rid: string, pairs: set<(Xid, Xid)>, o: Outcome)
    requires rid in w.rooms
  {
    && o.error == o.reply.error
    && if o.error.Some? then o.world == w
       else exists plan :: Opens(w, rid, pairs, plan, o.reply.At(), o.world)
  }

  ghost predicate Opens(w: World, rid: string, pairs: set<(Xid, Xid)>, plan: seq<Pairing>, at: Addresses, w': World)
    requires rid in w.rooms
  {
    && PlanFor(w.used, pairs, plan)
    && w' == NewSessions(w, rid, plan, at)
  }

  /** The pairs a user who joins must be connected in: every streaming member with the user. */
  function PairsOnJoin(users: map<Xid, User>, me: Xid): set<(Xid, Xid)> {
    set u | u in users && u != me && users[u].streaming :: (u, me)
  }

  /** The pairs a user who starts to share must be connected in: the user with every other member. */
  function PairsOnShare(users: map<Xid, User>, me: Xid): set<(Xid, Xid)> {
    set u | u in users && u != me :: (me, u)
  }

  ghost predicate Joins(w: World, info: ClientInfo, id: string, asked: string, o: Outcome) {
    if Where(w, info.id) != "" then
      Failed(w, "cannot join room, you are already in one", o)
    else if id !in w.rooms then
      Failed(w, "room with id " + id + " does not exist", o)
    else
      exists name, w1 :: JoinsAs(w, info, id, asked, name, w1, o)
  }

  ghost predicate JoinsAs(w: World, info: ClientInfo, id: string, asked: string, name: string, w1: World, o: Outcome)
    requires id in w.rooms
  {
    var entered := Enter(w, id, User(info.id, info.addr, name, false, false));
    && NameFor(info, asked, name)
    && Notified(entered, id, w1)
    && id in w1.rooms
    && OpensSessions(w1, id, PairsOnJoin(w1.rooms[id].users, info.id), o)
  }

  /** Why a client may not create the room, if it may not. */
  function CreateRefused(authMode: AuthMode, info: ClientInfo, mode: ConnectionMode): Option<string> {
    if authMode.AuthNone? then None
    else if authMode.AuthAll? then
      if info.authenticated then None else Some("you need to login")
    else if authMode.AuthTurn? then
      if !mode.Stun? && !mode.Local? && !info.authenticated then Some("you need to login") else None
    else Some("invalid authmode:" + authMode.text)
  }

  ghost predicate Creates(w: World, info: ClientInfo, e: Event, o: Outcome)
    requires e.Create?
  {
    if Where(w, info.id) != "" then
      Failed(w, "cannot join room, you are already in one", o)
    else if e.id in w.rooms then
      if e.joinIfExist then Joins(w, info, e.id, e.userName, o)
      else Failed(w, "room with id " + e.id + " does already exist", o)
    else if CreateRefused(w.authMode, info, e.mode).Some? then
      o.world == w && o.error == CreateRefused(w.authMode, info, e.mode)
    else
      && o.error.None?
      && exists name :: NameFor(info, e.userName, name) && Notified(OpenRoom(w, info, e, name), e.id, o.world)
  }

  ghost predicate StartsShare(w: World, me: Xid, o: Outcome) {
    if !InRoom(w, me) then Failed(w, NotInRoom(w, me), o)
    else
      var rid := w.connected[me];
      && me in w.rooms[rid].users
      && exists o1 :: SharesAs(w, rid, me, o1, o)
  }

  ghost predicate SharesAs(w: World, rid: string, me: Xid, o1: Outcome, o: Outcome)
    requires rid in w.rooms && me in w.rooms[rid].users
  {
    var w1 := UpdateUser(w, rid, w.rooms[rid].users[me].(streaming := true));
    && OpensSessions(w1, rid, PairsOnShare(w1.rooms[rid].users, me), o1)
    && o.error == o1.error && o.reply == o1.reply
    && if o.error.Some? then o.world == o1.world else rid in o1.world.rooms && Notified(o1.world, rid, o.world)
  }

  ghost predicate StopsShare(w: World, me: Xid, o: Outcome) {
    if !InRoom(w, me) then Failed(w, NotInRoom(w, me), o)
    else
      var rid := w.connected[me];
      && me in w.rooms[rid].users
      && o.error.None?
      && exists ends :: StopsWith(w, rid, me, ends, o.world)
  }

  ghost predicate StopsWith(w: World, rid: string, me: Xid, ends: seq<Xid>, w': World)
    requires rid in w.rooms && me in w.rooms[rid].users
  {
    && OrderOfEnds(w.rooms[rid].sessions, me, false, ends)
    && Notified(EndSessions(UpdateUser(w, rid, w.rooms[rid].users[me].(streaming := false)), rid, me, ends), rid, w')
  }

  ghost predicate Renames(w: World, me: Xid, name: string, o: Outcome) {
    if !InRoom(w, me) then Failed(w, NotInRoom(w, me), o)
    else
      var rid := w.connected[me];
      && me in w.rooms[rid].users
      && o.error.None?
      && Notified(UpdateUser(w, rid, w.rooms[rid].users[me].(name := name)), rid, o.world)
  }

  ghost predicate Relays(w: World, me: Xid, kind: RelayKind, sid: Xid, value: string, o: Outcome) {
    if !InRoom(w, me) then Failed(w, NotInRoom(w, me), o)
    else
      var room := w.rooms[w.connected[me]];
      if sid !in room.sessions then o == Done(w, o.reply)
      else
        var s := room.sessions[sid];
        if (if kind.FromHost() then s.host else s.client) != me then
          Failed(w, "permission denied for session " + sid, o)
        else
          o == Done(w.(out := Post(w.out, if kind.FromHost() then s.client else s.host, Relayed(kind, sid, value))),
                    o.reply)
  }

  ghost predicate Disconnects(w: World, me: Xid, code: int, reason: string, w': World) {
    var rid := Where(w, me);
    var w1 := Forget(w, me, code, reason);
    if rid == "" || rid !in w.rooms || me !in w.rooms[rid].users then w' == w1
    else
      exists ends :: DisconnectsWith(w, rid, me, code, reason, ends, w')
  }

  ghost predicate DisconnectsWith(w: World, rid: string, me: Xid, code: int, reason: string, ends: seq<Xid>, w': World)
    requires rid in w.rooms && me in w.rooms[rid].users
  {
    && OrderOfEnds(w.rooms[rid].sessions, me, true, ends)
    && Settles(EndSessions(RemoveUser(Forget(w, me, code, reason), rid, me), rid, me, ends),
               rid, w.rooms[rid].users[me].owner, w')
  }

  /** The end of a disconnect: the room closes if its owner left or nobody is left, or the rest are notified. */
  ghost predicate Settles(w: World, rid: string, ownerLeft: bool, w': World)
    requires rid in w.rooms
  {
    if ownerLeft && w.rooms[rid].closeOnOwnerLeave then w' == CloseRoom(KickAll(w, rid), rid)
    else if w.rooms[rid].users == map[] then w' == CloseRoom(w, rid)
    else Notified(w, rid, w')
  }

  ghost predicate Executes(w: World, info: ClientInfo, e: Event, o: Outcome) {
    match e
    case Connected => o == Done(w.(connected := w.connected[info.id := ""], used := w.used + {info.id}), o.reply)
    case Create(_, _, _, _, _) => Creates(w, info, e, o)
    case Join(id, userName) => Joins(w, info, id, userName, o)
    case StartShare => StartsShare(w, info.id, o)
    case StopShare => StopsShare(w, info.id, o)
    case Name(userName) => Renames(w, info.id, userName, o)
    case Relay(kind, sid, value) => Relays(w, info.id, kind, sid, value, o)
    case Disconnected(code, reason) => o.error.None? && Disconnects(w, info.id, code, reason, o.world)
  }

  /** One iteration of the event loop, with the rollback of a failed event. */
  ghost predicate Next(w: World, m: ClientMessage, w': World) {
    if !m.skipConnectedCheck && m.info.id !in w.connected then w' == w
    else exists o :: Executes(w, m.info, m.event, o) && o.reply == m.reply && Completes(o, m.info.id, w')
  }

  ghost predicate Completes(o: Outcome, me: Xid, w': World) {
    if o.error.None? then w' == o.world
    else Disconnects(o.world, me, NORMAL_CLOSURE, o.error.value, w')
  }

  /**
   * What the connection layer guarantees: `Connected` is sent once, for a fresh id, and it alone skips the
   * check; it is never the decoding of a client's message.
   */
  predicate Arrives(w: World, m: ClientMessage) {
    m.skipConnectedCheck == m.event.Connected? && (m.event.Connected? ==> m.info.id !in w.used)
  }

  /** `ws` is the sequence of states of a run of the event loop on the messages `ms`. */
  ghost predicate IsRun(authMode: AuthMode, ms: seq<ClientMessage>, ws: seq<World>) {
    && |ws| == |ms| + 1
    && ws[0] == Init(authMode)
    && forall i | 0 <= i < |ms| :: Arrives(ws[i], ms[i]) && Next(ws[i], ms[i], ws[i + 1])
  }
}
