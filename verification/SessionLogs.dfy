/** What each client is told about each session in a step: exactly once, exactly when it opens, relays or ends. */
module SessionLogs {
  import opened Types
  import opened Spec
  import opened Invariants
  import opened RoomProofs
  import opened BaseProofs
  import opened Isolation
  import opened Leaving
  import opened OneRoom
  import opened Refusals
  import opened Reach
  import opened RelayProofs
  import opened Effects

  // ---------- Messages about a session ----------

  predicate About(m: Message, s: Xid) {
    (m.HostSession? || m.ClientSession? || m.EndShare? || m.Relayed?) && m.sid == s
  }

  /** The messages about the session, in order. */
  function AllAbout(ms: seq<Message>, s: Xid): seq<Message> {
    if ms == [] then []
    else
      var n := |ms| - 1;
      AllAbout(ms[..n], s) + if About(ms[n], s) then [ms[n]] else []
  }

  lemma {:induction false} AllAboutJoined(a: seq<Message>, b: seq<Message>, s: Xid)
    ensures AllAbout(a + b, s) == AllAbout(a, s) + AllAbout(b, s)
  {
    if b == [] {
      assert a + b == a;
    } else {
      var n := |b| - 1;
      AllAboutJoined(a, b[..n], s);
      assert (a + b)[..|a| + n] == a + b[..n];
    }
  }

  /** The messages about session `s` that `c` was written between the two states. */
  function News(w: World, w': World, c: Xid, s: Xid): seq<Message> {
    var before, after := Written(w.out, c), Written(w'.out, c);
    if |before| <= |after| then AllAbout(after[|before|..], s) else []
  }

  /** Between the two logs, `c` was written exactly `news` about session `s`. */
  ghost predicate Adds(out: map<Xid, seq<Message>>, out': map<Xid, seq<Message>>, c: Xid, s: Xid, news: seq<Message>) {
    AllAbout(Written(out', c), s) == AllAbout(Written(out, c), s) + news
  }

  lemma AddsIsNews(w: World, w': World, c: Xid, s: Xid, news: seq<Message>)
    requires Written(w.out, c) <= Written(w'.out, c) && Adds(w.out, w'.out, c, s, news)
    ensures News(w, w', c, s) == news
  {
    hide Written, AllAbout;
    var before, after := Written(w.out, c), Written(w'.out, c);
    assert after == before + after[|before|..];
    AllAboutJoined(before, after[|before|..], s);
    var known := AllAbout(before, s);
    assert (known + news)[|known|..] == news;
    assert (known + AllAbout(after[|before|..], s))[|known|..] == AllAbout(after[|before|..], s);
  }

  lemma AddsThrough(out: map<Xid, seq<Message>>, out1: map<Xid, seq<Message>>, out': map<Xid, seq<Message>>,
                    c: Xid, s: Xid, a: seq<Message>, b: seq<Message>)
    requires Adds(out, out1, c, s, a) && Adds(out1, out', c, s, b)
    ensures Adds(out, out', c, s, a + b)
  {
    hide Written, AllAbout;
  }

  lemma AddsNone(out: map<Xid, seq<Message>>, c: Xid, s: Xid)
    ensures Adds(out, out, c, s, [])
  {
  }

  lemma PostAdds(out: map<Xid, seq<Message>>, to: Xid, m: Message, c: Xid, s: Xid)
    ensures Adds(out, Post(out, to, m), c, s, if c == to && About(m, s) then [m] else [])
  {
    if c == to {
      assert Written(Post(out, to, m), c) == Written(out, c) + [m];
      assert (Written(out, c) + [m])[..|Written(out, c)|] == Written(out, c);
    }
  }

  lemma PostAllAdds(out: map<Xid, seq<Message>>, to: map<Xid, Message>, c: Xid, s: Xid)
    requires forall u | u in to :: !About(to[u], s)
    ensures Adds(out, PostAll(out, to), c, s, [])
  {
    if c in to {
      assert Written(PostAll(out, to), c) == Written(out, c) + [to[c]];
      assert (Written(out, c) + [to[c]])[..|Written(out, c)|] == Written(out, c);
    } else {
      assert Written(PostAll(out, to), c) == Written(out, c);
    }
  }

  lemma NotifiedAdds(w: World, rid: string, w': World, c: Xid, s: Xid)
    requires rid in w.rooms && Notified(w, rid, w')
    ensures Adds(w.out, w'.out, c, s, [])
  {
    hide ListingsFor, Adds, PostAll;
    var lists :| ListingsFor(w.rooms[rid].users, lists) && w' == SendLists(w, rid, lists);
    PostAllAdds(w.out, map u | u in lists :: RoomInfo(w.rooms[rid].id, lists[u]), c, s);
  }

  // ---------- Opening ----------

  /** What `c` is told of a session that is opened. */
  function ToldOf(mode: ConnectionMode, p: Pairing, at: Addresses, c: Xid): seq<Message> {
    (if c == p.host then [HostSession(p.sid, p.client, Ice(mode, at, HostKey(p.sid), p.hostPassword))] else []) +
    (if c == p.client then [ClientSession(p.sid, p.host, Ice(mode, at, ClientKey(p.sid), p.clientPassword))] else [])
  }

  lemma PairAdds(out: map<Xid, seq<Message>>, mode: ConnectionMode, p: Pairing, at: Addresses, c: Xid, s: Xid)
    ensures
      var m1 := HostSession(p.sid, p.client, Ice(mode, at, HostKey(p.sid), p.hostPassword));
      var m2 := ClientSession(p.sid, p.host, Ice(mode, at, ClientKey(p.sid), p.clientPassword));
      Adds(out, Post(Post(out, p.host, m1), p.client, m2), c, s, if p.sid == s then ToldOf(mode, p, at, c) else [])
  {
    hide Adds, Post, Ice;
    var m1 := HostSession(p.sid, p.client, Ice(mode, at, HostKey(p.sid), p.hostPassword));
    var m2 := ClientSession(p.sid, p.host, Ice(mode, at, ClientKey(p.sid), p.clientPassword));
    PostAdds(out, p.host, m1, c, s);
    PostAdds(Post(out, p.host, m1), p.client, m2, c, s);
    AddsThrough(out, Post(out, p.host, m1), Post(Post(out, p.host, m1), p.client, m2), c, s,
                if c == p.host && About(m1, s) then [m1] else [], if c == p.client && About(m2, s) then [m2] else []);
    var none: seq<Message> := [];
    assert none + none == none;
  }

  lemma {:induction false} PlanAddsNone(out: map<Xid, seq<Message>>, mode: ConnectionMode, plan: seq<Pairing>,
                                        at: Addresses, c: Xid, s: Xid)
    requires forall i | 0 <= i < |plan| :: plan[i].sid != s
    ensures Adds(out, PlanOut(out, mode, plan, at), c, s, [])
  {
    if plan == [] {
      AddsNone(out, c, s);
    } else {
      var n := |plan| - 1;
      PlanAddsNone(out, mode, plan[..n], at, c, s);
      hide Adds, Post;
      PairAdds(PlanOut(out, mode, plan[..n], at), mode, plan[n], at, c, s);
      AddsThrough(out, PlanOut(out, mode, plan[..n], at), PlanOut(out, mode, plan, at), c, s, [], []);
    }
  }

  lemma {:induction false} PlanAdds(out: map<Xid, seq<Message>>, mode: ConnectionMode, plan: seq<Pairing>,
                                    at: Addresses, c: Xid, i: nat)
    requires forall i, j | 0 <= i < j < |plan| :: plan[i].sid != plan[j].sid
    requires i < |plan|
    ensures Adds(out, PlanOut(out, mode, plan, at), c, plan[i].sid, ToldOf(mode, plan[i], at, c))
  {
    hide Adds, Post, ToldOf, Ice;
    var n, s := |plan| - 1, plan[i].sid;
    var before, news := PlanOut(out, mode, plan[..n], at), ToldOf(mode, plan[i], at, c);
    PairAdds(before, mode, plan[n], at, c, s);
    assert news + [] == [] + news == news;
    if i < n {
      assert plan[..n][i] == plan[i];
      PlanAdds(out, mode, plan[..n], at, c, i);
      AddsThrough(out, before, PlanOut(out, mode, plan, at), c, s, news, []);
    } else {
      PlanAddsNone(out, mode, plan[..n], at, c, s);
      AddsThrough(out, before, PlanOut(out, mode, plan, at), c, s, [], news);
    }
  }

  // ---------- Ending ----------

  /** What `c` is told of the end of a session of `me`. */
  function ToldEnd(users: map<Xid, User>, me: Xid, ends: seq<Xid>, all: map<Xid, RoomSession>, c: Xid, s: Xid)
    : seq<Message>
    requires forall e | e in ends :: e in all
  {
    if s in ends && c == Peer(all[s], me) && c in users then [EndShare(s)] else []
  }

  lemma ToldEndSnoc(users: map<Xid, User>, me: Xid, ends: seq<Xid>, all: map<Xid, RoomSession>, c: Xid, s: Xid)
    requires ends != [] && DistinctIds(ends) && forall e | e in ends :: e in all
    ensures
      var n := |ends| - 1;
      ToldEnd(users, me, ends, all, c, s) ==
      ToldEnd(users, me, ends[..n], all, c, s) + if ends[n] == s then ToldEnd(users, me, ends, all, c, s) else []
  {
    var n := |ends| - 1;
    assert ends == ends[..n] + [ends[n]];
    assert ends[n] !in ends[..n];
    assert ToldEnd(users, me, ends, all, c, s) + [] == ToldEnd(users, me, ends, all, c, s);
  }

  lemma EndOneAdds(before: map<Xid, seq<Message>>, users: map<Xid, User>, me: Xid, ends: seq<Xid>,
                   all: map<Xid, RoomSession>, c: Xid, s: Xid)
    requires ends != [] && forall e | e in ends :: e in all
    ensures
      var e := ends[|ends| - 1];
      Adds(before, if Peer(all[e], me) in users then Post(before, Peer(all[e], me), EndShare(e)) else before, c, s,
           if e == s then ToldEnd(users, me, ends, all, c, s) else [])
  {
    var e := ends[|ends| - 1];
    PostAdds(before, Peer(all[e], me), EndShare(e), c, s);
    AddsNone(before, c, s);
    hide Adds, Post;
  }

  lemma {:induction false} EndAdds(out: map<Xid, seq<Message>>, users: map<Xid, User>, me: Xid, ends: seq<Xid>,
                                   all: map<Xid, RoomSession>, c: Xid, s: Xid)
    requires DistinctIds(ends) && forall e | e in ends :: e in all
    ensures Adds(out, EndOut(out, users, me, ends, all), c, s, ToldEnd(users, me, ends, all, c, s))
  {
    if ends == [] {
      AddsNone(out, c, s);
    } else {
      var n := |ends| - 1;
      EndAdds(out, users, me, ends[..n], all, c, s);
      var before := EndOut(out, users, me, ends[..n], all);
      hide Adds, Post, Peer, ToldEnd;
      EndOneAdds(before, users, me, ends, all, c, s);
      ToldEndSnoc(users, me, ends, all, c, s);
      AddsThrough(out, before, EndOut(out, users, me, ends, all), c, s, ToldEnd(users, me, ends[..n], all, c, s),
                  if ends[n] == s then ToldEnd(users, me, ends, all, c, s) else []);
    }
  }

  // ---------- What is right to tell ----------

  function Sessions(w: World, r: string): map<Xid, RoomSession> {
    if r in w.rooms then w.rooms[r].sessions else map[]
  }

  predicate HasEnd(session: RoomSession, c: Xid) {
    session.host == c || session.client == c
  }

  /**
   * What an end is told of the servers that help it to reach the other: those at `at`; and if credentials are
   * needed, the user name `key` with a password whose key is in the table, allowed for the address `addr`.
   */
  predicate IceRight(mode: ConnectionMode, lookup: map<string, Entry>, key: string, addr: Ip, at: Addresses,
                     ice: seq<IceServer>)
  {
    match mode
    case Turn =>
      && |ice| == 1 && ice[0] == IceServer("turn", at, true, key, ice[0].credential)
      && key in lookup && lookup[key] == Entry(addr, AuthKey(key, REALM, ice[0].credential))
    case Stun => ice == [IceServer("stun", at, false, "", "")]
    case _ => ice == []
  }

  /** The host is told once of the new session and of its client, the client once of its host, nobody else. */
  ghost predicate Announcing(w: World, r: string, s: Xid, at: Addresses, c: Xid, news: seq<Message>)
    requires s in Sessions(w, r)
  {
    var room := w.rooms[r];
    var session := room.sessions[s];
    if c == session.host then
      && |news| == 1 && news[0].HostSession? && news[0].sid == s && news[0].peer == session.client && c in room.users
      && IceRight(room.mode, w.lookup, HostKey(s), room.users[c].addr, at, news[0].ice)
    else if c == session.client then
      && |news| == 1 && news[0].ClientSession? && news[0].sid == s && news[0].peer == session.host && c in room.users
      && IceRight(room.mode, w.lookup, ClientKey(s), room.users[c].addr, at, news[0].ice)
    else news == []
  }

  /** What `c` is told of session `s` of room `r` when an event of `me` leads from `w` to `w'`. */
  ghost predicate ToldRight(w: World, w': World, me: Xid, at: Addresses, r: string, s: Xid, c: Xid, news: seq<Message>)
  {
    if s in Sessions(w', r) && s !in Sessions(w, r) then Announcing(w', r, s, at, c, news)
    else if s in Sessions(w, r) && s !in Sessions(w', r) then
      c in w'.connected ==> news == if HasEnd(Sessions(w, r)[s], c) && c != me then [EndShare(s)] else []
    else if s in Sessions(w, r) then news == []
    else (forall q :: s !in Sessions(w, q) && s !in Sessions(w', q)) ==> news == []
  }

  lemma SameToldRight(w: World, w': World, me: Xid, at: Addresses, r: string, s: Xid, c: Xid)
    requires Sessions(w', r) == Sessions(w, r)
    ensures ToldRight(w, w', me, at, r, s, c, [])
  {
  }

  // ---------- Sessions that are opened ----------

  /** The credentials that a plan puts in the table. */
  lemma {:induction false} PlanEntries(lookup: map<string, Entry>, users: map<Xid, User>, plan: seq<Pairing>, i: nat)
    requires forall i, j | 0 <= i < j < |plan| :: plan[i].sid != plan[j].sid
    requires i < |plan|
    ensures
      var p, table := plan[i], PlanLookup(lookup, users, plan);
      && HostKey(p.sid) in table && ClientKey(p.sid) in table
      && table[HostKey(p.sid)] == Entry(AddrOf(users, p.host), AuthKey(HostKey(p.sid), REALM, p.hostPassword))
      && table[ClientKey(p.sid)] ==
         Entry(AddrOf(users, p.client), AuthKey(ClientKey(p.sid), REALM, p.clientPassword))
  {
    var n := |plan| - 1;
    KeysAreInjective(plan[i].sid, plan[n].sid);
    KeysAreInjective(plan[n].sid, plan[i].sid);
    if i < n {
      PlanEntries(lookup, users, plan[..n], i);
    }
    hide HostKey, ClientKey, AddrOf;
  }

  lemma IceIsRight(mode: ConnectionMode, lookup: map<string, Entry>, key: string, addr: Ip, at: Addresses,
                   password: string)
    requires mode.Turn? ==> key in lookup && lookup[key] == Entry(addr, AuthKey(key, REALM, password))
    ensures IceRight(mode, lookup, key, addr, at, Ice(mode, at, key, password))
  {
  }

  lemma PairAnnounced(w: World, rid: string, p: Pairing, at: Addresses, c: Xid)
    requires p.sid in Sessions(w, rid) && Sessions(w, rid)[p.sid] == RoomSession(p.host, p.client)
    requires
      var room := w.rooms[rid];
      && p.host in room.users && p.client in room.users && p.host != p.client
      && IceRight(room.mode, w.lookup, HostKey(p.sid), room.users[p.host].addr, at,
                  Ice(room.mode, at, HostKey(p.sid), p.hostPassword))
      && IceRight(room.mode, w.lookup, ClientKey(p.sid), room.users[p.client].addr, at,
                  Ice(room.mode, at, ClientKey(p.sid), p.clientPassword))
    ensures Announcing(w, rid, p.sid, at, c, ToldOf(w.rooms[rid].mode, p, at, c))
  {
    hide Ice, IceRight, HostKey, ClientKey;
  }

  lemma PlanAnnounces(w: World, rid: string, plan: seq<Pairing>, at: Addresses, c: Xid, i: nat)
    requires rid in w.rooms && FreshPlan(w.used, plan) && i < |plan|
    requires plan[i].host in w.rooms[rid].users && plan[i].client in w.rooms[rid].users
    requires plan[i].host != plan[i].client
    ensures
      var w' := NewSessions(w, rid, plan, at);
      && plan[i].sid in Sessions(w', rid)
      && Announcing(w', rid, plan[i].sid, at, c, ToldOf(w.rooms[rid].mode, plan[i], at, c))
  {
    hide PlanTable, PlanLookup, PlanOut, HostKey, ClientKey, Announcing, ToldOf, IceRight, Ice;
    PlanTableIs(plan);
    PlanEntries(w.lookup, w.rooms[rid].users, plan, i);
    var w', p, room := NewSessions(w, rid, plan, at), plan[i], w.rooms[rid];
    IceIsRight(room.mode, w'.lookup, HostKey(p.sid), room.users[p.host].addr, at, p.hostPassword);
    IceIsRight(room.mode, w'.lookup, ClientKey(p.sid), room.users[p.client].addr, at, p.clientPassword);
    PairAnnounced(w', rid, p, at, c);
  }

  lemma PlanFacts(used: set<Xid>, pairs: set<(Xid, Xid)>, plan: seq<Pairing>)
    requires PlanFor(used, pairs, plan)
    ensures FreshPlan(used, plan)
    ensures forall i | 0 <= i < |plan| :: (plan[i].host, plan[i].client) in pairs
  {
  }

  lemma NewSessionsSids(w: World, rid: string, plan: seq<Pairing>, at: Addresses)
    requires rid in w.rooms
    ensures Sessions(NewSessions(w, rid, plan, at), rid) == Sessions(w, rid) + PlanTable(plan)
    ensures NewSessions(w, rid, plan, at).out == PlanOut(w.out, w.rooms[rid].mode, plan, at)
  {
  }

  lemma OpensAdds(w: World, rid: string, pairs: set<(Xid, Xid)>, o: Outcome, c: Xid, s: Xid)
    returns (news: seq<Message>)
    requires rid in w.rooms && w.rooms[rid].sessions.Keys <= w.used && OpensSessions(w, rid, pairs, o) && o.error.None?
    requires forall p | p in pairs :: p.0 in w.rooms[rid].users && p.1 in w.rooms[rid].users && p.0 != p.1
    ensures Adds(w.out, o.world.out, c, s, news)
    ensures if s in Sessions(o.world, rid) && s !in Sessions(w, rid)
            then Announcing(o.world, rid, s, o.reply.At(), c, news) else news == []
  {
    hide Adds, Announcing, ToldOf, PlanFor, NewSessions, PlanTable, PlanOut;
    var plan: seq<Pairing> :| Opens(w, rid, pairs, plan, o.reply.At(), o.world);
    var room := w.rooms[rid];
    PlanFacts(w.used, pairs, plan);
    PlanTableIs(plan);
    NewSessionsSids(w, rid, plan, o.reply.At());
    if i :| 0 <= i < |plan| && plan[i].sid == s {
      var pair := (plan[i].host, plan[i].client);
      assert pair.0 in room.users && pair.1 in room.users && pair.0 != pair.1;
      PlanAdds(w.out, room.mode, plan, o.reply.At(), c, i);
      PlanAnnounces(w, rid, plan, o.reply.At(), c, i);
      news := ToldOf(room.mode, plan[i], o.reply.At(), c);
    } else {
      PlanAddsNone(w.out, room.mode, plan, o.reply.At(), c, s);
      news := [];
    }
  }

  // ---------- Events that open sessions ----------

  lemma OpenedToldRight(w: World, w': World, rid: string, pairs: set<(Xid, Xid)>, me: Xid, at: Addresses, r: string,
                        s: Xid, c: Xid, news: seq<Message>)
    requires SidsOk(w.rooms, w.used) && OneForEach(Sessions(w, rid), Sessions(w', rid), pairs, w.used)
    requires forall q | q != rid :: Sessions(w', q) == Sessions(w, q)
    requires if s in Sessions(w', rid) && s !in Sessions(w, rid) then Announcing(w', rid, s, at, c, news)
             else news == []
    ensures ToldRight(w, w', me, at, r, s, c, news)
  {
    hide Announcing;
    assert forall q :: Sessions(w, q).Keys <= w.used;
  }

  lemma OpensForSessions(v: World, rid: string, pairs: set<(Xid, Xid)>, w': World)
    requires OpensFor(v, rid, pairs, w')
    ensures OneForEach(Sessions(v, rid), Sessions(w', rid), pairs, v.used)
    ensures forall q | q != rid :: Sessions(w', q) == Sessions(v, q)
  {
    hide OneForEach, OnlyMore, KeysOf;
  }

  lemma EnteredSessions(w: World, id: string, info: ClientInfo, name: string)
    requires id in w.rooms
    ensures forall q :: Sessions(Entered(w, id, info, name), q) == Sessions(w, q)
  {
  }

  lemma JoinTold(w: World, info: ClientInfo, id: string, asked: string, o: Outcome, r: string, s: Xid, c: Xid)
    returns (news: seq<Message>)
    requires SidsOk(w.rooms, w.used) && LookupOk(w.lookup, w.rooms)
    requires Joins(w, info, id, asked, o) && Where(w, info.id) == "" && id in w.rooms && o.error.None?
    ensures Adds(w.out, o.world.out, c, s, news) && ToldRight(w, o.world, info.id, o.reply.At(), r, s, c, news)
  {
    hide SidsOk, LookupOk, Notified, OpensSessions, OpensFor, OneForEach, Adds, Announcing, ToldRight, NameFor;
    var n, w1 :| JoinsAs(w, info, id, asked, n, w1, o);
    var entered := Enter(w, id, User(info.id, info.addr, n, false, false));
    NotifiedAdds(entered, id, w1, c, s);
    NotifiedOnlyOut(entered, id, w1);
    SidsInUse(w, id);
    news := OpensAdds(w1, id, PairsOnJoin(w1.rooms[id].users, info.id), o, c, s);
    AddsThrough(w.out, w1.out, o.world.out, c, s, [], news);
    assert [] + news == news;
    var name := JoinJoins(w, info, id, asked, o);
    var pairs := StreamsTo(w.rooms[id].users, info.id);
    OpensForSessions(Entered(w, id, info, name), id, pairs, o.world);
    EnteredSessions(w, id, info, name);
    hide Entered;
    OpenedToldRight(w, o.world, id, pairs, info.id, o.reply.At(), r, s, c, news);
  }

  lemma SidsInUse(w: World, rid: string)
    requires SidsOk(w.rooms, w.used) && rid in w.rooms
    ensures w.rooms[rid].sessions.Keys <= w.used
  {
  }

  lemma StreamingSessions(w: World, me: Xid)
    requires InRoom(w, me) && me in w.rooms[w.connected[me]].users
    ensures forall q :: Sessions(Streaming(w, me), q) == Sessions(w, q)
  {
  }

  lemma ShareTold(w: World, me: Xid, o: Outcome, r: string, s: Xid, c: Xid) returns (news: seq<Message>)
    requires Base(w) && StartsShare(w, me, o) && InRoom(w, me) && o.error.None?
    ensures Adds(w.out, o.world.out, c, s, news) && ToldRight(w, o.world, me, o.reply.At(), r, s, c, news)
  {
    BaseTables(w);
    hide Base, SidsOk, LookupOk, Notified, OpensSessions, OpensFor, OneForEach, Adds, Announcing, ToldRight;
    var rid := w.connected[me];
    OwnId(w, me);
    var o1 :| SharesAs(w, rid, me, o1, o);
    var v := UpdateUser(w, rid, w.rooms[rid].users[me].(streaming := true));
    SidsInUse(w, rid);
    news := OpensAdds(v, rid, PairsOnShare(v.rooms[rid].users, me), o1, c, s);
    NotifiedAdds(o1.world, rid, o.world, c, s);
    NotifiedOnlyOut(o1.world, rid, o.world);
    AddsThrough(w.out, o1.world.out, o.world.out, c, s, news, []);
    assert news + [] == news;
    ShareShares(w, me, o);
    var pairs := StreamsFrom(w.rooms[rid].users, me);
    OpensForSessions(Streaming(w, me), rid, pairs, o.world);
    StreamingSessions(w, me);
    AnnouncingOut(o1.world, o.world.out, rid, s, o.reply.At(), c, news);
    hide Streaming;
    OpenedToldRight(w, o.world, rid, pairs, me, o.reply.At(), r, s, c, news);
  }

  lemma AnnouncingOut(w: World, out: map<Xid, seq<Message>>, r: string, s: Xid, at: Addresses, c: Xid,
                      news: seq<Message>)
    ensures Sessions(w.(out := out), r) == Sessions(w, r)
    ensures s in Sessions(w, r) ==>
              (Announcing(w.(out := out), r, s, at, c, news) <==> Announcing(w, r, s, at, c, news))
  {
  }

  // ---------- Events that end sessions ----------

  /** What `c` is told when the sessions `ended` of `me` in a room end. */
  function ToldGone(all: map<Xid, RoomSession>, ended: set<Xid>, me: Xid, c: Xid, s: Xid): seq<Message> {
    if s in ended && s in all && HasEnd(all[s], c) && c != me then [EndShare(s)] else []
  }

  lemma ToldEndIsGone(room: RoomState, users: map<Xid, User>, me: Xid, leaving: bool, ends: seq<Xid>, c: Xid, s: Xid)
    requires EndsAreMembers(room) && OrderOfEnds(room.sessions, me, leaving, ends)
    requires forall u | u in room.users && u != me :: u in users
    requires leaving ==> me !in users
    ensures forall e | e in ends :: e in room.sessions
    ensures ToldEnd(users, me, ends, room.sessions, c, s) ==
            ToldGone(room.sessions, if leaving then WithEnd(room.sessions, me) else HostedBy(room.sessions, me),
                     me, c, s)
  {
  }

  lemma EndedToldRight(w: World, w': World, rid: string, ended: set<Xid>, me: Xid, at: Addresses, r: string, s: Xid,
                       c: Xid)
    requires SidsOk(w.rooms, w.used) && rid in w.rooms && EndsAreMembers(w.rooms[rid])
    requires forall q | q != rid :: Sessions(w', q) == Sessions(w, q)
    requires Sessions(w', rid) == Sessions(w, rid) - ended ||
             (Sessions(w', rid) == map[] && forall u | u in w.rooms[rid].users :: u !in w'.connected)
    requires ended <= Sessions(w, rid).Keys
    ensures ToldRight(w, w', me, at, r, s, c, ToldGone(w.rooms[rid].sessions, ended, me, c, s))
  {
    hide Announcing;
    assert forall q | q != rid :: Sessions(w, q).Keys !! ended;
  }

  lemma StoppedSessions(w: World, me: Xid, out: map<Xid, seq<Message>>)
    requires InRoom(w, me) && me in w.rooms[w.connected[me]].users
    ensures
      var w', rid := Stopped(w, me, out), w.connected[me];
      && Sessions(w', rid) == Sessions(w, rid) - HostedBy(Sessions(w, rid), me)
      && forall q | q != rid :: Sessions(w', q) == Sessions(w, q)
  {
    hide KeysOf, HostedBy;
  }

  /** What is written when sessions end. */
  lemma EndsAdds(w: World, rid: string, me: Xid, leaving: bool, ends: seq<Xid>, c: Xid, s: Xid)
    requires rid in w.rooms && OrderOfEnds(w.rooms[rid].sessions, me, leaving, ends)
    ensures forall e | e in ends :: e in w.rooms[rid].sessions
    ensures rid in EndSessions(w, rid, me, ends).rooms
    ensures Adds(w.out, EndSessions(w, rid, me, ends).out, c, s,
                 ToldEnd(w.rooms[rid].users, me, ends, w.rooms[rid].sessions, c, s))
  {
    hide Adds, ToldEnd, KeysOf, Elements;
    OrderIsOrder(w.rooms[rid].sessions, me, leaving, ends);
    EndAdds(w.out, w.rooms[rid].users, me, ends, w.rooms[rid].sessions, c, s);
  }

  lemma StopTold(w: World, me: Xid, o: Outcome, r: string, s: Xid, c: Xid) returns (news: seq<Message>)
    requires Base(w) && StopsShare(w, me, o) && InRoom(w, me)
    ensures Adds(w.out, o.world.out, c, s, news) && ToldRight(w, o.world, me, o.reply.At(), r, s, c, news)
  {
    RoomFacts(w, me);
    hide Base, SidsOk, Notified, EndsAreMembers, Adds, ToldRight, OrderOfEnds, HostedBy, ToldEnd, ToldGone, Stopped,
         EndSessions;
    var rid := w.connected[me];
    var room := w.rooms[rid];
    OwnId(w, me);
    var ends :| StopsWith(w, rid, me, ends, o.world);
    var v := UpdateUser(w, rid, room.users[me].(streaming := false));
    EndsAdds(v, rid, me, false, ends, c, s);
    NotifiedAdds(EndSessions(v, rid, me, ends), rid, o.world, c, s);
    ToldEndIsGone(room, v.rooms[rid].users, me, false, ends, c, s);
    var ended := HostedBy(room.sessions, me);
    news := ToldGone(room.sessions, ended, me, c, s);
    AddsThrough(w.out, EndSessions(v, rid, me, ends).out, o.world.out, c, s, news, []);
    assert news + [] == news;
    StopStops(w, me, o);
    hide StopsShare, UpdateUser, InRoom;
    StoppedSessions(w, me, o.world.out);
    HostedAreThere(room.sessions, me);
    EndedToldRight(w, o.world, rid, ended, me, o.reply.At(), r, s, c);
  }

  lemma HostedAreThere(all: map<Xid, RoomSession>, me: Xid)
    ensures HostedBy(all, me) <= all.Keys && WithEnd(all, me) <= all.Keys
  {
  }

  lemma RoomFacts(w: World, me: Xid)
    requires Base(w) && InRoom(w, me)
    ensures SidsOk(w.rooms, w.used) && EndsAreMembers(w.rooms[w.connected[me]])
  {
    assert RoomOk(w.connected[me], w.rooms[w.connected[me]]);
  }

  /** What `c` is told of `s` when `me` leaves. */
  function ToldParting(w: World, me: Xid, c: Xid, s: Xid): seq<Message> {
    if InRoom(w, me) then
      var all := w.rooms[w.connected[me]].sessions; ToldGone(all, WithEnd(all, me), me, c, s)
    else []
  }

  /** What is written of sessions when a client leaves, also after an event of it failed halfway. */
  lemma DisconnectAdds(w: World, me: Xid, code: int, reason: string, w': World, c: Xid, s: Xid)
    requires BaseBut(w, me) && Disconnects(w, me, code, reason, w')
    ensures Adds(w.out, w'.out, c, s, ToldParting(w, me, c, s))
  {
    hide BaseBut, RoomOkBut, Adds, Settles, OrderOfEnds, ToldEnd, ToldGone, WithEnd, Post, EndSessions;
    PostAdds(w.out, me, CloseWriter(code, reason), c, s);
    if InRoom(w, me) {
      LeaverIsMember(w, me);
      var rid := w.connected[me];
      var room := w.rooms[rid];
      var ends :| DisconnectsWith(w, rid, me, code, reason, ends, w');
      var v := RemoveUser(Forget(w, me, code, reason), rid, me);
      EndsAdds(v, rid, me, true, ends, c, s);
      MembersBut(rid, room, me);
      ToldEndIsGone(room, v.rooms[rid].users, me, true, ends, c, s);
      var v3 := EndSessions(v, rid, me, ends);
      SettleAdds(v3, rid, room.users[me].owner, w', c, s);
      hide Disconnects, RemoveUser, InRoom;
      var news := ToldParting(w, me, c, s);
      AddsThrough(w.out, v.out, v3.out, c, s, [], news);
      AddsThrough(w.out, v3.out, w'.out, c, s, [] + news, []);
      assert [] + news + [] == news;
    }
  }

  lemma MembersBut(rid: string, room: RoomState, me: Xid)
    requires RoomOkBut(rid, room, me)
    ensures EndsAreMembers(room)
  {
  }

  lemma SettleAdds(w: World, rid: string, ownerLeft: bool, w': World, c: Xid, s: Xid)
    requires rid in w.rooms && Settles(w, rid, ownerLeft, w')
    ensures Adds(w.out, w'.out, c, s, [])
  {
    hide Adds, Notified, PostAll;
    AddsNone(w.out, c, s);
    PostAllAdds(w.out, map u | u in w.rooms[rid].users :: CloseWriter(NORMAL_CLOSURE, OWNER_LEFT), c, s);
    if !(ownerLeft && w.rooms[rid].closeOnOwnerLeave) && w.rooms[rid].users != map[] {
      NotifiedAdds(w, rid, w', c, s);
    }
  }

  lemma PartedSessions(w: World, me: Xid, out: map<Xid, seq<Message>>)
    requires InRoom(w, me)
    ensures
      var w', rid, all := Parted(w, me, out), w.connected[me], Sessions(w, w.connected[me]);
      && (forall q | q != rid :: Sessions(w', q) == Sessions(w, q))
      && (Sessions(w', rid) == all - WithEnd(all, me) ||
          (Sessions(w', rid) == map[] && forall u | u in w.rooms[rid].users :: u !in w'.connected))
  {
    hide KeysOf, WithEnd, CountedOut, ClosesWithout;
  }

  lemma PartedToldRight(w: World, me: Xid, w': World, at: Addresses, r: string, s: Xid, c: Xid)
    requires BaseBut(w, me) && w' == Parted(w, me, w'.out)
    ensures ToldRight(w, w', me, at, r, s, c, ToldParting(w, me, c, s))
  {
    hide BaseBut, RoomOkBut, SidsOk, LookupOk, ToldRight, ToldGone, WithEnd, KeysOf, CountedOut;
    if InRoom(w, me) {
      LeaverIsMember(w, me);
      MembersBut(w.connected[me], w.rooms[w.connected[me]], me);
      var all := w.rooms[w.connected[me]].sessions;
      HostedAreThere(all, me);
      PartedSessions(w, me, w'.out);
      hide Parted, EndsAreMembers;
      EndedToldRight(w, w', w.connected[me], WithEnd(all, me), me, at, r, s, c);
    } else {
      SameToldRight(w, w', me, at, r, s, c);
    }
  }

  // ---------- Events that succeed ----------

  lemma CreateTold(w: World, info: ClientInfo, e: Event, o: Outcome, r: string, s: Xid, c: Xid)
    returns (news: seq<Message>)
    requires SidsOk(w.rooms, w.used) && LookupOk(w.lookup, w.rooms)
    requires e.Create? && Creates(w, info, e, o) && o.error.None?
    ensures Adds(w.out, o.world.out, c, s, news) && ToldRight(w, o.world, info.id, o.reply.At(), r, s, c, news)
  {
    hide SidsOk, LookupOk, Notified, Joins, Adds, ToldRight, NameFor;
    if e.id in w.rooms {
      news := JoinTold(w, info, e.id, e.userName, o, r, s, c);
    } else {
      news := [];
      var name :| NameFor(info, e.userName, name) && Notified(OpenRoom(w, info, e, name), e.id, o.world);
      NotifiedAdds(OpenRoom(w, info, e, name), e.id, o.world, c, s);
      NotifiedOnlyOut(OpenRoom(w, info, e, name), e.id, o.world);
      SameToldRight(w, o.world, info.id, o.reply.At(), r, s, c);
    }
  }

  lemma RenameTold(w: World, me: Xid, name: string, o: Outcome, r: string, s: Xid, c: Xid)
    requires Renames(w, me, name, o) && InRoom(w, me)
    ensures Adds(w.out, o.world.out, c, s, []) && ToldRight(w, o.world, me, o.reply.At(), r, s, c, [])
  {
    hide Notified, Adds, ToldRight;
    var rid := w.connected[me];
    var v := UpdateUser(w, rid, w.rooms[rid].users[me].(name := name));
    NotifiedAdds(v, rid, o.world, c, s);
    NotifiedOnlyOut(v, rid, o.world);
    SameToldRight(w, o.world, me, o.reply.At(), r, s, c);
  }

  lemma ConnectTold(w: World, me: Xid, at: Addresses, r: string, s: Xid, c: Xid)
    ensures
      var w' := w.(connected := w.connected[me := ""], used := w.used + {me});
      Adds(w.out, w'.out, c, s, []) && ToldRight(w, w', me, at, r, s, c, [])
  {
    var w' := w.(connected := w.connected[me := ""], used := w.used + {me});
    AddsNone(w.out, c, s);
    SameToldRight(w, w', me, at, r, s, c);
  }

  lemma ExecuteTold(w: World, m: ClientMessage, o: Outcome, r: string, s: Xid, c: Xid) returns (news: seq<Message>)
    requires Base(w) && Executes(w, m.info, m.event, o) && o.error.None? && !m.event.Relay?
    ensures Adds(w.out, o.world.out, c, s, news) && ToldRight(w, o.world, m.info.id, o.reply.At(), r, s, c, news)
  {
    BaseTables(w);
    BaseWeaken(w, m.info.id);
    ExecuteFails(w, m.info, m.event, o);
    hide Base, BaseBut, SidsOk, LookupOk, Creates, Joins, StartsShare, StopsShare, Renames, Disconnects, Parted;
    hide Adds, ToldRight, ToldParting, CreatorOk;
    var me := m.info.id;
    match m.event
    case Connected => news := []; ConnectTold(w, me, o.reply.At(), r, s, c);
    case Create(_, _, _, _, _) => news := CreateTold(w, m.info, m.event, o, r, s, c);
    case Join(id, userName) => news := JoinTold(w, m.info, id, userName, o, r, s, c);
    case StartShare => news := ShareTold(w, me, o, r, s, c);
    case StopShare => news := StopTold(w, me, o, r, s, c);
    case Name(userName) => news := []; RenameTold(w, me, userName, o, r, s, c);
    case Disconnected(code, reason) =>
      news := ToldParting(w, me, c, s);
      DisconnectAdds(w, me, code, reason, o.world, c, s);
      DisconnectParts(w, me, code, reason, o.world);
      PartedToldRight(w, me, o.world, o.reply.At(), r, s, c);
  }

  // ---------- Events that fail ----------

  lemma JoinFailAdds(w: World, info: ClientInfo, id: string, asked: string, o: Outcome, c: Xid, s: Xid)
    requires Joins(w, info, id, asked, o) && Where(w, info.id) == "" && id in w.rooms && o.error.Some?
    ensures Adds(w.out, o.world.out, c, s, [])
  {
    hide Notified, Opens, Adds, NameFor;
    var n, w1 :| JoinsAs(w, info, id, asked, n, w1, o);
    NotifiedAdds(Enter(w, id, User(info.id, info.addr, n, false, false)), id, w1, c, s);
  }

  lemma LetInFails(w: World, m: ClientMessage, o: Outcome, c: Xid, s: Xid)
    requires LetIn(w, m) && m.event.id in w.rooms && Executes(w, m.info, m.event, o) && o.error.Some?
    ensures Adds(w.out, o.world.out, c, s, [])
  {
    hide Joins, Adds, CreatorOk;
    JoinFailAdds(w, m.info, m.event.id, m.event.userName, o, c, s);
  }

  /** A newcomer takes no session along. */
  lemma NewcomerTold(w: World, m: ClientMessage, name: string, out: map<Xid, seq<Message>>, c: Xid, s: Xid)
    requires Base(w) && LetIn(w, m) && m.event.id in w.rooms
    ensures ToldParting(Entered(w, m.event.id, m.info, name).(out := out), m.info.id, c, s) == []
  {
    if m.event.id != "" {
      NewcomerFacts(w, m);
    }
    hide Base, CreatorOk;
  }

  lemma TurnedSessions(w: World, m: ClientMessage, name: string, out: map<Xid, seq<Message>>, r: string)
    requires LetIn(w, m) && m.event.id in w.rooms
    ensures Sessions(Turned(w, m, name, out), r) == Sessions(w, r)
  {
    hide LetIn;
  }

  lemma StreamerTold(w: World, me: Xid, c: Xid, s: Xid)
    requires InRoom(w, me) && me in w.rooms[w.connected[me]].users
    ensures ToldParting(Streaming(w, me), me, c, s) == ToldParting(w, me, c, s)
  {
  }

  lemma FailureTold(w: World, m: ClientMessage, o: Outcome, w': World, r: string, s: Xid, c: Xid)
    returns (news: seq<Message>)
    requires Base(w) && Arrives(w, m) && Next(w, m, w') && m.info.id in w.connected
    requires Executes(w, m.info, m.event, o) && o.reply == m.reply && o.error.Some?
    requires Disconnects(o.world, m.info.id, NORMAL_CLOSURE, o.error.value, w')
    ensures Adds(w.out, w'.out, c, s, news) && ToldRight(w, w', m.info.id, m.reply.At(), r, s, c, news)
  {
    KnownSender(w, m);
    hide Base, BaseBut, Next, Executes, Disconnects, Refusal, LetIn, InRoom, Entered, Streaming, Turned, Parted, Named;
    hide Adds, ToldRight, ToldParting, Sessions;
    var me := m.info.id;
    ExecuteFails(w, m.info, m.event, o);
    ExecuteBase(w, m.info, m.event, o);
    DisconnectAdds(o.world, me, NORMAL_CLOSURE, o.error.value, w', c, s);
    var name := RefusedEffect(w, m, w');
    var entered := FailedLeaves(w, m, o);
    if LetIn(w, m) {
      LetInFails(w, m, o, c, s);
      NewcomerTold(w, m, entered, o.world.out, c, s);
      AddsThrough(w.out, o.world.out, w'.out, c, s, [], []);
      news := [];
      TurnedSessions(w, m, name, w'.out, r);
      SameToldRight(w, w', me, m.reply.At(), r, s, c);
    } else {
      news := ToldParting(w, me, c, s);
      if o.world != w {
        StreamerTold(w, me, c, s);
        StreamingOut(w, me);
      }
      BaseWeaken(w, me);
      PartedToldRight(w, me, w', m.reply.At(), r, s, c);
    }
  }

  lemma StreamingOut(w: World, me: Xid)
    requires InRoom(w, me) && me in w.rooms[w.connected[me]].users
    ensures Streaming(w, me).out == w.out
  {
  }

  // ---------- Main results ----------

  lemma RelayTold(w: World, m: ClientMessage, o: Outcome, r: string, s: Xid, c: Xid)
    requires m.event.Relay? && Executes(w, m.info, m.event, o) && o.error.None?
    ensures if Accepted(w, m) && m.event.sid == s && c == Receiver(w, m) then
              Adds(w.out, o.world.out, c, s, [Relayed(m.event.kind, m.event.sid, m.event.value)])
            else Adds(w.out, o.world.out, c, s, []) && ToldRight(w, o.world, m.info.id, m.reply.At(), r, s, c, [])
  {
    AddsNone(w.out, c, s);
    if Accepted(w, m) {
      PostAdds(w.out, Receiver(w, m), Relayed(m.event.kind, m.event.sid, m.event.value), c, s);
    }
    hide Adds, ToldRight, Post;
    SameToldRight(w, o.world, m.info.id, m.reply.At(), r, s, c);
  }

  /**
   * What a client is told of a session in a step, for every event and every way it can fail. If the session is
   * new, its host and its client are told of it, once each, with the addresses of the IP provider and
   * credentials that are in the table; nobody else is. If it is gone, each end that stays, other than the
   * sender of the event, is told so, once; nobody else is. And otherwise it is told nothing, but for a
   * peer-to-peer message of its other end.
   */
  lemma NextTold(w: World, m: ClientMessage, w': World, r: string, s: Xid, c: Xid)
    requires Base(w) && Arrives(w, m) && Next(w, m, w')
    ensures if Accepted(w, m) && m.event.sid == s && c == Receiver(w, m) then
              News(w, w', c, s) == [Relayed(m.event.kind, m.event.sid, m.event.value)]
            else ToldRight(w, w', m.info.id, m.reply.At(), r, s, c, News(w, w', c, s))
  {
    WritesAreKept(w, m, w', c);
    if m.skipConnectedCheck || m.info.id in w.connected {
      KnownConnects(w, m);
      hide Base, Arrives, Executes, Disconnects, Written, News, Adds, ToldRight, Accepted;
      var o :| Executes(w, m.info, m.event, o) && o.reply == m.reply && Completes(o, m.info.id, w');
      OnlyRelays(w, m);
      var news: seq<Message>;
      if o.error.Some? {
        FailsNot(w, m, o);
        news := FailureTold(w, m, o, w', r, s, c);
      } else if m.event.Relay? {
        RelayTold(w, m, o, r, s, c);
        news := if Accepted(w, m) && m.event.sid == s && c == Receiver(w, m)
                then [Relayed(m.event.kind, m.event.sid, m.event.value)] else [];
      } else {
        news := ExecuteTold(w, m, o, r, s, c);
      }
      AddsIsNews(w, w', c, s, news);
    } else {
      StrangerNotAccepted(w, m);
      hide Base, Written, News, Adds, ToldRight, Accepted;
      AddsNone(w.out, c, s);
      AddsIsNews(w, w, c, s, []);
      SameToldRight(w, w, m.info.id, m.reply.At(), r, s, c);
    }
  }

  lemma KnownConnects(w: World, m: ClientMessage)
    requires Arrives(w, m) && (m.skipConnectedCheck || m.info.id in w.connected)
    ensures m.event.Connected? || m.info.id in w.connected
  {
  }

  lemma OnlyRelays(w: World, m: ClientMessage)
    ensures Accepted(w, m) ==> m.event.Relay?
  {
  }

  lemma FailsNot(w: World, m: ClientMessage, o: Outcome)
    requires Executes(w, m.info, m.event, o) && o.error.Some?
    ensures !m.event.Connected? && !Accepted(w, m)
  {
    ExecuteFails(w, m.info, m.event, o);
    hide Executes, CreatorOk;
  }

  /** The last thing a client that is thrown out is told is why; one that disconnects is told its own reason. */
  lemma LastWord(w: World, m: ClientMessage, w': World)
    requires Next(w, m, w') && m.info.id in w.connected
    ensures
      var ms := Written(w'.out, m.info.id);
      var why := Refusal(w, m.info, m.event, m.reply);
      && (why.Some? ==> ms != [] && ms[|ms| - 1] == CloseWriter(NORMAL_CLOSURE, why.value))
      && (m.event.Disconnected? ==> ms != [] && ms[|ms| - 1] == CloseWriter(m.event.code, m.event.reason))
  {
    hide Next, Executes, Disconnects, Refusal, Written, UsersOf;
    var o := OutcomeOf(w, m, w');
    if o.error.Some? {
      DisconnectSilent(o.world, m.info.id, NORMAL_CLOSURE, o.error.value, w', m.info.id);
    }
    if m.event.Disconnected? {
      DisconnectOnly(w, m.info, m.event, o);
      DisconnectSilent(w, m.info.id, m.event.code, m.event.reason, w', m.info.id);
    }
  }
}
