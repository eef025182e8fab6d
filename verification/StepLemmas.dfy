/** How the closed forms of the specification grow by one item, for the loops that compute them. */
module StepLemmas {
  import opened Types
  import opened Spec

  lemma NewSessionsSnoc(w: World, rid: string, plan: seq<Pairing>, p: Pairing, at: Addresses)
    requires rid in w.rooms
    ensures rid in NewSessions(w, rid, plan, at).rooms
    ensures NewSessions(w, rid, plan + [p], at) == NewSessions(NewSessions(w, rid, plan, at), rid, [p], at)
  {
    hide PlanTable, PlanLookup, PlanOut;
    var room := w.rooms[rid];
    TableSnoc(room.sessions, plan, p);
    LookupSnoc(w.lookup, room.users, plan, p);
    OutSnoc(w.out, room.mode, plan, p, at);
    UsedSnoc(w.used, plan, p);
  }

  lemma TableSnoc(sessions: map<Xid, RoomSession>, plan: seq<Pairing>, p: Pairing)
    ensures sessions + PlanTable(plan) + PlanTable([p]) == sessions + PlanTable(plan + [p])
  {
    PlanSnoc(plan, p);
    PlanOne(p);
  }

  lemma UsedSnoc(used: set<Xid>, plan: seq<Pairing>, p: Pairing)
    ensures used + PlanTable(plan).Keys + PlanTable([p]).Keys == used + PlanTable(plan + [p]).Keys
  {
    PlanSnoc(plan, p);
    PlanOne(p);
  }

  lemma PlanSnoc(plan: seq<Pairing>, p: Pairing)
    ensures PlanTable(plan + [p]) == PlanTable(plan)[p.sid := RoomSession(p.host, p.client)]
  {
    assert (plan + [p])[..|plan|] == plan;
  }

  lemma PlanOne(p: Pairing)
    ensures PlanTable([p]) == map[p.sid := RoomSession(p.host, p.client)]
  {
    assert [p][..0] == [];
  }

  lemma LookupSnoc(lookup: map<string, Entry>, users: map<Xid, User>, plan: seq<Pairing>, p: Pairing)
    ensures PlanLookup(lookup, users, plan + [p]) == PlanLookup(PlanLookup(lookup, users, plan), users, [p])
  {
    assert (plan + [p])[..|plan|] == plan;
    assert [p][..0] == [];
  }

  lemma OutSnoc(out: map<Xid, seq<Message>>, mode: ConnectionMode, plan: seq<Pairing>, p: Pairing, at: Addresses)
    ensures PlanOut(out, mode, plan + [p], at) == PlanOut(PlanOut(out, mode, plan, at), mode, [p], at)
  {
    assert (plan + [p])[..|plan|] == plan;
    assert [p][..0] == [];
  }

  lemma NewSessionsNone(w: World, rid: string, at: Addresses)
    requires rid in w.rooms
    ensures NewSessions(w, rid, [], at) == w
  {
    assert w.rooms[rid].sessions + map[] == w.rooms[rid].sessions;
    assert w.rooms[rid := w.rooms[rid]] == w.rooms;
    assert w.used + {} == w.used;
  }

  lemma EndSessionsNone(w: World, rid: string, me: Xid)
    requires rid in w.rooms
    ensures EndSessions(w, rid, me, []) == w
  {
    assert Elements([]) == {};
    assert w.rooms[rid].sessions - {} == w.rooms[rid].sessions;
    assert w.rooms[rid := w.rooms[rid]] == w.rooms;
    assert KeysOf({}) == {};
    assert w.lookup - {} == w.lookup;
  }

  /** One session ends: `peer`, if a member, is told, and the credentials are dropped. */
  function EndOne(w: World, rid: string, sid: Xid, peer: Xid): World
    requires rid in w.rooms
  {
    var room := w.rooms[rid];
    w.(rooms := w.rooms[rid := room.(sessions := room.sessions - {sid})],
       stats := w.stats.(sessionsClosed := w.stats.sessionsClosed + 1),
       lookup := if room.mode.Turn? then w.lookup - {HostKey(sid), ClientKey(sid)} else w.lookup,
       out := if peer in room.users then Post(w.out, peer, EndShare(sid)) else w.out)
  }

  lemma EndSessionsSnoc(w: World, rid: string, me: Xid, ends: seq<Xid>, sid: Xid)
    requires rid in w.rooms && (forall s | s in ends :: s in w.rooms[rid].sessions) && sid in w.rooms[rid].sessions
    ensures rid in EndSessions(w, rid, me, ends).rooms
    ensures EndSessions(w, rid, me, ends + [sid]) ==
            EndOne(EndSessions(w, rid, me, ends), rid, sid, Peer(w.rooms[rid].sessions[sid], me))
  {
    var room := w.rooms[rid];
    assert (ends + [sid])[..|ends|] == ends;
    ElementsSnoc(ends, sid);
    assert room.sessions - Elements(ends) - {sid} == room.sessions - Elements(ends + [sid]);
    LookupEndSnoc(w.lookup, ends, sid);
    hide Elements, KeysOf, Post;
    assert w.rooms[rid := EndSessions(w, rid, me, ends).rooms[rid]] == EndSessions(w, rid, me, ends).rooms;
  }

  lemma ElementsSnoc(ids: seq<Xid>, x: Xid)
    ensures Elements(ids + [x]) == Elements(ids) + {x}
  {
  }

  lemma LookupEndSnoc(lookup: map<string, Entry>, ends: seq<Xid>, sid: Xid)
    ensures lookup - KeysOf(Elements(ends + [sid])) == lookup - KeysOf(Elements(ends)) - {HostKey(sid), ClientKey(sid)}
  {
    ElementsSnoc(ends, sid);
    assert KeysOf(Elements(ends) + {sid}) == KeysOf(Elements(ends)) + {HostKey(sid), ClientKey(sid)};
  }

  /** One more pair is served by a plan. */
  lemma PlanForSnoc(w: World, pairs: set<(Xid, Xid)>, plan: seq<Pairing>, p: Pairing)
    requires PlanFor(w.used, pairs, plan)
    requires (p.host, p.client) !in pairs && p.sid !in w.used && p.sid !in PlanTable(plan)
    ensures PlanFor(w.used, pairs + {(p.host, p.client)}, plan + [p])
  {
    forall i | 0 <= i < |plan|
      ensures plan[i].sid in PlanTable(plan)
    {
      InTable(plan, i);
    }
    forall q | q in pairs + {(p.host, p.client)}
      ensures exists i :: 0 <= i < |plan + [p]| && ((plan + [p])[i].host, (plan + [p])[i].client) == q
    {
      if q == (p.host, p.client) {
        assert (plan + [p])[|plan|] == p;
      } else {
        var i :| 0 <= i < |plan| && (plan[i].host, plan[i].client) == q;
        assert (plan + [p])[i] == plan[i];
      }
    }
  }

  lemma {:induction false} InTable(plan: seq<Pairing>, i: nat)
    requires i < |plan|
    ensures plan[i].sid in PlanTable(plan)
  {
    if i < |plan| - 1 {
      InTable(plan[..|plan| - 1], i);
    }
  }
}
