/** Steps that concern one room can be followed on that room alone. */
module Focus {
  import opened Types
  import opened Spec

  /** The state `w` in which room `rid`, and all that is not a room, are as in `v`. */
  function Within(w: World, v: World, rid: string): World
    requires rid in v.rooms
  {
    v.(rooms := w.rooms[rid := v.rooms[rid]])
  }

  function WithinOutcome(w: World, o: Outcome, rid: string): Outcome
    requires rid in o.world.rooms
  {
    o.(world := Within(w, o.world, rid))
  }

  lemma NotifiedWithin(w: World, v: World, rid: string, v': World)
    requires rid in v.rooms && Notified(v, rid, v')
    ensures rid in v'.rooms && Notified(Within(w, v, rid), rid, Within(w, v', rid))
  {
    hide ListingsFor, PostAll;
    var lists :| ListingsFor(v.rooms[rid].users, lists) && v' == SendLists(v, rid, lists);
    assert Within(w, v', rid) == SendLists(Within(w, v, rid), rid, lists);
  }

  lemma NewSessionsWithin(w: World, v: World, rid: string, plan: seq<Pairing>, at: Addresses)
    requires rid in v.rooms
    ensures rid in NewSessions(v, rid, plan, at).rooms
    ensures NewSessions(Within(w, v, rid), rid, plan, at) == Within(w, NewSessions(v, rid, plan, at), rid)
  {
    hide PlanTable, PlanLookup, PlanOut;
    var room := NewSessions(v, rid, plan, at).rooms[rid];
    assert w.rooms[rid := v.rooms[rid]][rid := room] == w.rooms[rid := room];
  }

  lemma OpensWithin(w: World, v: World, rid: string, pairs: set<(Xid, Xid)>, o: Outcome)
    requires rid in v.rooms && OpensSessions(v, rid, pairs, o)
    ensures rid in o.world.rooms && OpensSessions(Within(w, v, rid), rid, pairs, WithinOutcome(w, o, rid))
  {
    hide PlanFor, NewSessions;
    if o.error.None? {
      var at := o.reply.At();
      var plan :| Opens(v, rid, pairs, plan, at, o.world);
      NewSessionsWithin(w, v, rid, plan, at);
      assert Opens(Within(w, v, rid), rid, pairs, plan, at, Within(w, o.world, rid));
    }
  }

  lemma EndSessionsWithin(w: World, v: World, rid: string, me: Xid, ends: seq<Xid>)
    requires rid in v.rooms && forall s | s in ends :: s in v.rooms[rid].sessions
    ensures rid in EndSessions(v, rid, me, ends).rooms
    ensures EndSessions(Within(w, v, rid), rid, me, ends) == Within(w, EndSessions(v, rid, me, ends), rid)
  {
    hide EndOut, Elements, KeysOf;
    var room := EndSessions(v, rid, me, ends).rooms[rid];
    assert w.rooms[rid := v.rooms[rid]][rid := room] == w.rooms[rid := room];
  }

  lemma UpdateUserWithin(w: World, v: World, rid: string, u: User)
    requires rid in v.rooms
    ensures UpdateUser(Within(w, v, rid), rid, u) == Within(w, UpdateUser(v, rid, u), rid)
  {
    var room := UpdateUser(v, rid, u).rooms[rid];
    assert w.rooms[rid := v.rooms[rid]][rid := room] == w.rooms[rid := room];
  }

  lemma RemoveUserWithin(w: World, v: World, rid: string, me: Xid)
    requires rid in v.rooms
    ensures RemoveUser(Within(w, v, rid), rid, me) == Within(w, RemoveUser(v, rid, me), rid)
  {
    var room := RemoveUser(v, rid, me).rooms[rid];
    assert w.rooms[rid := v.rooms[rid]][rid := room] == w.rooms[rid := room];
  }

  lemma EnterWithin(w: World, v: World, rid: string, u: User)
    requires rid in v.rooms
    ensures Enter(Within(w, v, rid), rid, u) == Within(w, Enter(v, rid, u), rid)
  {
    var room := Enter(v, rid, u).rooms[rid];
    assert w.rooms[rid := v.rooms[rid]][rid := room] == w.rooms[rid := room];
  }

  // ---------- Sending to many ----------

  lemma PostAllNone(out: map<Xid, seq<Message>>)
    ensures PostAll(out, map[]) == out
  {
    forall c | c in out
      ensures PostAll(out, map[])[c] == out[c]
    {
      assert out[c] + [] == out[c];
    }
  }

  lemma PostAllSnoc(out: map<Xid, seq<Message>>, to: map<Xid, Message>, c: Xid, m: Message)
    requires c !in to
    ensures PostAll(out, to[c := m]) == Post(PostAll(out, to), c, m)
  {
    var l, r := PostAll(out, to[c := m]), Post(PostAll(out, to), c, m);
    assert l.Keys == r.Keys;
    forall d | d in l
      ensures l[d] == r[d]
    {
      if d == c {
        assert Written(out, c) + [] == Written(out, c);
      }
    }
  }

  // ---------- Handlers that concern one room ----------

  /** `v` is `w` without the other rooms. */
  ghost predicate Alone(w: World, v: World, rid: string) {
    rid in w.rooms && v == w.(rooms := map[rid := w.rooms[rid]])
  }

  lemma AloneWithin(w: World, v: World, rid: string)
    requires Alone(w, v, rid)
    ensures Within(w, v, rid) == w
  {
    assert w.rooms[rid := w.rooms[rid]] == w.rooms;
  }

  lemma JoinWithin(w: World, v: World, info: ClientInfo, id: string, asked: string, name: string, v1: World, o: Outcome)
    requires Alone(w, v, id) && Where(w, info.id) == "" && JoinsAs(v, info, id, asked, name, v1, o)
    ensures id in o.world.rooms && Joins(w, info, id, asked, WithinOutcome(w, o, id))
  {
    hide Notified, OpensSessions, NameFor;
    var u := User(info.id, info.addr, name, false, false);
    assert id in Enter(v, id, u).rooms;
    hide Enter;
    AloneWithin(w, v, id);
    EnterWithin(w, v, id, u);
    NotifiedWithin(w, Enter(v, id, u), id, v1);
    OpensWithin(w, v1, id, PairsOnJoin(v1.rooms[id].users, info.id), o);
    assert JoinsAs(w, info, id, asked, name, Within(w, v1, id), WithinOutcome(w, o, id));
  }

  lemma ShareWithin(w: World, v: World, rid: string, me: Xid, o1: Outcome, o: Outcome)
    requires Alone(w, v, rid) && me in w.connected && w.connected[me] == rid && rid != "" && me in w.rooms[rid].users
    requires SharesAs(v, rid, me, o1, o)
    ensures rid in o.world.rooms && StartsShare(w, me, WithinOutcome(w, o, rid))
  {
    hide Notified, OpensSessions, UpdateUser;
    var u := v.rooms[rid].users[me].(streaming := true);
    var v1 := UpdateUser(v, rid, u);
    assert rid in v1.rooms by {
      UpdateKeepsRoom(v, rid, u);
    }
    AloneWithin(w, v, rid);
    UpdateUserWithin(w, v, rid, u);
    OpensWithin(w, v1, rid, PairsOnShare(v1.rooms[rid].users, me), o1);
    if o.error.None? {
      NotifiedWithin(w, o1.world, rid, o.world);
    }
    assert SharesAs(w, rid, me, WithinOutcome(w, o1, rid), WithinOutcome(w, o, rid));
  }

  lemma UpdateKeepsRoom(w: World, rid: string, u: User)
    requires rid in w.rooms
    ensures rid in UpdateUser(w, rid, u).rooms
  {
  }

  lemma StopWithin(w: World, v: World, rid: string, me: Xid, ends: seq<Xid>, v': World,
                   reply: Reply)
    requires Alone(w, v, rid) && me in w.connected && w.connected[me] == rid && rid != "" && me in w.rooms[rid].users
    requires StopsWith(v, rid, me, ends, v')
    ensures rid in v'.rooms && StopsShare(w, me, Done(Within(w, v', rid), reply))
  {
    var u := v.rooms[rid].users[me].(streaming := false);
    var v1 := UpdateUser(v, rid, u);
    UpdateKeepsRoom(v, rid, u);
    EndsExist(v.rooms[rid].sessions, me, false, ends);
    assert v1.rooms[rid].sessions == v.rooms[rid].sessions;
    hide Notified, UpdateUser, EndSessions, OrderOfEnds;
    AloneWithin(w, v, rid);
    UpdateUserWithin(w, v, rid, u);
    EndSessionsWithin(w, v1, rid, me, ends);
    NotifiedWithin(w, EndSessions(v1, rid, me, ends), rid, v');
    assert StopsWith(w, rid, me, ends, Within(w, v', rid));
  }

  lemma EndsExist(all: map<Xid, RoomSession>, me: Xid, leaving: bool, ends: seq<Xid>)
    requires OrderOfEnds(all, me, leaving, ends)
    ensures forall s | s in ends :: s in all
  {
  }

  lemma RenameWithin(w: World, v: World, rid: string, me: Xid, name: string, v': World, reply: Reply)
    requires Alone(w, v, rid) && me in w.connected && w.connected[me] == rid && rid != "" && me in w.rooms[rid].users
    requires Notified(UpdateUser(v, rid, v.rooms[rid].users[me].(name := name)), rid, v')
    ensures rid in v'.rooms && Renames(w, me, name, Done(Within(w, v', rid), reply))
  {
    hide Notified;
    var u := v.rooms[rid].users[me].(name := name);
    AloneWithin(w, v, rid);
    UpdateUserWithin(w, v, rid, u);
    NotifiedWithin(w, UpdateUser(v, rid, u), rid, v');
  }

  lemma LeaveWithin(w: World, v: World, rid: string, me: Xid, ends: seq<Xid>)
    requires Alone(w, v, rid) && forall s | s in ends :: s in w.rooms[rid].sessions
    ensures rid in EndSessions(RemoveUser(v, rid, me), rid, me, ends).rooms
    ensures EndSessions(RemoveUser(w, rid, me), rid, me, ends) ==
            Within(w, EndSessions(RemoveUser(v, rid, me), rid, me, ends), rid)
  {
    AloneWithin(w, v, rid);
    RemoveUserWithin(w, v, rid, me);
    EndSessionsWithin(w, RemoveUser(v, rid, me), rid, me, ends);
  }
}
