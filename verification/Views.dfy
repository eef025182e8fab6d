/**
 * What a client can work out from the messages written to it, and how that follows the server's state.
 */
module Views {
  import opened Types
  import opened Spec
  import opened Invariants

  /** What a client was told about one of its sessions. */
  datatype Told = Told(peer: Xid, ice: seq<IceServer>)

  /** The state of a client that takes its messages at their word. */
  datatype ClientView = ClientView(
    watching: map<Xid, Told>,  // announced as a viewer and not ended
    hosting: map<Xid, Told>,   // announced as a host and not ended
    seen: set<Xid>,            // ever announced
    closed: bool,
    clean: bool)               // no message before the closing one was out of place

  const BLANK := ClientView(map[], map[], {}, false, true)

  /**
   * A client reads no further than the closing message. Before it, a message is out of place if it announces
   * a session id again, ends a session that is not open, or relays for a session that is not open.
   */
  function Observe(v: ClientView, m: Message): ClientView {
    if v.closed then v
    else
      match m
      case RoomInfo(_, _) => v
      case HostSession(sid, peer, ice) =>
        v.(hosting := v.hosting[sid := Told(peer, ice)], seen := v.seen + {sid}, clean := v.clean && sid !in v.seen)
      case ClientSession(sid, peer, ice) =>
        v.(watching := v.watching[sid := Told(peer, ice)], seen := v.seen + {sid}, clean := v.clean && sid !in v.seen)
      case Relayed(kind, sid, _) =>
        v.(clean := v.clean && if kind.FromHost() then sid in v.watching else sid in v.hosting)
      case EndShare(sid) =>
        v.(watching := v.watching - {sid}, hosting := v.hosting - {sid},
           clean := v.clean && (sid in v.watching || sid in v.hosting))
      case CloseWriter(_, _) => v.(closed := true)
  }

  function Replay(ms: seq<Message>): ClientView {
    if ms == [] then BLANK
    else Observe(Replay(ms[..|ms| - 1]), ms[|ms| - 1])
  }

  function View(out: map<Xid, seq<Message>>, c: Xid): ClientView {
    Replay(Written(out, c))
  }

  lemma ReplayOne(ms: seq<Message>, m: Message)
    ensures Replay(ms + [m]) == Observe(Replay(ms), m)
  {
    assert (ms + [m])[..|ms|] == ms;
  }

  lemma PostView(out: map<Xid, seq<Message>>, c: Xid, m: Message, d: Xid)
    ensures View(Post(out, c, m), d) == if c == d then Observe(View(out, d), m) else View(out, d)
  {
    ReplayOne(Written(out, c), m);
  }

  // ---------- Agreement of one client's view with the sessions of its room ----------

  /** What was told about one end of a session is what the TURN table now accepts for it. */
  predicate CredentialOk(mode: ConnectionMode, lookup: map<string, Entry>, key: string, ice: seq<IceServer>) {
    match mode
    case Turn =>
      && |ice| == 1 && ice[0].scheme == "turn" && ice[0].tcp && ice[0].username == key
      && key in lookup && lookup[key].key == AuthKey(key, REALM, ice[0].credential)
    case Stun => |ice| == 1 && ice[0].scheme == "stun" && ice[0].username == "" && ice[0].credential == ""
    case _ => ice == []
  }

  /** `c` watches exactly the sessions with it as client, and was told their hosts and working credentials. */
  ghost predicate Watches(watching: map<Xid, Told>, mode: ConnectionMode, sessions: map<Xid, RoomSession>,
                          lookup: map<string, Entry>, c: Xid) {
    && (forall s :: s in watching <==> s in sessions && sessions[s].client == c)
    && (forall s | s in watching ::
          watching[s].peer == sessions[s].host && CredentialOk(mode, lookup, ClientKey(s), watching[s].ice))
  }

  /** `c` knows every session with it as host, and was told their clients and working credentials. */
  ghost predicate Hosts(hosting: map<Xid, Told>, mode: ConnectionMode, sessions: map<Xid, RoomSession>,
                        lookup: map<string, Entry>, c: Xid) {
    forall s | s in sessions && sessions[s].host == c ::
      && s in hosting
      && hosting[s].peer == sessions[s].client
      && CredentialOk(mode, lookup, HostKey(s), hosting[s].ice)
  }

  ghost predicate Follows(v: ClientView, mode: ConnectionMode, sessions: map<Xid, RoomSession>,
                          lookup: map<string, Entry>, c: Xid) {
    Watches(v.watching, mode, sessions, lookup, c) && Hosts(v.hosting, mode, sessions, lookup, c)
  }

  /** The keys of the given sessions mean the same in both tables. */
  ghost predicate SameKeys(sids: set<Xid>, lookup: map<string, Entry>, lookup': map<string, Entry>) {
    forall s | s in sids ::
      && (HostKey(s) in lookup ==> HostKey(s) in lookup' && lookup'[HostKey(s)] == lookup[HostKey(s)])
      && (ClientKey(s) in lookup ==> ClientKey(s) in lookup' && lookup'[ClientKey(s)] == lookup[ClientKey(s)])
  }

  lemma FollowsElsewhere(v: ClientView, mode: ConnectionMode, sessions: map<Xid, RoomSession>,
                         lookup: map<string, Entry>, lookup': map<string, Entry>, c: Xid)
    requires Follows(v, mode, sessions, lookup, c) && SameKeys(sessions.Keys, lookup, lookup')
    ensures Follows(v, mode, sessions, lookup', c)
  {
  }

  /** The TURN table after one session was given its credentials, if it is in a TURN room. */
  function LookupWith(mode: ConnectionMode, lookup: map<string, Entry>, users: map<Xid, User>, p: Pairing)
    : map<string, Entry>
  {
    if mode.Turn? then
      Allowed(Allowed(lookup, HostKey(p.sid), p.hostPassword, AddrOf(users, p.host)),
              ClientKey(p.sid), p.clientPassword, AddrOf(users, p.client))
    else lookup
  }

  lemma OtherKeysKept(mode: ConnectionMode, lookup: map<string, Entry>, users: map<Xid, User>, p: Pairing,
                      sids: set<Xid>)
    requires p.sid !in sids
    ensures SameKeys(sids, lookup, LookupWith(mode, lookup, users, p))
  {
    forall s | s in sids
      ensures HostKey(s) != HostKey(p.sid) && HostKey(s) != ClientKey(p.sid)
      ensures ClientKey(s) != HostKey(p.sid) && ClientKey(s) != ClientKey(p.sid)
    {
      KeysAreInjective(s, p.sid);
      KeysAreInjective(p.sid, s);
    }
  }

  lemma NewKeysWork(mode: ConnectionMode, lookup: map<string, Entry>, users: map<Xid, User>, p: Pairing, at: Addresses)
    ensures
      var lookup' := LookupWith(mode, lookup, users, p);
      && CredentialOk(mode, lookup', HostKey(p.sid), Ice(mode, at, HostKey(p.sid), p.hostPassword))
      && CredentialOk(mode, lookup', ClientKey(p.sid), Ice(mode, at, ClientKey(p.sid), p.clientPassword))
  {
    KeysAreInjective(p.sid, p.sid);
  }

  /** The view of `c` after a session was announced to its two ends. */
  function ViewWith(v: ClientView, mode: ConnectionMode, p: Pairing, at: Addresses, c: Xid): ClientView {
    if c == p.host then Observe(v, HostSession(p.sid, p.client, Ice(mode, at, HostKey(p.sid), p.hostPassword)))
    else if c == p.client then
      Observe(v, ClientSession(p.sid, p.host, Ice(mode, at, ClientKey(p.sid), p.clientPassword)))
    else v
  }

  lemma HostsOpening(hosting: map<Xid, Told>, mode: ConnectionMode, sessions: map<Xid, RoomSession>,
                     lookup: map<string, Entry>, sid: Xid, s: RoomSession, c: Xid, told: Told)
    requires Hosts(hosting, mode, sessions, lookup, c) && sid !in sessions
    requires told.peer == s.client && CredentialOk(mode, lookup, HostKey(sid), told.ice)
    ensures Hosts(if c == s.host then hosting[sid := told] else hosting, mode, sessions[sid := s], lookup, c)
  {
    hide CredentialOk;
  }

  lemma WatchesOpening(watching: map<Xid, Told>, mode: ConnectionMode, sessions: map<Xid, RoomSession>,
                       lookup: map<string, Entry>, sid: Xid, s: RoomSession, c: Xid, told: Told)
    requires Watches(watching, mode, sessions, lookup, c) && sid !in sessions
    requires told.peer == s.host && CredentialOk(mode, lookup, ClientKey(sid), told.ice)
    ensures Watches(if c == s.client then watching[sid := told] else watching, mode, sessions[sid := s], lookup, c)
  {
    hide CredentialOk;
  }

  /** A session is opened: its two ends learn of it, everyone else's view stays right. */
  lemma FollowsOpening(v: ClientView, mode: ConnectionMode, sessions: map<Xid, RoomSession>, lookup: map<string, Entry>,
                       users: map<Xid, User>, p: Pairing, at: Addresses, c: Xid)
    requires Follows(v, mode, sessions, lookup, c) && !v.closed
    requires p.host != p.client && p.sid !in sessions && p.sid !in v.seen
    ensures
      var v' := ViewWith(v, mode, p, at, c);
      && Follows(v', mode, sessions[p.sid := RoomSession(p.host, p.client)], LookupWith(mode, lookup, users, p), c)
      && v' == v.(watching := v'.watching, hosting := v'.hosting, seen := v'.seen) && v'.seen <= v.seen + {p.sid}
  {
    var lookup' := LookupWith(mode, lookup, users, p);
    var s := RoomSession(p.host, p.client);
    OtherKeysKept(mode, lookup, users, p, sessions.Keys);
    NewKeysWork(mode, lookup, users, p, at);
    hide LookupWith, CredentialOk, SameKeys, Watches, Hosts, Ice;
    FollowsElsewhere(v, mode, sessions, lookup, lookup', c);
    HostsOpening(v.hosting, mode, sessions, lookup', p.sid, s, c,
                 Told(p.client, Ice(mode, at, HostKey(p.sid), p.hostPassword)));
    WatchesOpening(v.watching, mode, sessions, lookup', p.sid, s, c,
                   Told(p.host, Ice(mode, at, ClientKey(p.sid), p.clientPassword)));
  }

  /** The TURN table after one session lost its credentials, if it is in a TURN room. */
  function LookupWithout(mode: ConnectionMode, lookup: map<string, Entry>, gone: set<Xid>): map<string, Entry> {
    if mode.Turn? then lookup - KeysOf(gone) else lookup
  }

  lemma OtherKeysStay(mode: ConnectionMode, lookup: map<string, Entry>, gone: set<Xid>, sids: set<Xid>)
    requires sids !! gone
    ensures SameKeys(sids, lookup, LookupWithout(mode, lookup, gone))
  {
    forall s | s in sids
      ensures HostKey(s) !in KeysOf(gone) && ClientKey(s) !in KeysOf(gone)
    {
      forall t | t in gone
        ensures HostKey(s) != HostKey(t) && HostKey(s) != ClientKey(t)
        ensures ClientKey(s) != HostKey(t) && ClientKey(s) != ClientKey(t)
      {
        KeysAreInjective(s, t);
        KeysAreInjective(t, s);
      }
    }
  }

  /**
   * A session of `me` ends. Its other end is told; `me` is not, having either stopped to host it or left.
   */
  lemma FollowsEnding(v: ClientView, mode: ConnectionMode, sessions: map<Xid, RoomSession>, lookup: map<string, Entry>,
                      me: Xid, sid: Xid, c: Xid)
    requires Follows(v, mode, sessions, lookup, c) && !v.closed
    requires sid in sessions && (sessions[sid].host == me || sessions[sid].client == me)
    requires sessions[sid].host != sessions[sid].client
    requires c == me ==> sessions[sid].host == me
    ensures
      var v' := if c == Peer(sessions[sid], me) then Observe(v, EndShare(sid)) else v;
      && Follows(v', mode, sessions - {sid}, LookupWithout(mode, lookup, {sid}), c)
      && v' == v.(watching := v'.watching, hosting := v'.hosting)
  {
    OtherKeysStay(mode, lookup, {sid}, (sessions - {sid}).Keys);
    hide LookupWithout, CredentialOk, SameKeys;
    var v' := if c == Peer(sessions[sid], me) then Observe(v, EndShare(sid)) else v;
    FollowsFewer(v, mode, sessions, lookup, sid, c, v');
    FollowsElsewhere(v', mode, sessions - {sid}, lookup,
                     LookupWithout(mode, lookup, {sid}), c);
  }

  lemma FollowsFewer(v: ClientView, mode: ConnectionMode, sessions: map<Xid, RoomSession>, lookup: map<string, Entry>,
                     sid: Xid, c: Xid, v': ClientView)
    requires Follows(v, mode, sessions, lookup, c) && sid in sessions
    requires v'.watching == v.watching - {sid}
    requires v'.hosting == v.hosting - {sid} || v'.hosting == v.hosting
    ensures Follows(v', mode, sessions - {sid}, lookup, c)
  {
    hide CredentialOk;
  }

  // ---------- Whole plans, whole orders of ends ----------

  /** The view of an open client changed in its sessions only, and nothing was out of place. */
  ghost predicate Undisturbed(v: ClientView, v': ClientView, added: set<Xid>) {
    && v' == v.(watching := v'.watching, hosting := v'.hosting, seen := v'.seen)
    && v'.seen <= v.seen + added
  }

  function PlanTurn(mode: ConnectionMode, lookup: map<string, Entry>, users: map<Xid, User>, plan: seq<Pairing>)
    : map<string, Entry>
  {
    if mode.Turn? then PlanLookup(lookup, users, plan) else lookup
  }

  lemma PlanStepView(out: map<Xid, seq<Message>>, mode: ConnectionMode, plan: seq<Pairing>, at: Addresses, c: Xid)
    requires plan != []
    requires plan[|plan| - 1].host != plan[|plan| - 1].client
    ensures View(PlanOut(out, mode, plan, at), c) ==
            ViewWith(View(PlanOut(out, mode, plan[..|plan| - 1], at), c), mode, plan[|plan| - 1], at, c)
  {
    hide View, Observe, Ice, Post;
    var n := |plan| - 1;
    var p := plan[n];
    var m1 := HostSession(p.sid, p.client, Ice(mode, at, HostKey(p.sid), p.hostPassword));
    var m2 := ClientSession(p.sid, p.host, Ice(mode, at, ClientKey(p.sid), p.clientPassword));
    var before := PlanOut(out, mode, plan[..n], at);
    PostView(before, p.host, m1, c);
    PostView(Post(before, p.host, m1), p.client, m2, c);
  }

  lemma PlanStepTables(mode: ConnectionMode, lookup: map<string, Entry>, users: map<Xid, User>,
                       sessions: map<Xid, RoomSession>, plan: seq<Pairing>)
    requires plan != []
    ensures
      var n := |plan| - 1;
      && PlanTurn(mode, lookup, users, plan) ==
         LookupWith(mode, PlanTurn(mode, lookup, users, plan[..n]), users, plan[n])
      && sessions + PlanTable(plan) ==
         (sessions + PlanTable(plan[..n]))[plan[n].sid := RoomSession(plan[n].host, plan[n].client)]
  {
    PlanStepTable(sessions, plan);
    hide PlanTable;
  }

  lemma PlanStepTable(sessions: map<Xid, RoomSession>, plan: seq<Pairing>)
    requires plan != []
    ensures
      var n := |plan| - 1;
      sessions + PlanTable(plan) ==
      (sessions + PlanTable(plan[..n]))[plan[n].sid := RoomSession(plan[n].host, plan[n].client)]
  {
    hide PlanLookup;
  }

  /** A client in the room follows the opening of all sessions of a plan. */
  lemma {:induction false} PlanFollows(out: map<Xid, seq<Message>>, mode: ConnectionMode, lookup: map<string, Entry>,
                                       users: map<Xid, User>, sessions: map<Xid, RoomSession>, used: set<Xid>,
                                       plan: seq<Pairing>, at: Addresses, c: Xid)
    requires Follows(View(out, c), mode, sessions, lookup, c) && !View(out, c).closed
    requires View(out, c).seen <= used && sessions.Keys <= used && FreshPlan(used, plan)
    requires forall p | p in plan :: p.host != p.client
    ensures
      var v' := View(PlanOut(out, mode, plan, at), c);
      && Follows(v', mode, sessions + PlanTable(plan), PlanTurn(mode, lookup, users, plan), c)
      && Undisturbed(View(out, c), v', PlanTable(plan).Keys)
  {
    if plan == [] {
      assert sessions + PlanTable(plan) == sessions;
    } else {
      var n := |plan| - 1;
      PlanTableFresh(plan, used);
      FreshPrefix(plan, used);
      PlanStepView(out, mode, plan, at, c);
      PlanStepTables(mode, lookup, users, sessions, plan);
      hide Follows, View, LookupWith, ViewWith, FreshPlan;
      PlanFollows(out, mode, lookup, users, sessions, used, plan[..n], at, c);
      FollowsOpening(View(PlanOut(out, mode, plan[..n], at), c), mode, sessions + PlanTable(plan[..n]),
                     PlanTurn(mode, lookup, users, plan[..n]), users, plan[n], at, c);
    }
  }

  lemma FreshPrefix(plan: seq<Pairing>, used: set<Xid>)
    requires FreshPlan(used, plan) && plan != []
    ensures FreshPlan(used, plan[..|plan| - 1])
    ensures plan[|plan| - 1].sid !in used && plan[|plan| - 1].sid !in PlanTable(plan[..|plan| - 1])
  {
    PlanTableIs(plan[..|plan| - 1]);
  }

  /** Nothing is written to a client that no session of the plan concerns. */
  lemma {:induction false} PlanSilent(out: map<Xid, seq<Message>>, mode: ConnectionMode, plan: seq<Pairing>,
                                      at: Addresses, c: Xid)
    requires forall p | p in plan :: p.host != c && p.client != c
    ensures Written(PlanOut(out, mode, plan, at), c) == Written(out, c)
  {
    if plan != [] {
      PlanSilent(out, mode, plan[..|plan| - 1], at, c);
    }
  }

  lemma {:induction false} PlanOtherKeys(mode: ConnectionMode, lookup: map<string, Entry>, users: map<Xid, User>,
                                         plan: seq<Pairing>, sids: set<Xid>)
    requires forall p | p in plan :: p.sid !in sids
    ensures SameKeys(sids, lookup, PlanTurn(mode, lookup, users, plan))
  {
    if plan != [] {
      var n := |plan| - 1;
      PlanOtherKeys(mode, lookup, users, plan[..n], sids);
      OtherKeysKept(mode, PlanTurn(mode, lookup, users, plan[..n]), users, plan[n], sids);
    }
  }

  /** A client in the room follows the ending of sessions of `me`. */
  lemma {:induction false} EndFollows(out: map<Xid, seq<Message>>, mode: ConnectionMode, lookup: map<string, Entry>,
                                      users: map<Xid, User>, sessions: map<Xid, RoomSession>, me: Xid, ends: seq<Xid>,
                                      c: Xid)
    requires Follows(View(out, c), mode, sessions, lookup, c) && !View(out, c).closed && c in users
    requires DistinctIds(ends)
    requires forall s | s in ends ::
               && s in sessions && (sessions[s].host == me || sessions[s].client == me)
               && sessions[s].host != sessions[s].client && (c == me ==> sessions[s].host == me)
    ensures
      var v' := View(EndOut(out, users, me, ends, sessions), c);
      && Follows(v', mode, sessions - Elements(ends), LookupWithout(mode, lookup, Elements(ends)), c)
      && Undisturbed(View(out, c), v', {})
  {
    if ends == [] {
      EndNone(mode, lookup, sessions);
      hide Follows, LookupWithout, Elements;
    } else {
      var n := |ends| - 1;
      var rest := Elements(ends[..n]);
      var sofar := EndOut(out, users, me, ends[..n], sessions);
      EndStep(mode, lookup, sessions, ends);
      hide Follows, View, LookupWithout, DistinctIds, Elements;
      EndFollows(out, mode, lookup, users, sessions, me, ends[..n], c);
      FollowsEnding(View(sofar, c), mode, sessions - rest, LookupWithout(mode, lookup, rest), me, ends[n], c);
      PostView(sofar, Peer(sessions[ends[n]], me), EndShare(ends[n]), c);
    }
  }

  lemma EndNone(mode: ConnectionMode, lookup: map<string, Entry>, sessions: map<Xid, RoomSession>)
    ensures sessions - Elements([]) == sessions && LookupWithout(mode, lookup, Elements([])) == lookup
  {
    assert KeysOf({}) == {};
  }

  lemma EndStep(mode: ConnectionMode, lookup: map<string, Entry>, sessions: map<Xid, RoomSession>, ends: seq<Xid>)
    requires ends != [] && DistinctIds(ends) && forall s | s in ends :: s in sessions
    ensures
      var n := |ends| - 1;
      var rest := Elements(ends[..n]);
      && DistinctIds(ends[..n]) && (forall s | s in ends[..n] :: s in ends)
      && ends[n] in sessions - rest
      && sessions - Elements(ends) == sessions - rest - {ends[n]}
      && LookupWithout(mode, lookup, Elements(ends)) ==
         LookupWithout(mode, LookupWithout(mode, lookup, rest), {ends[n]})
  {
    var n := |ends| - 1;
    var rest := Elements(ends[..n]);
    assert ends == ends[..n] + [ends[n]];
    assert Elements(ends) == rest + {ends[n]};
    KeysOfUnion(rest, {ends[n]});
  }

  /** Nothing is written to a client that is not a member of the room. */
  lemma {:induction false} EndSilent(out: map<Xid, seq<Message>>, users: map<Xid, User>, me: Xid, ends: seq<Xid>,
                                     all: map<Xid, RoomSession>, c: Xid)
    requires c !in users && forall s | s in ends :: s in all
    ensures Written(EndOut(out, users, me, ends, all), c) == Written(out, c)
  {
    if ends != [] {
      EndSilent(out, users, me, ends[..|ends| - 1], all, c);
    }
  }
}
