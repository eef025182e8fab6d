/** What the replay of a client's messages says about the messages themselves, read one by one. */
module History {
  import opened Types
  import opened Spec
  import opened Invariants
  import opened Views
  import opened ViewProofs
  import opened GoodProofs
  import opened Closing

  /** The sessions announced to the client as a viewer. */
  function Announced(ms: seq<Message>): set<Xid> {
    set i | 0 <= i < |ms| && ms[i].ClientSession? :: ms[i].sid
  }

  /** The sessions announced to the client as a host. */
  function Offered(ms: seq<Message>): set<Xid> {
    set i | 0 <= i < |ms| && ms[i].HostSession? :: ms[i].sid
  }

  function Ended(ms: seq<Message>): set<Xid> {
    set i | 0 <= i < |ms| && ms[i].EndShare? :: ms[i].sid
  }

  /** The sets of ids after one more message. */
  lemma OneMore(ms: seq<Message>, m: Message)
    ensures Announced(ms + [m]) == Announced(ms) + if m.ClientSession? then {m.sid} else {}
    ensures Offered(ms + [m]) == Offered(ms) + if m.HostSession? then {m.sid} else {}
    ensures Ended(ms + [m]) == Ended(ms) + if m.EndShare? then {m.sid} else {}
  {
    var n := ms + [m];
    assert forall i | 0 <= i < |ms| :: n[i] == ms[i];
    assert n[|ms|] == m;
    if m.ClientSession? {
      assert m.sid in Announced(n);
    }
    if m.HostSession? {
      assert m.sid in Offered(n);
    }
    if m.EndShare? {
      assert m.sid in Ended(n);
    }
    assert Announced(ms) <= Announced(n) by {
      forall s | s in Announced(ms) ensures s in Announced(n) {
        var i :| 0 <= i < |ms| && ms[i].ClientSession? && ms[i].sid == s;
        assert n[i].ClientSession? && n[i].sid == s;
      }
    }
    assert Offered(ms) <= Offered(n) by {
      forall s | s in Offered(ms) ensures s in Offered(n) {
        var i :| 0 <= i < |ms| && ms[i].HostSession? && ms[i].sid == s;
        assert n[i].HostSession? && n[i].sid == s;
      }
    }
    assert Ended(ms) <= Ended(n) by {
      forall s | s in Ended(ms) ensures s in Ended(n) {
        var i :| 0 <= i < |ms| && ms[i].EndShare? && ms[i].sid == s;
        assert n[i].EndShare? && n[i].sid == s;
      }
    }
  }

  /** The replay as a function of the sets of announced and ended sessions. */
  ghost predicate Accounts(v: ClientView, announced: set<Xid>, offered: set<Xid>, ended: set<Xid>) {
    && v.watching.Keys == announced - ended
    && v.hosting.Keys == offered - ended
    && v.seen == announced + offered
    && ended <= v.seen
    && announced !! offered
  }

  lemma ObserveAccounts(v: ClientView, m: Message, announced: set<Xid>, offered: set<Xid>, ended: set<Xid>)
    requires Accounts(v, announced, offered, ended) && Observe(v, m).clean && !v.closed
    ensures Accounts(Observe(v, m),
                     announced + if m.ClientSession? then {m.sid} else {},
                     offered + if m.HostSession? then {m.sid} else {},
                     ended + if m.EndShare? then {m.sid} else {})
  {
  }

  lemma CleanPrefix(ms: seq<Message>)
    requires ms != [] && Replay(ms).clean
    ensures Replay(ms[..|ms| - 1]).clean
  {
  }

  /** A view is closed once it was told to go, and not before. */
  lemma {:induction false} ClosedExactly(ms: seq<Message>)
    ensures Replay(ms).closed <==> Closed(ms)
  {
    if ms != [] {
      var n := |ms| - 1;
      ClosedExactly(ms[..n]);
      assert forall i | 0 <= i < n :: ms[..n][i] == ms[i];
      if Closed(ms[..n]) {
        var i :| 0 <= i < n && ms[..n][i].CloseWriter?;
        assert ms[i].CloseWriter?;
      }
    }
  }

  lemma FinalPrefix(ms: seq<Message>, k: nat)
    requires Final(ms) && k <= |ms|
    ensures Final(ms[..k]) && (k < |ms| ==> !Replay(ms[..k]).closed)
  {
    ClosedExactly(ms[..k]);
  }

  lemma {:induction false} ReplayAccounts(ms: seq<Message>)
    requires Replay(ms).clean && Final(ms)
    ensures Accounts(Replay(ms), Announced(ms), Offered(ms), Ended(ms))
  {
    if ms != [] {
      var n := |ms| - 1;
      CleanPrefix(ms);
      FinalPrefix(ms, n);
      ReplayAccounts(ms[..n]);
      assert ms == ms[..n] + [ms[n]];
      OneMore(ms[..n], ms[n]);
      hide Announced, Offered, Ended, Accounts;
      ObserveAccounts(Replay(ms[..n]), ms[n], Announced(ms[..n]), Offered(ms[..n]), Ended(ms[..n]));
    }
  }

  lemma {:induction false} CleanUpTo(ms: seq<Message>, i: nat)
    requires Replay(ms).clean && i <= |ms|
    ensures Replay(ms[..i]).clean
    decreases |ms| - i
  {
    if i == |ms| {
      assert ms[..i] == ms;
    } else {
      CleanUpTo(ms, i + 1);
      assert ms[..i + 1][..i] == ms[..i];
      CleanPrefix(ms[..i + 1]);
    }
  }

  /** What the message at position `i` of a clean history may be, given what came before. */
  lemma CleanAt(ms: seq<Message>, i: nat)
    requires Replay(ms).clean && Final(ms) && i < |ms|
    ensures ms[i].ClientSession? || ms[i].HostSession? ==> ms[i].sid !in Announced(ms[..i]) + Offered(ms[..i])
    ensures ms[i].EndShare? ==> ms[i].sid in Announced(ms[..i]) + Offered(ms[..i]) && ms[i].sid !in Ended(ms[..i])
    ensures ms[i].Relayed? ==>
              ms[i].sid in (if ms[i].kind.FromHost() then Announced(ms[..i]) else Offered(ms[..i])) - Ended(ms[..i])
  {
    hide Announced, Offered, Ended;
    CleanUpTo(ms, i);
    CleanUpTo(ms, i + 1);
    FinalPrefix(ms, i);
    assert ms[..i + 1][..i] == ms[..i];
    assert Replay(ms[..i + 1]) == Observe(Replay(ms[..i]), ms[i]);
    ReplayAccounts(ms[..i]);
    hide Replay;
  }

  lemma EarlierCounts(ms: seq<Message>, i: nat, j: nat)
    requires i < j <= |ms|
    ensures ms[i].ClientSession? ==> ms[i].sid in Announced(ms[..j])
    ensures ms[i].HostSession? ==> ms[i].sid in Offered(ms[..j])
    ensures ms[i].EndShare? ==> ms[i].sid in Ended(ms[..j])
  {
    assert ms[..j][i] == ms[i];
  }

  /** The message announces a session, in either role. */
  predicate Announces(m: Message) {
    m.ClientSession? || m.HostSession?
  }

  /**
   * Message by message: no session is announced twice, in whatever roles, or ended twice; a session is ended
   * only after it was announced; a relayed message comes after the announcement of its session to the client in
   * the right role, and not after its end.
   */
  ghost predicate Orderly(ms: seq<Message>) {
    && (forall i, j | 0 <= i < j < |ms| && Announces(ms[i]) && Announces(ms[j]) :: ms[i].sid != ms[j].sid)
    && (forall i, j | 0 <= i < j < |ms| && ms[i].EndShare? && (ms[j].EndShare? || ms[j].Relayed?) ::
          ms[i].sid != ms[j].sid)
    && (forall j | 0 <= j < |ms| && (ms[j].Relayed? || ms[j].EndShare?) ::
          exists i :: 0 <= i < j && AnnouncedFor(ms[i], ms[j]))
  }

  /** `a` announces the session of `m` to the end that receives `m`: as the one it is, if `m` is relayed to it. */
  predicate AnnouncedFor(a: Message, m: Message)
    requires m.Relayed? || m.EndShare?
  {
    && Announces(a) && a.sid == m.sid
    && (m.Relayed? ==> if m.kind.FromHost() then a.ClientSession? else a.HostSession?)
  }

  /** A clean history with nothing after the closing message is orderly. */
  lemma CleanMeaning(ms: seq<Message>)
    requires Replay(ms).clean && Final(ms)
    ensures Orderly(ms)
  {
    forall i, j | 0 <= i < j < |ms|
      ensures Announces(ms[i]) && Announces(ms[j]) ==> ms[i].sid != ms[j].sid
      ensures ms[i].EndShare? && (ms[j].EndShare? || ms[j].Relayed?) ==> ms[i].sid != ms[j].sid
    {
      CleanAt(ms, j);
      EarlierCounts(ms, i, j);
      hide Announced, Offered, Ended;
    }
    forall j | 0 <= j < |ms| && (ms[j].Relayed? || ms[j].EndShare?)
      ensures exists i :: 0 <= i < j && AnnouncedFor(ms[i], ms[j])
    {
      CleanAt(ms, j);
      var i :| 0 <= i < j && AnnouncedFor(ms[..j][i], ms[j]);
      assert AnnouncedFor(ms[i], ms[j]);
    }
  }

  /** The live sessions in which a client is the viewer. */
  function Watched(w: World, c: Xid): set<Xid> {
    if InRoom(w, c) then
      var sessions := w.rooms[w.connected[c]].sessions; set s | s in sessions && sessions[s].client == c
    else {}
  }

  /**
   * Viewer replay: for every connected client, the sessions announced to it as a viewer and not ended are
   * exactly the live sessions that have it as client; there are none outside a room.
   */
  lemma ViewerReplay(w: World, c: Xid)
    requires Good(w) && c in w.connected
    ensures Announced(Written(w.out, c)) - Ended(Written(w.out, c)) == Watched(w, c)
  {
    var ms := Written(w.out, c);
    assert ClientOk(w, c);
    ClosedExactly(ms);
    OpenIsFinal(ms);
    ReplayAccounts(ms);
    hide Base, PartedRight, ClientsOk, Announced, Ended, Offered, CredentialOk, Final, Closed;
  }

  /**
   * Unless something was written to it after the closing message, a client was sent the closing message, as
   * the last one, exactly if it is no longer connected.
   */
  lemma CloseIsLast(w: World, c: Xid)
    requires Good(w) && Written(w.out, c) != [] && Final(Written(w.out, c))
    ensures c in w.connected <==> !Written(w.out, c)[|Written(w.out, c)| - 1].CloseWriter?
  {
    hide Base, PartedRight, Placed, Replay, Written;
    assert ClientOk(w, c);
    ClosedExactly(Written(w.out, c));
    hide ClientsOk;
  }

  // ---------- Credentials ----------

  predicate AnnouncedAs(ms: seq<Message>, i: nat, sid: Xid, told: Told, host: bool) {
    i < |ms| && ms[i] == if host then HostSession(sid, told.peer, told.ice) else ClientSession(sid, told.peer, told.ice)
  }

  /** What a client holds of a session is what some message told it. */
  lemma {:induction false} ToldByMessage(ms: seq<Message>, sid: Xid, host: bool) returns (i: nat)
    requires sid in if host then Replay(ms).hosting else Replay(ms).watching
    ensures AnnouncedAs(ms, i, sid, if host then Replay(ms).hosting[sid] else Replay(ms).watching[sid], host)
  {
    var n := |ms| - 1;
    var before := Replay(ms[..n]);
    if !before.closed && (if host then ms[n].HostSession? else ms[n].ClientSession?) && ms[n].sid == sid {
      i := n;
    } else {
      i := ToldByMessage(ms[..n], sid, host);
      assert ms[..n][i] == ms[i];
    }
  }

  /** Nobody streams in the room with the empty id, so it has no session. */
  lemma NamelessHasNone(w: World, rid: string, sid: Xid)
    requires Base(w) && rid in w.rooms && sid in w.rooms[rid].sessions
    ensures rid != ""
  {
    hide Indexed, Books, HasOwner, AtMostOneOwner;
    var room := w.rooms[rid];
    assert RoomOk(rid, room);
    var s := room.sessions[sid];
    assert Joined(room.sessions, s.host, s.client);
  }

  /** Message `i` to one end of the session names the other end, a key of the table, and the password of its entry. */
  predicate ToldKey(w: World, rid: string, sid: Xid, host: bool, i: nat)
    requires rid in w.rooms && sid in w.rooms[rid].sessions
  {
    var s := w.rooms[rid].sessions[sid];
    var me, peer := if host then s.host else s.client, if host then s.client else s.host;
    var key := if host then HostKey(sid) else ClientKey(sid);
    var ms := Written(w.out, me);
    && i < |ms| && (if host then ms[i].HostSession? else ms[i].ClientSession?)
    && ms[i].sid == sid && ms[i].peer == peer
    && |ms[i].ice| == 1 && ms[i].ice[0].scheme == "turn" && ms[i].ice[0].tcp && ms[i].ice[0].username == key
    && key in w.lookup && w.lookup[key].key == AuthKey(key, REALM, ms[i].ice[0].credential)
  }

  /**
   * Each end of a live session of a TURN room can authenticate with what it was told: the user name in its
   * message is a key of the table, and the entry is the key derived from the password in that same message.
   */
  lemma CredentialsWork(w: World, rid: string, sid: Xid, host: bool) returns (i: nat)
    requires Good(w) && rid in w.rooms && w.rooms[rid].mode.Turn? && sid in w.rooms[rid].sessions
    ensures ToldKey(w, rid, sid, host, i)
  {
    hide Base, PartedRight;
    NamelessHasNone(w, rid, sid);
    RelayTarget(w, rid, sid);
    var s := w.rooms[rid].sessions[sid];
    var me := if host then s.host else s.client;
    assert ClientOk(w, me);
    i := ToldByMessage(Written(w.out, me), sid, host);
  }
}
