/** What the invariants say about whole runs, in terms of what clients and operators see. */
module RunResults {
  import opened Types
  import opened Spec
  import opened Invariants
  import opened BaseProofs
  import opened Isolation
  import opened OneRoom
  import opened Lists
  import opened Closing
  import opened Views
  import opened ViewProofs
  import opened GoodProofs
  import opened History
  import opened RelayProofs

  /** The rooms, other than the nameless one, that list `c` as a user. */
  function RoomsOf(w: World, c: Xid): set<string> {
    set r | r in w.rooms && r != "" && c in w.rooms[r].users :: r
  }

  /**
   * Index agreement, in every state of every run: the index names a room for a client exactly if that room
   * lists the client; so a search through all rooms finds at most one, and it is the one the index names.
   */
  lemma IndexIsSearch(authMode: AuthMode, ms: seq<ClientMessage>, ws: seq<World>, i: nat, c: Xid)
    requires IsRun(authMode, ms, ws) && i < |ws|
    ensures forall r | r != "" :: Where(ws[i], c) == r <==> r in ws[i].rooms && c in ws[i].rooms[r].users
    ensures RoomsOf(ws[i], c) == if InRoom(ws[i], c) then {ws[i].connected[c]} else {}
  {
    RunsKeepBase(authMode, ms, ws, i);
    hide IsRun, RoomsOk, Books;
  }

  /**
   * The session relation, in every state of every run: each session joins two distinct members of its own
   * room, and of two distinct members the first streams exactly if a session has it as host and the second
   * as client.
   */
  lemma SessionRelation(authMode: AuthMode, ms: seq<ClientMessage>, ws: seq<World>, i: nat, r: string)
    requires IsRun(authMode, ms, ws) && i < |ws| && r in ws[i].rooms
    ensures
      var room := ws[i].rooms[r];
      && (forall s | s in room.sessions ::
            && room.sessions[s].host in room.users && room.sessions[s].client in room.users
            && room.sessions[s].host != room.sessions[s].client)
      && (forall h, c | h in room.users && c in room.users && h != c ::
            room.users[h].streaming <==> Joined(room.sessions, h, c))
  {
    RunsKeepBase(authMode, ms, ws, i);
    hide IsRun, Indexed, Books, Joined;
    assert RoomOk(r, ws[i].rooms[r]);
  }

  /**
   * Room shape, in every state of every run: a room has a user and at most one owner; and if it is to close
   * with its owner (and has a name) it has one.
   */
  lemma RoomShape(authMode: AuthMode, ms: seq<ClientMessage>, ws: seq<World>, i: nat, r: string)
    requires IsRun(authMode, ms, ws) && i < |ws| && r in ws[i].rooms
    ensures ws[i].rooms[r].users != map[] && |Owners(ws[i].rooms[r])| <= 1
    ensures ws[i].rooms[r].closeOnOwnerLeave && r != "" ==> |Owners(ws[i].rooms[r])| == 1
  {
    RunsKeepBase(authMode, ms, ws, i);
    hide IsRun, Indexed, Books, Sharing, EndsAreMembers;
    var room := ws[i].rooms[r];
    assert RoomOk(r, room);
    if Owners(room) != {} {
      var u :| u in Owners(room);
      assert Owners(room) == {u};
    }
    if HasOwner(room) {
      var u :| u in room.users && room.users[u].owner;
      assert u in Owners(room);
    }
  }

  function Owners(room: RoomState): set<Xid> {
    set u | u in room.users && room.users[u].owner
  }

  /**
   * The credential table, in every state of every run: a key is in it exactly if it is one of the two keys of
   * a live session of a TURN room.
   */
  lemma TableIsExact(authMode: AuthMode, ms: seq<ClientMessage>, ws: seq<World>, i: nat, key: string)
    requires IsRun(authMode, ms, ws) && i < |ws|
    ensures key in ws[i].lookup <==> IsLiveKey(ws[i].rooms, key)
  {
    RunsKeepBase(authMode, ms, ws, i);
    hide IsRun, RoomsOk, Indexed, SidsOk, LookupOk, ClientIdsOk, CreatorsOk, SessionsCounted, RoomsCounted, IsLiveKey;
    TableMeaning(ws[i].lookup, ws[i].rooms, key);
  }

  /** One of the two names made for a live session of a TURN room. */
  ghost predicate IsLiveKey(rooms: map<string, RoomState>, key: string) {
    exists r, s :: r in rooms && rooms[r].mode.Turn? && s in rooms[r].sessions &&
                   (key == HostKey(s) || key == ClientKey(s))
  }

  lemma TableMeaning(lookup: map<string, Entry>, rooms: map<string, RoomState>, key: string)
    requires LookupOk(lookup, rooms)
    ensures key in lookup <==> IsLiveKey(rooms, key)
  {
    hide HostKey, ClientKey;
    if key in lookup {
      var s :| s in TurnSids(rooms) && (key == HostKey(s) || key == ClientKey(s));
      var r :| r in rooms && rooms[r].mode.Turn? && s in rooms[r].sessions;
    }
    if r, s :| r in rooms && rooms[r].mode.Turn? && s in rooms[r].sessions &&
               (key == HostKey(s) || key == ClientKey(s)) {
      assert s in TurnSids(rooms);
    }
  }

  lemma {:induction false} WritesAreKeptOverRuns(authMode: AuthMode, ms: seq<ClientMessage>, ws: seq<World>,
                                                 i: nat, j: nat, c: Xid)
    requires IsRun(authMode, ms, ws) && i <= j < |ws|
    ensures Written(ws[i].out, c) <= Written(ws[j].out, c)
  {
    hide Next, Arrives, Written;
    if i < j {
      WritesAreKeptOverRuns(authMode, ms, ws, i, j - 1, c);
      WritesAreKept(ws[j - 1], ms[j - 1], ws[j], c);
    }
  }

  /**
   * Close is final: after the closing message nothing more is written to the client, as long as no step lets a
   * client into the nameless room while that still lists a client that was let go.
   */
  lemma NothingAfterClose(authMode: AuthMode, ms: seq<ClientMessage>, ws: seq<World>, i: nat, j: nat, c: Xid, k: nat)
    requires IsRun(authMode, ms, ws) && i <= j < |ws| && forall l | 0 <= l < j :: !DisturbsGone(ws[l], ms[l])
    requires k < |Written(ws[i].out, c)| && Written(ws[i].out, c)[k].CloseWriter?
    ensures k == |Written(ws[i].out, c)| - 1
    ensures Written(ws[j].out, c) == Written(ws[i].out, c)
  {
    hide Next, Arrives, Written, DisturbsGone;
    ClosesExactly(authMode, ms, ws, j);
    WritesAreKeptOverRuns(authMode, ms, ws, i, j, c);
    assert ClosesFinally(ws[j]);
    hide IsRun;
    assert Final(Written(ws[j].out, c));
    assert Written(ws[j].out, c)[k].CloseWriter?;
  }

  /**
   * A client that is in the index is sent the closing message in the very step that takes it out of the index,
   * once, as the last message of that step; while it stays in the index it is sent none.
   */
  lemma ClosedMeansGone(authMode: AuthMode, ms: seq<ClientMessage>, ws: seq<World>, i: nat, c: Xid)
    requires IsRun(authMode, ms, ws) && 0 < i < |ws| && c in ws[i - 1].connected
    ensures if c in ws[i].connected then Unclosed(ws[i - 1].out, ws[i].out, c) else SentAway(ws[i - 1], ws[i], c)
  {
    hide Base, Next, Arrives, Unclosed, SentAway;
    RunsKeepBase(authMode, ms, ws, i - 1);
    StaysOrIsTold(ws[i - 1], ms[i - 1], ws[i], c);
  }

  // ---------- What clients are told ----------

  /** In every state of every run, what a client replays as a viewer are its live sessions. */
  lemma ViewersAreRight(authMode: AuthMode, ms: seq<ClientMessage>, ws: seq<World>, i: nat, c: Xid)
    requires IsRun(authMode, ms, ws) && i < |ws| && c in ws[i].connected
    ensures Announced(Written(ws[i].out, c)) - Ended(Written(ws[i].out, c)) == Watched(ws[i], c)
  {
    hide IsRun, Good, Announced, Ended, Written, Watched;
    RunsKeepGood(authMode, ms, ws, i);
    ViewerReplay(ws[i], c);
  }

  /** In every state of every run, what was written to a client up to its closing message is orderly. */
  lemma MessagesAreOrderly(authMode: AuthMode, ms: seq<ClientMessage>, ws: seq<World>, i: nat, c: Xid, k: nat)
    requires IsRun(authMode, ms, ws) && i < |ws|
    requires k <= |Written(ws[i].out, c)| && Final(Written(ws[i].out, c)[..k])
    ensures Orderly(Written(ws[i].out, c)[..k])
  {
    hide IsRun, Base, PartedRight, Written, Orderly, Final;
    RunsKeepGood(authMode, ms, ws, i);
    CleanHistory(ws[i], c);
    CleanUpTo(Written(ws[i].out, c), k);
    CleanMeaning(Written(ws[i].out, c)[..k]);
  }

  lemma CleanHistory(w: World, c: Xid)
    requires ClientsOk(w)
    ensures Replay(Written(w.out, c)).clean
  {
    assert ClientOk(w, c);
  }

  /** In every state of every run, each end of a live session of a TURN room can authenticate with what it was told. */
  lemma CredentialsAlwaysWork(authMode: AuthMode, ms: seq<ClientMessage>, ws: seq<World>, i: nat, rid: string, sid: Xid,
                              host: bool) returns (k: nat)
    requires IsRun(authMode, ms, ws) && i < |ws|
    requires rid in ws[i].rooms && ws[i].rooms[rid].mode.Turn? && sid in ws[i].rooms[rid].sessions
    ensures ToldKey(ws[i], rid, sid, host, k)
  {
    hide IsRun, Good, ToldKey;
    RunsKeepGood(authMode, ms, ws, i);
    k := CredentialsWork(ws[i], rid, sid, host);
  }

  // ---------- Runs in which rooms have names ----------

  ghost predicate NamesRooms(ms: seq<ClientMessage>) {
    forall m | m in ms && m.event.Create? :: m.event.id != ""
  }

  lemma {:induction false} NoNamelessRoom(authMode: AuthMode, ms: seq<ClientMessage>, ws: seq<World>, i: nat)
    requires IsRun(authMode, ms, ws) && i < |ws| && NamesRooms(ms)
    ensures "" !in ws[i].rooms
  {
    hide Next, Arrives, Base, OnlyRoom, KeepsOrigin, Concerned;
    if i > 0 {
      NoNamelessRoom(authMode, ms, ws, i - 1);
      RunsKeepBase(authMode, ms, ws, i - 1);
      ArrivesFresh(ws[i - 1], ms[i - 1]);
      NextTouchesOneRoom(ws[i - 1], ms[i - 1], ws[i]);
      assert ms[i - 1] in ms;
    }
  }

  /**
   * In a run whose create messages carry non-empty ids, nobody is ever in two rooms, the last list written to
   * each user of each room is current, and nothing is ever written after a closing message.
   */
  lemma NamedRunsAreRight(authMode: AuthMode, ms: seq<ClientMessage>, ws: seq<World>, i: nat)
    requires IsRun(authMode, ms, ws) && i < |ws| && NamesRooms(ms)
    ensures OneRoomEach(ws[i]) && ListsCurrent(ws[i]) && ClosesFinally(ws[i])
  {
    forall j | 0 <= j < i
      ensures !EntersElsewhere(ws[j], ms[j]) && !DisturbsGone(ws[j], ms[j])
    {
      NoNamelessRoom(authMode, ms, ws, j);
      hide IsRun, LetIn;
    }
    hide IsRun, OneRoomEach, ListsCurrent, ClosesFinally, EntersElsewhere, DisturbsGone;
    OneRoomExactly(authMode, ms, ws, i);
    ListsExactly(authMode, ms, ws, i);
    ClosesExactly(authMode, ms, ws, i);
  }
}
