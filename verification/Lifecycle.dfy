/**
 * The goroutines of all clients around the event loop: per client a reader, a writer, a once and at most one
 * goroutine that reports the disconnect; and one main loop that executes one event at a time and then
 * attempts the writes of that event. Steps of different goroutines interleave freely.
 */
module Lifecycle {
  import opened Types
  import opened Spec
  import opened Invariants
  import opened BaseProofs
  import opened Isolation
  import opened RelayProofs
  import opened RunProofs

  // ---------- One client ----------

  /** Where a call of CloseOnError or CloseOnDone is. Only the former reports a disconnect. */
  datatype CloseCall = CloseCall(at: Stage, reports: bool, code: int, reason: string)

  datatype Stage = Asking | Spawning | Shutting

  datatype Reader =
    | Unstarted
    | Reading
    | Sending(event: Event)       // blocked on the incoming channel
    | Failing(call: CloseCall)      // closing because of an error
    | Deferred(call: CloseCall)     // the deferred close on the way out
    | Finished

  datatype Writer =
    | Idle                        // not started
    | Selecting
    | Erring(call: CloseCall)       // closing because of an error; the loop goes on afterwards
    | Obeying(call: CloseCall)      // closing because the server said so
    | Ended

  datatype Conn = Conn(
    info: ClientInfo,
    announced: bool,              // the main loop took its Connected message
    done: bool,                   // the once was won
    goodbye: Option<Event>,       // a goroutine blocked on sending the disconnect
    reports: nat,                 // history: how many such goroutines were spawned
    channel: Option<Message>,     // the write channel, of capacity one
    open: bool,                   // the socket
    reader: Reader,
    writer: Writer)

  const READER_CLOSED := "Reader Routine Closed"

  function NewConn(info: ClientInfo): Conn {
    Conn(info, false, false, None, 0, None, true, Unstarted, Idle)
  }

  /** One step of a close call: win or lose the once, spawn the report, shut the socket. */
  function CallStep(c: Conn, call: CloseCall): (Conn, Option<CloseCall>) {
    match call.at
    case Asking =>
      if c.done then (c, None)
      else (c.(done := true), Some(call.(at := if call.reports then Spawning else Shutting)))
    case Spawning =>
      (c.(goodbye := Some(Event.Disconnected(call.code, call.reason)), reports := c.reports + 1),
       Some(call.(at := Shutting)))
    case Shutting => (c.(open := false), None)
  }

  /** The steps of the reader. Connected and Disconnected cannot be decoded from what a client sends. */
  ghost predicate ReaderStep(c: Conn, c': Conn) {
    match c.reader
    case Reading =>
      || (exists e: Event :: !e.Connected? && !e.Disconnected? && c' == c.(reader := Sending(e)))
      || (exists code, reason :: c' == c.(reader := Failing(CloseCall(Asking, true, code, reason))))
    case Failing(call) =>
      var (next, rest) := CallStep(c, call);
      c' == next.(reader := if rest.Some? then Failing(rest.value)
                            else Deferred(CloseCall(Asking, true, NORMAL_CLOSURE, READER_CLOSED)))
    case Deferred(call) =>
      var (next, rest) := CallStep(c, call);
      c' == next.(reader := if rest.Some? then Deferred(rest.value) else Finished)
    case _ => false
  }

  /** The steps of the writer: it takes a message, or a write or a ping fails, or it is closing. */
  ghost predicate WriterStep(c: Conn, c': Conn) {
    match c.writer
    case Selecting =>
      || (exists reason :: c' == c.(writer := Erring(CloseCall(Asking, true, NORMAL_CLOSURE, reason))))
      || (c.channel.Some? &&
          match c.channel.value
          case CloseWriter(code, reason) =>
            c' == c.(channel := None, writer := Obeying(CloseCall(Asking, false, code, reason)))
          case _ =>
            || c' == c.(channel := None)
            || exists reason ::
                 c' == c.(channel := None, writer := Erring(CloseCall(Asking, true, NORMAL_CLOSURE, reason))))
    case Erring(call) =>
      var (next, rest) := CallStep(c, call);
      c' == next.(writer := if rest.Some? then Erring(rest.value) else Selecting)
    case Obeying(call) =>
      var (next, rest) := CallStep(c, call);
      c' == if rest.Some? then next.(writer := Obeying(rest.value)) else next.(writer := Ended, open := false)
    case _ => false
  }

  // ---------- The whole system ----------

  /** `outbox` holds the writes of the current event that the main loop has not attempted yet. */
  datatype System = System(world: World, outbox: map<Xid, seq<Message>>, conns: map<Xid, Conn>)

  function Boot(authMode: AuthMode): System {
    System(Init(authMode), map[], map[])
  }

  ghost predicate LoopIsFree(s: System) {
    forall c | c in s.outbox :: s.outbox[c] == []
  }

  /** The message a client has ready for the main loop, and the client after it was taken. */
  ghost predicate Takes(c: Conn, m: ClientMessage, c': Conn) {
    || (!c.announced && m == ClientMessage(c.info, true, Event.Connected, m.reply)
        && c' == c.(announced := true, reader := Reading, writer := Selecting))
    || (c.reader.Sending? && m == ClientMessage(c.info, false, c.reader.event, m.reply) && c' == c.(reader := Reading))
    || (c.goodbye.Some? && m == ClientMessage(c.info, false, c.goodbye.value, m.reply) && c' == c.(goodbye := None))
  }

  /** What an event added to what each client is to be written. */
  function Added(w: World, w': World, ids: set<Xid>): map<Xid, seq<Message>> {
    map c | c in ids ::
      var before, after := Written(w.out, c), Written(w'.out, c);
      if |before| <= |after| then after[|before|..] else []
  }

  datatype Action =
    | Upgrade(info: ClientInfo)            // a new connection
    | ReaderMoves(id: Xid)
    | WriterMoves(id: Xid)
    | LoopTakes(id: Xid, m: ClientMessage) // the main loop takes a message and executes it
    | LoopWrites(id: Xid)                  // the main loop writes, or gives up after the timeout

  ghost predicate Does(s: System, a: Action, s': System) {
    match a
    case Upgrade(info) =>
      info.id !in s.conns && s' == s.(conns := s.conns[info.id := NewConn(info)])
    case ReaderMoves(id) =>
      id in s.conns && id in s'.conns && ReaderStep(s.conns[id], s'.conns[id]) &&
      s' == s.(conns := s.conns[id := s'.conns[id]])
    case WriterMoves(id) =>
      id in s.conns && id in s'.conns && WriterStep(s.conns[id], s'.conns[id]) &&
      s' == s.(conns := s.conns[id := s'.conns[id]])
    case LoopTakes(id, m) =>
      && LoopIsFree(s) && id in s.conns && id in s'.conns && Takes(s.conns[id], m, s'.conns[id])
      && Arrives(s.world, m) && Next(s.world, m, s'.world)
      && s' == System(s'.world, Added(s.world, s'.world, s.conns.Keys), s.conns[id := s'.conns[id]])
    case LoopWrites(id) =>
      && id in s.outbox && s.outbox[id] != [] && id in s.conns && id in s'.conns
      && s' == s.(outbox := s.outbox[id := s.outbox[id][1..]], conns := s.conns[id := s'.conns[id]])
      && (s'.conns[id] == s.conns[id] ||  // given up, or the loop was never handed this channel
          (s.conns[id].announced && s.conns[id].channel.None? &&
           s'.conns[id] == s.conns[id].(channel := Some(s.outbox[id][0]))))
  }

  ghost predicate IsExecution(authMode: AuthMode, run: seq<System>) {
    && run != [] && run[0] == Boot(authMode)
    && forall i | 0 < i < |run| :: Proceeds(run[i - 1], run[i])
  }

  ghost predicate Proceeds(s: System, s': System) {
    exists a :: Does(s, a, s')
  }

  // ---------- What every step keeps ----------

  predicate AtSpawning(call: CloseCall) {
    call.at.Spawning?
  }

  /** A close call of this client has won the once and is about to spawn the report of the disconnect. */
  predicate AboutToReport(c: Conn) {
    || (c.reader.Failing? && AtSpawning(c.reader.call))
    || (c.reader.Deferred? && AtSpawning(c.reader.call))
    || (c.writer.Erring? && AtSpawning(c.writer.call))
  }

  /** The closing message is on its way to this client's writer, or has reached it. */
  predicate ToldToClose(c: Conn) {
    (c.channel.Some? && c.channel.value.CloseWriter?) || c.writer.Obeying? || c.writer.Ended?
  }

  predicate ReaderWon(c: Conn) {
    (c.reader.Failing? || c.reader.Deferred?) && !c.reader.call.at.Asking?
  }

  predicate WriterWon(c: Conn) {
    (c.writer.Erring? || c.writer.Obeying?) && !c.writer.call.at.Asking?
  }

  /** At most one close call wins, and it reports at most once. */
  ghost predicate WonOnce(c: Conn) {
    && (ReaderWon(c) || WriterWon(c) || c.reports > 0 ==> c.done)
    && !(ReaderWon(c) && WriterWon(c))
    && (AboutToReport(c) ==> c.reports == 0)
    && c.reports <= 1
  }

  /**
   * A goroutine of the client ends only after the once was won; and when the winner is through, the socket is
   * shut and the disconnect was reported, unless the winner was told to close.
   */
  ghost predicate ClosesFully(c: Conn) {
    && (!c.open ==> c.done)
    && (c.reader.Deferred? || c.reader.Finished? || c.writer.Ended? ==> c.done)
    && (c.done && !ReaderWon(c) && !WriterWon(c) ==> !c.open)
    && (c.done && c.reports == 0 ==>
          AboutToReport(c) || (c.writer.Obeying? && WriterWon(c)) || c.writer.Ended?)
  }

  /**
   * Only calls that report can be about to do so; a client not yet announced is untouched.
   */
  ghost predicate ConnOk(id: Xid, c: Conn) {
    && c.info.id == id
    && WonOnce(c)
    && (c.reader.Failing? ==> c.reader.call.reports)
    && (c.reader.Deferred? ==> c.reader.call.reports)
    && (c.writer.Erring? ==> c.writer.call.reports)
    && (c.writer.Obeying? ==> !c.writer.call.reports && !AtSpawning(c.writer.call))
    && (c.reader.Sending? ==> !c.reader.event.Connected? && !c.reader.event.Disconnected?)
    && (c.goodbye.Some? ==> c.goodbye.value.Disconnected?)
    && (!c.announced ==> c == NewConn(c.info))
    && ClosesFully(c)
  }

  /** A client that is still indexed has not been told to close, and if it is closing, its report is under way. */
  ghost predicate Tracked(c: Conn) {
    && c.announced
    && !ToldToClose(c)
    && (c.done ==> c.goodbye.Some? || AboutToReport(c))
  }

  ghost predicate Unclosing(outbox: map<Xid, seq<Message>>, c: Xid) {
    c in outbox ==> forall i | 0 <= i < |outbox[c]| :: !outbox[c][i].CloseWriter?
  }

  ghost predicate Inv(s: System) {
    && Base(s.world)
    && (forall c | c in s.conns :: ConnOk(c, s.conns[c]))
    && (forall c | c in s.world.connected :: c in s.conns && Tracked(s.conns[c]) && Unclosing(s.outbox, c))
  }

  // ---------- Steps of one client ----------

  lemma ReaderWinsOnce(id: Xid, c: Conn, c': Conn)
    requires ConnOk(id, c) && ReaderStep(c, c')
    ensures WonOnce(c') && ClosesFully(c')
  {
  }

  lemma WriterWinsOnce(id: Xid, c: Conn, c': Conn)
    requires ConnOk(id, c) && WriterStep(c, c')
    ensures WonOnce(c') && ClosesFully(c')
  {
  }

  lemma ReaderKeeps(id: Xid, c: Conn, c': Conn)
    requires ConnOk(id, c) && ReaderStep(c, c')
    ensures ConnOk(id, c') && (Tracked(c) ==> Tracked(c'))
  {
    ReaderWinsOnce(id, c, c');
    hide WonOnce, ClosesFully;
  }

  lemma WriterStaysTracked(id: Xid, c: Conn, c': Conn)
    requires ConnOk(id, c) && WriterStep(c, c') && Tracked(c)
    ensures Tracked(c')
  {
    hide WonOnce;
  }

  lemma WriterKeeps(id: Xid, c: Conn, c': Conn)
    requires ConnOk(id, c) && WriterStep(c, c')
    ensures ConnOk(id, c') && (Tracked(c) ==> Tracked(c'))
  {
    hide WonOnce, ClosesFully, Tracked;
    WriterWinsOnce(id, c, c');
    if Tracked(c) {
      WriterStaysTracked(id, c, c');
    }
    WriterRuns(id, c, c');
    hide NewConn;
  }

  lemma WriterRuns(id: Xid, c: Conn, c': Conn)
    requires ConnOk(id, c) && WriterStep(c, c')
    ensures c.announced && c'.announced && c'.info == c.info && c'.reader == c.reader
  {
    hide WonOnce;
  }

  // ---------- Steps of the main loop ----------

  /** A disconnect removes the client from the index, if it was in it. */
  lemma DisconnectedIsGone(w: World, m: ClientMessage, w': World)
    requires Next(w, m, w') && m.event.Disconnected? && !m.skipConnectedCheck
    ensures m.info.id !in w'.connected
  {
    hide Settles, OrderOfEnds;
    if m.info.id in w.connected {
      var o :| Executes(w, m.info, m.event, o) && o.reply == m.reply && Completes(o, m.info.id, w');
      var rid := Where(w, m.info.id);
      if rid != "" && rid in w.rooms && m.info.id in w.rooms[rid].users {
        var ends :| DisconnectsWith(w, rid, m.info.id, m.event.code, m.event.reason, ends, w');
        OrderIsOrder(w.rooms[rid].sessions, m.info.id, true, ends);
        SettleForgets(EndSessions(RemoveUser(Forget(w, m.info.id, m.event.code, m.event.reason), rid, m.info.id),
                                  rid, m.info.id, ends), rid, w.rooms[rid].users[m.info.id].owner, w');
      }
    }
  }

  /** Whoever is indexed after an event was so before, or has just been announced. */
  lemma NoNewcomers(w: World, m: ClientMessage, w': World)
    requires Base(w) && Arrives(w, m) && Next(w, m, w')
    ensures w'.connected.Keys <= w.connected.Keys + (if m.event.Connected? then {m.info.id} else {})
  {
    ArrivesFresh(w, m);
    hide Base, Next, Arrives, OnlyRoom, KeepsOrigin, Concerned;
    NextTouchesOneRoom(w, m, w');
  }

  lemma TakenKeeps(id: Xid, c: Conn, m: ClientMessage, c': Conn)
    requires ConnOk(id, c) && Takes(c, m, c')
    ensures ConnOk(id, c') && m.info.id == id
    ensures m.event.Connected? ==> Tracked(c')
    ensures !m.event.Connected? && !m.event.Disconnected? && Tracked(c) ==> Tracked(c')
    ensures m.event.Disconnected? ==> !m.skipConnectedCheck
  {
  }

  lemma AddedUnclosing(w: World, m: ClientMessage, w': World, ids: set<Xid>, c: Xid)
    requires Next(w, m, w') && c in w'.connected
    ensures Unclosing(Added(w, w', ids), c)
  {
    hide Next;
    WritesAreKept(w, m, w', c);
  }

  lemma LoopTakesKeeps(s: System, id: Xid, m: ClientMessage, s': System)
    requires Inv(s) && Does(s, LoopTakes(id, m), s')
    ensures Inv(s')
  {
    hide Base, Next, Arrives, Takes, ConnOk, Tracked, Added, Unclosing, LoopIsFree;
    NextKeepsBase(s.world, m, s'.world);
    NoNewcomers(s.world, m, s'.world);
    TakenKeeps(id, s.conns[id], m, s'.conns[id]);
    if m.event.Disconnected? {
      DisconnectedIsGone(s.world, m, s'.world);
    }
    forall c | c in s'.world.connected
      ensures Unclosing(s'.outbox, c)
    {
      AddedUnclosing(s.world, m, s'.world, s.conns.Keys, c);
    }
  }

  lemma LoopWritesKeeps(s: System, id: Xid, s': System)
    requires Inv(s) && Does(s, LoopWrites(id), s')
    ensures Inv(s')
  {
    hide Base;
    var ms := s.outbox[id];
    if id in s.world.connected {
      assert !ms[0].CloseWriter?;
      assert forall i | 0 <= i < |ms[1..]| :: ms[1..][i] == ms[i + 1];
      assert Unclosing(s'.outbox, id);
      assert Tracked(s'.conns[id]);
    }
    assert ConnOk(id, s'.conns[id]);
    hide ConnOk, Tracked, Unclosing;
    forall c | c in s'.world.connected
      ensures c in s'.conns && Tracked(s'.conns[c]) && Unclosing(s'.outbox, c)
    {
      if c != id {
        OutboxElsewhere(s.outbox, s'.outbox, id, c);
      }
    }
  }

  lemma OutboxElsewhere(outbox: map<Xid, seq<Message>>, outbox': map<Xid, seq<Message>>, id: Xid, c: Xid)
    requires Unclosing(outbox, c) && c != id && id in outbox && id in outbox' && outbox' == outbox[id := outbox'[id]]
    ensures Unclosing(outbox', c)
  {
  }

  lemma UpgradeKeeps(s: System, info: ClientInfo, s': System)
    requires Inv(s) && Does(s, Upgrade(info), s')
    ensures Inv(s')
  {
    hide Base, Tracked, Unclosing;
  }

  lemma ClientMoveKeeps(s: System, id: Xid, s': System)
    requires Inv(s) && id in s.conns && id in s'.conns && s' == s.(conns := s.conns[id := s'.conns[id]])
    requires ConnOk(id, s'.conns[id]) && (Tracked(s.conns[id]) ==> Tracked(s'.conns[id]))
    ensures Inv(s')
  {
    hide Base, ConnOk, Tracked, Unclosing;
  }

  lemma StepKeepsInv(s: System, a: Action, s': System)
    requires Inv(s) && Does(s, a, s')
    ensures Inv(s')
  {
    hide Base, ReaderStep, WriterStep, ConnOk, Tracked, Unclosing;
    match a
    case Upgrade(info) => UpgradeKeeps(s, info, s');
    case LoopTakes(id, m) => LoopTakesKeeps(s, id, m, s');
    case LoopWrites(id) => LoopWritesKeeps(s, id, s');
    case ReaderMoves(id) =>
      ReaderKeeps(id, s.conns[id], s'.conns[id]);
      ClientMoveKeeps(s, id, s');
    case WriterMoves(id) =>
      WriterKeeps(id, s.conns[id], s'.conns[id]);
      ClientMoveKeeps(s, id, s');
  }

  lemma {:induction false} ExecutionsKeepInv(authMode: AuthMode, run: seq<System>, i: nat)
    requires IsExecution(authMode, run) && i < |run|
    ensures Inv(run[i])
  {
    hide Base, Inv, Does;
    if i == 0 {
      BootOk(authMode);
    } else {
      ExecutionsKeepInv(authMode, run, i - 1);
      assert Proceeds(run[i - 1], run[i]);
      var a :| Does(run[i - 1], a, run[i]);
      StepKeepsInv(run[i - 1], a, run[i]);
    }
  }

  lemma BootOk(authMode: AuthMode)
    ensures Inv(Boot(authMode))
  {
    InitBase(authMode);
    hide Base;
  }

  // ---------- Main results ----------

  /** The states of the main loop form a run, so all that holds of runs holds here. */
  lemma {:induction false} WorldsFormRun(authMode: AuthMode, run: seq<System>, i: nat)
    returns (ms: seq<ClientMessage>, ws: seq<World>)
    requires IsExecution(authMode, run) && i < |run|
    ensures IsRun(authMode, ms, ws) && ws[|ms|] == run[i].world
  {
    hide Next, Arrives, Init, ReaderStep, WriterStep;
    if i == 0 {
      return [], [run[0].world];
    }
    ms, ws := WorldsFormRun(authMode, run, i - 1);
    assert Proceeds(run[i - 1], run[i]);
    var a :| Does(run[i - 1], a, run[i]);
    if a.LoopTakes? {
      RunExtend(authMode, ms, ws, a.m, run[i].world);
      ms, ws := ms + [a.m], ws + [run[i].world];
    }
  }

  /** The disconnect of a client is reported at most once, however its goroutines fail. */
  lemma ReportedOnce(authMode: AuthMode, run: seq<System>, i: nat, c: Xid)
    requires IsExecution(authMode, run) && i < |run| && c in run[i].conns
    ensures run[i].conns[c].reports <= 1
  {
    ExecutionsKeepInv(authMode, run, i);
    hide IsExecution, Base;
  }

  /**
   * No lost disconnect: in every interleaving, if a client's once is done or its socket is shut and it is still
   * in the index, then the report of its disconnect is waiting for the main loop or about to be spawned.
   */
  lemma NoLostDisconnect(authMode: AuthMode, run: seq<System>, i: nat, c: Xid)
    requires IsExecution(authMode, run) && i < |run|
    requires c in run[i].world.connected
    ensures c in run[i].conns && run[i].conns[c].announced
    ensures run[i].conns[c].done || !run[i].conns[c].open ==>
              run[i].conns[c].goodbye.Some? || AboutToReport(run[i].conns[c])
  {
    ExecutionsKeepInv(authMode, run, i);
    hide IsExecution, Base;
  }

  /**
   * Closing is complete in every interleaving: a client's reader or writer ends only after its once was won, and
   * once the winner is through, the socket is shut and the disconnect was reported once, unless the writer ended
   * because the server said so.
   */
  lemma ClosingCompletes(authMode: AuthMode, run: seq<System>, i: nat, c: Xid)
    requires IsExecution(authMode, run) && i < |run| && c in run[i].conns
    ensures
      var conn := run[i].conns[c];
      && (conn.reader.Finished? || conn.writer.Ended? ==> conn.done)
      && (conn.done && !ReaderWon(conn) && !WriterWon(conn) ==>
            !conn.open && (conn.reports == 1 || conn.writer.Ended?))
  {
    ExecutionsKeepInv(authMode, run, i);
    hide IsExecution, Base;
  }

  /** No report is waiting or about to be spawned. */
  ghost predicate Quiescent(s: System) {
    forall c | c in s.conns :: s.conns[c].goodbye.None? && !AboutToReport(s.conns[c])
  }

  /** The client is known, nobody has begun to close it, and its socket is open. */
  predicate IsAlive(s: System, c: Xid) {
    c in s.conns && !s.conns[c].done && s.conns[c].open
  }

  /**
   * So whenever no report is under way, everyone in the index, and everyone who is a member of a room, is a
   * client that has not been closed and whose socket is open.
   */
  lemma QuietMeansAlive(authMode: AuthMode, run: seq<System>, i: nat)
    requires IsExecution(authMode, run) && i < |run| && Quiescent(run[i])
    ensures forall c | c in run[i].world.connected :: IsAlive(run[i], c)
    ensures forall r, c | r in run[i].world.rooms && r != "" && c in run[i].world.rooms[r].users ::
              IsAlive(run[i], c)
  {
    hide IsExecution, RoomsOk, Books, AboutToReport, WonOnce, NewConn;
    ExecutionsKeepInv(authMode, run, i);
  }

  /**
   * A client whose writer obeyed the server was out of the index before its writer could see the closing
   * message, so it needs no report; its once is then won without one.
   */
  lemma ObeyingIsForgotten(authMode: AuthMode, run: seq<System>, i: nat, c: Xid)
    requires IsExecution(authMode, run) && i < |run| && c in run[i].conns && ToldToClose(run[i].conns[c])
    ensures c !in run[i].world.connected
  {
    ExecutionsKeepInv(authMode, run, i);
    hide IsExecution, Base;
  }
}
