/** How runs are extended, and what the messages of departed clients amount to. */
module RunProofs {
  import opened Types
  import opened Spec
  import opened Isolation

  // ---------- Messages of departed clients ----------

  /** The messages without those that `c` sent from position `k` on. */
  function Without(ms: seq<ClientMessage>, c: Xid, k: nat): seq<ClientMessage> {
    if |ms| <= k then ms
    else
      var n := |ms| - 1;
      Without(ms[..n], c, k) + if ms[n].info.id == c then [] else [ms[n]]
  }

  lemma RunPrefix(authMode: AuthMode, ms: seq<ClientMessage>, ws: seq<World>)
    requires IsRun(authMode, ms, ws) && ms != []
    ensures IsRun(authMode, ms[..|ms| - 1], ws[..|ms|])
  {
    hide Next, Arrives;
  }

  lemma RunExtend(authMode: AuthMode, ms: seq<ClientMessage>, ws: seq<World>, m: ClientMessage, w: World)
    requires IsRun(authMode, ms, ws) && Arrives(ws[|ms|], m) && Next(ws[|ms|], m, w)
    ensures IsRun(authMode, ms + [m], ws + [w])
  {
    hide Next, Arrives;
  }

  /** A client that is gone cannot do anything: its message leaves the state as it is. */
  lemma GoneIsIgnored(w: World, m: ClientMessage, w': World)
    requires Arrives(w, m) && Next(w, m, w') && m.info.id in w.used && m.info.id !in w.connected
    ensures w' == w
  {
  }

  /**
   * Once a client is gone, dropping all its later messages from a run leaves a run with the same outcome.
   */
  lemma {:induction false} GoneCanBeDropped(authMode: AuthMode, ms: seq<ClientMessage>, ws: seq<World>, c: Xid, k: nat)
    returns (ws': seq<World>)
    requires IsRun(authMode, ms, ws) && k < |ws| && c in ws[k].used && c !in ws[k].connected
    ensures IsRun(authMode, Without(ms, c, k), ws') && ws'[|ws'| - 1] == ws[|ms|]
  {
    if |ms| <= k {
      return ws;
    }
    var n := |ms| - 1;
    RunPrefix(authMode, ms, ws);
    hide Next, Arrives;
    var sofar := GoneCanBeDropped(authMode, ms[..n], ws[..n + 1], c, k);
    GoneStaysGone(authMode, ms, ws, c, k, n);
    if ms[n].info.id == c {
      GoneIsIgnored(ws[n], ms[n], ws[n + 1]);
      assert Without(ms, c, k) == Without(ms[..n], c, k);
      ws' := sofar;
    } else {
      RunExtend(authMode, Without(ms[..n], c, k), sofar, ms[n], ws[n + 1]);
      ws' := sofar + [ws[n + 1]];
    }
  }
}
