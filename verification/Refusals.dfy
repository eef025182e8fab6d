/** Exactly which events fail, why, and what their sender is told. */
module Refusals {
  import opened Types
  import opened Spec
  import opened Invariants
  import opened BaseProofs
  import opened Isolation
  import opened Leaving

  /** Why a client that is not in a room of its own may not do what only members may. */
  function NoMember(w: World, me: Xid): Option<string> {
    if me !in w.connected then Some("not connected")
    else if w.connected[me] == "" then Some("not in a room")
    else if w.connected[me] !in w.rooms then Some("room with id " + w.connected[me] + " does not exist")
    else None
  }

  function NotAllowed(authMode: AuthMode): string {
    if authMode.OtherAuth? then "invalid authmode:" + authMode.text else "you need to login"
  }

  /** Why the event fails, if it does, when the IP provider replies `reply` if asked. */
  function Refusal(w: World, info: ClientInfo, e: Event, reply: Reply): Option<string> {
    match e
    case Create(id, mode, _, _, joinIfExist) =>
      if Where(w, info.id) != "" then Some("cannot join room, you are already in one")
      else if id in w.rooms then
        if joinIfExist then reply.error else Some("room with id " + id + " does already exist")
      else if CreatorOk(w.authMode, mode, info.authenticated) then None
      else Some(NotAllowed(w.authMode))
    case Join(id, _) =>
      if Where(w, info.id) != "" then Some("cannot join room, you are already in one")
      else if id in w.rooms then reply.error
      else Some("room with id " + id + " does not exist")
    case StartShare => if NoMember(w, info.id).Some? then NoMember(w, info.id) else reply.error
    case StopShare => NoMember(w, info.id)
    case Name(_) => NoMember(w, info.id)
    case Relay(kind, sid, _) =>
      if NoMember(w, info.id).Some? then NoMember(w, info.id)
      else
        var sessions := w.rooms[w.connected[info.id]].sessions;
        if sid in sessions && info.id != (if kind.FromHost() then sessions[sid].host else sessions[sid].client)
        then Some("permission denied for session " + sid)
        else None
    case _ => None
  }

  lemma JoinFails(w: World, info: ClientInfo, id: string, asked: string, o: Outcome)
    requires Joins(w, info, id, asked, o)
    ensures o.error == Refusal(w, info, Join(id, asked), o.reply)
  {
    hide Notified, NameFor, Opens, CreatorOk;
    if Where(w, info.id) == "" && id in w.rooms {
      var name, w1 :| JoinsAs(w, info, id, asked, name, w1, o);
    }
  }

  lemma CreateFails(w: World, info: ClientInfo, e: Event, o: Outcome)
    requires e.Create? && Creates(w, info, e, o)
    ensures o.error == Refusal(w, info, e, o.reply)
  {
    hide Joins, Notified, NameFor;
    if Where(w, info.id) == "" && e.id in w.rooms && e.joinIfExist {
      JoinFails(w, info, e.id, e.userName, o);
    }
  }

  lemma ShareFails(w: World, me: Xid, info: ClientInfo, o: Outcome)
    requires StartsShare(w, me, o) && me == info.id
    ensures o.error == Refusal(w, info, StartShare, o.reply)
  {
    hide Notified, Opens, CreatorOk;
    if InRoom(w, me) {
      var o1 :| SharesAs(w, w.connected[me], me, o1, o);
    }
  }

  /** An event fails exactly for the reasons given, whatever else it depends on. */
  lemma ExecuteFails(w: World, info: ClientInfo, e: Event, o: Outcome)
    requires Executes(w, info, e, o)
    ensures o.error == Refusal(w, info, e, o.reply)
  {
    hide Creates, Joins, StartsShare, CreatorOk;
    match e
    case Create(_, _, _, _, _) => CreateFails(w, info, e, o);
    case Join(id, userName) => JoinFails(w, info, id, userName, o);
    case StartShare => ShareFails(w, info.id, info, o);
    case _ =>
  }

  /** A client whose event fails leaves the index; one whose event does not fail stays, unless it disconnects. */
  lemma RefusedIsGone(w: World, m: ClientMessage, w': World)
    requires Next(w, m, w') && m.info.id in w.connected && !m.event.Disconnected?
    ensures m.info.id in w'.connected <==> Refusal(w, m.info, m.event, m.reply).None?
  {
    hide Executes, Disconnects, Refusal;
    var o :| Executes(w, m.info, m.event, o) && o.reply == m.reply && Completes(o, m.info.id, w');
    ExecuteFails(w, m.info, m.event, o);
    ExecuteStays(w, m.info, m.event, o);
    if o.error.Some? {
      DisconnectFrame(o.world, m.info.id, NORMAL_CLOSURE, o.error.value, w');
    }
  }
}
