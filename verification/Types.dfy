/** Values shared by the room server, the TURN credential table and the messages a client is sent. */
module Types {

  datatype Option<+T> = None | Some(value: T)

  /** An xid in its text form. Clients and sessions draw their ids from the same generator. */
  type Xid = string

  type Ip = string

  /** How peers are helped to reach each other. The wire format is a string, so any text can occur. */
  datatype ConnectionMode = Local | Stun | Turn | OtherMode(text: string)

  /** Who must log in to create a room; a configured value that is none of the three is kept as text. */
  datatype AuthMode = AuthNone | AuthAll | AuthTurn | OtherAuth(text: string)

  const REALM := "screego"
  const NORMAL_CLOSURE := 1000
  const OWNER_LEFT := "Owner Left"

  datatype User = User(id: Xid, addr: Ip, name: string, streaming: bool, owner: bool)

  datatype RoomSession = RoomSession(host: Xid, client: Xid)

  /** The server's public addresses. */
  datatype Addresses = Addresses(v4: Option<Ip>, v6: Option<Ip>)

  /** What the IP provider replies when it is asked for them. */
  datatype Reply = Reply(v4: Option<Ip>, v6: Option<Ip>, error: Option<string>) {
    function At(): Addresses {
      Addresses(v4, v6)
    }
  }

  /** One ICE server as told to a peer; the URLs are determined by the scheme and the addresses. */
  datatype IceServer = IceServer(scheme: string, at: Addresses, tcp: bool, username: string, credential: string)

  /** One line of the member list of a room. */
  datatype Member = Member(id: Xid, name: string, streaming: bool, you: bool, owner: bool)

  /** The four peer-to-peer messages; they differ only in who may send them. */
  datatype RelayKind = HostOffer | HostIce | ClientAnswer | ClientIce {
    predicate FromHost() {
      HostOffer? || HostIce?
    }
  }

  /** Messages written to a client's channel. */
  datatype Message =
    | RoomInfo(room: string, users: seq<Member>)
    | HostSession(sid: Xid, peer: Xid, ice: seq<IceServer>)
    | ClientSession(sid: Xid, peer: Xid, ice: seq<IceServer>)
    | Relayed(kind: RelayKind, sid: Xid, value: string)
    | EndShare(sid: Xid)
    | CloseWriter(code: int, reason: string)

  /** Events taken from the incoming channel. */
  datatype Event =
    | Connected
    | Create(id: string, mode: ConnectionMode, closeOnOwnerLeave: bool, userName: string, joinIfExist: bool)
    | Join(id: string, userName: string)
    | StartShare
    | StopShare
    | Name(userName: string)
    | Relay(kind: RelayKind, sid: Xid, value: string)
    | Disconnected(code: int, reason: string)

  datatype ClientInfo = ClientInfo(id: Xid, authenticated: bool, authenticatedUser: string, addr: Ip)

  /** `reply` is not part of the message: it is what the IP provider replies, if asked while it is handled. */
  datatype ClientMessage = ClientMessage(info: ClientInfo, skipConnectedCheck: bool, event: Event, reply: Reply)

  /** The long-term credential key of section 9.2.2 of RFC 8489, kept as a term over its inputs. */
  datatype Key = AuthKey(username: string, realm: string, password: string)

  /** An entry of the internal TURN server's table. */
  datatype Entry = Entry(addr: Ip, key: Key)

  function HostKey(sid: Xid): string { sid + "host" }

  function ClientKey(sid: Xid): string { sid + "client" }

  /** The two user names derived from a session id never collide, within a session or across sessions. */
  lemma KeysAreInjective(s: Xid, t: Xid)
    ensures HostKey(s) != ClientKey(t)
    ensures HostKey(s) == HostKey(t) ==> s == t
    ensures ClientKey(s) == ClientKey(t) ==> s == t
  {
    assert HostKey(s)[|HostKey(s)| - 2] == 's';
    assert ClientKey(t)[|ClientKey(t)| - 2] == 'n';
    assert HostKey(s)[..|s|] == s && HostKey(t)[..|t|] == t;
    assert ClientKey(s)[..|s|] == s && ClientKey(t)[..|t|] == t;
  }

  /** The id generator can always produce an id that was not handed out before. */
  lemma FreshExists(used: set<Xid>)
    ensures exists s: Xid :: s !in used
  {
    var n := LongerThanAll(used);
    var s := seq(n, i => 'x');
    assert |s| == n;
  }

  lemma LongerThanAll(used: set<Xid>) returns (n: nat)
    ensures forall s | s in used :: |s| < n
  {
    n := 0;
    var rest := used;
    while rest != {}
      invariant rest <= used
      invariant forall s | s in used - rest :: |s| < n
    {
      var s :| s in rest;
      rest := rest - {s};
      if n <= |s| {
        n := |s| + 1;
      }
    }
  }
}
