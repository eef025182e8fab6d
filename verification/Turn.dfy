/** The internal TURN server's credential table. */
module Turn {
  import opened Types
  import opened Spec

  const TOKEN_CHARACTERS := "abcdefghijklmnopqrstuvwxyzABCDEFGHIJKLMNOPQRSTUVWXYZ0123456789.-_!@#$%^&*()){}\\/=+,.><"

  /** A random text over the token characters. */
  method RandString(length: nat) returns (s: string)
    ensures |s| == length && forall c | c in s :: c in TOKEN_CHARACTERS
  {
    s := "";
    for i := 0 to length
      invariant |s| == i && forall c | c in s :: c in TOKEN_CHARACTERS
    {
      assert TOKEN_CHARACTERS[0] in TOKEN_CHARACTERS;
      var c :| c in TOKEN_CHARACTERS;
      s := s + [c];
    }
  }

  class InternalServer {
    var lookup: map<string, Entry>

    constructor ()
      ensures lookup == map[]
    {
      lookup := map[];
    }

    method Allow(username: string, password: string, addr: Ip)
      modifies this
      ensures lookup == Allowed(old(lookup), username, password, addr)
    {
      lookup := lookup[username := Entry(addr, AuthKey(username, REALM, password))];
    }

    method Disallow(username: string)
      modifies this
      ensures lookup == old(lookup) - {username}
    {
      lookup := lookup - {username};
    }

    /** The key the TURN server checks a request of this user against, if the user is known. */
    method Authenticate(username: string) returns (key: Option<Key>)
      ensures key.Some? <==> username in lookup
      ensures key.Some? ==> key.value == lookup[username].key
    {
      if username !in lookup {
        return None;
      }
      return Some(lookup[username].key);
    }

    method Credentials(id: string, addr: Ip) returns (username: string, password: string)
      modifies this
      ensures username == id && |password| == 20
      ensures lookup == Allowed(old(lookup), id, password, addr)
    {
      password := RandString(20);
      Allow(id, password, addr);
      username := id;
    }
  }
}
