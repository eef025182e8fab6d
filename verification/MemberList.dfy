/** The order of the member list and the list a given member of a room is sent. */
module MemberList {
  import opened Types

  /** Go's string order: lexicographic. */
  predicate TextBefore(a: string, b: string) {
    b != [] && (a == [] || a[0] < b[0] || (a[0] == b[0] && TextBefore(a[1..], b[1..])))
  }

  /** The comparator of the member list: owner first, then those who stream, then by name. */
  predicate Before(l: Member, r: Member) {
    if l.owner != r.owner then l.owner
    else if l.streaming != r.streaming then l.streaming
    else TextBefore(l.name, r.name)
  }

  lemma {:induction false} TextBeforeIsOrder(a: string, b: string, c: string)
    ensures !TextBefore(a, a)
    ensures TextBefore(a, b) ==> !TextBefore(b, a)
    ensures TextBefore(a, b) && TextBefore(b, c) ==> TextBefore(a, c)
    ensures !TextBefore(a, b) && !TextBefore(b, a) ==> a == b
    decreases |a| + |b| + |c|
  {
    if a != [] {
      TextBeforeIsOrder(a[1..], if b == [] then [] else b[1..], if c == [] then [] else c[1..]);
      assert a == [a[0]] + a[1..];
      assert b != [] ==> b == [b[0]] + b[1..];
    }
  }

  /**
   * The comparator is a strict weak order: irreflexive, transitive, and "neither before the other" is
   * transitive too. This is what sort.Slice asks of it.
   */
  lemma BeforeIsStrictWeakOrder(a: Member, b: Member, c: Member)
    ensures !Before(a, a)
    ensures Before(a, b) ==> !Before(b, a)
    ensures Before(a, b) && Before(b, c) ==> Before(a, c)
    ensures !Before(a, b) && !Before(b, c) ==> !Before(a, c)
    ensures !Before(a, b) && !Before(b, a) <==>
            a.owner == b.owner && a.streaming == b.streaming && a.name == b.name
  {
    TextBeforeIsOrder(a.name, b.name, c.name);
    TextBeforeIsOrder(c.name, b.name, a.name);
    TextBeforeIsOrder(a.name, c.name, b.name);
    TextBeforeIsOrder(b.name, a.name, c.name);
  }

  predicate Sorted(l: seq<Member>) {
    forall i, j | 0 <= i < j < |l| :: !Before(l[j], l[i])
  }

  /** What `me` is shown of the user `u`. */
  function Shown(u: User, me: Xid): Member {
    Member(u.id, u.name, u.streaming, u.id == me, u.owner)
  }

  function ShownAll(users: map<Xid, User>, me: Xid): set<Member> {
    set u | u in users :: Shown(users[u], me)
  }

  /** `l` lists exactly the users of the room, each once, in order, as shown to `me`. */
  predicate IsListing(l: seq<Member>, users: map<Xid, User>, me: Xid) {
    multiset(l) == multiset(ShownAll(users, me)) && Sorted(l)
  }

  /** Inserts a member into a sorted list. */
  method Insert(l: seq<Member>, m: Member) returns (r: seq<Member>)
    requires Sorted(l)
    ensures Sorted(r) && multiset(r) == multiset(l) + multiset{m}
  {
    var i := 0;
    while i < |l| && !Before(m, l[i])
      invariant 0 <= i <= |l|
      invariant forall j | 0 <= j < i :: !Before(m, l[j])
    {
      i := i + 1;
    }
    r := l[..i] + [m] + l[i..];
    assert l == l[..i] + l[i..];
    forall j | i <= j < |l|
      ensures !Before(l[j], m)
    {
      BeforeIsStrictWeakOrder(m, l[i], l[j]);
      BeforeIsStrictWeakOrder(l[j], m, l[i]);
    }
  }

  /** Sorts the member list (the job of sort.Slice, which may return any sorted rearrangement). */
  method Sort(l: seq<Member>) returns (r: seq<Member>)
    ensures Sorted(r) && multiset(r) == multiset(l)
  {
    r := [];
    for i := 0 to |l|
      invariant Sorted(r) && multiset(r) == multiset(l[..i])
    {
      assert l[..i + 1] == l[..i] + [l[i]];
      r := Insert(r, l[i]);
    }
    assert l[..|l|] == l;
  }

  /** The line tells the truth about a user of the room, and is marked exactly if it is that of `me`. */
  predicate LineRight(m: Member, users: map<Xid, User>, me: Xid) {
    && m.id in users && (m.you <==> m.id == me)
    && m.name == users[m.id].name
    && (m.streaming <==> users[m.id].streaming)
    && (m.owner <==> users[m.id].owner)
  }

  /** The owner comes before all others, those who stream before those who do not, and then names are in order. */
  predicate InPlace(a: Member, b: Member) {
    && (b.owner ==> a.owner)
    && (a.owner == b.owner && b.streaming ==> a.streaming)
    && (a.owner == b.owner && a.streaming == b.streaming ==> !TextBefore(b.name, a.name))
  }

  /**
   * A list sent to a member has one line per user of the room and names each user once, with its current data;
   * exactly the recipient's line carries the "you" mark; and the lines are in order.
   */
  lemma ListingMeaning(l: seq<Member>, users: map<Xid, User>, me: Xid)
    requires forall u | u in users :: users[u].id == u
    requires IsListing(l, users, me)
    ensures |l| == |users|
    ensures forall i | 0 <= i < |l| :: LineRight(l[i], users, me)
    ensures forall u | u in users :: exists i :: 0 <= i < |l| && l[i].id == u
    ensures forall i, j | 0 <= i < j < |l| :: l[i].id != l[j].id && InPlace(l[i], l[j])
  {
    ShownAllSize(users, users.Keys, me);
    assert ShownAll(users, me) == set u | u in users.Keys :: Shown(users[u], me);
    assert |l| == |multiset(l)|;
    forall i | 0 <= i < |l|
      ensures l[i].id in users && l[i] == Shown(users[l[i].id], me) && LineRight(l[i], users, me)
    {
      assert l[i] in multiset(l);
    }
    forall u | u in users
      ensures exists i :: 0 <= i < |l| && l[i].id == u
    {
      assert Shown(users[u], me) in ShownAll(users, me);
      assert Shown(users[u], me) in multiset(l);
    }
    forall i, j | 0 <= i < j < |l|
      ensures l[i].id != l[j].id
    {
      RepeatCounts(l, i, j);
    }
  }

  lemma RepeatCounts(l: seq<Member>, i: nat, j: nat)
    requires i < j < |l|
    ensures l[i] == l[j] ==> multiset(l)[l[i]] >= 2
  {
    assert l == l[..j] + [l[j]] + l[j + 1..];
    assert l[i] in multiset(l[..j]);
  }

  lemma {:induction false} ShownAllSize(users: map<Xid, User>, ids: set<Xid>, me: Xid)
    requires ids <= users.Keys
    requires forall u | u in users :: users[u].id == u
    ensures |set u | u in ids :: Shown(users[u], me)| == |ids|
    decreases ids
  {
    if ids != {} {
      var x :| x in ids;
      ShownAllSize(users, ids - {x}, me);
      assert (set u | u in ids :: Shown(users[u], me)) ==
             (set u | u in ids - {x} :: Shown(users[u], me)) + {Shown(users[x], me)};
    }
  }
}
