/** The address cache in front of the resolver: when it asks again, what it answers, and how often it asks. */
module Dns {
  import opened Types

  /** Nanoseconds since the zero time, which lies before every reading of the clock. */
  type Time = int

  const SECOND := 1_000_000_000
  const MINUTE := 60 * SECOND

  /** What the resolver says; addresses are in text form. */
  datatype Answer = Found(ips: seq<Ip>) | NoAnswer(reason: string)

  const NO_RECORD := "dns record doesn't have an A or AAAA record"

  predicate IsV6(ip: Ip) {
    ':' in ip
  }

  /** The first address of a family. */
  function FirstOf(ips: seq<Ip>, v6: bool): Option<Ip> {
    if ips == [] then None
    else if IsV6(ips[0]) == v6 then Some(ips[0])
    else FirstOf(ips[1..], v6)
  }

  function Resolve(a: Answer): Reply {
    match a
    case NoAnswer(reason) => Reply(None, None, Some(reason))
    case Found(ips) =>
      var v4, v6 := FirstOf(ips, false), FirstOf(ips, true);
      if v4.None? && v6.None? then Reply(None, None, Some(NO_RECORD)) else Reply(v4, v6, None)
  }

  /** How long an answer is kept after it arrived. */
  function Hold(a: Answer): Time {
    if Resolve(a).error.None? then MINUTE else SECOND
  }

  /** A lookup that ended at `end`. */
  datatype Lookup = Lookup(end: Time, answer: Answer)

  /** One call of Get: when it read the clock first, the lookup it made, if any, and what it returned. */
  datatype Call = Call(at: Time, lookup: Option<Lookup>, reply: Reply)

  /** The position of the last lookup, or -1. */
  function Last(calls: seq<Call>): int
    ensures -1 <= Last(calls) < |calls|
    ensures Last(calls) >= 0 ==> calls[Last(calls)].lookup.Some?
    ensures forall i | Last(calls) < i < |calls| :: calls[i].lookup.None?
  {
    if calls == [] then -1
    else if calls[|calls| - 1].lookup.Some? then |calls| - 1
    else Last(calls[..|calls| - 1])
  }

  /** Calls do not overlap: the next one starts when the one before has ended. */
  ghost predicate InOrder(calls: seq<Call>) {
    && (forall i | 0 <= i < |calls| && calls[i].lookup.Some? :: calls[i].at <= calls[i].lookup.value.end)
    && (forall i, j | 0 <= i < j < |calls| :: calls[i].at <= calls[j].at)
    && (forall i, j | 0 <= i < j < |calls| && calls[i].lookup.Some? :: calls[i].lookup.value.end <= calls[j].at)
  }

  ghost predicate OverBy(calls: seq<Call>, t: Time) {
    forall i | 0 <= i < |calls| ::
      calls[i].at <= t && (calls[i].lookup.Some? ==> calls[i].lookup.value.end <= t)
  }

  /** The call at position `i` asks the resolver iff no answer is held, and returns the latest answer. */
  ghost predicate Right(calls: seq<Call>, i: nat)
    requires i < |calls|
  {
    var last := Last(calls[..i]);
    && (calls[i].lookup.Some? <==>
        last < 0 || calls[last].lookup.value.end + Hold(calls[last].lookup.value.answer) < calls[i].at)
    && var now := Last(calls[..i + 1]);
       now >= 0 && calls[i].reply == Resolve(calls[now].lookup.value.answer)
  }

  ghost predicate Policy(calls: seq<Call>) {
    InOrder(calls) && forall i | 0 <= i < |calls| :: Right(calls, i)
  }

  class Clock {
    var time: Time

    constructor ()
      ensures time > 0
    {
      time := 1;
    }

    /** The clock does not run backwards. */
    method Now() returns (t: Time)
      modifies this
      ensures old(time) <= t == time
    {
      var passed :| passed >= 0;
      time := time + passed;
      t := time;
    }
  }

  class DNS {
    var refetch: Time
    var v4: Option<Ip>
    var v6: Option<Ip>
    var err: Option<string>
    const clock: Clock
    ghost var calls: seq<Call>

    constructor (clock: Clock)
      requires clock.time > 0
      ensures Valid() && calls == [] && this.clock == clock
    {
      this.clock := clock;
      refetch := 0;
      v4, v6, err := None, None, None;
      calls := [];
    }

    /** The fields are those of the last lookup. */
    ghost predicate Valid()
      reads this, clock
    {
      && Policy(calls) && clock.time > 0 && OverBy(calls, clock.time)
      && var last := Last(calls);
         if last < 0 then calls == [] && refetch == 0
         else
           var l := calls[last].lookup.value;
           refetch == l.end + Hold(l.answer) && Reply(v4, v6, err) == Resolve(l.answer)
    }

    /** Picks the first address of each family from what the resolver said. */
    method Pick(a: Answer) returns (four: Option<Ip>, six: Option<Ip>, error: Option<string>)
      ensures Reply(four, six, error) == Resolve(a)
    {
      if a.NoAnswer? {
        return None, None, Some(a.reason);
      }
      four, six := None, None;
      for i := 0 to |a.ips|
        invariant four == FirstOf(a.ips[..i], false) && six == FirstOf(a.ips[..i], true)
      {
        var ip := a.ips[i];
        FirstOfSnoc(a.ips[..i], ip, false);
        FirstOfSnoc(a.ips[..i], ip, true);
        assert a.ips[..i] + [ip] == a.ips[..i + 1];
        var isV6 := IsV6(ip);
        if isV6 && six == None {
          six := Some(ip);
        } else if !isV6 && four == None {
          four := Some(ip);
        }
      }
      assert a.ips[..|a.ips|] == a.ips;
      if four == None && six == None {
        return None, None, Some(NO_RECORD);
      }
      error := None;
    }

    /** The addresses, asked for again once the last answer is no longer held. */
    method Get() returns (four: Option<Ip>, six: Option<Ip>, error: Option<string>)
      requires Valid()
      modifies this, clock
      ensures Valid() && |calls| == |old(calls)| + 1 && calls[..|old(calls)|] == old(calls)
      ensures calls[|old(calls)|].reply == Reply(four, six, error)
    {
      hide Policy, OverBy, Resolve;
      var now := clock.Now();
      ghost var lookup := None;
      if refetch < now {
        var answer: Answer :| true;  // whatever the resolver says
        v4, v6, err := Pick(answer);
        var end := clock.Now();
        refetch := end + (if err == None then MINUTE else SECOND);
        lookup := Some(Lookup(end, answer));
      }
      ghost var call := Call(now, lookup, Reply(v4, v6, err));
      PolicyExtends(calls, call, old(clock.time), clock.time);
      calls := calls + [call];
      return v4, v6, err;
    }
  }

  lemma {:induction false} FirstOfSnoc(ips: seq<Ip>, ip: Ip, v6: bool)
    ensures FirstOf(ips + [ip], v6) ==
            if FirstOf(ips, v6).Some? then FirstOf(ips, v6) else if IsV6(ip) == v6 then Some(ip) else None
  {
    if ips != [] {
      FirstOfSnoc(ips[1..], ip, v6);
      assert (ips + [ip])[1..] == ips[1..] + [ip];
    }
  }

  lemma LastSnoc(calls: seq<Call>, c: Call)
    ensures Last(calls + [c]) == if c.lookup.Some? then |calls| else Last(calls)
  {
    assert (calls + [c])[..|calls|] == calls;
  }

  lemma OrderExtends(calls: seq<Call>, c: Call, t: Time, t': Time)
    requires InOrder(calls) && OverBy(calls, t) && t <= c.at <= t'
    requires c.lookup.Some? ==> c.at <= c.lookup.value.end <= t'
    ensures InOrder(calls + [c]) && OverBy(calls + [c], t')
  {
  }

  lemma RightKept(calls: seq<Call>, c: Call, i: nat)
    requires i < |calls| && Right(calls, i)
    ensures Right(calls + [c], i)
  {
    assert (calls + [c])[..i] == calls[..i] && (calls + [c])[..i + 1] == calls[..i + 1];
  }

  /** The call `c` is one that the policy allows next. */
  ghost predicate RightNext(calls: seq<Call>, c: Call) {
    var last := Last(calls);
    && (c.lookup.Some? <==> last < 0 || calls[last].lookup.value.end + Hold(calls[last].lookup.value.answer) < c.at)
    && c.reply == Resolve(if c.lookup.Some? then c.lookup.value.answer else calls[last].lookup.value.answer)
  }

  lemma RightNew(calls: seq<Call>, c: Call)
    requires RightNext(calls, c)
    ensures Right(calls + [c], |calls|)
  {
    var after := calls + [c];
    LastSnoc(calls, c);
    assert after[..|calls|] == calls && after[..|calls| + 1] == after;
  }

  lemma PolicyExtends(calls: seq<Call>, c: Call, t: Time, t': Time)
    requires Policy(calls) && OverBy(calls, t) && t <= c.at <= t'
    requires c.lookup.Some? ==> c.at <= c.lookup.value.end <= t'
    requires RightNext(calls, c)
    ensures Policy(calls + [c]) && OverBy(calls + [c], t')
    ensures Last(calls + [c]) == if c.lookup.Some? then |calls| else Last(calls)
  {
    hide Right, InOrder, OverBy, RightNext, Last;
    LastSnoc(calls, c);
    OrderExtends(calls, c, t, t');
    RightNew(calls, c);
    forall i | 0 <= i < |calls|
      ensures Right(calls + [c], i)
    {
      RightKept(calls, c, i);
    }
  }

  // ---------- Results about every sequence of calls ----------

  /** The first address of a family, if there is one, is an element of that family with none before it. */
  lemma {:induction false} FirstOfMeaning(ips: seq<Ip>, v6: bool)
    ensures FirstIs(ips, v6, FirstOf(ips, v6))
  {
    if ips != [] && IsV6(ips[0]) != v6 {
      FirstOfMeaning(ips[1..], v6);
      if FirstOf(ips, v6).Some? {
        var i :| 0 <= i < |ips[1..]| && ips[1..][i] == FirstOf(ips, v6).value && IsV6(ips[1..][i]) == v6 &&
                 forall j | 0 <= j < i :: IsV6(ips[1..][j]) != v6;
        assert forall j | 0 <= j < i + 1 :: ips[j] == (if j == 0 then ips[0] else ips[1..][j - 1]);
        assert ips[i + 1] == ips[1..][i];
      }
      forall i | 0 <= i < |ips| && IsV6(ips[i]) == v6
        ensures FirstOf(ips, v6).Some?
      {
        assert ips[1..][i - 1] == ips[i];
      }
    }
  }

  /** A call that reports no error returns at least one address, and only addresses the resolver found. */
  lemma SuccessHasAddress(calls: seq<Call>, i: nat) returns (j: nat)
    requires Policy(calls) && i < |calls| && calls[i].reply.error.None?
    ensures j <= i && calls[j].lookup.Some? && calls[j].lookup.value.answer.Found?
    ensures
      var ips, r := calls[j].lookup.value.answer.ips, calls[i].reply;
      && (r.v4.Some? || r.v6.Some?)
      && (r.v4.Some? ==> r.v4.value in ips && !IsV6(r.v4.value))
      && (r.v6.Some? ==> r.v6.value in ips && IsV6(r.v6.value))
  {
    assert Right(calls, i);
    j := Last(calls[..i + 1]);
    var ips := calls[j].lookup.value.answer.ips;
    FirstOfMeaning(ips, false);
    FirstOfMeaning(ips, true);
  }

  /** Every call returns the result of the most recent lookup, be it this call's own. */
  lemma ReplyIsLatest(calls: seq<Call>, i: nat, j: nat)
    requires Policy(calls) && j <= i < |calls| && calls[j].lookup.Some?
    requires forall k | j < k <= i :: calls[k].lookup.None?
    ensures calls[i].reply == Resolve(calls[j].lookup.value.answer)
  {
    assert Right(calls, i);
    var last := Last(calls[..i + 1]);
    assert last == j;
  }

  /** The resolver gave an address. */
  predicate GaveAddress(a: Answer) {
    a.Found? && a.ips != []
  }

  lemma GaveMeansNoError(a: Answer)
    ensures Resolve(a).error.None? <==> GaveAddress(a)
  {
    if a.Found? {
      FirstOfMeaning(a.ips, false);
      FirstOfMeaning(a.ips, true);
    }
  }

  /**
   * A call asks the resolver exactly if it never was asked before, or the last lookup ended more than a minute
   * before the call, or more than a second before and without an address.
   */
  lemma LooksUpExactly(calls: seq<Call>, i: nat, j: nat)
    requires Policy(calls) && j < i < |calls| && calls[j].lookup.Some?
    requires forall k | j < k < i :: calls[k].lookup.None?
    ensures calls[0].lookup.Some?
    ensures
      var l := calls[j].lookup.value;
      calls[i].lookup.Some? <==> calls[i].at - l.end > if GaveAddress(l.answer) then 60 * SECOND else SECOND
  {
    assert Right(calls, 0) && Right(calls, i);
    assert calls[..0] == [];
    var last := Last(calls[..i]);
    assert last == j;
    GaveMeansNoError(calls[j].lookup.value.answer);
  }

  /** The reply of a call has what the latest lookup found: for each family that occurs, its first address. */
  lemma ReplyHasAll(calls: seq<Call>, i: nat, j: nat)
    requires Policy(calls) && j <= i < |calls| && calls[j].lookup.Some?
    requires forall k | j < k <= i :: calls[k].lookup.None?
    ensures
      var answer, r := calls[j].lookup.value.answer, calls[i].reply;
      && (r.error.None? <==> GaveAddress(answer))
      && (answer.NoAnswer? ==> r.error == Some(answer.reason))
      && (answer.Found? ==> FirstIs(answer.ips, false, r.v4) && FirstIs(answer.ips, true, r.v6))
  {
    var answer := calls[j].lookup.value.answer;
    ReplyIsLatest(calls, i, j);
    GaveMeansNoError(answer);
    if answer.Found? {
      FirstOfMeaning(answer.ips, false);
      FirstOfMeaning(answer.ips, true);
    }
  }

  /** `first` is the first address of the family, if there is one. */
  ghost predicate FirstIs(ips: seq<Ip>, v6: bool, first: Option<Ip>) {
    && (first.Some? <==> exists i :: 0 <= i < |ips| && IsV6(ips[i]) == v6)
    && (first.Some? ==> exists i :: 0 <= i < |ips| && ips[i] == first.value && IsV6(ips[i]) == v6 &&
                                    forall j | 0 <= j < i :: IsV6(ips[j]) != v6)
  }

  /** A lookup starts later than the hold time after every earlier lookup ended. */
  lemma {:induction false} LookupsAreApart(calls: seq<Call>, i: nat, j: nat)
    requires Policy(calls) && i < j < |calls| && calls[i].lookup.Some? && calls[j].lookup.Some?
    ensures calls[i].lookup.value.end + Hold(calls[i].lookup.value.answer) < calls[j].at
    decreases j
  {
    assert Right(calls, j);
    var last := Last(calls[..j]);
    if i < last {
      LookupsAreApart(calls, i, last);
    }
  }

  /** How many lookups start in the window from `a` to `b`. */
  function Started(calls: seq<Call>, a: Time, b: Time): nat {
    if calls == [] then 0
    else
      var c := calls[|calls| - 1];
      Started(calls[..|calls| - 1], a, b) + if c.lookup.Some? && a <= c.at <= b then 1 else 0
  }

  lemma PolicyPrefix(calls: seq<Call>)
    requires Policy(calls) && calls != []
    ensures Policy(calls[..|calls| - 1])
  {
    var rest := calls[..|calls| - 1];
    forall i | 0 <= i < |rest|
      ensures Right(rest, i)
    {
      assert Right(calls, i);
      assert rest[..i] == calls[..i] && rest[..i + 1] == calls[..i + 1];
    }
  }

  /** The length of `k` holds of `h`. */
  function Holds(k: nat, h: nat): nat {
    if k == 0 then 0 else Holds(k - 1, h) + h
  }

  lemma {:induction false} HoldsIsProduct(k: nat, h: nat)
    ensures Holds(k, h) == k * h
  {
    if k > 0 {
      HoldsIsProduct(k - 1, h);
    }
  }

  /** The lookups of a window, each followed by a hold of more than `h`, fit into it; `last` is the last of them. */
  lemma {:induction false} WindowFilled(calls: seq<Call>, a: Time, b: Time, h: nat) returns (last: nat)
    requires Policy(calls) && Started(calls, a, b) > 0
    requires forall i | 0 <= i < |calls| && calls[i].lookup.Some? :: Hold(calls[i].lookup.value.answer) >= h
    ensures last < |calls| && calls[last].lookup.Some? && a <= calls[last].at <= b
    ensures Started(calls, a, b) > 1 ==> Holds(Started(calls, a, b) - 1, h) < calls[last].at - a
  {
    var n := |calls| - 1;
    PolicyPrefix(calls);
    if calls[n].lookup.Some? && a <= calls[n].at <= b {
      last := n;
      if Started(calls[..n], a, b) > 0 {
        var before := WindowFilled(calls[..n], a, b, h);
        LookupsAreApart(calls, before, n);
        assert calls[before].at <= calls[before].lookup.value.end;
        hide Policy, Hold, Resolve;
      }
    } else {
      last := WindowFilled(calls[..n], a, b, h);
    }
  }

  /**
   * The rate bound: at most one lookup starts per second, in every window of a whole number of seconds,
   * whatever the resolver answers and however often the cache is asked.
   */
  lemma AtMostOnePerSecond(calls: seq<Call>, a: Time, seconds: nat)
    requires Policy(calls)
    ensures Started(calls, a, a + seconds * SECOND) <= if seconds == 0 then 1 else seconds
  {
    var k := Started(calls, a, a + seconds * SECOND);
    if k > 1 {
      var last := WindowFilled(calls, a, a + seconds * SECOND, SECOND);
      HoldsIsProduct(k - 1, SECOND);
      assert (k - 1) * SECOND < seconds * SECOND;
    }
  }

  /** While all lookups succeed, at most one starts per minute. */
  lemma AtMostOnePerMinute(calls: seq<Call>, a: Time, minutes: nat)
    requires Policy(calls)
    requires forall i | 0 <= i < |calls| && calls[i].lookup.Some? :: Resolve(calls[i].lookup.value.answer).error.None?
    ensures Started(calls, a, a + minutes * MINUTE) <= if minutes == 0 then 1 else minutes
  {
    var k := Started(calls, a, a + minutes * MINUTE);
    if k > 1 {
      var last := WindowFilled(calls, a, a + minutes * MINUTE, MINUTE);
      HoldsIsProduct(k - 1, MINUTE);
      assert (k - 1) * MINUTE < minutes * MINUTE;
    }
  }
}
