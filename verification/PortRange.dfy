/** The relay port range: its text form, its validation, and the draws in 16-bit arithmetic. */
module PortRange {
  import opened Types

  const PORTS := 0x1_0000

  type Port = n: int | 0 <= n < PORTS

  /** Arithmetic on uint16 wraps around. */
  function Wrap(n: int): Port {
    n % PORTS
  }

  // ---------- Text ----------

  /** Splits at every colon; there is always at least one part. */
  function Split(s: string): (parts: seq<string>)
    ensures parts != []
  {
    if s == "" then [""]
    else
      var rest := Split(s[1..]);
      if s[0] == ':' then [""] + rest else [[s[0]] + rest[0]] + rest[1..]
  }

  predicate IsDigit(c: char) {
    '0' <= c <= '9'
  }

  predicate AllDigits(s: string) {
    forall i | 0 <= i < |s| :: IsDigit(s[i])
  }

  function Value(s: string): nat
    requires AllDigits(s)
  {
    if s == "" then 0 else 10 * Value(s[..|s| - 1]) + (s[|s| - 1] - '0') as nat
  }

  /** An unsigned decimal number of at most 16 bits: digits only, no sign, leading zeros allowed. */
  function ParseUint(s: string): Option<Port> {
    if s != "" && AllDigits(s) && Value(s) < PORTS then Some(Value(s)) else None
  }

  function Decimal(n: nat): string {
    var digit := [('0' as int + n % 10) as char];
    if n < 10 then digit else Decimal(n / 10) + digit
  }

  // ---------- Configuration ----------

  datatype RangeError = NotOneColon | BadMin | BadMax

  datatype Parsed = Range(min: Port, max: Port) | Invalid(error: RangeError)

  function ParsePortRange(s: string): Parsed {
    if s == "" then Range(0, 0)
    else
      var parts := Split(s);
      if |parts| != 2 then Invalid(NotOneColon)
      else if ParseUint(parts[0]).None? then Invalid(BadMin)
      else if ParseUint(parts[1]).None? then Invalid(BadMax)
      else Range(ParseUint(parts[0]).value, ParseUint(parts[1]).value)
  }

  /** The range relays draw from, if one is used. */
  function Generator(s: string): Option<(Port, Port)> {
    match ParsePortRange(s)
    case Range(min, max) => if min != 0 && max != 0 then Some((min, max)) else None
    case Invalid(_) => None
  }

  datatype Verdict = Accepted | Warned | Rejected

  function Validate(s: string): Verdict {
    match ParsePortRange(s)
    case Invalid(_) => Rejected
    case Range(min, max) =>
      if min == 0 && max == 0 then Accepted
      else if min == 0 || max == 0 then Rejected
      else if min > max then Rejected
      else if Wrap(max - min) < 40 then Warned
      else Accepted
  }

  // ---------- Drawing ----------

  /** The argument of the random draw: the number of ports, in 16-bit arithmetic. */
  function Width(min: Port, max: Port): Port {
    Wrap(Wrap(max + 1) - min)
  }

  function Drawn(min: Port, k: nat): Port {
    Wrap(min + Wrap(k))
  }

  /**
   * Draws ports until one can be bound, ten times at most; a requested port is tried as it is. `tried` are
   * the ports that were tried to bind, in order; `binds` says which of the attempts the system lets succeed.
   */
  method AllocatePacketConn(min: Port, max: Port, requested: int, binds: seq<bool>)
    returns (port: Option<int>, ghost tried: seq<int>)
    requires 1 <= min <= max && |binds| == 10
    ensures 1 <= |tried| <= 10 && forall i | 0 <= i < |tried| - 1 :: !binds[i]
    ensures port == if binds[|tried| - 1] then Some(tried[|tried| - 1]) else None
    ensures port.Some? <==> if requested != 0 then binds[0] else true in binds
    ensures port.Some? ==> if requested != 0 then port.value == requested else min <= port.value <= max
    ensures requested != 0 ==> tried == [requested]
    ensures requested == 0 ==>
              && (port.None? ==> |tried| == 10)
              && forall i | 0 <= i < |tried| :: min <= tried[i] <= max
  {
    tried := [];
    if requested != 0 {
      var bound := binds[0];
      tried := [requested];
      return if bound then Some(requested) else None, tried;
    }
    for try := 0 to 10
      invariant |tried| == try && forall i | 0 <= i < |tried| :: min <= tried[i] <= max && !binds[i]
    {
      WidthExactly(min, max);
      var k := Intn(Width(min, max));
      DrawsFill(min, max, k, min);
      var p := Drawn(min, k);
      var bound := binds[try];
      tried := tried + [p];
      if !bound {
        continue;
      }
      return Some(p), tried;
    }
    port := None;
  }

  /** A random number below `n`; asking for one below zero or less panics. */
  method Intn(n: int) returns (k: nat)
    requires n > 0
    ensures k < n
  {
    k :| 0 <= k < n;
  }

  // ---------- Results ----------

  /** The remainder, without a division, where a sum or difference of ports can lie. */
  lemma WrapCases(n: int)
    requires -PORTS <= n < 2 * PORTS
    ensures Wrap(n) == if n < 0 then n + PORTS else if n < PORTS then n else n - PORTS
  {
  }

  /**
   * The 16-bit width is the number of ports exactly if the range is not empty and not the whole of 0 to
   * 65535. It is zero, which would make the draw panic, exactly if the range ends just below its start or is
   * the whole.
   */
  lemma WidthExactly(min: Port, max: Port)
    ensures Width(min, max) == max - min + 1 > 0 <==> min <= max && !(min == 0 && max == PORTS - 1)
    ensures Width(min, max) == 0 <==> min == max + 1 || (min == 0 && max == PORTS - 1)
  {
    WrapCases(max + 1);
    WrapCases(Wrap(max + 1) - min);
    hide Wrap;
  }

  /** In a usable range every draw lands in it, and every port of it is the result of exactly one draw. */
  lemma DrawsFill(min: Port, max: Port, k: nat, p: Port)
    requires 1 <= min <= max
    ensures k < Width(min, max) ==> min <= Drawn(min, k) <= max
    ensures min <= p <= max ==> p - min < Width(min, max) && Drawn(min, p - min) == p
    ensures k < Width(min, max) && Drawn(min, k) == p ==> k == p - min
  {
    WidthExactly(min, max);
    hide Width;
    if k < Width(min, max) {
      DrawnIs(min, max, k);
    }
    if min <= p <= max {
      DrawnIs(min, max, p - min);
    }
    hide Drawn;
  }

  lemma DrawnIs(min: Port, max: Port, k: nat)
    requires 1 <= min <= max && k < max - min + 1
    ensures Drawn(min, k) == min + k
  {
    WrapCases(k);
    WrapCases(min + k);
    hide Wrap;
  }

  /** With a configuration that is not rejected, a range in use is usable. */
  lemma RangesInUse(s: string)
    requires Validate(s) != Rejected && Generator(s).Some?
    ensures
      var (min, max) := Generator(s).value;
      && 1 <= min <= max
      && Width(min, max) == max - min + 1
      && (Validate(s) == Warned <==> Width(min, max) <= 40)
  {
    var (min, max) := Generator(s).value;
    hide ParsePortRange;
    WidthExactly(min, max);
    WrapCases(max - min);
    hide Wrap, Width;
  }

  lemma {:induction false} NoColonNoSplit(s: string)
    requires ':' !in s
    ensures Split(s) == [s]
  {
    if s != "" {
      NoColonNoSplit(s[1..]);
      assert [s[0]] + s[1..] == s;
    }
  }

  lemma {:induction false} JoinedSplits(a: string, b: string)
    requires ':' !in a && ':' !in b
    ensures Split(a + ":" + b) == [a, b]
  {
    var s := a + ":" + b;
    if a == "" {
      assert s[0] == ':' && s[1..] == b;
      NoColonNoSplit(b);
      assert Split(s) == [""] + [b];
    } else {
      assert s[0] == a[0] && s[1..] == a[1..] + ":" + b;
      JoinedSplits(a[1..], b);
      assert [a[0]] + a[1..] == a;
      assert Split(s) == [[a[0]] + a[1..]] + [b];
    }
  }

  /** What the parts say about the text, for one and for two parts. */
  lemma {:induction false} PartsJoin(s: string)
    ensures forall i | 0 <= i < |Split(s)| :: ':' !in Split(s)[i]
    ensures |Split(s)| == 1 ==> s == Split(s)[0]
    ensures |Split(s)| == 2 ==> s == Split(s)[0] + ":" + Split(s)[1]
  {
    if s != "" {
      var rest := Split(s[1..]);
      PartsJoin(s[1..]);
      assert s == [s[0]] + s[1..];
      if s[0] == ':' {
        assert Split(s) == [""] + rest;
      } else {
        assert Split(s) == [[s[0]] + rest[0]] + rest[1..];
        if |rest| == 2 {
          assert [s[0]] + (rest[0] + ":" + rest[1]) == [s[0]] + rest[0] + ":" + rest[1];
        }
      }
    }
  }

  /** Two parts are found exactly in what joins two texts without colons by one. */
  lemma SplitInTwo(s: string, a: string, b: string)
    ensures Split(s) == [a, b] <==> s == a + ":" + b && ':' !in a && ':' !in b
  {
    PartsJoin(s);
    if ':' !in a && ':' !in b {
      JoinedSplits(a, b);
    }
  }

  /** `s` denotes the range from `min` to `max`, in decimal, joined by the one colon. */
  ghost predicate Denotes(s: string, a: string, b: string, min: Port, max: Port) {
    s == a + ":" + b && ParseUint(a) == Some(min) && ParseUint(b) == Some(max)
  }

  lemma DigitsHaveNoColon(a: string)
    requires ParseUint(a).Some?
    ensures ':' !in a
  {
  }

  lemma ParsesWhatItDenotes(s: string, a: string, b: string, min: Port, max: Port)
    requires Denotes(s, a, b, min, max)
    ensures ParsePortRange(s) == Range(min, max)
  {
    DigitsHaveNoColon(a);
    DigitsHaveNoColon(b);
    SplitInTwo(s, a, b);
  }

  /**
   * Exactly which texts are accepted: none at all, or two decimal numbers of 16 bits joined by a colon that
   * are both zero or form a non-empty range of ports other than 0.
   */
  lemma AcceptedExactly(s: string)
    ensures Validate(s) != Rejected <==>
            || s == ""
            || exists a, b, min, max :: Denotes(s, a, b, min, max) && ((min == 0 && max == 0) || 1 <= min <= max)
  {
    if s != "" {
      var parts := Split(s);
      if |parts| == 2 && ParsePortRange(s).Range? {
        SplitInTwo(s, parts[0], parts[1]);
        assert Denotes(s, parts[0], parts[1], ParsePortRange(s).min, ParsePortRange(s).max);
      }
      forall a, b, min, max | Denotes(s, a, b, min, max)
        ensures ParsePortRange(s) == Range(min, max)
      {
        ParsesWhatItDenotes(s, a, b, min, max);
      }
    }
  }

  lemma {:induction false} DecimalParses(n: nat)
    ensures Decimal(n) != "" && AllDigits(Decimal(n)) && Value(Decimal(n)) == n
  {
    var digit := [('0' as int + n % 10) as char];
    if n < 10 {
      assert digit[..0] == "";
    } else {
      DecimalParses(n / 10);
      assert (Decimal(n / 10) + digit)[..|Decimal(n / 10)|] == Decimal(n / 10);
    }
  }

  /** Printing a range and parsing it back gives the same range. */
  lemma RangeRoundTrip(min: Port, max: Port)
    ensures ParsePortRange(Decimal(min) + ":" + Decimal(max)) == Range(min, max)
  {
    DecimalParses(min);
    DecimalParses(max);
    ParsesWhatItDenotes(Decimal(min) + ":" + Decimal(max), Decimal(min), Decimal(max), min, max);
  }

  /** The warning speaks of less than 40 ports, but it is also given for exactly 40. */
  lemma WarnsAtForty(min: Port)
    requires 1 <= min <= PORTS - 40
    ensures Validate(Decimal(min) + ":" + Decimal(min + 39)) == Warned && Width(min, min + 39) == 40
  {
    RangeRoundTrip(min, min + 39);
    assert Decimal(min) + ":" + Decimal(min + 39) != "";
    WidthExactly(min, min + 39);
  }
}
