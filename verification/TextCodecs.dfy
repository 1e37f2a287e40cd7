/** Numbers kept as text in Redis: cache versions (common/utils/cache_version.hpp)
    and idempotency states (common/utils/reliability_state.hpp). */
module TextCodecs {
  import opened Wrappers

  const UNKNOWN_VERSION: u64 := WRAP - 1

  predicate IsDigit(c: char) {
    '0' <= c <= '9'
  }

  predicate AllDigits(s: string) {
    forall i :: 0 <= i < |s| ==> IsDigit(s[i])
  }

  function Digit(c: char): (d: nat)
    requires IsDigit(c)
    ensures d < 10
  {
    (c - '0') as int
  }

  /** The number a digit string stands for. */
  function Value(s: string): nat
    requires AllDigits(s)
  {
    if s == [] then 0 else Value(s[..|s| - 1]) * 10 + Digit(s[|s| - 1])
  }

  /** More digits never make a number smaller. */
  lemma {:induction false} ValueGrows(s: string, i: nat)
    requires AllDigits(s) && i <= |s|
    ensures Value(s[..i]) <= Value(s)
  {
    if i == |s| {
      assert s[..i] == s;
    } else {
      assert s[..|s| - 1][..i] == s[..i];
      ValueGrows(s[..|s| - 1], i);
    }
  }

  /** parse_cache_version: the number, exactly for a non-empty digit string that stands for less than the unknown
      version.  The 64-bit accumulator never wraps: every value it takes is that of a prefix. */
  method ParseCacheVersion(raw: string) returns (r: Option<u64>)
    ensures r.Some? <==> raw != [] && AllDigits(raw) && Value(raw) < UNKNOWN_VERSION
    ensures r.Some? ==> r.value == Value(raw)
  {
    if raw == [] { return None; }
    var parsed: u64, i := 0, 0;
    while i < |raw|
      invariant 0 <= i <= |raw| && AllDigits(raw[..i]) && parsed == Value(raw[..i])
    {
      if raw[i] < '0' || raw[i] > '9' { return None; }
      var digit := Digit(raw[i]);
      assert raw[..i + 1][..i] == raw[..i];
      if parsed > (UNKNOWN_VERSION - digit) / 10 {
        if AllDigits(raw) { ValueGrows(raw, i + 1); }
        return None;
      }
      parsed, i := parsed * 10 + digit, i + 1;
    }
    assert raw[..i] == raw;
    if parsed == UNKNOWN_VERSION { return None; }
    return Some(parsed);
  }

  // ----- Idempotency states -----

  datatype Idempotency = Empty | Pending | Accepted(id: u64) | Persisted(id: u64) | Corrupt

  const ACCEPTED := "accepted:"
  const PERSISTED := "persisted:"

  /** std::to_string */
  function Decimal(n: nat): string {
    (if n < 10 then [] else Decimal(n / 10)) + ['0' + (n % 10) as char]
  }

  function Serialize(s: Idempotency): string {
    match s
    case Pending => "pending"
    case Accepted(id) => ACCEPTED + Decimal(id)
    case Persisted(id) => PERSISTED + Decimal(id)
    case _ => ""
  }

  predicate StartsWith(s: string, prefix: string) {
    |prefix| <= |s| && s[..|prefix|] == prefix
  }

  /** The id after a prefix: all digits, in 64 bits, not zero. */
  function ParseId(raw: string): Option<u64> {
    if raw == [] || !AllDigits(raw) || Value(raw) >= WRAP || Value(raw) == 0 then None else Some(Value(raw))
  }

  function Parse(s: string): Idempotency {
    if s == [] then Empty
    else if s == "pending" then Pending
    else if StartsWith(s, ACCEPTED) then
      var id := ParseId(s[|ACCEPTED|..]);
      if id.Some? then Accepted(id.value) else Corrupt
    else if StartsWith(s, PERSISTED) then
      var id := ParseId(s[|PERSISTED|..]);
      if id.Some? then Persisted(id.value) else Corrupt
    else Corrupt
  }

  lemma {:induction false} DecimalHasValue(n: nat)
    ensures AllDigits(Decimal(n)) && Decimal(n) != [] && Value(Decimal(n)) == n
    ensures Decimal(n)[0] == '0' ==> n == 0
  {
    var c := '0' + (n % 10) as char;
    var front := if n < 10 then [] else Decimal(n / 10);
    if n >= 10 { DecimalHasValue(n / 10); }
    assert Decimal(n)[..|front|] == front && Digit(c) == n % 10;
  }

  /** Writing a number back gives the digits it was read from, unless they began with a zero. */
  lemma {:induction false} ValueHasDecimal(s: string)
    requires AllDigits(s) && s != [] && s[0] != '0'
    ensures Value(s) > 0 && Decimal(Value(s)) == s
  {
    var front, c := s[..|s| - 1], s[|s| - 1];
    assert s == front + [c];
    if front != [] {
      ValueHasDecimal(front);
      assert Value(s) / 10 == Value(front);
    }
    assert '0' + Digit(c) as char == c;
  }

  predicate Storable(s: Idempotency) {
    s.Pending? || ((s.Accepted? || s.Persisted?) && s.id != 0)
  }

  lemma PrefixesDiffer(d: string)
    ensures !StartsWith(PERSISTED + d, ACCEPTED) && ACCEPTED + d != "pending" && PERSISTED + d != "pending"
  {
    assert (PERSISTED + d)[0] == 'p' && ACCEPTED[0] == 'a';
    assert (ACCEPTED + d)[0] == 'a';
    assert (PERSISTED + d)[2] == 'r';
  }

  /** What is serialized is parsed back, exactly for the states that are stored; any other comes back changed
      unless it is the empty one. */
  lemma RoundTrip(s: Idempotency)
    ensures Parse(Serialize(s)) == s <==> Storable(s) || s.Empty?
  {
    match s {
      case Accepted(id) =>
        DecimalHasValue(id);
        PrefixesDiffer(Decimal(id));
        assert Serialize(s)[|ACCEPTED|..] == Decimal(id);
      case Persisted(id) =>
        DecimalHasValue(id);
        PrefixesDiffer(Decimal(id));
        assert Serialize(s)[|PERSISTED|..] == Decimal(id);
      case _ =>
    }
  }

  /** Where the digits of a stored state begin. */
  function IdPart(s: string): string {
    if StartsWith(s, ACCEPTED) then s[|ACCEPTED|..] else if StartsWith(s, PERSISTED) then s[|PERSISTED|..] else ""
  }

  /** A string that parses to a stored state is the one written for it exactly if its id has no leading zero. */
  lemma ParsedIsSerialized(s: string)
    requires Storable(Parse(s)) && s != "pending"
    ensures Serialize(Parse(s)) == s <==> IdPart(s)[0] != '0'
  {
    var raw := IdPart(s);
    var prefix := if StartsWith(s, ACCEPTED) then ACCEPTED else PERSISTED;
    assert s == prefix + raw && Serialize(Parse(s)) == prefix + Decimal(Value(raw));
    if raw[0] == '0' {
      DecimalHasValue(Value(raw));
      assert Serialize(Parse(s))[|prefix|..] == Decimal(Value(raw)) && s[|prefix|..] == raw;
    } else {
      ValueHasDecimal(raw);
    }
  }
}
