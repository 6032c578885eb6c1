/**
 * The string primitives the bot's handlers lean on: JavaScript's rendering of
 * an integer id, a clean decimal reader for the `agent_<id>` assignment key,
 * `split(':')[1]` on callback payloads, `trim()` with JavaScript's notion of
 * white space, ASCII lower-casing and the "first k characters plus '...'"
 * truncation used for previews.
 */
module Text {
  import opened Wrappers

  // ---------------------------------------------------------------------------
  // Decimal rendering and reading
  // ---------------------------------------------------------------------------

  predicate IsDigit(c: char) {
    '0' <= c <= '9'
  }

  function DigitChar(d: nat): (c: char)
    requires d < 10
    ensures IsDigit(c)
  {
    ('0' as int + d) as char
  }

  function DigitValue(c: char): (d: nat)
    requires IsDigit(c)
    ensures d < 10
  {
    c as int - '0' as int
  }

  /** The decimal digits of `n`, most significant first, without leading zeros. */
  function NatToString(n: nat): (s: string)
    ensures |s| >= 1
    ensures forall i :: 0 <= i < |s| ==> IsDigit(s[i])
    decreases n
  {
    if n < 10 then [DigitChar(n)] else NatToString(n / 10) + [DigitChar(n % 10)]
  }

  /** What a JavaScript template literal prints for an integral Number. */
  function IntToString(i: int): (s: string)
    ensures |s| >= 1
  {
    if i < 0 then "-" + NatToString(-i) else NatToString(i)
  }

  /** A clean decimal reader: one or more digits and nothing else. */
  function ParseNat(s: string): (r: Option<nat>)
    ensures r.Some? ==> |s| >= 1 && forall i :: 0 <= i < |s| ==> IsDigit(s[i])
    decreases |s|
  {
    if |s| == 0 || !IsDigit(s[|s| - 1]) then None
    else if |s| == 1 then Some(DigitValue(s[0]))
    else match ParseNat(s[..|s| - 1])
      case None => None
      case Some(p) => Some(p * 10 + DigitValue(s[|s| - 1]))
  }

  /** A clean signed decimal reader: an optional '-' followed by digits only. */
  function ParseInt(s: string): Option<int> {
    if |s| >= 1 && s[0] == '-' then
      match ParseNat(s[1..])
      case None => None
      case Some(n) => var v: int := 0 - n; Some(v)
    else
      match ParseNat(s)
      case None => None
      case Some(n) => Some(n)
  }

  lemma {:induction false} ParseNatRoundTrip(n: nat)
    ensures ParseNat(NatToString(n)) == Some(n)
    decreases n
  {
    if n >= 10 {
      var s := NatToString(n);
      assert s[..|s| - 1] == NatToString(n / 10);
      ParseNatRoundTrip(n / 10);
    }
  }

  /** Reading back what `IntToString` printed yields the same id. */
  lemma ParseIntRoundTrip(i: int)
    ensures ParseInt(IntToString(i)) == Some(i)
  {
    var s := IntToString(i);
    if i < 0 {
      var digits := NatToString(-i);
      assert s == "-" + digits;
      assert s[0] == '-' && s[1..] == digits;
      ParseNatRoundTrip(-i);
    } else {
      assert s == NatToString(i);
      assert IsDigit(s[0]) && s[0] != '-';
      ParseNatRoundTrip(i);
    }
  }

  /** Two ids print the same only if they are the same id. */
  lemma IntToStringInjective(a: int, b: int)
    requires IntToString(a) == IntToString(b)
    ensures a == b
  {
    ParseIntRoundTrip(a);
    ParseIntRoundTrip(b);
  }

  // ---------------------------------------------------------------------------
  // Prefixes and colon-separated fields
  // ---------------------------------------------------------------------------

  predicate StartsWith(s: string, prefix: string) {
    |prefix| <= |s| && s[..|prefix|] == prefix
  }

  /** The characters of `s` before its first ':' (all of `s` when it has none). */
  function UntilColon(s: string): (r: string)
    ensures r <= s && ':' !in r
    ensures |r| < |s| ==> s[|r|] == ':'
  {
    if |s| == 0 || s[0] == ':' then [] else [s[0]] + UntilColon(s[1..])
  }

  /** JavaScript's `s.split(':')[1]` for a string holding at least one ':'. */
  function SecondField(s: string): string
    requires ':' in s
  {
    var first := UntilColon(s);
    UntilColon(s[|first| + 1..])
  }

  lemma {:induction false} UntilColonOfPrefixed(head: string, rest: string)
    requires ':' !in head
    ensures UntilColon(head + [':'] + rest) == head
    decreases |head|
  {
    if |head| > 0 {
      assert (head + [':'] + rest)[1..] == head[1..] + [':'] + rest;
      UntilColonOfPrefixed(head[1..], rest);
    }
  }

  /** For a payload `head + ":" + rest`, the second field is `rest` up to its own first ':'. */
  lemma SecondFieldAfterTag(head: string, rest: string)
    requires ':' !in head
    ensures ':' in head + [':'] + rest
    ensures SecondField(head + [':'] + rest) == UntilColon(rest)
  {
    var s := head + [':'] + rest;
    assert s[|head|] == ':';
    UntilColonOfPrefixed(head, rest);
    assert s[|head| + 1..] == rest;
  }

  /**
   * A payload that starts with `tag:` holds a ':', and its second field is
   * what follows the tag up to the next ':'.
   */
  lemma TaggedPayload(tag: string, data: string)
    requires ':' !in tag && StartsWith(data, tag + ":")
    ensures ':' in data
    ensures SecondField(data) == UntilColon(data[|tag| + 1..])
  {
    assert data == tag + [':'] + data[|tag| + 1..];
    SecondFieldAfterTag(tag, data[|tag| + 1..]);
  }

  // ---------------------------------------------------------------------------
  // White space and trim()
  // ---------------------------------------------------------------------------

  /** JavaScript's WhiteSpace and LineTerminator characters (what `\s` and `trim()` use). */
  predicate IsJsSpace(c: char) {
    var k := c as int;
    (0x09 <= k <= 0x0D) || k == 0x20 || k == 0xA0 || k == 0x1680
    || (0x2000 <= k <= 0x200A) || k == 0x2028 || k == 0x2029 || k == 0x202F
    || k == 0x205F || k == 0x3000 || k == 0xFEFF
  }

  function TrimStart(s: string): (r: string)
    ensures |r| <= |s| && r == s[|s| - |r|..]
    ensures forall i :: 0 <= i < |s| - |r| ==> IsJsSpace(s[i])
    ensures r == [] || !IsJsSpace(r[0])
  {
    if |s| > 0 && IsJsSpace(s[0]) then TrimStart(s[1..]) else s
  }

  function TrimEnd(s: string): (r: string)
    ensures |r| <= |s| && r == s[..|r|]
    ensures forall i :: |r| <= i < |s| ==> IsJsSpace(s[i])
    ensures r == [] || !IsJsSpace(r[|r| - 1])
  {
    if |s| > 0 && IsJsSpace(s[|s| - 1]) then TrimEnd(s[..|s| - 1]) else s
  }

  /**
   * JavaScript's `trim()`: the part of `s` left once the white space at both
   * ends is removed; empty exactly when `s` is white space only.
   */
  function Trim(s: string): (r: string)
    ensures r == [] || (!IsJsSpace(r[0]) && !IsJsSpace(r[|r| - 1]))
    ensures r == [] <==> forall i :: 0 <= i < |s| ==> IsJsSpace(s[i])
    ensures exists i :: InnerPart(s, r, i)
  {
    TrimEmptyOnlyForSpaces(s);
    TrimIsInner(s);
    TrimEnd(TrimStart(s))
  }

  /** What `TrimStart` leaves, `TrimEnd` then shortens further: together they cut white space off both ends. */
  lemma TrimIsInner(s: string)
    ensures InnerPart(s, TrimEnd(TrimStart(s)), |s| - |TrimStart(s)|)
  {
    var a := TrimStart(s);
    var b := TrimEnd(a);
    var i := |s| - |a|;
    TrimInnerSteps(s, a, b, i);
  }

  /** A suffix of `s`, then a prefix of that suffix, is a slice of `s` with white space cut from both sides. */
  lemma TrimInnerSteps(s: string, a: string, b: string, i: int)
    requires |a| <= |s| && a == s[|s| - |a|..] && i == |s| - |a|
    requires |b| <= |a| && b == a[..|b|]
    requires forall k :: 0 <= k < i ==> IsJsSpace(s[k])
    requires forall k :: |b| <= k < |a| ==> IsJsSpace(a[k])
    ensures InnerPart(s, b, i)
  {
    assert b == s[i..i + |b|];
    forall k | i + |b| <= k < |s|
      ensures IsJsSpace(s[k])
    {
      assert s[k] == a[k - i];
    }
  }

  /** `r` is the slice of `s` starting at `i`, and everything around it is white space. */
  predicate InnerPart(s: string, r: string, i: int) {
    && 0 <= i && i + |r| <= |s| && r == s[i..i + |r|]
    && (forall k :: 0 <= k < i ==> IsJsSpace(s[k]))
    && (forall k :: i + |r| <= k < |s| ==> IsJsSpace(s[k]))
  }

  lemma TrimEmptyOnlyForSpaces(s: string)
    ensures var b := TrimEnd(TrimStart(s));
      (b == [] || !IsJsSpace(b[0]))
      && (b == [] <==> forall i :: 0 <= i < |s| ==> IsJsSpace(s[i]))
  {
    var a := TrimStart(s);
    if a != [] {
      TrimEndKeepsHead(a);
      assert a[0] == s[|s| - |a|];
    }
  }

  /** Trimming twice is trimming once. */
  lemma TrimIdempotent(s: string)
    ensures Trim(Trim(s)) == Trim(s)
  {
    var m := Trim(s);
    if m != [] {
      assert TrimStart(m) == m;
      assert TrimEnd(m) == m;
    }
  }

  /** The part of `s` from index `k` on trims to nothing exactly when it is all white space. */
  lemma TrimOfSuffix(s: string, k: nat)
    requires k <= |s|
    ensures Trim(s[k..]) == [] <==> forall i :: k <= i < |s| ==> IsJsSpace(s[i])
  {
    assert forall i :: k <= i < |s| ==> s[i] == s[k..][i - k];
  }

  lemma {:induction false} TrimEndKeepsHead(a: string)
    requires a != [] && !IsJsSpace(a[0])
    ensures TrimEnd(a) != [] && TrimEnd(a)[0] == a[0]
    decreases |a|
  {
    if IsJsSpace(a[|a| - 1]) {
      TrimEndKeepsHead(a[..|a| - 1]);
    }
  }

  // ---------------------------------------------------------------------------
  // Case and truncation
  // ---------------------------------------------------------------------------

  /** Lower-cases ASCII letters and leaves every other character alone. */
  function LowerAscii(c: char): (r: char)
    ensures 'A' <= c <= 'Z' ==> 'a' <= r <= 'z' && r as int == c as int + 32
    ensures !('A' <= c <= 'Z') ==> r == c
  {
    if 'A' <= c <= 'Z' then (c as int + 32) as char else c
  }

  /**
   * `s` itself when it has at most `limit` characters, otherwise its first
   * `keep` characters followed by "...".
   */
  function Truncate(s: string, limit: nat, keep: nat): (r: string)
    requires keep + 3 <= limit
    ensures |r| <= limit
    ensures (r == s) == (|s| <= limit)
    ensures |s| > limit ==> |r| == keep + 3 && r[..keep] == s[..keep] && r[keep..] == "..."
  {
    if |s| > limit then s[..keep] + "..." else s
  }
}
