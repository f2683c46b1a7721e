/** Which strings Python's `ipaddress.ip_address` accepts, as far as
    `urlsplit` asks it about the host between brackets: dotted IPv4 text, and
    IPv6 text with an optional zone. Only acceptance is modelled, not the
    address value. */
module IpAddress {
  import opened Values
  import opened Text

  /** One octet of `IPv4Address`: one to three ASCII digits, no leading zero
      unless the octet is "0", and at most 255. */
  predicate Octet(p: string)
  {
    0 < |p| <= 3 && AllDigits(p) && (p == "0" || p[0] != '0') && DigitsValue(p) <= 255
  }

  /** `IPv4Address(s)` succeeds: exactly four dot-separated octets. */
  predicate IsIPv4(s: string)
  {
    var octets := Split(s, '.');
    |octets| == 4 && Octet(octets[0]) && Octet(octets[1]) && Octet(octets[2]) && Octet(octets[3])
  }

  // ------------------------------------------------------------ dotted text

  predicate NoDot(s: string) { forall k :: 0 <= k < |s| ==> s[k] != '.' }

  lemma SplitCons(a: string, rest: string)
    requires NoDot(a)
    ensures Split(a + "." + rest, '.') == [a] + Split(rest, '.')
  {
    var s := a + "." + rest;
    IndexOfAt(s, '.', |a|);
    assert s[..|a|] == a && s[|a| + 1..] == rest;
  }

  lemma SplitWhole(d: string)
    requires NoDot(d)
    ensures Split(d, '.') == [d]
  {
  }

  /** A dotted quad splits into its four parts. */
  lemma SplitFourParts(a: string, b: string, c: string, d: string)
    requires NoDot(a) && NoDot(b) && NoDot(c) && NoDot(d)
    ensures Split(a + "." + (b + "." + (c + "." + d)), '.') == [a, b, c, d]
  {
    var bcd := b + "." + (c + "." + d);
    SplitThreeParts(b, c, d);
    SplitCons(a, bcd);
    ConsFour(a, b, c, d);
  }

  /** Proved apart, so that the list equality does not meet the split
      terms of the lemma above. */
  lemma ConsFour(a: string, b: string, c: string, d: string)
    ensures [a] + [b, c, d] == [a, b, c, d]
  {
  }

  lemma SplitThreeParts(b: string, c: string, d: string)
    requires NoDot(b) && NoDot(c) && NoDot(d)
    ensures Split(b + "." + (c + "." + d), '.') == [b, c, d]
  {
    SplitTwoParts(c, d);
    SplitCons(b, c + "." + d);
    assert [b] + [c, d] == [b, c, d];
  }

  lemma SplitTwoParts(c: string, d: string)
    requires NoDot(c) && NoDot(d)
    ensures Split(c + "." + d, '.') == [c, d]
  {
    SplitWhole(d);
    SplitCons(c, d);
  }

  lemma DecimalHasNoDot(n: nat)
    ensures NoDot(Decimal(n))
  {
    var s := Decimal(n);
    assert forall k :: 0 <= k < |s| ==> IsDigit(s[k]);
  }

  /** `str(n)` of a number up to 255 is an octet. */
  lemma DecimalOctet(n: nat)
    requires n <= 255
    ensures Octet(Decimal(n))
  {
    var s := Digits(n);
    DigitsValueOfDigits(n);
    if n >= 10 {
      var t := Digits(n / 10);
      if n / 10 >= 10 {
        assert |Digits(n / 10 / 10)| == 1;
      }
      assert |t| <= 2;
    }
  }

  /** Four octets joined by dots are IPv4 text. */
  lemma QuadIsIPv4(a: string, b: string, c: string, d: string)
    requires Octet(a) && Octet(b) && Octet(c) && Octet(d)
    ensures IsIPv4(a + "." + (b + "." + (c + "." + d)))
  {
    assert NoDot(a) && NoDot(b) && NoDot(c) && NoDot(d);
    SplitFourParts(a, b, c, d);
  }

  // ------------------------------------------------------------ IPv6

  predicate IsHexDigit(c: char) { IsDigit(c) || 'a' <= c <= 'f' || 'A' <= c <= 'F' }

  /** `_parse_hextet` succeeds: one to four hexadecimal digits. */
  predicate Hextet(p: string)
  {
    0 < |p| <= 4 && HexDigits(p)
  }

  predicate HexDigits(p: string)
  {
    p == [] || (IsHexDigit(p[0]) && HexDigits(p[1..]))
  }

  lemma {:induction false} HextetChars(p: string)
    requires HexDigits(p)
    ensures forall k :: 0 <= k < |p| ==> IsHexDigit(p[k])
  {
    if p != [] {
      HextetChars(p[1..]);
      assert forall k :: 1 <= k < |p| ==> p[k] == p[1..][k - 1];
    }
  }

  /** The parts of IPv6 text split at ':', at least three of them, with a
      last part holding a '.' replaced by the two hextets of the IPv4
      address it must be. */
  function V6Parts(addr: string): (r: Option<seq<string>>)
    ensures r.Some? ==> |r.value| >= 3
  {
    var parts := Split(addr, ':');
    var last := parts[|parts| - 1];
    if |parts| < 3 then None
    else if IndexOf(last, '.').Some? then
      if IsIPv4(last) then Some(parts[..|parts| - 1] + ["0", "0"]) else None
    else Some(parts)
  }

  /** The positions from i on, short of the last part, that hold an empty
      part: each marks a "::". */
  function EmptyMiddles(parts: seq<string>, i: nat): (r: seq<nat>)
    ensures forall j :: 0 <= j < |r| ==> i <= r[j] < |parts| - 1
    decreases |parts| - i
  {
    if i + 1 >= |parts| then []
    else (if parts[i] == "" then [i] else []) + EmptyMiddles(parts, i + 1)
  }

  /** Every part is a hextet. */
  predicate AllHextets(parts: seq<string>)
  {
    parts == [] || (Hextet(parts[0]) && AllHextets(parts[1..]))
  }

  /** The part checks of `_ip_int_from_string`: at most nine parts; with one
      "::", an empty first (last) part only as its own half, at most seven
      hextets around it, each a valid hextet; without one, exactly eight
      hextets. */
  predicate V6Hextets(parts: seq<string>)
    requires |parts| >= 3
  {
    var n := |parts|;
    var skips := EmptyMiddles(parts, 1);
    if n > 9 || |skips| > 1 then false
    else if |skips| == 1 then
      var s := skips[0];
      var hi := if parts[0] == "" then s - 1 else s;
      var lo := if parts[n - 1] == "" then n - s - 2 else n - s - 1;
      && (parts[0] == "" ==> hi == 0)
      && (parts[n - 1] == "" ==> lo == 0)
      && hi + lo <= 7
      && AllHextets(parts[..hi])
      && AllHextets(parts[n - lo..])
    else
      n == 8 && AllHextets(parts)
  }

  predicate V6Address(addr: string)
  {
    match V6Parts(addr)
    case None => false
    case Some(parts) => V6Hextets(parts)
  }

  /** The address before an optional '%' zone; None when the zone is empty
      or holds a second '%'. */
  function Unzoned(s: string): (r: Option<string>)
    ensures r.Some? ==> |r.value| <= |s|
  {
    match IndexOf(s, '%')
    case None => Some(s)
    case Some(i) => if i + 1 < |s| && IndexOf(s[i + 1..], '%').None? then Some(s[..i]) else None
  }

  /** `IPv6Address(s)` succeeds: no '/', a well-formed zone if any, and an
      IPv6 address before it. */
  predicate IsIPv6(s: string)
  {
    && IndexOf(s, '/').None?
    && match Unzoned(s)
       case None => false
       case Some(addr) => V6Address(addr)
  }

  /** The end of the run of hexadecimal digits starting at i. */
  function HexRunEnd(h: string, i: nat): (r: nat)
    requires i <= |h|
    ensures i <= r <= |h|
    decreases |h| - i
  {
    if i < |h| && IsHexDigit(h[i]) then HexRunEnd(h, i + 1) else i
  }

  /** A match of the IPvFuture pattern: 'v', hexadecimal digits, '.', and at
      least one more character. */
  predicate IpvFuture(h: string)
  {
    |h| > 0 && h[0] == 'v' &&
    var k := HexRunEnd(h, 1);
    1 < k && k + 1 < |h| && h[k] == '.'
  }

  /** `_check_bracketed_host`: None when the host passes; otherwise the
      reason for the ValueError. A host starting with 'v' must match the
      IPvFuture pattern; any other must be IPv6 text, IPv4 text being refused
      in brackets. */
  function BracketedHostError(h: string): (r: Option<string>)
    ensures r.None? <==> (if StartsWith(h, "v") then IpvFuture(h) else !IsIPv4(h) && IsIPv6(h))
  {
    if StartsWith(h, "v") then
      if IpvFuture(h) then None else Some("IPvFuture address is invalid")
    else if IsIPv4(h) then Some("An IPv4 address cannot be in brackets")
    else if IsIPv6(h) then None
    else Some("does not appear to be an IPv4 or IPv6 address")
  }

  /** "::" followed by one hextet, such as "::1", is IPv6 text. */
  lemma CompressedIsIPv6(h: string)
    requires Hextet(h)
    ensures IsIPv6("::" + h)
  {
    var s := "::" + h;
    HextetChars(h);
    assert forall k :: 0 <= k < |h| ==> h[k] != ':' && h[k] != '.' && h[k] != '/' && h[k] != '%';
    IndexOfAt(s, ':', 0);
    assert s[1..] == ":" + h;
    IndexOfAt(s[1..], ':', 0);
    assert s[1..][1..] == h;
    assert Split(h, ':') == [h];
    assert Split(s, ':') == ["", "", h];
    assert IndexOf(h, '.').None?;
    var parts := ["", "", h];
    assert EmptyMiddles(parts, 2) == [];
    assert EmptyMiddles(parts, 1) == [1];
    assert parts[2..] == [h] && AllHextets([h][1..]);
    forall k | 0 <= k < |s| ensures s[k] != '/' && s[k] != '%' {
      if k >= 2 { assert s[k] == h[k - 2]; }
    }
  }
}
