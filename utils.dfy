/** The URL safety gate that guards feed fetching against server-side request
    forgery, the part of `urllib.parse.urlparse` it relies on (scheme and
    host name), and the fetch of one RSS feed into a summary of its entries. */
module Utils {
  import opened Values
  import opened Text
  import opened Http
  import opened IpAddress

  // ------------------------------------------------------------ urlsplit

  /** `url.lstrip(...)` of the C0 control characters and space. */
  function LStripControls(s: string): (r: string)
    ensures |r| <= |s| && r == s[|s| - |r|..]
    ensures r != [] ==> r[0] > ' '
  {
    if s != [] && s[0] <= ' ' then LStripControls(s[1..]) else s
  }

  predicate IsUnsafeByte(c: char) { c == '\t' || c == '\r' || c == '\n' }

  /** Removal of tab, carriage return and line feed anywhere in the URL. */
  function RemoveUnsafe(s: string): (r: string)
    ensures forall k :: 0 <= k < |r| ==> !IsUnsafeByte(r[k])
    ensures (forall k :: 0 <= k < |s| ==> !IsUnsafeByte(s[k])) ==> r == s
  {
    if s == [] then []
    else (if IsUnsafeByte(s[0]) then [] else [s[0]]) + RemoveUnsafe(s[1..])
  }

  predicate IsAsciiLetter(c: char) { 'a' <= c <= 'z' || 'A' <= c <= 'Z' }

  predicate IsSchemeChar(c: char) { IsAsciiLetter(c) || IsDigit(c) || c == '+' || c == '-' || c == '.' }

  predicate IsNetlocEnd(c: char) { c == '/' || c == '?' || c == '#' }

  /** The first position from `start` on holding '/', '?' or '#', or the end. */
  function NetlocEnd(s: string, start: nat): (r: nat)
    requires start <= |s|
    ensures start <= r <= |s|
    ensures forall k :: start <= k < r ==> !IsNetlocEnd(s[k])
    ensures r < |s| ==> IsNetlocEnd(s[r])
    decreases |s| - start
  {
    if start == |s| || IsNetlocEnd(s[start]) then start else NetlocEnd(s, start + 1)
  }

  predicate Contains(s: string, c: char) { exists k :: 0 <= k < |s| && s[k] == c }

  /** The two components of `urlparse(url)` the gate reads. */
  datatype UrlParts = UrlParts(scheme: string, netloc: string)

  /** A leading scheme: a letter, then letters, digits, '+', '-' or '.', up
      to the first ':'. */
  function SchemeEnd(u: string): Option<nat>
  {
    match IndexOf(u, ':')
    case None => None
    case Some(i) =>
      if i > 0 && IsAsciiLetter(u[0]) && forall k :: 0 <= k < i ==> IsSchemeChar(u[k]) then Some(i) else None
  }

  /** The URL after the leading strip and the removal of tab, CR and LF. */
  function Prepared(url: string): string
  {
    RemoveUnsafe(LStripControls(url))
  }

  /** The scheme, lower-cased, or "" when there is none. */
  function SchemeOf(u: string): string
  {
    match SchemeEnd(u)
    case Some(i) => Lower(u[..i])
    case None => ""
  }

  /** What follows the scheme and its ':'. */
  function AfterScheme(u: string): string
  {
    match SchemeEnd(u)
    case Some(i) => u[i + 1..]
    case None => u
  }

  /** The network location: after "//", up to the first '/', '?' or '#'. */
  function NetlocOf(rest: string): string
  {
    if |rest| >= 2 && rest[..2] == "//" then rest[2..NetlocEnd(rest, 2)] else ""
  }

  /** `urlsplit` up to the network location, as CPython 3.11.12, 3.12.9,
      3.13.2 and later releases do it: Err where it raises ValueError, over
      unbalanced brackets or a network location with both brackets that fails
      `_check_bracketed_netloc`. A network location it accepts has both
      brackets or neither, and passes that check. */
  function SplitUrl(url: string): (r: Result<UrlParts, string>)
    ensures r.Ok? ==> (Contains(r.value.netloc, '[') <==> Contains(r.value.netloc, ']'))
    ensures r.Ok? && Contains(r.value.netloc, '[') && Contains(r.value.netloc, ']') ==> BracketedNetlocError(r.value.netloc).None?
  {
    var u := Prepared(url);
    var netloc := NetlocOf(AfterScheme(u));
    if Contains(netloc, '[') != Contains(netloc, ']') then Err("Invalid IPv6 URL")
    else if Contains(netloc, '[') && BracketedNetlocError(netloc).Some? then Err(BracketedNetlocError(netloc).value)
    else Ok(UrlParts(SchemeOf(u), netloc))
  }

  /** `_check_bracketed_netloc`, which `urlsplit` calls when the network
      location holds both brackets. In the host part after the last '@',
      nothing may precede a '[', and after the first ']' that follows it
      only a ':' port may follow; the text between must pass
      `_check_bracketed_host`. A host part with no '[' (the brackets standing
      in the user information) has its text before the first ':' checked
      the same way. None when it passes, otherwise the reason for the
      ValueError. */
  function BracketedNetlocError(netloc: string): Option<string>
    requires Contains(netloc, '[') && Contains(netloc, ']')
  {
    var hostinfo := AfterLast(netloc, '@');
    match IndexOf(hostinfo, '[')
    case None => BracketedHostError(BeforeFirst(hostinfo, ':'))
    case Some(i) =>
      if i > 0 then Some("Invalid IPv6 URL")
      else
        var bracketed := hostinfo[1..];
        var port := match IndexOf(bracketed, ']')
          case None => ""
          case Some(j) => bracketed[j + 1..];
        if port != [] && port[0] != ':' then Some("Invalid IPv6 URL")
        else BracketedHostError(BeforeFirst(bracketed, ']'))
  }

  /** The text after the last occurrence of c, or all of s. */
  function AfterLast(s: string, c: char): string
  {
    match LastIndexOf(s, c)
    case None => s
    case Some(i) => s[i + 1..]
  }

  /** The text before the first occurrence of c, or all of s. */
  function BeforeFirst(s: string, c: char): string
  {
    match IndexOf(s, c)
    case None => s
    case Some(i) => s[..i]
  }

  /** `parsed.hostname`: the host of the network location after any user
      information, inside brackets or else before a port; None when empty;
      lower-cased up to a '%' zone. */
  function Hostname(netloc: string): (h: Option<string>)
    ensures h.Some? ==> h.value != []
  {
    var hostinfo := AfterLast(netloc, '@');
    var host := match IndexOf(hostinfo, '[')
      case Some(i) => BeforeFirst(hostinfo[i + 1..], ']')
      case None => BeforeFirst(hostinfo, ':');
    if host == [] then None else Some(ZoneLower(host))
  }

  /** A host name lower-cased up to its '%' zone, which keeps its case. */
  function ZoneLower(host: string): (r: string)
    ensures |r| == |host|
  {
    match IndexOf(host, '%')
    case None => Lower(host)
    case Some(i) => Lower(host[..i]) + host[i..]
  }

  // ------------------------------------------------------------ validate_url

  predicate SchemeAllowed(scheme: string) { scheme == "http" || scheme == "https" }

  /** The host-name half of `validate_url`: loopback names and textual
      private prefixes are refused; a "172." host with four dot-separated
      parts is refused when its second part is 16..31 or is not an integer
      (`int()` raising falls into the handler that returns False). */
  function HostAllowed(h: Option<string>): (ok: bool)
    ensures h.Some? ==> (ok <==> !(LoopbackName(h.value) || PrivatePrefix(h.value) || Private172(h.value)))
    ensures h == Some("localhost") || h == Some("127.0.0.1") || h == Some("0.0.0.0") ==> !ok
    ensures h.Some? && (StartsWith(h.value, "192.168.") || StartsWith(h.value, "10.")) ==> !ok
    ensures h.Some? && StartsWith(h.value, "172.") && |Split(h.value, '.')| == 4 ==>
      (ok <==> PyInt(Split(h.value, '.')[1]).Some? && !(16 <= PyInt(Split(h.value, '.')[1]).value <= 31))
    ensures h.None? ==> ok
  {
    match h
    case None => true
    case Some(name) =>
      PrefixesApart(name);
      if name == "localhost" || name == "127.0.0.1" || name == "0.0.0.0" then false
      else if StartsWith(name, "192.168.") then false
      else if StartsWith(name, "10.") then false
      else if StartsWith(name, "172.") then
        var octets := Split(name, '.');
        if |octets| == 4 then
          match PyInt(octets[1])
          case None => false
          case Some(n) => !(16 <= n <= 31)
        else true
      else true
  }

  /** The three names `validate_url` lists as loopback. */
  predicate LoopbackName(name: string)
  {
    name == "localhost" || name == "127.0.0.1" || name == "0.0.0.0"
  }

  /** The textual 192.168.0.0/16 and 10.0.0.0/8 tests. */
  predicate PrivatePrefix(name: string)
  {
    StartsWith(name, "192.168.") || StartsWith(name, "10.")
  }

  /** The 172.16.0.0/12 test: a "172." name of four dot-separated parts
      whose second part is not an integer, or is one in 16..31. */
  predicate Private172(name: string)
  {
    && StartsWith(name, "172.")
    && var octets := Split(name, '.');
       && |octets| == 4
       && (PyInt(octets[1]).None? || 16 <= PyInt(octets[1]).value <= 31)
  }

  /** A "172." name is none of the names refused before it. */
  lemma PrefixesApart(name: string)
    ensures StartsWith(name, "172.") ==>
      && name != "localhost" && name != "127.0.0.1" && name != "0.0.0.0"
      && !StartsWith(name, "192.168.") && !StartsWith(name, "10.")
  {
    if StartsWith(name, "172.") {
      assert name[1] == "172."[1];
      assert name[2] == "172."[2];
    }
  }

  /** `validate_url`. */
  function ValidateUrl(url: string): bool
  {
    match SplitUrl(url)
    case Err(_) => false
    case Ok(parts) => SchemeAllowed(parts.scheme) && HostAllowed(Hostname(parts.netloc))
  }

  predicate IsHostChar(c: char) { IsAsciiLetter(c) || IsDigit(c) || c == '.' || c == '-' }

  lemma LStripKeeps(s: string)
    requires s != [] && s[0] > ' '
    ensures LStripControls(s) == s
  {
  }

  predicate Clean(s: string) { forall k :: 0 <= k < |s| ==> !IsUnsafeByte(s[k]) }

  lemma CleanAppend(a: string, b: string)
    requires Clean(a) && Clean(b)
    ensures Clean(a + b)
  {
    forall k | 0 <= k < |a + b| ensures !IsUnsafeByte((a + b)[k]) {
      if k >= |a| { assert (a + b)[k] == b[k - |a|]; }
    }
  }

  /** A scheme of letters, digits, '+', '-' and '.' before the first ':' is
      split off. */
  lemma SchemeSplit(url: string, scheme: string, after: string)
    requires url == scheme + (":" + after)
    requires scheme != [] && IsAsciiLetter(scheme[0]) && forall k :: 0 <= k < |scheme| ==> IsSchemeChar(scheme[k])
    ensures SchemeEnd(url) == Some(|scheme|)
    ensures SchemeOf(url) == Lower(scheme) && AfterScheme(url) == after
  {
    SchemeEndAt(url, scheme, after);
    assert url[..|scheme|] == scheme && url[|scheme| + 1..] == after;
  }

  lemma SchemeEndAt(url: string, scheme: string, after: string)
    requires url == scheme + (":" + after)
    requires scheme != [] && IsAsciiLetter(scheme[0]) && forall k :: 0 <= k < |scheme| ==> IsSchemeChar(scheme[k])
    ensures SchemeEnd(url) == Some(|scheme|)
  {
    assert url[|scheme|] == ':';
    assert forall k :: 0 <= k < |scheme| ==> url[k] == scheme[k];
    IndexOfAt(url, ':', |scheme|);
  }

  /** After "//", the network location runs to the first '/', '?' or '#'. */
  lemma NetlocSplit(after: string, host: string, rest: string)
    requires after == "//" + (host + rest)
    requires forall k :: 0 <= k < |host| ==> !IsNetlocEnd(host[k])
    requires rest == [] || IsNetlocEnd(rest[0])
    ensures |after| >= 2 && after[..2] == "//"
    ensures NetlocOf(after) == host
  {
    assert after[2..] == host + rest;
    assert forall k :: 2 <= k < 2 + |host| ==> after[k] == host[k - 2];
    NetlocEndAt(after, 2, 2 + |host|);
    assert after[2..2 + |host|] == host;
  }

  /** A character absent from s is found neither first nor last. */
  lemma Absent(s: string, c: char)
    requires forall k :: 0 <= k < |s| ==> s[k] != c
    ensures IndexOf(s, c).None? && LastIndexOf(s, c).None? && !Contains(s, c)
  {
  }

  /** A URL whose text needs no stripping or removal is read as written. */
  lemma UrlPrepared(url: string, scheme: string, after: string)
    requires url == scheme + (":" + after)
    requires scheme != [] && IsAsciiLetter(scheme[0]) && forall k :: 0 <= k < |scheme| ==> IsSchemeChar(scheme[k])
    requires Clean(after)
    ensures RemoveUnsafe(LStripControls(url)) == url
  {
    assert Clean(scheme);
    CleanAppend(":", after);
    CleanAppend(scheme, ":" + after);
    assert url[0] == scheme[0];
    LStripKeeps(url);
  }

  /** A network location free of brackets is accepted as the split's
      result. */
  lemma SplitPlain(url: string, scheme: string, host: string)
    requires Prepared(url) == url
    requires SchemeOf(url) == scheme
    requires NetlocOf(AfterScheme(url)) == host
    requires !Contains(host, '[') && !Contains(host, ']')
    ensures SplitUrl(url) == Ok(UrlParts(scheme, host))
  {
  }

  /** Text that can stand as a whole network location. */
  predicate NetlocText(n: string)
  {
    forall k :: 0 <= k < |n| ==> !IsNetlocEnd(n[k]) && !IsUnsafeByte(n[k])
  }

  lemma HostIsNetlocText(host: string)
    requires forall k :: 0 <= k < |host| ==> IsHostChar(host[k])
    ensures NetlocText(host) && !Contains(host, '[') && !Contains(host, ']')
  {
    Absent(host, '[');
    Absent(host, ']');
  }

  /** The pieces `urlsplit` reads from scheme "://" n followed by a path,
      query or fragment, when n holds no '/', '?', '#', tab, CR or LF: the
      prepared URL is the URL itself, the scheme is lower-cased and n is the
      network location. */
  lemma UrlPieces(url: string, scheme: string, n: string, rest: string)
    requires url == scheme + (":" + ("//" + (n + rest)))
    requires scheme != [] && IsAsciiLetter(scheme[0]) && forall k :: 0 <= k < |scheme| ==> IsSchemeChar(scheme[k])
    requires NetlocText(n)
    requires rest == [] || IsNetlocEnd(rest[0])
    requires Clean(rest)
    ensures Prepared(url) == url && SchemeOf(url) == Lower(scheme) && NetlocOf(AfterScheme(url)) == n
  {
    var after := "//" + (n + rest);
    CleanParts(n, rest);
    UrlPrepared(url, scheme, after);
    SchemeSplit(url, scheme, after);
    NetlocSplit(after, n, rest);
  }

  /** How `urlsplit` reads an ordinary URL: scheme, "://", a host name of
      letters, digits, dots and dashes, then a path, query or fragment. The
      scheme is lower-cased. */
  lemma UrlSplits(url: string, scheme: string, host: string, rest: string)
    requires url == scheme + (":" + ("//" + (host + rest)))
    requires scheme != [] && IsAsciiLetter(scheme[0]) && forall k :: 0 <= k < |scheme| ==> IsSchemeChar(scheme[k])
    requires forall k :: 0 <= k < |host| ==> IsHostChar(host[k])
    requires rest == [] || IsNetlocEnd(rest[0])
    requires Clean(rest)
    ensures SplitUrl(url) == Ok(UrlParts(Lower(scheme), host))
  {
    HostIsNetlocText(host);
    UrlPieces(url, scheme, host, rest);
    SplitPlain(url, Lower(scheme), host);
  }

  lemma CleanParts(host: string, rest: string)
    requires Clean(host) && Clean(rest)
    ensures Clean("//" + (host + rest))
  {
    CleanAppend(host, rest);
    CleanAppend("//", host + rest);
  }

  /** Such a host name is its own `hostname`, lower-cased. */
  lemma HostnamePlain(host: string)
    requires forall k :: 0 <= k < |host| ==> IsHostChar(host[k])
    ensures Hostname(host) == if host == [] then None else Some(Lower(host))
  {
    if host != [] {
      Absent(host, '@');
      Absent(host, '[');
      Absent(host, ':');
      Absent(host, '%');
      assert AfterLast(host, '@') == host;
      assert BeforeFirst(host, ':') == host;
    }
  }

  /** The gate's verdict on an ordinary URL: the lower-cased scheme and the
      lower-cased host name decide it. */
  lemma UrlShape(url: string, scheme: string, host: string, rest: string)
    requires url == scheme + (":" + ("//" + (host + rest)))
    requires scheme != [] && IsAsciiLetter(scheme[0]) && forall k :: 0 <= k < |scheme| ==> IsSchemeChar(scheme[k])
    requires forall k :: 0 <= k < |host| ==> IsHostChar(host[k])
    requires rest == [] || IsNetlocEnd(rest[0])
    requires Clean(rest)
    ensures ValidateUrl(url) == (SchemeAllowed(Lower(scheme)) && HostAllowed(if host == [] then None else Some(Lower(host))))
  {
    UrlSplits(url, scheme, host, rest);
    HostnamePlain(host);
  }

  lemma {:induction false} NetlocEndAt(s: string, start: nat, stop: nat)
    requires start <= stop <= |s|
    requires forall k :: start <= k < stop ==> !IsNetlocEnd(s[k])
    requires stop < |s| ==> IsNetlocEnd(s[stop])
    ensures NetlocEnd(s, start) == stop
    decreases stop - start
  {
    if start < stop {
      NetlocEndAt(s, start + 1, stop);
    }
  }

  /** The verdict depends only on the prepared URL. */
  lemma SamePrepared(a: string, b: string)
    requires Prepared(a) == Prepared(b)
    ensures ValidateUrl(a) == ValidateUrl(b)
  {
    assert SplitUrl(a) == SplitUrl(b);
  }

  /** Leading spaces and control characters do not change the verdict. */
  lemma LeadingSpaceIgnored(url: string)
    ensures ValidateUrl(" " + url) == ValidateUrl(url)
  {
    assert (" " + url)[1..] == url;
    assert LStripControls(" " + url) == LStripControls(url);
    SamePrepared(" " + url, url);
  }

  /** What may stand between the brackets in the lemmas below: host-name
      characters, ':' and '%'. */
  predicate IsBracketChar(c: char) { IsHostChar(c) || c == ':' || c == '%' }

  predicate BracketText(h: string) { forall k :: 0 <= k < |h| ==> IsBracketChar(h[k]) }

  /** What the bracket checks read from "[" h "]": network-location text
      with no '@', a '[' first and a ']' last, and h between them. */
  lemma BracketPieces(h: string)
    requires BracketText(h)
    ensures var n := "[" + (h + "]");
      && NetlocText(n) && Contains(n, '[') && Contains(n, ']')
      && AfterLast(n, '@') == n && IndexOf(n, '[') == Some(0) && n[1..] == h + "]"
      && IndexOf(h + "]", ']') == Some(|h|) && (h + "]")[|h| + 1..] == [] && BeforeFirst(h + "]", ']') == h
  {
    OpenBracket(h);
    CloseBracket(h);
  }

  lemma OpenBracket(h: string)
    requires BracketText(h)
    ensures var n := "[" + (h + "]");
      && NetlocText(n) && Contains(n, '[') && Contains(n, ']')
      && AfterLast(n, '@') == n && IndexOf(n, '[') == Some(0) && n[1..] == h + "]"
  {
    var n := "[" + (h + "]");
    assert n[0] == '[' && n[|n| - 1] == ']';
    forall k | 0 <= k < |n| ensures !IsNetlocEnd(n[k]) && !IsUnsafeByte(n[k]) && n[k] != '@' {
      if 0 < k < |n| - 1 { assert n[k] == h[k - 1]; }
    }
    Absent(n, '@');
    IndexOfAt(n, '[', 0);
  }

  lemma CloseBracket(h: string)
    requires BracketText(h)
    ensures IndexOf(h + "]", ']') == Some(|h|) && (h + "]")[|h| + 1..] == [] && BeforeFirst(h + "]", ']') == h
  {
    var b := h + "]";
    forall k | 0 <= k < |h| ensures b[k] != ']' {
      assert b[k] == h[k];
    }
    IndexOfAt(b, ']', |h|);
    assert b[..|h|] == h;
  }

  /** The bracket checks on "[" h "]" come down to the check on h, and its
      host name is h, lower-cased up to its zone. */
  lemma BracketedNetloc(h: string)
    requires BracketText(h)
    ensures var n := "[" + (h + "]");
      && Contains(n, '[') && Contains(n, ']')
      && BracketedNetlocError(n) == BracketedHostError(h)
      && Hostname(n) == if h == [] then None else Some(ZoneLower(h))
  {
    BracketPieces(h);
  }

  /** How `urlsplit` reads scheme "://[" h "]" followed by a path, query or
      fragment: it raises exactly when h fails the bracketed-host check. */
  lemma BracketSplits(url: string, scheme: string, h: string, rest: string)
    requires url == scheme + (":" + ("//" + (("[" + (h + "]")) + rest)))
    requires scheme != [] && IsAsciiLetter(scheme[0]) && forall k :: 0 <= k < |scheme| ==> IsSchemeChar(scheme[k])
    requires BracketText(h)
    requires rest == [] || IsNetlocEnd(rest[0])
    requires Clean(rest)
    ensures SplitUrl(url) == match BracketedHostError(h)
      case None => Ok(UrlParts(Lower(scheme), "[" + (h + "]")))
      case Some(e) => Err(e)
  {
    BracketPieces(h);
    UrlPieces(url, scheme, "[" + (h + "]"), rest);
    BracketedNetloc(h);
  }

  /** The gate's verdict on a bracketed host: the bracketed-host check, the
      scheme, and the host name with its zone. */
  lemma BracketShape(url: string, scheme: string, h: string, rest: string)
    requires url == scheme + (":" + ("//" + (("[" + (h + "]")) + rest)))
    requires scheme != [] && IsAsciiLetter(scheme[0]) && forall k :: 0 <= k < |scheme| ==> IsSchemeChar(scheme[k])
    requires BracketText(h)
    requires rest == [] || IsNetlocEnd(rest[0])
    requires Clean(rest)
    ensures ValidateUrl(url) ==
      (BracketedHostError(h).None? && SchemeAllowed(Lower(scheme)) && HostAllowed(if h == [] then None else Some(ZoneLower(h))))
  {
    BracketSplits(url, scheme, h, rest);
    BracketedNetloc(h);
  }

  /** The first part of a split is a prefix of the text. */
  lemma SplitHead(s: string, sep: char)
    ensures StartsWith(s, Split(s, sep)[0])
  {
  }

  /** IPv4 text starts with a digit, so it is tried as an address, and
      refused. */
  lemma Ipv4HostRefused(h: string)
    requires IsIPv4(h)
    ensures BracketedHostError(h) == Some("An IPv4 address cannot be in brackets")
  {
    var first := Split(h, '.')[0];
    SplitHead(h, '.');
    assert h[0] == first[0] && IsDigit(first[0]);
    assert !StartsWith(h, "v");
  }

  lemma HostIsBracketText(h: string)
    requires forall k :: 0 <= k < |h| ==> IsHostChar(h[k])
    ensures BracketText(h)
  {
  }

  /** IPv4 text in brackets, such as "[127.0.0.2]", is refused. */
  lemma Ipv4InBracketsRefused(url: string, scheme: string, h: string, rest: string)
    requires url == scheme + (":" + ("//" + (("[" + (h + "]")) + rest)))
    requires scheme != [] && IsAsciiLetter(scheme[0]) && forall k :: 0 <= k < |scheme| ==> IsSchemeChar(scheme[k])
    requires IsIPv4(h) && forall k :: 0 <= k < |h| ==> IsHostChar(h[k])
    requires rest == [] || IsNetlocEnd(rest[0])
    requires Clean(rest)
    ensures !ValidateUrl(url)
  {
    HostIsBracketText(h);
    Ipv4HostRefused(h);
    BracketShape(url, scheme, h, rest);
  }

  /** A host name with no ':' is not IPv6 text, so unless it starts with
      'v' (and is then read as IPvFuture) it fails the bracketed-host check. */
  lemma PlainHostRefused(host: string)
    requires forall k :: 0 <= k < |host| ==> IsHostChar(host[k])
    requires host == [] || host[0] != 'v'
    ensures BracketedHostError(host).Some?
  {
    if host != [] { assert host[..1] == [host[0]]; }
    Absent(host, ':');
    Absent(host, '%');
    assert Split(host, ':') == [host];
  }

  /** What the bracket checks read from "[" b "]@" host: the host part is
      host, which holds no '[' and no ':'. */
  lemma UserinfoBracketPieces(b: string, host: string)
    requires BracketText(b)
    requires forall k :: 0 <= k < |host| ==> IsHostChar(host[k])
    ensures var n := ("[" + (b + "]")) + ("@" + host);
      && NetlocText(n) && Contains(n, '[') && Contains(n, ']')
      && AfterLast(n, '@') == host && IndexOf(host, '[').None? && BeforeFirst(host, ':') == host
  {
    UserinfoNetlocText(b, host);
    UserinfoHostPart(b, host);
    Absent(host, '[');
    Absent(host, ':');
  }

  lemma UserinfoNetlocText(b: string, host: string)
    requires BracketText(b)
    requires forall k :: 0 <= k < |host| ==> IsHostChar(host[k])
    ensures var n := ("[" + (b + "]")) + ("@" + host);
      NetlocText(n) && Contains(n, '[') && Contains(n, ']')
  {
    var n := ("[" + (b + "]")) + ("@" + host);
    var p := |b| + 2;
    assert n[0] == '[' && n[p - 1] == ']';
    forall k | 0 <= k < |n| ensures !IsNetlocEnd(n[k]) && !IsUnsafeByte(n[k]) {
      if 0 < k < p - 1 { assert n[k] == b[k - 1]; }
      else if k > p { assert n[k] == host[k - p - 1]; }
    }
  }

  /** The last '@' is the one after the ']'. */
  lemma UserinfoHostPart(b: string, host: string)
    requires forall k :: 0 <= k < |host| ==> IsHostChar(host[k])
    ensures var n := ("[" + (b + "]")) + ("@" + host);
      AfterLast(n, '@') == host
  {
    var n := ("[" + (b + "]")) + ("@" + host);
    var p := |b| + 2;
    assert n[p] == '@';
    forall k | p < k < |n| ensures n[k] != '@' {
      assert n[k] == host[k - p - 1];
    }
    assert LastIndexOf(n, '@') == Some(p);
    assert n[p + 1..] == host;
  }

  /** Brackets standing only in the user information, as in
      "http://[::1]@example.com/", do not exempt the host name from the
      bracketed-host check: a host name such as "example.com" fails it, so
      `urlsplit` raises and the URL is refused. */
  lemma UserinfoBracketsRefused(url: string, scheme: string, b: string, host: string, rest: string)
    requires url == scheme + (":" + ("//" + ((("[" + (b + "]")) + ("@" + host)) + rest)))
    requires scheme != [] && IsAsciiLetter(scheme[0]) && forall k :: 0 <= k < |scheme| ==> IsSchemeChar(scheme[k])
    requires BracketText(b)
    requires forall k :: 0 <= k < |host| ==> IsHostChar(host[k])
    requires host == [] || host[0] != 'v'
    requires rest == [] || IsNetlocEnd(rest[0])
    requires Clean(rest)
    ensures !ValidateUrl(url)
  {
    var n := ("[" + (b + "]")) + ("@" + host);
    UserinfoNetlocRefused(b, host);
    UrlPieces(url, scheme, n, rest);
    assert NetlocOf(AfterScheme(Prepared(url))) == n;
    assert SplitUrl(url).Err?;
  }

  /** The network location "[" b "]@" host fails the bracket check. */
  lemma UserinfoNetlocRefused(b: string, host: string)
    requires BracketText(b)
    requires forall k :: 0 <= k < |host| ==> IsHostChar(host[k])
    requires host == [] || host[0] != 'v'
    ensures var n := ("[" + (b + "]")) + ("@" + host);
      NetlocText(n) && Contains(n, '[') && Contains(n, ']') && BracketedNetlocError(n).Some?
  {
    var n := ("[" + (b + "]")) + ("@" + host);
    UserinfoBracketPieces(b, host);
    PlainHostRefused(host);
    assert BracketedNetlocError(n) == BracketedHostError(host);
  }

  /** "http://[::1]@example.com/" is refused. */
  lemma UserinfoBracketExample()
    ensures !ValidateUrl("http://[::1]@example.com/")
  {
    var scheme, b, host, rest := "http", "::1", "example.com", "/";
    assert scheme + (":" + ("//" + ((("[" + (b + "]")) + ("@" + host)) + rest))) == "http://[::1]@example.com/";
    UserinfoBracketsRefused(scheme + (":" + ("//" + ((("[" + (b + "]")) + ("@" + host)) + rest))), scheme, b, host, rest);
  }

  /** What the bracket checks read from a [ b ] with a before the '['. */
  lemma BeforeBracketPieces(a: string, b: string)
    requires a != [] && forall k :: 0 <= k < |a| ==> IsHostChar(a[k])
    requires BracketText(b)
    ensures var n := a + ("[" + (b + "]"));
      && NetlocText(n) && 0 < |a| < |n| - 1 && n[|a|] == '[' && n[|n| - 1] == ']'
      && (forall k :: 0 <= k < |n| ==> n[k] != '@')
      && (forall k :: 0 <= k < |a| ==> n[k] != '[')
  {
    var n := a + ("[" + (b + "]"));
    forall k | 0 <= k < |n| ensures !IsNetlocEnd(n[k]) && !IsUnsafeByte(n[k]) && n[k] != '@' {
      if k < |a| { assert n[k] == a[k]; }
      else if |a| < k < |n| - 1 { assert n[k] == b[k - |a| - 1]; }
    }
    forall k | 0 <= k < |a| ensures n[k] != '[' {
      assert n[k] == a[k];
    }
  }

  /** Text before the '[' of the host, as in "x[y]", is refused. */
  lemma TextBeforeBracketRefused(url: string, scheme: string, a: string, b: string, rest: string)
    requires url == scheme + (":" + ("//" + ((a + ("[" + (b + "]"))) + rest)))
    requires scheme != [] && IsAsciiLetter(scheme[0]) && forall k :: 0 <= k < |scheme| ==> IsSchemeChar(scheme[k])
    requires a != [] && forall k :: 0 <= k < |a| ==> IsHostChar(a[k])
    requires BracketText(b)
    requires rest == [] || IsNetlocEnd(rest[0])
    requires Clean(rest)
    ensures !ValidateUrl(url)
  {
    var n := a + ("[" + (b + "]"));
    BeforeBracketPieces(a, b);
    UrlPieces(url, scheme, n, rest);
    TextBeforeBracket(n, |a|);
  }

  /** A '[' that is not the first character of the host part makes
      `_check_bracketed_netloc` raise. */
  lemma TextBeforeBracket(n: string, i: nat)
    requires 0 < i < |n| - 1 && n[i] == '[' && n[|n| - 1] == ']'
    requires forall k :: 0 <= k < |n| ==> n[k] != '@'
    requires forall k :: 0 <= k < i ==> n[k] != '['
    ensures Contains(n, '[') && Contains(n, ']') && BracketedNetlocError(n) == Some("Invalid IPv6 URL")
  {
    Absent(n, '@');
    IndexOfAt(n, '[', i);
  }

  /** The characters of "::" x for a hextet x. */
  lemma CompressedChars(x: string)
    requires Hextet(x)
    ensures var h := "::" + x;
      && BracketText(h) && h[0] == ':' && !StartsWith(h, "v")
      && (forall k :: 0 <= k < |h| ==> h[k] != '.' && h[k] != '%')
  {
    var h := "::" + x;
    HextetChars(x);
    forall k | 0 <= k < |h| ensures IsBracketChar(h[k]) && h[k] != '.' && h[k] != '%' {
      if k >= 2 { assert h[k] == x[k - 2]; }
    }
  }

  /** "::" x passes the bracketed-host check, and its host name passes the
      textual tests. */
  lemma CompressedHost(x: string)
    requires Hextet(x)
    ensures var h := "::" + x;
      && BracketText(h) && BracketedHostError(h).None? && HostAllowed(Some(ZoneLower(h)))
  {
    var h := "::" + x;
    CompressedChars(x);
    CompressedIsIPv6(x);
    Absent(h, '.');
    assert Split(h, '.') == [h];
    Absent(h, '%');
    var name := Lower(h);
    assert ZoneLower(h) == name && name[0] == ':';
    assert !LoopbackName(name) by {
      assert "localhost"[0] != ':' && "127.0.0.1"[0] != ':' && "0.0.0.0"[0] != ':';
    }
    assert !StartsWith(name, "192.168.") && !StartsWith(name, "10.") && !StartsWith(name, "172.") by {
      assert "192.168."[0] != ':' && "10."[0] != ':' && "172."[0] != ':';
    }
  }

  /** IPv6 text is not among the refused names: "http://[::1]/", the IPv6
      loopback address, is accepted. */
  lemma CompressedIpv6Passes(url: string, scheme: string, x: string, rest: string)
    requires url == scheme + (":" + ("//" + (("[" + (("::" + x) + "]")) + rest)))
    requires scheme != [] && IsAsciiLetter(scheme[0]) && forall k :: 0 <= k < |scheme| ==> IsSchemeChar(scheme[k])
    requires SchemeAllowed(Lower(scheme))
    requires Hextet(x)
    requires rest == [] || IsNetlocEnd(rest[0])
    requires Clean(rest)
    ensures ValidateUrl(url)
  {
    CompressedHost(x);
    BracketShape(url, scheme, "::" + x, rest);
  }

  /** The shape of URL that `UrlShape` reads. */
  predicate Ordinary(url: string, scheme: string, host: string, rest: string)
  {
    && url == scheme + (":" + ("//" + (host + rest)))
    && scheme != [] && IsAsciiLetter(scheme[0]) && (forall k :: 0 <= k < |scheme| ==> IsSchemeChar(scheme[k]))
    && (forall k :: 0 <= k < |host| ==> IsHostChar(host[k]))
    && (rest == [] || IsNetlocEnd(rest[0]))
    && Clean(rest)
  }

  /** A scheme other than http and https, in any case, is refused. */
  lemma SchemeRefused(url: string, scheme: string, host: string, rest: string)
    requires Ordinary(url, scheme, host, rest)
    requires !SchemeAllowed(Lower(scheme))
    ensures !ValidateUrl(url)
  {
    UrlShape(url, scheme, host, rest);
  }

  /** Loopback names are refused, whatever their case. */
  lemma LoopbackRefused(url: string, scheme: string, host: string, rest: string)
    requires Ordinary(url, scheme, host, rest)
    requires Lower(host) == "localhost" || Lower(host) == "127.0.0.1" || Lower(host) == "0.0.0.0"
    ensures !ValidateUrl(url)
  {
    UrlShape(url, scheme, host, rest);
  }

  /** A host name beginning "192.168." or "10." is refused. */
  lemma PrivatePrefixRefused(url: string, scheme: string, host: string, rest: string)
    requires Ordinary(url, scheme, host, rest)
    requires StartsWith(Lower(host), "192.168.") || StartsWith(Lower(host), "10.")
    ensures !ValidateUrl(url)
  {
    UrlShape(url, scheme, host, rest);
  }

  /** An http or https URL passes when its host name is absent, as in
      "http:///x", or is none of the refused names and not a "172." name. */
  lemma OrdinaryPasses(url: string, scheme: string, host: string, rest: string)
    requires Ordinary(url, scheme, host, rest)
    requires SchemeAllowed(Lower(scheme))
    requires Lower(host) != "localhost" && Lower(host) != "127.0.0.1" && Lower(host) != "0.0.0.0"
    requires !StartsWith(Lower(host), "192.168.") && !StartsWith(Lower(host), "10.") && !StartsWith(Lower(host), "172.")
    ensures ValidateUrl(url)
  {
    UrlShape(url, scheme, host, rest);
  }

  /** The private prefixes are tested on the text of the host name. */
  lemma PrivatePrefixes()
    ensures !HostAllowed(Some("192.168.1.5"))
    ensures !HostAllowed(Some("10.example.com"))
  {
    assert StartsWith("192.168.1.5", "192.168.");
    assert StartsWith("10.example.com", "10.");
  }

  /** Any other host passes, loopback addresses other than 127.0.0.1
      included. */
  lemma LoopbackBlockPasses(name: string)
    requires StartsWith(name, "127.") && name != "127.0.0.1"
    ensures HostAllowed(Some(name))
  {
    assert name[1] == "127."[1];
  }

  lemma Quad172Prefix(b: string, c: string, d: string)
    ensures StartsWith("172" + "." + (b + "." + (c + "." + d)), "172.")
  {
    var name := "172" + "." + (b + "." + (c + "." + d));
    assert name[..4] == "172.";
  }

  /** How the "172." test reads a dotted quad. */
  lemma Quad172(b: string, c: string, d: string)
    requires NoDot(b) && NoDot(c) && NoDot(d)
    ensures var name := "172" + "." + (b + "." + (c + "." + d));
      HostAllowed(Some(name)) <==> PyInt(b).Some? && !(16 <= PyInt(b).value <= 31)
  {
    var name := "172" + "." + (b + "." + (c + "." + d));
    SplitFourParts("172", b, c, d);
    Quad172Prefix(b, c, d);
    var octets := Split(name, '.');
    assert |octets| == 4 && octets[1] == b;
  }

  /** A dotted quad "172.n.c.d" whose second octet n lies in 16..31 is
      refused: the 172.16.0.0/12 block. */
  lemma Block172Refused(n: nat, c: string, d: string)
    requires 16 <= n <= 31
    requires NoDot(c) && NoDot(d)
    ensures !HostAllowed(Some("172" + "." + (Decimal(n) + "." + (c + "." + d))))
  {
    DecimalHasNoDot(n);
    PyIntOfDecimal(n);
    Quad172(Decimal(n), c, d);
  }

  /** Any other numeric second octet passes, unless it has more digits
      than `int()` reads. */
  lemma Outside172Passes(n: nat, c: string, d: string)
    requires !(16 <= n <= 31)
    requires NoDot(c) && NoDot(d)
    ensures HostAllowed(Some("172" + "." + (Decimal(n) + "." + (c + "." + d)))) <==> StrFits(n)
  {
    DecimalHasNoDot(n);
    PyIntOfDecimal(n);
    Quad172(Decimal(n), c, d);
  }

  // ------------------------------------------------------------ fetch_single_rss_feed

  /** What `feedparser.parse` yields, reduced to string-valued fields: the
      feed's own fields and one field map per entry. */
  datatype FeedDoc = FeedDoc(feed: map<string, string>, entries: seq<map<string, string>>)

  type FeedParser = string -> FeedDoc

  datatype FeedEntry = FeedEntry(title: string, link: string, description: string, published: string, author: string)

  /** The `data` part of a feed result. */
  datatype FeedData = FeedData(feedTitle: string, feedDescription: string, entries: seq<FeedEntry>, totalEntries: int)

  /** `d.get(key, "")`. */
  function Lookup(fields: map<string, string>, key: string): string
  {
    if key in fields then fields[key] else ""
  }

  function EntryOf(raw: map<string, string>): FeedEntry
  {
    FeedEntry(Lookup(raw, "title"), Lookup(raw, "link"), Lookup(raw, "description"), Lookup(raw, "published"), Lookup(raw, "author"))
  }

  /** The length of `s[:k]` for a list of length n. */
  function SliceLength(n: nat, k: int): (r: nat)
    ensures r <= n
    ensures k >= 0 ==> r <= k && (r == k || r == n)
  {
    if k >= 0 then (if k < n then k else n)
    else if n + k > 0 then n + k else 0
  }

  /** The feed summary built from a parsed document: its title and
      description, the first entries as `feed.entries[:max_entries]` selects
      them with every field defaulting to "", and their count. */
  ghost predicate Summarises(data: FeedData, doc: FeedDoc, maxEntries: int)
  {
    && data.feedTitle == Lookup(doc.feed, "title")
    && data.feedDescription == Lookup(doc.feed, "description")
    && |data.entries| == SliceLength(|doc.entries|, maxEntries)
    && (forall i :: 0 <= i < |data.entries| ==> data.entries[i] == EntryOf(doc.entries[i]))
    && data.totalEntries == |data.entries|
  }

  /** For a non-negative bound, a summary holds the first min(bound, n)
      entries, so never more than the bound. */
  lemma SummaryBound(data: FeedData, doc: FeedDoc, maxEntries: int)
    requires Summarises(data, doc, maxEntries) && maxEntries >= 0
    ensures data.totalEntries == |data.entries| <= maxEntries
    ensures |data.entries| == if maxEntries < |doc.entries| then maxEntries else |doc.entries|
  {
  }

  /** The entry loop. */
  method CollectEntries(raw: seq<map<string, string>>, maxEntries: int) returns (entries: seq<FeedEntry>)
    ensures |entries| == SliceLength(|raw|, maxEntries)
    ensures forall i :: 0 <= i < |entries| ==> entries[i] == EntryOf(raw[i])
  {
    var n := SliceLength(|raw|, maxEntries);
    entries := [];
    var i := 0;
    while i < n
      invariant 0 <= i <= n
      invariant |entries| == i
      invariant forall k :: 0 <= k < i ==> entries[k] == EntryOf(raw[k])
    {
      entries := entries + [EntryOf(raw[i])];
      i := i + 1;
    }
  }

  method Summarise(doc: FeedDoc, maxEntries: int) returns (data: FeedData)
    ensures Summarises(data, doc, maxEntries)
  {
    var entries := CollectEntries(doc.entries, maxEntries);
    data := FeedData(Lookup(doc.feed, "title"), Lookup(doc.feed, "description"), entries, |entries|);
  }

  /** The result for one feed: its URL with either `data` or `error`. */
  datatype FeedResult = FeedResult(url: string, outcome: Result<FeedData, string>)

  function FetchRequest(url: string): Request { Request(Get, url, None, None) }

  /** What `fetch_single_rss_feed` promises about one result, for the
      transport's answers `respond`: the input URL, and the refusal of an unsafe
      URL, the summary of the fetched feed or the failure's message. */
  ghost predicate FetchedAs(r: FeedResult, url: string, respond: Request -> Outcome, feedparse: FeedParser, maxEntries: int)
  {
    && r.url == url
    && (!ValidateUrl(url) ==> r.outcome == Err("Invalid or unsafe URL"))
    && (ValidateUrl(url) ==>
         match respond(FetchRequest(url))
         case Completed(text) => r.outcome.Ok? && Summarises(r.outcome.value, feedparse(text), maxEntries)
         case TimedOut(m) => r.outcome == Err(m)
         case Failed(m) => r.outcome == Err(m))
  }

  /** The requests fetching one feed makes: none for an unsafe URL, else one GET. */
  function FetchRequestsFor(url: string): (reqs: seq<Request>)
    ensures |reqs| <= 1
  {
    if ValidateUrl(url) then [FetchRequest(url)] else []
  }

  /** `fetch_single_rss_feed`: an unsafe URL is refused without a request;
      otherwise exactly one GET is made and any failure becomes the error
      text. It never raises. */
  method FetchSingleRssFeed(http: Transport, feedUrl: string, maxEntries: int, feedparse: FeedParser)
    returns (r: FeedResult)
    modifies http
    ensures FetchedAs(r, feedUrl, http.respond, feedparse, maxEntries)
    ensures http.sent == old(http.sent) + FetchRequestsFor(feedUrl)
  {
    if !ValidateUrl(feedUrl) {
      return FeedResult(feedUrl, Err("Invalid or unsafe URL"));
    }
    var o := http.Send(FetchRequest(feedUrl));
    match o
    case Completed(text) =>
      var data := Summarise(feedparse(text), maxEntries);
      r := FeedResult(feedUrl, Ok(data));
    case TimedOut(m) =>
      r := FeedResult(feedUrl, Err(m));
    case Failed(m) =>
      r := FeedResult(feedUrl, Err(m));
  }
}
