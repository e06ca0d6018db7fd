/**
 * The endpoint URLs the module builds with template literals
 * (`${protocol}://${host}:${port}`), and a reader that takes such a URL
 * apart again, so that the URL is shown to determine scheme, host and port.
 */
module Url {
  import opened Wrappers
  import opened Decimal

  /** `scheme://host:port`, the port rendered as JavaScript renders an integral number. */
  function Endpoint(scheme: string, host: string, port: int): string
  {
    scheme + "://" + Authority(host, port)
  }

  /** `host:port`. */
  function Authority(host: string, port: int): string
  {
    host + ":" + IntToString(port)
  }

  datatype Parts = Parts(scheme: string, host: string, port: int)

  /** The first position at or after `i` where "://" starts. */
  function FindSeparator(s: string, i: nat): (r: Option<nat>)
    requires i <= |s|
    ensures r.Some? ==> i <= r.value && r.value + 3 <= |s| && s[r.value..r.value + 3] == "://"
    decreases |s| - i
  {
    if i + 3 > |s| then None
    else if s[i..i + 3] == "://" then Some(i)
    else FindSeparator(s, i + 1)
  }

  /** The position of the last `c` in `s`. */
  function LastIndex(s: string, c: char): (r: Option<nat>)
    ensures r.Some? ==> r.value < |s| && s[r.value] == c && c !in s[r.value + 1..]
    ensures r.None? ==> c !in s
  {
    if |s| == 0 then None
    else if s[|s| - 1] == c then Some(|s| - 1)
    else
      var r := LastIndex(s[..|s| - 1], c);
      assert s == s[..|s| - 1] + [s[|s| - 1]];
      r
  }

  /**
   * Splits a URL at its first "://" into the scheme and the authority, and the
   * authority at its last ':' into host and port, so a host may itself hold colons.
   */
  function ParseEndpoint(u: string): Option<Parts>
  {
    match FindSeparator(u, 0)
    case None => None
    case Some(i) => ParseAuthority(u[..i], u[i + 3..])
  }

  /** Splits `host:port` at its last ':'. */
  function ParseAuthority(scheme: string, authority: string): Option<Parts>
  {
    match LastIndex(authority, ':')
    case None => None
    case Some(j) =>
      match ParseInt(authority[j + 1..])
      case None => None
      case Some(p) => Some(Parts(scheme, authority[..j], p))
  }

  lemma {:induction false} FindSeparatorAt(s: string, i: nat, k: nat)
    requires i <= k && k + 3 <= |s| && s[k..k + 3] == "://"
    requires forall m :: i <= m < k ==> s[m] != ':'
    ensures FindSeparator(s, i) == Some(k)
    decreases k - i
  {
    if i < k {
      assert s[i..i + 3][0] == s[i];
      FindSeparatorAt(s, i + 1, k);
    }
  }

  /** The last `c` of `h + [c] + d` is the one after `h` when `d` holds none. */
  lemma {:induction false} LastIndexAt(h: string, c: char, d: string)
    requires c !in d
    ensures LastIndex(h + [c] + d, c) == Some(|h|)
    decreases |d|
  {
    var s := h + [c] + d;
    if |d| > 0 {
      assert s[..|s| - 1] == h + [c] + d[..|d| - 1];
      assert s[|s| - 1] == d[|d| - 1];
      LastIndexAt(h, c, d[..|d| - 1]);
    }
  }

  lemma SchemeSplit(scheme: string, rest: string)
    requires ':' !in scheme
    ensures var u := scheme + "://" + rest;
      FindSeparator(u, 0) == Some(|scheme|) && u[..|scheme|] == scheme && u[|scheme| + 3..] == rest
  {
    var u := scheme + "://" + rest;
    var k := |scheme|;
    assert u[k..k + 3] == "://";
    assert forall m :: 0 <= m < k ==> u[m] == scheme[m];
    FindSeparatorAt(u, 0, k);
  }

  lemma AuthorityRoundTrip(scheme: string, host: string, port: int)
    ensures ParseAuthority(scheme, Authority(host, port)) == Some(Parts(scheme, host, port))
  {
    var a := Authority(host, port);
    var ps := IntToString(port);
    LastIndexAt(host, ':', ps);
    assert a == host + [':'] + ps;
    assert a[|host| + 1..] == ps;
    assert a[..|host|] == host;
    IntRoundTrip(port);
  }

  lemma SchemeParse(scheme: string, rest: string)
    requires ':' !in scheme
    ensures ParseEndpoint(scheme + "://" + rest) == ParseAuthority(scheme, rest)
  {
    SchemeSplit(scheme, rest);
  }

  /** A scheme without ':' can be read back, with host and port, from the URL built from it. */
  lemma EndpointRoundTrip(scheme: string, host: string, port: int)
    requires ':' !in scheme
    ensures ParseEndpoint(Endpoint(scheme, host, port)) == Some(Parts(scheme, host, port))
  {
    SchemeParse(scheme, Authority(host, port));
    AuthorityRoundTrip(scheme, host, port);
  }

  /** Two endpoints are equal exactly when their schemes, hosts and ports are. */
  lemma EndpointInjective(s1: string, h1: string, p1: int, s2: string, h2: string, p2: int)
    requires ':' !in s1 && ':' !in s2
    ensures Endpoint(s1, h1, p1) == Endpoint(s2, h2, p2) <==> s1 == s2 && h1 == h2 && p1 == p2
  {
    if Endpoint(s1, h1, p1) == Endpoint(s2, h2, p2) {
      EndpointRoundTrip(s1, h1, p1);
      EndpointRoundTrip(s2, h2, p2);
    }
  }
}
