/** Go's `net.JoinHostPort`, `net.SplitHostPort` and `strconv.FormatUint`, which the
    connection handler uses to build and to take apart the keys of its forward table. */
module HostPort {
  import opened Seqs

  // ----- decimal port numbers ----------------------------------------------

  function Digit(d: nat): char
    requires d < 10
  {
    ('0' as int + d) as char
  }

  function Decimal(n: nat): (s: string)
    ensures s != [] && Plain(s)
  {
    if n < 10 then [Digit(n)] else Decimal(n / 10) + [Digit(n % 10)]
  }

  /** No character that has a meaning in a host:port pair. */
  predicate Plain(s: string) {
    ':' !in s && NoBrackets(s)
  }

  predicate NoBrackets(s: string) {
    '[' !in s && ']' !in s
  }

  lemma {:induction false} DecimalInjective(a: nat, b: nat)
    requires Decimal(a) == Decimal(b)
    ensures a == b
  {
    var s, t := Decimal(a), Decimal(b);
    assert s[|s| - 1] == t[|t| - 1];
    assert a % 10 == b % 10;
    if a >= 10 && b >= 10 {
      assert s[..|s| - 1] == Decimal(a / 10) && t[..|t| - 1] == Decimal(b / 10);
      DecimalInjective(a / 10, b / 10);
    }
  }

  // ----- index functions ---------------------------------------------------

  function FirstIndex(s: string, c: char): (i: int)
    ensures -1 <= i < |s|
    ensures i == -1 <==> c !in s
    ensures i >= 0 ==> s[i] == c && c !in s[..i]
  {
    if s == [] then -1
    else if s[0] == c then 0
    else
      var i := FirstIndex(s[1..], c);
      assert i >= 0 ==> s[..i + 1] == [s[0]] + s[1..][..i];
      assert s == [s[0]] + s[1..];
      if i < 0 then -1 else i + 1
  }

  function LastIndex(s: string, c: char): (i: int)
    ensures -1 <= i < |s|
    ensures i == -1 <==> c !in s
    ensures i >= 0 ==> s[i] == c && c !in s[i + 1..]
  {
    if s == [] then -1
    else
      var n := |s| - 1;
      if s[n] == c then n
      else
        var i := LastIndex(s[..n], c);
        assert s == s[..n] + [s[n]];
        assert i >= 0 ==> s[i + 1..] == s[..n][i + 1..] + [s[n]];
        i
  }

  // ----- join and split ----------------------------------------------------

  function JoinHostPort(host: string, port: string): string {
    if ':' in host then "[" + host + "]:" + port else host + ":" + port
  }

  function SplitHostPort(s: string): Option<(string, string)> {
    var i := LastIndex(s, ':');
    if i < 0 then None
    else if s[0] == '[' then
      var end := FirstIndex(s, ']');
      if end < 0 || end + 1 != i then None
      else if '[' in s[1..] || ']' in s[end + 1..] then None
      else Some((s[1..end], s[i + 1..]))
    else if ':' in s[..i] then None
    else if '[' in s || ']' in s then None
    else Some((s[..i], s[i + 1..]))
  }

  /** An address whose forwards a zero-port cancel of the address inside the brackets hits. */
  predicate Bracketed(host: string, inner: string) {
    host == "[" + inner + "]" && Plain(inner)
  }

  lemma {:induction false} LastIndexAt(a: string, c: char, b: string)
    requires c !in b
    ensures LastIndex(a + [c] + b, c) == |a|
    decreases |b|
  {
    var s := a + [c] + b;
    if b != [] {
      var n := |b| - 1;
      assert s[..|s| - 1] == a + [c] + b[..n];
      LastIndexAt(a, c, b[..n]);
    }
  }

  lemma {:induction false} FirstIndexAt(a: string, c: char, b: string)
    requires c !in a
    ensures FirstIndex(a + [c] + b, c) == |a|
    decreases |a|
  {
    var s := a + [c] + b;
    if a != [] {
      assert s[1..] == a[1..] + [c] + b;
      FirstIndexAt(a[1..], c, b);
    }
  }

  function Wrapped(host: string): string {
    if ':' in host then "[" + host + "]" else host
  }

  lemma JoinWraps(host: string, port: string)
    requires Plain(port)
    ensures JoinHostPort(host, port) == Wrapped(host) + [':'] + port
    ensures LastIndex(JoinHostPort(host, port), ':') == |Wrapped(host)|
  {
    assert JoinHostPort(host, port) == Wrapped(host) + [':'] + port;
    LastIndexAt(Wrapped(host), ':', port);
  }

  lemma SplitWithColon(host: string, port: string)
    requires Plain(port) && NoBrackets(host) && ':' in host
    ensures SplitHostPort(JoinHostPort(host, port)) == Some((host, port))
  {
    var s := JoinHostPort(host, port);
    assert s == ("[" + host + "]") + [':'] + port == ("[" + host) + [']'] + (":" + port);
    LastIndexAt("[" + host + "]", ':', port);
    FirstIndexAt("[" + host, ']', ":" + port);
    assert s[1..] == host + "]:" + port && s[|host| + 2..] == ":" + port;
    assert s[1..|host| + 1] == host && s[|host| + 3..] == port;
  }

  lemma SplitPlain(host: string, port: string)
    requires Plain(port) && Plain(host)
    ensures SplitHostPort(JoinHostPort(host, port)) == Some((host, port))
  {
    var s := JoinHostPort(host, port);
    assert s == host + [':'] + port;
    LastIndexAt(host, ':', port);
    assert s[..|host|] == host && s[|host| + 1..] == port;
    assert NoBrackets(s);
    assert s[0] in s;
  }

  lemma SplitBracketed(host: string, inner: string, port: string)
    requires Plain(port) && Bracketed(host, inner)
    ensures SplitHostPort(JoinHostPort(host, port)) == Some((inner, port))
  {
    var s := JoinHostPort(host, port);
    assert s == host + [':'] + port == ("[" + inner) + [']'] + (":" + port);
    LastIndexAt(host, ':', port);
    FirstIndexAt("[" + inner, ']', ":" + port);
    assert s[1..] == inner + "]:" + port && s[|inner| + 2..] == ":" + port;
    assert s[1..|inner| + 1] == inner && s[|host| + 1..] == port;
  }

  lemma SplitOnlyUnbracketed(host: string, port: string)
    requires Plain(port) && ':' in host
    requires SplitHostPort(JoinHostPort(host, port)).Some?
    ensures NoBrackets(host)
  {
    JoinedShape(host, port);
    SplitLeadingBracket(JoinHostPort(host, port));
  }

  lemma JoinedShape(host: string, port: string)
    requires Plain(port) && ':' in host
    ensures var s := JoinHostPort(host, port);
            LastIndex(s, ':') == |host| + 2 && s[0] == '[' && s[1..|host| + 1] == host
  {
    JoinWraps(host, port);
    var s := JoinHostPort(host, port);
    assert Wrapped(host)[0] == '[' && Wrapped(host)[1..|host| + 1] == host;
  }

  /** What a successful split of a key with a leading bracket says about its inside. */
  lemma SplitLeadingBracket(s: string)
    requires s != [] && s[0] == '[' && SplitHostPort(s).Some?
    ensures var i := LastIndex(s, ':'); i >= 2 && NoBrackets(s[1..i - 1])
  {
    var end := LastIndex(s, ':') - 1;
    assert end == FirstIndex(s, ']') && s[end] == ']';
    Between(s, end);
  }

  lemma SplitOnlyBracketed(host: string, port: string)
    requires Plain(port) && ':' !in host && !NoBrackets(host)
    requires SplitHostPort(JoinHostPort(host, port)).Some?
    ensures Bracketed(host, SplitHostPort(JoinHostPort(host, port)).value.0)
  {
    var s := JoinHostPort(host, port);
    assert s == host + [':'] + port;
    LastIndexAt(host, ':', port);
    assert forall c :: c in host ==> c in s;
    var end := FirstIndex(s, ']');
    assert s[0] == '[' && end + 1 == |host| && host == s[..end + 1];
    Between(s, end);
  }

  lemma Between(s: string, end: nat)
    requires 0 < end < |s| && s[0] == '[' && s[end] == ']'
    ensures s[..end + 1] == "[" + s[1..end] + "]"
    ensures ']' !in s[..end] ==> ']' !in s[1..end]
    ensures '[' !in s[1..] ==> '[' !in s[1..end]
    ensures ':' !in s[..end + 1] ==> ':' !in s[1..end]
  {
    assert forall c :: c in s[1..end] ==> c in s[..end] && c in s[1..] && c in s[..end + 1];
  }

  /** Splitting undoes joining exactly for the addresses without brackets.  For the
      others it fails, except that "[x]" with a plain x comes back as x. */
  lemma SplitUndoesJoin(host: string, port: string)
    requires Plain(port)
    ensures SplitHostPort(JoinHostPort(host, port)) == Some((host, port)) <==> NoBrackets(host)
    ensures forall addr :: SplitsTo(JoinHostPort(host, port), addr)
                           <==> (NoBrackets(host) && addr == host) || Bracketed(host, addr)
  {
    if SplitHostPort(JoinHostPort(host, port)).Some? && !NoBrackets(host) {
      if ':' in host { SplitOnlyUnbracketed(host, port); } else { SplitOnlyBracketed(host, port); }
    }
    if NoBrackets(host) {
      if ':' in host { SplitWithColon(host, port); } else { SplitPlain(host, port); }
    }
    forall addr | Bracketed(host, addr) ensures SplitHostPort(JoinHostPort(host, port)) == Some((addr, port)) {
      SplitBracketed(host, addr, port);
    }
  }

  predicate SplitsTo(key: string, addr: string) {
    SplitHostPort(key).Some? && SplitHostPort(key).value.0 == addr
  }

  /** Different address/port pairs never share a key, brackets or not. */
  lemma JoinInjective(h1: string, p1: string, h2: string, p2: string)
    requires Plain(p1) && Plain(p2)
    requires JoinHostPort(h1, p1) == JoinHostPort(h2, p2)
    ensures h1 == h2 && p1 == p2
  {
    var s := JoinHostPort(h1, p1);
    JoinWraps(h1, p1);
    JoinWraps(h2, p2);
    assert Wrapped(h1) == s[..|Wrapped(h1)|] == Wrapped(h2);
    assert p1 == s[|Wrapped(h1)| + 1..] == p2;
    Unwrap(h1);
    Unwrap(h2);
  }

  lemma Unwrap(host: string)
    ensures ':' in Wrapped(host) <==> ':' in host
    ensures ':' in host ==> |Wrapped(host)| >= 2 && Wrapped(host)[1..|Wrapped(host)| - 1] == host
  {
    if ':' in host {
      var i :| 0 <= i < |host| && host[i] == ':';
      assert Wrapped(host)[i + 1] == ':';
    }
  }
}
