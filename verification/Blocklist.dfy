/** The hosts compiler and the label-aligned matcher.

    A compiled list (an FST set) is a strictly ascending sequence of strings; for UTF-8 the byte
    order of the file is the order of code points.  `ip` stands for IP address parsing. */
module Blocklist {
  import opened Types
  import opened Text

  type IpTest = string -> bool

  const MAX_HOST := 253
  const MAX_LABEL := 63
  const U64 := 0x1_0000_0000_0000_0000

  // ----- host names

  function NormalizeHost(host: string): string {
    Lower(TrimEndDots(Trim(host)))
  }

  predicate Alphanumeric(c: char) {
    'a' <= c <= 'z' || 'A' <= c <= 'Z' || '0' <= c <= '9'
  }

  predicate ValidLabel(name: string) {
    && name != [] && |name| <= MAX_LABEL
    && Alphanumeric(name[0]) && Alphanumeric(name[|name| - 1])
    && forall i | 0 <= i < |name| :: Alphanumeric(name[i]) || name[i] == '-'
  }

  predicate ValidHost(ip: IpTest, host: string) {
    && host != [] && host != "localhost" && '.' in host && |host| <= MAX_HOST && !ip(host)
    && forall i | 0 <= i < |Split(host, '.')| :: ValidLabel(Split(host, '.')[i])
  }

  function NormalizeDomain(ip: IpTest, candidate: string): Option<string> {
    var host := NormalizeHost(candidate);
    if ValidHost(ip, host) then Some(host) else None
  }

  // ----- hosts files

  function Content(line: string): string {
    Trim(Split(line, '#')[0])
  }

  function Candidates(ip: IpTest, line: string): seq<string> {
    var parts := SplitWhitespace(Content(line));
    if parts != [] && ip(parts[0]) then parts[1..] else parts
  }

  function Valid(ip: IpTest, candidates: seq<string>): (r: seq<string>)
    ensures |r| <= |candidates|
  {
    if candidates == [] then []
    else
      var d := NormalizeDomain(ip, candidates[0]);
      (if d.Some? then [d.value] else []) + Valid(ip, candidates[1..])
  }

  function ParseHostsLine(ip: IpTest, line: string): seq<string> {
    if Content(line) == [] then [] else Valid(ip, Candidates(ip, line))
  }

  // ----- sorted sets of strings

  predicate Less(a: string, b: string) {
    if b == [] then false
    else if a == [] then true
    else a[0] < b[0] || (a[0] == b[0] && Less(a[1..], b[1..]))
  }

  predicate Ascending(s: seq<string>) {
    forall i, j | 0 <= i < j < |s| :: Less(s[i], s[j])
  }

  ghost function Elements(s: seq<string>): set<string> {
    set x | x in s
  }

  lemma {:induction false} LessTransitive(a: string, b: string, c: string)
    requires Less(a, b) && Less(b, c)
    ensures Less(a, c)
    decreases |a|
  {
    if a != [] && a[0] == b[0] == c[0] {
      LessTransitive(a[1..], b[1..], c[1..]);
    }
  }

  lemma {:induction false} LessTotal(a: string, b: string)
    ensures Less(a, b) || a == b || Less(b, a)
    ensures !(Less(a, b) && Less(b, a)) && !Less(a, a)
    decreases |a|
  {
    if a != [] && b != [] && a[0] == b[0] {
      LessTotal(a[1..], b[1..]);
      assert a == [a[0]] + a[1..] && b == [b[0]] + b[1..];
    }
    if a != [] { LessTotal(a[1..], a[1..]); }
  }

  lemma ElementsOfSum(a: seq<string>, b: seq<string>)
    ensures Elements(a + b) == Elements(a) + Elements(b)
  {
    var r := a + b;
    forall x | x in b ensures x in r {
      var k :| 0 <= k < |b| && b[k] == x;
      assert r[|a| + k] == x;
    }
    forall x | x in a ensures x in r {
      var k :| 0 <= k < |a| && a[k] == x;
      assert r[k] == x;
    }
  }

  lemma AscendingCons(x: string, s: seq<string>)
    requires Ascending(s) && (s != [] ==> Less(x, s[0]))
    ensures Ascending([x] + s) && Elements([x] + s) == {x} + Elements(s)
  {
    var r := [x] + s;
    forall i, j | 0 <= i < j < |r| ensures Less(r[i], r[j]) {
      if i > 0 {
        assert r[i] == s[i - 1] && r[j] == s[j - 1];
      } else if j > 1 {
        assert r[j] == s[j - 1];
        LessTransitive(x, s[0], s[j - 1]);
      }
    }
    ElementsOfSum([x], s);
  }

  lemma NonEmptyElements(s: seq<string>)
    ensures s != [] ==> s[0] in Elements(s)
  {
  }

  /** A set has one ascending listing. */
  lemma {:induction false} AscendingUnique(a: seq<string>, b: seq<string>)
    requires Ascending(a) && Ascending(b) && Elements(a) == Elements(b)
    ensures a == b
    decreases |a|
  {
    if a == [] {
      NonEmptyElements(b);
    } else {
      assert a[0] in Elements(b);
      HeadIsLeast(a, b);
      HeadIsLeast(b, a);
      LessTotal(a[0], b[0]);
      TailElements(a);
      TailElements(b);
      AscendingUnique(a[1..], b[1..]);
    }
  }

  lemma HeadIsLeast(a: seq<string>, b: seq<string>)
    requires Ascending(a) && Elements(a) == Elements(b) && a != []
    ensures b != [] && (a[0] == b[0] || Less(a[0], b[0]))
  {
    assert a[0] in Elements(b);
    assert b[0] in Elements(a);
  }

  lemma TailElements(a: seq<string>)
    requires Ascending(a) && a != []
    ensures Elements(a[1..]) == Elements(a) - {a[0]} && a[0] in Elements(a) && Ascending(a[1..])
  {
    forall i | 0 < i < |a| ensures a[i] != a[0] { LessTotal(a[0], a[i]); }
    forall x | x in Elements(a) && x != a[0] ensures x in a[1..] {
      var i :| 0 <= i < |a| && a[i] == x;
      assert a[1..][i - 1] == x;
    }
  }

  lemma CardinalityOfAscending(s: seq<string>)
    requires Ascending(s)
    ensures |Elements(s)| == |s|
  {
    if s != [] {
      TailElements(s);
      CardinalityOfAscending(s[1..]);
    }
  }

  /** BTreeSet::insert. */
  function Insert(s: seq<string>, x: string): (r: seq<string>)
    requires Ascending(s)
    ensures Ascending(r) && Elements(r) == Elements(s) + {x}
    ensures r != [] && (r[0] == x || (s != [] && r[0] == s[0]))
  {
    if s == [] then [x]
    else if s[0] == x then s
    else if Less(x, s[0]) then
      AscendingCons(x, s);
      [x] + s
    else
      LessTotal(x, s[0]);
      var rest := Insert(s[1..], x);
      TailElements(s);
      AscendingCons(s[0], rest);
      [s[0]] + rest
  }

  /** The merged stream of two sorted lists. */
  function Union(a: seq<string>, b: seq<string>): (r: seq<string>)
    requires Ascending(a) && Ascending(b)
    ensures Ascending(r) && Elements(r) == Elements(a) + Elements(b)
    ensures r != [] ==> (a != [] && r[0] == a[0]) || (b != [] && r[0] == b[0])
    decreases |a| + |b|
  {
    if a == [] then b
    else if b == [] then a
    else
      TailElements(a);
      TailElements(b);
      LessTotal(a[0], b[0]);
      if a[0] == b[0] then
        var rest := Union(a[1..], b[1..]);
        AscendingCons(a[0], rest);
        [a[0]] + rest
      else if Less(a[0], b[0]) then
        var rest := Union(a[1..], b);
        AscendingCons(a[0], rest);
        [a[0]] + rest
      else
        var rest := Union(a, b[1..]);
        AscendingCons(b[0], rest);
        [b[0]] + rest
  }
}
