/**
 * The validator for WireGuard profiles: a one-pass scan with a dozen mutable flags, proved to
 * accept exactly the texts of a declarative grammar.
 */
module WireGuardConfig {
  import opened Types
  import opened Text

  datatype Address = V4(unspecified: bool) | V6(unspecified: bool)

  /** What the libraries decide: IP literals, IPv6 literals, and base64 texts of 32 bytes. */
  datatype Parsers = Parsers(ip: string -> Option<Address>, ipv6: string -> bool, key: string -> bool)

  datatype Policy = Policy(ipv4Default: bool, ipv6Default: bool)

  // ----- numbers

  predicate IsDigit(c: char) {
    '0' <= c <= '9'
  }

  predicate AllDigits(s: string) {
    forall c | c in s :: IsDigit(c)
  }

  function DigitsValue(s: string): nat
    requires AllDigits(s)
  {
    if s == [] then 0
    else
      assert IsDigit(s[|s| - 1]);
      DigitsValue(s[..|s| - 1]) * 10 + (s[|s| - 1] as int - '0' as int)
  }

  /** Rust's parser for an unsigned integer type with the given maximum. */
  function ParseUnsigned(s: string, max: nat): Option<nat> {
    var digits := if |s| > 1 && s[0] == '+' then s[1..] else s;
    if digits == [] || !AllDigits(digits) then None
    else if DigitsValue(digits) > max then None
    else Some(DigitsValue(digits))
  }

  const U8_MAX := 255
  const U16_MAX := 65_535

  predicate IsU16(s: string) {
    ParseUnsigned(s, U16_MAX).Some?
  }

  predicate IsNonzeroU16(s: string) {
    var n := ParseUnsigned(s, U16_MAX);
    n.Some? && n.value != 0
  }

  predicate IsMtu(s: string) {
    var n := ParseUnsigned(s, U16_MAX);
    n.Some? && 576 <= n.value <= 9_000
  }

  // ----- address lists

  function ParseCidr(p: Parsers, raw: string): Option<(Address, nat)> {
    var cut := SplitOnce(Trim(raw), '/');
    if cut.None? then None
    else
      var address := p.ip(cut.value.0);
      var prefix := ParseUnsigned(cut.value.1, U8_MAX);
      if address.None? || prefix.None? then None
      else if prefix.value > (if address.value.V4? then 32 else 128) then None
      else Some((address.value, prefix.value))
  }

  predicate IsDefault(cidr: Option<(Address, nat)>, v6: bool) {
    cidr.Some? && cidr.value.0.unspecified && cidr.value.1 == 0 && cidr.value.0.V6? == v6
  }

  predicate CidrsOk(p: Parsers, pieces: seq<string>) {
    forall piece | piece in pieces :: ParseCidr(p, piece).Some?
  }

  predicate HasDefault(p: Parsers, pieces: seq<string>, v6: bool) {
    exists piece | piece in pieces :: IsDefault(ParseCidr(p, piece), v6)
  }

  method ValidateCidrList(p: Parsers, value: string) returns (r: Option<Policy>)
    ensures r.Some? <==> CidrsOk(p, Split(value, ','))
    ensures r.Some? ==> r.value.ipv4Default == HasDefault(p, Split(value, ','), false)
    ensures r.Some? ==> r.value.ipv6Default == HasDefault(p, Split(value, ','), true)
  {
    var any, ipv4Default, ipv6Default := false, false, false;
    var pieces := Split(value, ',');
    for i := 0 to |pieces|
      invariant any <==> i > 0
      invariant CidrsOk(p, pieces[..i])
      invariant ipv4Default == HasDefault(p, pieces[..i], false)
      invariant ipv6Default == HasDefault(p, pieces[..i], true)
    {
      assert pieces[..i + 1] == pieces[..i] + [pieces[i]];
      var cidr := ParseCidr(p, pieces[i]);
      if cidr.None? { return None; }
      assert CidrsOk(p, pieces[..i + 1]);
      match cidr.value.0 {
        case V4(unspecified) => ipv4Default := ipv4Default || (unspecified && cidr.value.1 == 0);
        case V6(unspecified) => ipv6Default := ipv6Default || (unspecified && cidr.value.1 == 0);
      }
      any := true;
    }
    assert pieces[..|pieces|] == pieces;
    if !any { return None; }
    return Some(Policy(ipv4Default, ipv6Default));
  }

  // ----- endpoints

  function Occurrences(s: string, c: char): nat {
    if s == [] then 0 else (if s[0] == c then 1 else 0) + Occurrences(s[1..], c)
  }

  function RSplitOnce(s: string, c: char): (r: Option<(string, string)>)
    ensures r.None? <==> c !in s
    ensures r.Some? ==> s == r.value.0 + [c] + r.value.1 && c !in r.value.1
  {
    if s == [] then None
    else if s[|s| - 1] == c then Some((s[..|s| - 1], []))
    else
      var front := RSplitOnce(s[..|s| - 1], c);
      assert s == s[..|s| - 1] + [s[|s| - 1]];
      if front.None? then None else Some((front.value.0, front.value.1 + [s[|s| - 1]]))
  }

  predicate IsHostChar(c: char) {
    || 'a' <= c <= 'z' || 'A' <= c <= 'Z' || IsDigit(c) || c == '.' || c == '-' || c == '_'
  }

  predicate IsHostname(host: string) {
    host != [] && forall c | c in host :: IsHostChar(c)
  }

  /** The endpoint check, in the order in which the source performs it. */
  predicate EndpointOk(p: Parsers, value: string) {
    if !StartsWith(value, '[') && Occurrences(value, ':') != 1 then false
    else
      var cut := RSplitOnce(value, ':');
      if cut.None? then false
      else
        var host := cut.value.0;
        && (if StartsWith(host, '[') && EndsWith(host[1..], ']') then p.ipv6(host[1..|host| - 1])
            else IsHostname(host))
        && IsNonzeroU16(cut.value.1)
  }

  lemma {:induction false} NoOccurrences(s: string, c: char)
    ensures c !in s <==> Occurrences(s, c) == 0
  {
    if s != [] {
      NoOccurrences(s[1..], c);
      assert s == [s[0]] + s[1..];
    }
  }

  lemma {:induction false} OccurrencesOfConcat(a: string, b: string, c: char)
    ensures Occurrences(a + b, c) == Occurrences(a, c) + Occurrences(b, c)
  {
    if a == [] {
      assert a + b == b;
    } else {
      OccurrencesOfConcat(a[1..], b, c);
      assert (a + b)[1..] == a[1..] + b;
    }
  }

  lemma {:induction false} RSplitOnceUnique(host: string, c: char, port: string)
    requires c !in port
    ensures RSplitOnce(host + [c] + port, c) == Some((host, port))
    decreases |port|
  {
    var s := host + [c] + port;
    if port == [] {
      assert s[..|s| - 1] == host;
    } else {
      RSplitOnceUnique(host, c, port[..|port| - 1]);
      assert s[..|s| - 1] == host + [c] + port[..|port| - 1];
      assert port == port[..|port| - 1] + [port[|port| - 1]];
    }
  }

  /** `host:port` or `[IPv6]:port`, with a port between 1 and 65535. */
  ghost predicate EndpointSplits(p: Parsers, value: string, host: string, port: string) {
    && value == host + ":" + port && IsNonzeroU16(port)
    && (IsHostname(host) || exists ip: string :: host == "[" + ip + "]" && p.ipv6(ip))
  }

  lemma PortHasNoColon(port: string)
    requires IsNonzeroU16(port)
    ensures ':' !in port
  {
    var digits := if |port| > 1 && port[0] == '+' then port[1..] else port;
    assert AllDigits(digits) && !IsDigit(':');
    assert digits == port || port == ['+'] + digits;
  }

  lemma EndpointSound(p: Parsers, value: string) returns (host: string, port: string)
    requires EndpointOk(p, value)
    ensures EndpointSplits(p, value, host, port)
  {
    var cut := RSplitOnce(value, ':').value;
    host, port := cut.0, cut.1;
    assert value == host + ":" + port;
    if StartsWith(host, '[') && EndsWith(host[1..], ']') {
      assert host == "[" + host[1..|host| - 1] + "]";
    }
  }

  lemma HostnameFacts(host: string)
    requires IsHostname(host)
    ensures ':' !in host && !StartsWith(host, '[')
  {
    assert !IsHostChar('[') && !IsHostChar(':');
    assert host[0] in host;
  }

  lemma OneColon(host: string, port: string)
    requires ':' !in host && ':' !in port
    ensures Occurrences(host + ":" + port, ':') == 1
  {
    NoOccurrences(host, ':');
    NoOccurrences(port, ':');
    OccurrencesOfConcat(host, ":" + port, ':');
    assert host + (":" + port) == host + ":" + port;
    assert (":" + port)[1..] == port;
  }

  lemma EndpointComplete(p: Parsers, value: string, host: string, port: string)
    requires EndpointSplits(p, value, host, port)
    ensures EndpointOk(p, value)
  {
    hide IsHostname, IsNonzeroU16, Occurrences, RSplitOnce;
    PortHasNoColon(port);
    assert value == host + [':'] + port;
    RSplitOnceUnique(host, ':', port);
    if IsHostname(host) {
      HostnameFacts(host);
      OneColon(host, port);
    } else {
      var ip :| host == "[" + ip + "]" && p.ipv6(ip);
      assert host[1..|host| - 1] == ip;
      assert EndsWith(host[1..], ']');
    }
  }

  /** The endpoint check accepts exactly the two documented forms. */
  lemma EndpointGrammar(p: Parsers, value: string)
    ensures EndpointOk(p, value) <==> exists host, port :: EndpointSplits(p, value, host, port)
  {
    if EndpointOk(p, value) {
      var host, port := EndpointSound(p, value);
    }
    if host, port :| EndpointSplits(p, value, host, port) {
      EndpointComplete(p, value, host, port);
    }
  }

  // ----- lines

  datatype Directive = Directive(key: string, value: string)

  datatype Item =
    | InterfaceHeader
    | PeerHeader
    | UnknownHeader
    | Setting(directive: Directive)
    | Malformed

  /** `str::lines`: a line ends at a line feed, which may be preceded by a carriage return. */
  function Lines(s: string): seq<string>
    decreases |s|
  {
    var k := IndexOf(s, '\n');
    if s == [] then []
    else if k == |s| then [s]
    else [if k > 0 && s[k - 1] == '\r' then s[..k - 1] else s[..k]] + Lines(s[k + 1..])
  }

  function Header(title: string): Item {
    match title
    case "[interface]" => InterfaceHeader
    case "[peer]" => PeerHeader
    case _ => UnknownHeader
  }

  /** One line without its comment; `None` when nothing is left. */
  function ReadLine(raw: string): Option<Item> {
    var line := Trim(raw[..IndexOf(raw, '#')]);
    if line == [] then None
    else if StartsWith(line, '[') && EndsWith(line, ']') then Some(Header(Lower(line)))
    else
      var cut := SplitOnce(line, '=');
      if cut.None? || Trim(cut.value.1) == [] then Some(Malformed)
      else Some(Setting(Directive(Lower(Trim(cut.value.0)), Trim(cut.value.1))))
  }

  function Items(lines: seq<string>): seq<Item> {
    if lines == [] then []
    else
      var item := ReadLine(lines[0]);
      (if item.Some? then [item.value] else []) + Items(lines[1..])
  }

  // ----- the grammar

  /** One Interface block followed by Peer blocks. */
  datatype Config = Config(interface: seq<Directive>, peers: seq<seq<Directive>>)

  function RenderBlock(ds: seq<Directive>): (items: seq<Item>)
    ensures |items| == |ds|
    ensures forall i | 0 <= i < |ds| :: items[i] == Setting(ds[i])
  {
    if ds == [] then [] else [Setting(ds[0])] + RenderBlock(ds[1..])
  }

  function RenderPeers(peers: seq<seq<Directive>>): (items: seq<Item>)
    ensures items != [] ==> items[0].PeerHeader?
  {
    if peers == [] then [] else [PeerHeader] + RenderBlock(peers[0]) + RenderPeers(peers[1..])
  }

  function Render(c: Config): seq<Item> {
    [InterfaceHeader] + RenderBlock(c.interface) + RenderPeers(c.peers)
  }

  function Count(ds: seq<Directive>, key: string): nat {
    if ds == [] then 0 else (if ds[0].key == key then 1 else 0) + Count(ds[1..], key)
  }

  predicate InterfaceDirectiveOk(p: Parsers, d: Directive) {
    match d.key
    case "privatekey" => p.key(d.value)
    case "address" => CidrsOk(p, Split(d.value, ','))
    case "listenport" => IsNonzeroU16(d.value)
    case "mtu" => IsMtu(d.value)
    case "table" => Lower(d.value) == "off"
    case _ => false
  }

  predicate PeerDirectiveOk(p: Parsers, d: Directive) {
    match d.key
    case "publickey" => p.key(d.value)
    case "presharedkey" => p.key(d.value)
    case "allowedips" => CidrsOk(p, Split(d.value, ','))
    case "endpoint" => EndpointOk(p, d.value)
    case "persistentkeepalive" => IsU16(d.value)
    case _ => false
  }

  predicate InterfaceOk(p: Parsers, ds: seq<Directive>) {
    && (forall d | d in ds :: InterfaceDirectiveOk(p, d))
    && Count(ds, "privatekey") == 1
    && Count(ds, "table") == 1
    && Count(ds, "address") >= 1
  }

  predicate PeerOk(p: Parsers, ds: seq<Directive>) {
    && (forall d | d in ds :: PeerDirectiveOk(p, d))
    && Count(ds, "publickey") == 1
    && Count(ds, "endpoint") == 1
    && Count(ds, "allowedips") >= 1
  }

  predicate RoutesAll(p: Parsers, ds: seq<Directive>, v6: bool) {
    exists d | d in ds :: d.key == "allowedips" && HasDefault(p, Split(d.value, ','), v6)
  }

  predicate SomePeerRoutesAll(p: Parsers, peers: seq<seq<Directive>>, v6: bool) {
    exists ds | ds in peers :: RoutesAll(p, ds, v6)
  }

  predicate ValidConfig(p: Parsers, c: Config) {
    && InterfaceOk(p, c.interface)
    && c.peers != []
    && (forall ds | ds in c.peers :: PeerOk(p, ds))
    && (SomePeerRoutesAll(p, c.peers, false) || SomePeerRoutesAll(p, c.peers, true))
  }

  function PolicyOf(p: Parsers, c: Config): Policy {
    Policy(SomePeerRoutesAll(p, c.peers, false), SomePeerRoutesAll(p, c.peers, true))
  }

  /** The text is a rendering of `c`, up to comments, blank lines, spacing and letter case. */
  ghost predicate Describes(raw: string, c: Config) {
    Items(Lines(raw)) == Render(c)
  }

  // ----- the grammar is unambiguous

  function BlockLength(items: seq<Item>): (k: nat)
    ensures k <= |items|
    ensures forall i | 0 <= i < k :: items[i].Setting?
    ensures k < |items| ==> !items[k].Setting?
  {
    if items == [] || !items[0].Setting? then 0 else BlockLength(items[1..]) + 1
  }

  function Block(items: seq<Item>): seq<Directive> {
    seq(BlockLength(items), i requires 0 <= i < BlockLength(items) => items[i].directive)
  }

  function Rest(items: seq<Item>): (r: seq<Item>)
    ensures |r| <= |items|
  {
    items[BlockLength(items)..]
  }

  function ParsePeers(items: seq<Item>): Option<seq<seq<Directive>>>
    decreases |items|
  {
    if items == [] then Some([])
    else if items[0] != PeerHeader then None
    else
      var others := ParsePeers(Rest(items[1..]));
      if others.None? then None else Some([Block(items[1..])] + others.value)
  }

  lemma BlockLengthIs(items: seq<Item>, k: nat)
    requires k <= |items|
    requires forall i | 0 <= i < k :: items[i].Setting?
    requires k < |items| ==> !items[k].Setting?
    ensures BlockLength(items) == k
  {
  }

  lemma BlockOfRender(ds: seq<Directive>, rest: seq<Item>)
    requires rest != [] ==> !rest[0].Setting?
    ensures Block(RenderBlock(ds) + rest) == ds && Rest(RenderBlock(ds) + rest) == rest
  {
    var items := RenderBlock(ds) + rest;
    forall i | 0 <= i < |ds| ensures items[i] == Setting(ds[i]) {
      assert items[i] == RenderBlock(ds)[i];
    }
    assert items[|ds|..] == rest;
    if |ds| < |items| { assert !items[|ds|].Setting?; }
    BlockLengthIs(items, |ds|);
  }

  lemma RenderOfBlock(items: seq<Item>)
    ensures RenderBlock(Block(items)) + Rest(items) == items
  {
  }

  lemma ParsePeersCons(ds: seq<Directive>, rest: seq<Item>)
    requires rest != [] ==> !rest[0].Setting?
    ensures ParsePeers([PeerHeader] + RenderBlock(ds) + rest)
         == if ParsePeers(rest).None? then None else Some([ds] + ParsePeers(rest).value)
  {
    hide Block, BlockLength, Rest, RenderBlock;
    var items := [PeerHeader] + RenderBlock(ds) + rest;
    BlockOfRender(ds, rest);
    assert items[1..] == RenderBlock(ds) + rest;
  }

  lemma {:induction false} ParsePeersOfRender(peers: seq<seq<Directive>>)
    ensures ParsePeers(RenderPeers(peers)) == Some(peers)
  {
    hide Block, BlockLength, Rest, RenderBlock;
    if peers != [] {
      ParsePeersOfRender(peers[1..]);
      ParsePeersCons(peers[0], RenderPeers(peers[1..]));
      assert peers == [peers[0]] + peers[1..];
    }
  }

  lemma {:induction false} RenderOfParsePeers(items: seq<Item>)
    requires ParsePeers(items).Some?
    ensures RenderPeers(ParsePeers(items).value) == items
    decreases |items|
  {
    hide Block, BlockLength, Rest, RenderBlock;
    if items != [] {
      var block, others := Block(items[1..]), ParsePeers(Rest(items[1..])).value;
      RenderOfParsePeers(Rest(items[1..]));
      RenderOfBlock(items[1..]);
      assert ([block] + others)[1..] == others;
      assert items == [PeerHeader] + items[1..];
    }
  }

  /** A text describes at most one configuration. */
  lemma RenderInjective(a: Config, b: Config)
    requires Render(a) == Render(b)
    ensures a == b
  {
    hide Block, BlockLength, Rest, RenderBlock, RenderPeers, ParsePeers;
    ParsePeersOfRender(a.peers);
    ParsePeersOfRender(b.peers);
    BlockOfRender(a.interface, RenderPeers(a.peers));
    BlockOfRender(b.interface, RenderPeers(b.peers));
    assert Render(a)[1..] == RenderBlock(a.interface) + RenderPeers(a.peers);
    assert Render(b)[1..] == RenderBlock(b.interface) + RenderPeers(b.peers);
  }
}
