/** The documented grammar of a profile, line by line, without reference to how the validator counts
    and reads: which configurations it accepts, and which default routes they have. */
module WireGuardGrammar {
  import opened Types
  import opened Text
  import opened WireGuardConfig
  import opened WireGuardNumbers

  // ----- what a value may be

  /** Parts separated by commas, each an address with its prefix. */
  ghost predicate AddressList(p: Parsers, parts: seq<string>) {
    && parts != []
    && forall part | part in parts :: ',' !in part && exists a, n :: Cidr(p, Trim(part), a, n)
  }

  /** One of the parts is the default route of the family: its unspecified address with the prefix 0. */
  ghost predicate DefaultRoute(p: Parsers, parts: seq<string>, v6: bool) {
    exists part | part in parts :: Cidr(p, Trim(part), if v6 then V6(true) else V4(true), 0)
  }

  ghost predicate NumberIn(s: string, low: nat, high: nat) {
    exists n :: low <= n <= high && Numeral(s, n)
  }

  ghost predicate EndpointText(p: Parsers, value: string) {
    exists host, port ::
      && value == host + ":" + port && NumberIn(port, 1, 65_535)
      && ((host != [] && forall c | c in host :: c in HOST_CHARS)
          || exists ip: string :: host == "[" + ip + "]" && p.ipv6(ip))
  }

  predicate SaysOff(s: string) {
    |s| == 3 && s[0] in "oO" && s[1] in "fF" && s[2] in "fF"
  }

  ghost predicate InterfaceLine(p: Parsers, d: Directive) {
    || (d.key == "privatekey" && p.key(d.value))
    || (d.key == "address" && exists parts | parts != [] :: d.value == Join(parts, ',') && AddressList(p, parts))
    || (d.key == "listenport" && NumberIn(d.value, 1, 65_535))
    || (d.key == "mtu" && NumberIn(d.value, 576, 9_000))
    || (d.key == "table" && SaysOff(d.value))
  }

  ghost predicate PeerLine(p: Parsers, d: Directive) {
    || (d.key == "publickey" && p.key(d.value))
    || (d.key == "presharedkey" && p.key(d.value))
    || (d.key == "allowedips" && exists parts | parts != [] :: d.value == Join(parts, ',') && AddressList(p, parts))
    || (d.key == "endpoint" && EndpointText(p, d.value))
    || (d.key == "persistentkeepalive" && NumberIn(d.value, 0, 65_535))
  }

  // ----- what a block must hold

  ghost predicate Has(ds: seq<Directive>, key: string) {
    exists i | 0 <= i < |ds| :: ds[i].key == key
  }

  predicate AtMostOnce(ds: seq<Directive>, key: string) {
    forall i, j | 0 <= i < j < |ds| :: !(ds[i].key == key && ds[j].key == key)
  }

  ghost predicate InterfaceBlock(p: Parsers, ds: seq<Directive>) {
    && (forall i | 0 <= i < |ds| :: InterfaceLine(p, ds[i]))
    && Has(ds, "privatekey") && AtMostOnce(ds, "privatekey")
    && Has(ds, "table") && AtMostOnce(ds, "table")
    && Has(ds, "address")
  }

  ghost predicate PeerBlock(p: Parsers, ds: seq<Directive>) {
    && (forall i | 0 <= i < |ds| :: PeerLine(p, ds[i]))
    && Has(ds, "publickey") && AtMostOnce(ds, "publickey")
    && Has(ds, "endpoint") && AtMostOnce(ds, "endpoint")
    && Has(ds, "allowedips")
  }

  ghost predicate RoutesAway(p: Parsers, d: Directive, v6: bool) {
    d.key == "allowedips"
    && exists parts | parts != [] ::
         d.value == Join(parts, ',') && (forall part | part in parts :: ',' !in part) && DefaultRoute(p, parts, v6)
  }

  ghost predicate RoutesEverything(p: Parsers, c: Config, v6: bool) {
    exists i, j | 0 <= i < |c.peers| && 0 <= j < |c.peers[i]| :: RoutesAway(p, c.peers[i][j], v6)
  }

  /** One complete Interface block, at least one peer, every peer complete, and a default route in at
      least one family. */
  ghost predicate Profile(p: Parsers, c: Config) {
    && InterfaceBlock(p, c.interface)
    && c.peers != [] && (forall i | 0 <= i < |c.peers| :: PeerBlock(p, c.peers[i]))
    && (RoutesEverything(p, c, false) || RoutesEverything(p, c, true))
  }

  // ----- lists

  lemma PieceExact(p: Parsers, part: string)
    ensures ParseCidr(p, part).Some? <==> exists a, n :: Cidr(p, Trim(part), a, n)
  {
    hide ParseCidr, Cidr, Trim;
    var r := ParseCidr(p, part);
    if r.Some? { ParseCidrExact(p, part, r.value.0, r.value.1); }
    if a, n :| Cidr(p, Trim(part), a, n) { ParseCidrExact(p, part, a, n); }
  }

  lemma DefaultExact(p: Parsers, part: string, v6: bool)
    ensures IsDefault(ParseCidr(p, part), v6) <==> Cidr(p, Trim(part), if v6 then V6(true) else V4(true), 0)
  {
    hide ParseCidr, Cidr, Trim;
    ParseCidrExact(p, part, if v6 then V6(true) else V4(true), 0);
  }

  /** An address list is accepted exactly when every part denotes an address with its prefix, and it
      holds a default route exactly when a part is one. */
  lemma ListExact(p: Parsers, parts: seq<string>, v6: bool)
    requires parts != [] && forall part | part in parts :: ',' !in part
    ensures CidrsOk(p, Split(Join(parts, ','), ',')) <==> AddressList(p, parts)
    ensures HasDefault(p, Split(Join(parts, ','), ','), v6) <==> DefaultRoute(p, parts, v6)
  {
    hide ParseCidr, Cidr, Trim, IsDefault;
    SplitJoin(parts, ',');
    forall part | part in parts
      ensures ParseCidr(p, part).Some? <==> exists a, n :: Cidr(p, Trim(part), a, n)
      ensures IsDefault(ParseCidr(p, part), v6) <==> Cidr(p, Trim(part), if v6 then V6(true) else V4(true), 0)
    {
      PieceExact(p, part);
      DefaultExact(p, part, v6);
    }
  }

  lemma ListText(p: Parsers, value: string)
    ensures CidrsOk(p, Split(value, ','))
            <==> exists parts | parts != [] :: value == Join(parts, ',') && AddressList(p, parts)
  {
    hide CidrsOk, Cidr, Trim, HasDefault;
    var pieces := Split(value, ',');
    JoinSplit(value, ',');
    PiecesLackSeparator(value, ',');
    ListExact(p, pieces, false);
    if parts :| parts != [] && value == Join(parts, ',') && AddressList(p, parts) {
      ListExact(p, parts, false);
    }
  }

  lemma DefaultText(p: Parsers, value: string, v6: bool)
    ensures HasDefault(p, Split(value, ','), v6)
            <==> exists parts | parts != [] ::
                   && value == Join(parts, ',') && (forall part | part in parts :: ',' !in part)
                   && DefaultRoute(p, parts, v6)
  {
    hide CidrsOk, HasDefault, DefaultRoute, AddressList;
    var pieces := Split(value, ',');
    JoinSplit(value, ',');
    PiecesLackSeparator(value, ',');
    ListExact(p, pieces, v6);
    if parts :| parts != [] && value == Join(parts, ',') && (forall part | part in parts :: ',' !in part)
                && DefaultRoute(p, parts, v6) {
      ListExact(p, parts, v6);
    }
  }

  // ----- lines

  lemma EndpointTextExact(p: Parsers, value: string)
    ensures EndpointOk(p, value) <==> EndpointText(p, value)
  {
    hide EndpointOk, IsNonzeroU16, Numeral;
    EndpointGrammar(p, value);
    if EndpointOk(p, value) {
      var host, port :| EndpointSplits(p, value, host, port);
      OnlyNumerals(port);
      HostnameText(host);
      assert value == host + ":" + port && NumberIn(port, 1, 65_535);
    }
    if EndpointText(p, value) {
      var host, port :| value == host + ":" + port && NumberIn(port, 1, 65_535)
                        && ((host != [] && forall c | c in host :: c in HOST_CHARS)
                            || exists ip: string :: host == "[" + ip + "]" && p.ipv6(ip));
      OnlyNumerals(port);
      HostnameText(host);
      EndpointComplete(p, value, host, port);
    }
  }

  lemma HostnameText(host: string)
    ensures IsHostname(host) <==> host != [] && forall c | c in host :: c in HOST_CHARS
  {
    hide IsHostChar, HOST_CHARS;
    forall c | c in host ensures IsHostChar(c) <==> c in HOST_CHARS {
      HostCharsExact(c);
    }
  }

  lemma OffText(s: string)
    ensures Lower(s) == "off" <==> SaysOff(s)
  {
    var low := Lower(s);
    if |s| == 3 {
      assert low == [LowerChar(s[0]), LowerChar(s[1]), LowerChar(s[2])];
      assert "off" == ['o', 'f', 'f'];
    }
  }

  lemma InterfaceLineExact(p: Parsers, d: Directive)
    ensures InterfaceDirectiveOk(p, d) <==> InterfaceLine(p, d)
  {
    hide CidrsOk, IsNonzeroU16, IsMtu, Numeral, AddressList, Lower, SaysOff;
    ListText(p, d.value);
    OnlyNumerals(d.value);
    OffText(d.value);
  }

  lemma PeerLineExact(p: Parsers, d: Directive)
    ensures PeerDirectiveOk(p, d) <==> PeerLine(p, d)
  {
    hide CidrsOk, IsU16, Numeral, AddressList, EndpointOk, EndpointText;
    ListText(p, d.value);
    OnlyNumerals(d.value);
    EndpointTextExact(p, d.value);
  }

  // ----- blocks

  lemma {:induction false} CountExact(ds: seq<Directive>, key: string)
    ensures Count(ds, key) >= 1 <==> Has(ds, key)
    ensures Count(ds, key) <= 1 <==> AtMostOnce(ds, key)
  {
    if ds != [] {
      var rest := ds[1..];
      CountExact(rest, key);
      assert forall i | 0 <= i < |rest| :: rest[i] == ds[i + 1];
      if ds[0].key == key {
        if j :| 0 <= j < |rest| && rest[j].key == key {
          assert ds[j + 1].key == key;
        }
      } else if i :| 0 <= i < |ds| && ds[i].key == key {
        assert rest[i - 1].key == key;
      }
      if !AtMostOnce(rest, key) {
        var i, j :| 0 <= i < j < |rest| && rest[i].key == key && rest[j].key == key;
        assert ds[i + 1].key == key && ds[j + 1].key == key;
      }
    }
  }

  lemma InterfaceExact(p: Parsers, ds: seq<Directive>)
    ensures InterfaceOk(p, ds) <==> InterfaceBlock(p, ds)
  {
    hide InterfaceDirectiveOk, InterfaceLine, Count, Has, AtMostOnce;
    forall d | d in ds ensures InterfaceDirectiveOk(p, d) <==> InterfaceLine(p, d) {
      InterfaceLineExact(p, d);
    }
    CountExact(ds, "privatekey");
    CountExact(ds, "table");
    CountExact(ds, "address");
  }

  lemma PeerExact(p: Parsers, ds: seq<Directive>)
    ensures PeerOk(p, ds) <==> PeerBlock(p, ds)
  {
    hide PeerDirectiveOk, PeerLine, Count, Has, AtMostOnce;
    forall d | d in ds ensures PeerDirectiveOk(p, d) <==> PeerLine(p, d) {
      PeerLineExact(p, d);
    }
    CountExact(ds, "publickey");
    CountExact(ds, "endpoint");
    CountExact(ds, "allowedips");
  }

  lemma RoutesExact(p: Parsers, c: Config, v6: bool)
    ensures SomePeerRoutesAll(p, c.peers, v6) <==> RoutesEverything(p, c, v6)
  {
    hide HasDefault, RoutesAway;
    forall d: Directive
      ensures RoutesAway(p, d, v6) <==> d.key == "allowedips" && HasDefault(p, Split(d.value, ','), v6)
    {
      RoutesAwayExact(p, d, v6);
    }
    if SomePeerRoutesAll(p, c.peers, v6) {
      var ds :| ds in c.peers && RoutesAll(p, ds, v6);
      var d :| d in ds && d.key == "allowedips" && HasDefault(p, Split(d.value, ','), v6);
      var i :| 0 <= i < |c.peers| && c.peers[i] == ds;
      var j :| 0 <= j < |ds| && ds[j] == d;
      assert RoutesAway(p, c.peers[i][j], v6);
    }
    if i, j :| 0 <= i < |c.peers| && 0 <= j < |c.peers[i]| && RoutesAway(p, c.peers[i][j], v6) {
      assert c.peers[i][j] in c.peers[i] && c.peers[i] in c.peers;
    }
  }

  lemma RoutesAwayExact(p: Parsers, d: Directive, v6: bool)
    ensures RoutesAway(p, d, v6) <==> d.key == "allowedips" && HasDefault(p, Split(d.value, ','), v6)
  {
    hide HasDefault, DefaultRoute;
    DefaultText(p, d.value, v6);
  }

  /** The configurations accepted are exactly the profiles of the documented grammar, and the policy
      reported says which families have a default route. */
  lemma ProfileExact(p: Parsers, c: Config)
    ensures ValidConfig(p, c) <==> Profile(p, c)
    ensures PolicyOf(p, c) == Policy(RoutesEverything(p, c, false), RoutesEverything(p, c, true))
  {
    hide InterfaceOk, InterfaceBlock, PeerOk, PeerBlock, SomePeerRoutesAll, RoutesEverything;
    InterfaceExact(p, c.interface);
    forall ds | ds in c.peers ensures PeerOk(p, ds) <==> PeerBlock(p, ds) {
      PeerExact(p, ds);
    }
    RoutesExact(p, c, false);
    RoutesExact(p, c, true);
  }

  /** No profile has a line that would have wg-quick run a command or change the resolver. */
  lemma HooksAreRefused(p: Parsers, c: Config, d: Directive)
    requires d.key in {"dns", "preup", "postup", "predown", "postdown", "saveconfig"}
    requires d in c.interface || exists ds :: ds in c.peers && d in ds
    ensures !ValidConfig(p, c)
  {
    hide CidrsOk, EndpointOk;
    assert !InterfaceDirectiveOk(p, d) && !PeerDirectiveOk(p, d);
  }
}
