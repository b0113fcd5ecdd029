/** The scan itself: what its flags mean for the lines still to come, and its exact verdict. */
module WireGuardValidator {
  import opened Types
  import opened Text
  import opened WireGuardConfig

  datatype Block = Interface | Peer

  /** The flags that the scan carries along. */
  datatype Flags = Flags(
    privateKey: bool, address: bool, tableOff: bool,
    publicKey: bool, allowedIps: bool, endpoint: bool,
    ipv4Default: bool, ipv6Default: bool)

  const CLEAR := Flags(false, false, false, false, false, false, false, false)

  /** The directives `ds` make a started Interface block complete. */
  predicate InterfaceCompletes(p: Parsers, f: Flags, ds: seq<Directive>) {
    && (forall d | d in ds :: InterfaceDirectiveOk(p, d))
    && (if f.privateKey then 1 else 0) + Count(ds, "privatekey") == 1
    && (if f.tableOff then 1 else 0) + Count(ds, "table") == 1
    && (f.address || Count(ds, "address") >= 1)
  }

  predicate PeerCompletes(p: Parsers, f: Flags, ds: seq<Directive>) {
    && (forall d | d in ds :: PeerDirectiveOk(p, d))
    && (if f.publicKey then 1 else 0) + Count(ds, "publickey") == 1
    && (if f.endpoint then 1 else 0) + Count(ds, "endpoint") == 1
    && (f.allowedIps || Count(ds, "allowedips") >= 1)
  }

  /** The remaining peers are valid, and with the defaults seen so far there is a full-tunnel route. */
  function Tail(p: Parsers, ipv4: bool, ipv6: bool, rest: seq<Item>): Option<Policy> {
    var peers := ParsePeers(rest);
    if peers.None? || exists ds | ds in peers.value :: !PeerOk(p, ds) then None
    else
      var policy := Policy(ipv4 || SomePeerRoutesAll(p, peers.value, false),
                           ipv6 || SomePeerRoutesAll(p, peers.value, true));
      if policy.ipv4Default || policy.ipv6Default then Some(policy) else None
  }

  /** What the grammar says of the whole text, given the flags and the items still to come. */
  function Verdict(p: Parsers, section: Option<Block>, f: Flags, items: seq<Item>): Option<Policy> {
    if section.None? then
      if items == [] || !items[0].InterfaceHeader? then None
      else if !InterfaceOk(p, WireGuardConfig.Block(items[1..])) || Rest(items[1..]) == [] then None
      else Tail(p, false, false, Rest(items[1..]))
    else
      var ds, rest := WireGuardConfig.Block(items), Rest(items);
      if section.value.Interface? then
        if !InterfaceCompletes(p, f, ds) || rest == [] then None
        else Tail(p, false, false, rest)
      else if !f.privateKey || !f.address || !f.tableOff || !PeerCompletes(p, f, ds) then None
      else Tail(p, f.ipv4Default || RoutesAll(p, ds, false), f.ipv6Default || RoutesAll(p, ds, true), rest)
  }

  // ----- one item

  lemma BlockOfSetting(item: Item, rest: seq<Item>)
    ensures item.Setting? ==> WireGuardConfig.Block([item] + rest) == [item.directive] + WireGuardConfig.Block(rest)
    ensures item.Setting? ==> Rest([item] + rest) == Rest(rest)
    ensures !item.Setting? ==> WireGuardConfig.Block([item] + rest) == [] && Rest([item] + rest) == [item] + rest
  {
    assert ([item] + rest)[1..] == rest;
  }

  lemma CountCons(d: Directive, ds: seq<Directive>, key: string)
    ensures Count([d] + ds, key) == (if d.key == key then 1 else 0) + Count(ds, key)
  {
    assert ([d] + ds)[1..] == ds;
  }

  /** The flags after a directive of the Interface block that the scan accepts. */
  function NoteInterface(f: Flags, key: string): Flags {
    f.(privateKey := f.privateKey || key == "privatekey",
       address := f.address || key == "address",
       tableOff := f.tableOff || key == "table")
  }

  function NotePeer(f: Flags, key: string, defaults: Policy): Flags {
    f.(publicKey := f.publicKey || key == "publickey",
       endpoint := f.endpoint || key == "endpoint",
       allowedIps := f.allowedIps || key == "allowedips",
       ipv4Default := f.ipv4Default || (key == "allowedips" && defaults.ipv4Default),
       ipv6Default := f.ipv6Default || (key == "allowedips" && defaults.ipv6Default))
  }

  function Defaults(p: Parsers, d: Directive): Policy {
    Policy(HasDefault(p, Split(d.value, ','), false), HasDefault(p, Split(d.value, ','), true))
  }

  lemma InterfaceCons(p: Parsers, f: Flags, d: Directive, ds: seq<Directive>)
    ensures InterfaceCompletes(p, f, [d] + ds) <==>
      && InterfaceDirectiveOk(p, d) && !(f.privateKey && d.key == "privatekey") && !(f.tableOff && d.key == "table")
      && InterfaceCompletes(p, NoteInterface(f, d.key), ds)
  {
    hide InterfaceDirectiveOk, Count;
    CountCons(d, ds, "privatekey");
    CountCons(d, ds, "table");
    CountCons(d, ds, "address");
    assert d in [d] + ds && forall e :: e in [d] + ds <==> e == d || e in ds;
  }

  lemma InterfaceStep(p: Parsers, f: Flags, d: Directive, rest: seq<Item>)
    ensures Verdict(p, Some(Interface), f, [Setting(d)] + rest)
         == if !InterfaceDirectiveOk(p, d) || (f.privateKey && d.key == "privatekey")
             || (f.tableOff && d.key == "table")
            then None
            else Verdict(p, Some(Interface), NoteInterface(f, d.key), rest)
  {
    hide Tail, InterfaceDirectiveOk, InterfaceCompletes, NoteInterface, WireGuardConfig.Block, Rest;
    BlockOfSetting(Setting(d), rest);
    InterfaceCons(p, f, d, WireGuardConfig.Block(rest));
  }

  lemma PeerCons(p: Parsers, f: Flags, d: Directive, ds: seq<Directive>, defaults: Policy)
    ensures PeerCompletes(p, f, [d] + ds) <==>
      && PeerDirectiveOk(p, d) && !(f.publicKey && d.key == "publickey") && !(f.endpoint && d.key == "endpoint")
      && PeerCompletes(p, NotePeer(f, d.key, defaults), ds)
  {
    hide PeerDirectiveOk, Count;
    CountCons(d, ds, "publickey");
    CountCons(d, ds, "endpoint");
    CountCons(d, ds, "allowedips");
    assert d in [d] + ds && forall e :: e in [d] + ds <==> e == d || e in ds;
  }

  lemma RoutesCons(p: Parsers, d: Directive, ds: seq<Directive>, v6: bool)
    ensures RoutesAll(p, [d] + ds, v6) <==>
      (d.key == "allowedips" && HasDefault(p, Split(d.value, ','), v6)) || RoutesAll(p, ds, v6)
  {
    hide HasDefault, Split;
    assert d in [d] + ds && forall e :: e in [d] + ds <==> e == d || e in ds;
  }

  lemma PeerStep(p: Parsers, f: Flags, d: Directive, rest: seq<Item>)
    ensures Verdict(p, Some(Peer), f, [Setting(d)] + rest)
         == if !PeerDirectiveOk(p, d) || (f.publicKey && d.key == "publickey") || (f.endpoint && d.key == "endpoint")
            then None
            else Verdict(p, Some(Peer), NotePeer(f, d.key, Defaults(p, d)), rest)
  {
    hide Tail, PeerDirectiveOk, PeerCompletes, HasDefault, RoutesAll, Split, WireGuardConfig.Block, Rest;
    var ds := WireGuardConfig.Block(rest);
    BlockOfSetting(Setting(d), rest);
    PeerCons(p, f, d, ds, Defaults(p, d));
    RoutesCons(p, d, ds, false);
    RoutesCons(p, d, ds, true);
  }

  lemma TailOfPeer(p: Parsers, ipv4: bool, ipv6: bool, rest: seq<Item>)
    ensures var ds := WireGuardConfig.Block(rest);
      Tail(p, ipv4, ipv6, [PeerHeader] + rest)
      == if !PeerOk(p, ds) then None
         else Tail(p, ipv4 || RoutesAll(p, ds, false), ipv6 || RoutesAll(p, ds, true), Rest(rest))
  {
    hide PeerOk, RoutesAll, WireGuardConfig.Block, Rest;
    var items, ds := [PeerHeader] + rest, WireGuardConfig.Block(rest);
    assert items[1..] == rest;
    var others := ParsePeers(Rest(rest));
    if others.Some? {
      assert ParsePeers(items) == Some([ds] + others.value);
      assert forall e :: e in [ds] + others.value <==> e == ds || e in others.value;
    }
  }

  lemma ClearCompletes(p: Parsers, f: Flags, ds: seq<Directive>)
    ensures !f.privateKey && !f.address && !f.tableOff ==> (InterfaceCompletes(p, f, ds) <==> InterfaceOk(p, ds))
    ensures !f.publicKey && !f.allowedIps && !f.endpoint ==> (PeerCompletes(p, f, ds) <==> PeerOk(p, ds))
    ensures !RoutesAll(p, [], false) && !RoutesAll(p, [], true)
  {
  }

  lemma HeaderStep(p: Parsers, section: Option<Block>, f: Flags, item: Item, rest: seq<Item>)
    requires !item.Setting?
    requires section.None? ==> f == CLEAR
    requires section != Some(Peer) ==> !f.ipv4Default && !f.ipv6Default
    ensures Verdict(p, section, f, [item] + rest)
         == if section.None? then
              if item.InterfaceHeader? then Verdict(p, Some(Interface), f, rest) else None
            else if !item.PeerHeader? || (section.value.Peer? && !(f.publicKey && f.allowedIps && f.endpoint)) then None
            else Verdict(p, Some(Peer), f.(publicKey := false, allowedIps := false, endpoint := false), rest)
  {
    hide WireGuardConfig.Block, Rest, InterfaceDirectiveOk, PeerDirectiveOk, RoutesAll, InterfaceOk, PeerOk;
    BlockOfSetting(item, rest);
    ClearCompletes(p, f.(publicKey := false, allowedIps := false, endpoint := false), WireGuardConfig.Block(rest));
    assert ([item] + rest)[1..] == rest;
    if section.Some? && item.PeerHeader? {
      TailOfPeer(p, f.ipv4Default, f.ipv6Default, rest);
    }
  }

  lemma EndStep(p: Parsers, section: Option<Block>, f: Flags)
    ensures Verdict(p, section, f, [])
         == if section == Some(Peer) && f.privateKey && f.address && f.tableOff
               && f.publicKey && f.allowedIps && f.endpoint && (f.ipv4Default || f.ipv6Default)
            then Some(Policy(f.ipv4Default, f.ipv6Default)) else None
  {
    assert WireGuardConfig.Block([]) == [] && Rest([]) == [];
    NothingMore(p, f);
    hide InterfaceCompletes, PeerCompletes, RoutesAll, PeerOk;
    assert ParsePeers([]) == Some([]);
  }

  lemma NothingMore(p: Parsers, f: Flags)
    ensures InterfaceCompletes(p, f, []) <==> f.privateKey && f.tableOff && f.address
    ensures PeerCompletes(p, f, []) <==> f.publicKey && f.endpoint && f.allowedIps
    ensures !RoutesAll(p, [], false) && !RoutesAll(p, [], true)
  {
    hide InterfaceDirectiveOk, PeerDirectiveOk;
  }

  lemma OutsideStep(p: Parsers, f: Flags, item: Item, rest: seq<Item>)
    requires !item.InterfaceHeader?
    ensures Verdict(p, None, f, [item] + rest).None?
  {
  }

  // ----- the verdict is the grammar

  lemma VerdictSound(p: Parsers, items: seq<Item>) returns (c: Config)
    requires Verdict(p, None, CLEAR, items).Some?
    ensures Render(c) == items && ValidConfig(p, c) && Verdict(p, None, CLEAR, items) == Some(PolicyOf(p, c))
  {
    hide InterfaceOk, PeerOk, RoutesAll, WireGuardConfig.Block, Rest, RenderBlock;
    var rest := Rest(items[1..]);
    c := Config(WireGuardConfig.Block(items[1..]), ParsePeers(rest).value);
    RenderOfBlock(items[1..]);
    RenderOfParsePeers(rest);
    assert items == [InterfaceHeader] + items[1..];
  }

  lemma VerdictComplete(p: Parsers, c: Config)
    requires ValidConfig(p, c)
    ensures Verdict(p, None, CLEAR, Render(c)) == Some(PolicyOf(p, c))
  {
    hide InterfaceOk, PeerOk, RoutesAll, WireGuardConfig.Block, Rest, RenderBlock;
    var rest := RenderPeers(c.peers);
    assert Render(c)[1..] == RenderBlock(c.interface) + rest;
    BlockOfRender(c.interface, rest);
    ParsePeersOfRender(c.peers);
  }

  // ----- the scan

  /** One directive of the Interface block: `None` is a refusal, else the three flags afterwards. */
  method ScanInterface(p: Parsers, d: Directive, privateKey: bool, address: bool, tableOff: bool)
    returns (r: Option<(bool, bool, bool)>)
    ensures r == if !InterfaceDirectiveOk(p, d) || (privateKey && d.key == "privatekey")
        || (tableOff && d.key == "table")
      then None
      else Some((privateKey || d.key == "privatekey", address || d.key == "address", tableOff || d.key == "table"))
  {
    match d.key {
      case "privatekey" =>
        if !p.key(d.value) || privateKey { return None; }
        return Some((true, address, tableOff));
      case "address" =>
        var cidrs := ValidateCidrList(p, d.value);
        if cidrs.None? { return None; }
        return Some((privateKey, true, tableOff));
      case "listenport" =>
        if !IsNonzeroU16(d.value) { return None; }
        return Some((privateKey, address, tableOff));
      case "mtu" =>
        if !IsMtu(d.value) { return None; }
        return Some((privateKey, address, tableOff));
      case "table" =>
        if tableOff || Lower(d.value) != "off" { return None; }
        return Some((privateKey, address, true));
      case _ => return None;
    }
  }

  lemma PeerKeys(p: Parsers, d: Directive)
    ensures d.key == "publickey" || d.key == "presharedkey" ==> PeerDirectiveOk(p, d) == p.key(d.value)
    ensures d.key == "allowedips" ==> PeerDirectiveOk(p, d) == CidrsOk(p, Split(d.value, ','))
    ensures d.key == "endpoint" ==> PeerDirectiveOk(p, d) == EndpointOk(p, d.value)
    ensures d.key == "persistentkeepalive" ==> PeerDirectiveOk(p, d) == IsU16(d.value)
    ensures d.key !in ["publickey", "presharedkey", "allowedips", "endpoint", "persistentkeepalive"]
      ==> !PeerDirectiveOk(p, d)
  {
    hide CidrsOk, HasDefault, EndpointOk, IsU16, Split;
  }

  /** One directive of a Peer block, with the flags it concerns. */
  method ScanPeer(p: Parsers, d: Directive, f: Flags) returns (r: Option<Flags>)
    ensures r == if !PeerDirectiveOk(p, d) || (f.publicKey && d.key == "publickey")
        || (f.endpoint && d.key == "endpoint")
      then None
      else Some(NotePeer(f, d.key, Defaults(p, d)))
  {
    hide CidrsOk, HasDefault, EndpointOk, IsU16, Split, PeerDirectiveOk;
    PeerKeys(p, d);
    match d.key {
      case "publickey" =>
        if !p.key(d.value) || f.publicKey { return None; }
        return Some(f.(publicKey := true));
      case "presharedkey" =>
        if !p.key(d.value) { return None; }
        return Some(f);
      case "allowedips" =>
        var defaults := ValidateCidrList(p, d.value);
        if defaults.None? { return None; }
        return Some(f.(ipv4Default := f.ipv4Default || defaults.value.ipv4Default,
                       ipv6Default := f.ipv6Default || defaults.value.ipv6Default,
                       allowedIps := true));
      case "endpoint" =>
        if !EndpointOk(p, d.value) || f.endpoint { return None; }
        return Some(f.(endpoint := true));
      case "persistentkeepalive" =>
        if !IsU16(d.value) { return None; }
        return Some(f);
      case _ => return None;
    }
  }

  method ValidateWireGuardConfig(p: Parsers, raw: string) returns (r: Option<Policy>)
    ensures r.Some? ==> exists c :: Describes(raw, c) && ValidConfig(p, c) && r.value == PolicyOf(p, c)
    ensures r.None? ==> forall c :: Describes(raw, c) ==> !ValidConfig(p, c)
  {
    r := Scan(p, Lines(raw));
    if r.Some? {
      ghost var c := VerdictSound(p, Items(Lines(raw)));
      assert Describes(raw, c);
    } else {
      forall c | Describes(raw, c) ensures !ValidConfig(p, c) {
        if ValidConfig(p, c) { VerdictComplete(p, c); }
      }
    }
  }

  method Scan(p: Parsers, lines: seq<string>) returns (r: Option<Policy>)
    ensures r == Verdict(p, None, CLEAR, Items(lines))
  {
    hide Verdict, InterfaceDirectiveOk, PeerDirectiveOk, ReadLine, Defaults;
    var section: Option<Block> := None;
    var interfaceCount, peerCount := 0, 0;
    var f := CLEAR;
    assert lines[0..] == lines;
    for i := 0 to |lines|
      invariant interfaceCount == (if section.None? then 0 else 1)
      invariant section == Some(Peer) <==> peerCount > 0
      invariant section != Some(Peer) ==>
          f == CLEAR.(privateKey := f.privateKey, address := f.address, tableOff := f.tableOff)
      invariant section.None? ==> f == CLEAR
      invariant Verdict(p, None, CLEAR, Items(lines)) == Verdict(p, section, f, Items(lines[i..]))
    {
      assert lines[i..][1..] == lines[i + 1..];
      var item := ReadLine(lines[i]);
      ghost var rest := Items(lines[i + 1..]);
      if item.None? {
        assert Items(lines[i..]) == rest;
        continue;
      }
      assert Items(lines[i..]) == [item.value] + rest;
      if !item.value.Setting? {
        HeaderStep(p, section, f, item.value, rest);
      }
      match item.value {
        case InterfaceHeader =>
          if peerCount > 0 && (!f.publicKey || !f.allowedIps || !f.endpoint) { return None; }
          interfaceCount := interfaceCount + 1;
          if interfaceCount != 1 || peerCount != 0 { return None; }
          section := Some(Interface);
        case PeerHeader =>
          if interfaceCount != 1 { return None; }
          if peerCount > 0 && (!f.publicKey || !f.allowedIps || !f.endpoint) { return None; }
          peerCount := peerCount + 1;
          f := f.(publicKey := false, allowedIps := false, endpoint := false);
          section := Some(Peer);
        case UnknownHeader => return None;
        case Malformed =>
          return None;
        case Setting(d) =>
          if section.None? {
            OutsideStep(p, f, item.value, rest);
            return None;
          } else if section.value.Interface? {
            InterfaceStep(p, f, d, rest);
            var flags := ScanInterface(p, d, f.privateKey, f.address, f.tableOff);
            if flags.None? { return None; }
            f := f.(privateKey := flags.value.0, address := flags.value.1, tableOff := flags.value.2);
          } else {
            PeerStep(p, f, d, rest);
            var flags := ScanPeer(p, d, f);
            if flags.None? { return None; }
            f := flags.value;
          }
      }
    }
    assert Items(lines[|lines|..]) == [];
    EndStep(p, section, f);
    if peerCount > 0 && (!f.publicKey || !f.allowedIps || !f.endpoint) { return None; }
    if interfaceCount != 1 || !f.privateKey || !f.address || !f.tableOff { return None; }
    if peerCount == 0 || (!f.ipv4Default && !f.ipv6Default) { return None; }
    return Some(Policy(f.ipv4Default, f.ipv6Default));
  }
}
