/** The machine that the privileged helper steers, the command plans it runs, and what each
    command does to the machine.  An nft script is one transaction: a failing statement aborts
    it and leaves the ruleset as it was. */
module NetPlans {
  import opened Types

  const WIREGUARD_INTERFACE := "wg0"
  const WIREGUARD_ROUTE_TABLE := 51820
  const WIREGUARD_RULE_PRIORITY := 10000

  datatype Address = V4(bits: nat) | V6(bits: nat)

  datatype Endpoint = Endpoint(ip: Address, port: nat)

  datatype Protocol = Tcp | Udp | OtherProtocol

  datatype Packet = Packet(uid: nat, destination: Address, protocol: Protocol, port: nat, interface: string)

  datatype Family = Ip | Ip6

  datatype Match =
    | Always
    | OutgoingInterface(name: string)
    | TcpTo(family: Family, address: Address, port: nat)

  datatype Verdict = Accept | Drop

  /** `meta skuid <uid> <match> <verdict>` */
  datatype Rule = Rule(uid: nat, match_: Match, verdict: Verdict)

  datatype Statement = FlushTable | AddChain | AddRule(rule: Rule)

  /** `table inet xanhtab`: missing, without the output chain, or with it (policy accept). */
  datatype Table = Absent | Bare | Chain(rules: seq<Rule>)

  /** Policy-routing rules are kept as the multiset of priorities of the rules that send user `uid`, the
      browser's, to the dedicated route table. */
  datatype Machine = Machine(
    uid: nat,
    nft: Table,
    wg0: bool,
    rules4: multiset<nat>,
    rules6: multiset<nat>,
    route4: bool,
    route6: bool)

  datatype NetworkConfig = NetworkConfig(
    browserUid: nat,
    torEndpoint: Option<Endpoint>,
    warpEndpoint: Option<Endpoint>,
    proxyEndpoint: Option<Endpoint>)

  datatype Command =
    | NftAddTable
    | NftScript(script: seq<Statement>)
    | WgQuickUp
    | WgShow
    | RouteReplace(v6: bool)
    | RouteFlush(v6: bool)
    | RuleAdd(v6: bool, priority: nat, uid: nat)
    | RuleDel(v6: bool, priority: nat, uid: nat)
    | LinkDelete

  // ----- packet verdicts

  predicate Matches(r: Rule, p: Packet) {
    && p.uid == r.uid
    && match r.match_
       case Always => true
       case OutgoingInterface(name) => p.interface == name
       case TcpTo(_, address, port) => p.protocol == Tcp && p.destination == address && p.port == port
  }

  /** First matching rule decides; the chain policy is accept. */
  predicate Accepted(rules: seq<Rule>, p: Packet) {
    if rules == [] then true
    else if Matches(rules[0], p) then rules[0].verdict == Accept
    else Accepted(rules[1..], p)
  }

  function Rules(t: Table): seq<Rule> {
    if t.Chain? then t.rules else []
  }

  ghost predicate Drops(cfg: NetworkConfig, m: Machine) {
    forall p: Packet | p.uid == cfg.browserUid :: !Accepted(Rules(m.nft), p)
  }

  /** The endpoint a mode is pinned to. */
  function ModeEndpoint(cfg: NetworkConfig, mode: EgressMode): Option<Endpoint> {
    match mode
    case Tor => cfg.torEndpoint
    case Warp => cfg.warpEndpoint
    case Proxy => cfg.proxyEndpoint
    case _ => None
  }

  predicate UsesProxy(mode: EgressMode) {
    mode.Tor? || mode.Warp? || mode.Proxy?
  }

  /** What the egress design promises for a mode, stated without reference to any rule. */
  predicate Allowed(cfg: NetworkConfig, mode: EgressMode, p: Packet) {
    p.uid == cfg.browserUid ==>
      match mode
      case Direct => true
      case WireGuard => p.interface == WIREGUARD_INTERFACE
      case Tor => Reaches(p, cfg.torEndpoint)
      case Warp => Reaches(p, cfg.warpEndpoint)
      case Proxy => Reaches(p, cfg.proxyEndpoint)
  }

  predicate Reaches(p: Packet, e: Option<Endpoint>) {
    e.Some? && p.protocol == Tcp && p.destination == e.value.ip && p.port == e.value.port
  }

  ghost predicate Enforces(cfg: NetworkConfig, mode: EgressMode, m: Machine) {
    forall p: Packet :: Accepted(Rules(m.nft), p) <==> Allowed(cfg, mode, p)
  }

  // ----- plans

  function DropRule(cfg: NetworkConfig): Rule {
    Rule(cfg.browserUid, Always, Drop)
  }

  function AddDrop(script: seq<Statement>, uid: nat): seq<Statement> {
    script + [AddRule(Rule(uid, Always, Drop))]
  }

  function AddProxyGuard(script: seq<Statement>, uid: nat, e: Endpoint): seq<Statement> {
    var family := if e.ip.V6? then Ip6 else Ip;
    AddDrop(script + [AddRule(Rule(uid, TcpTo(family, e.ip, e.port), Accept))], uid)
  }

  function NftTransaction(cfg: NetworkConfig, mode: Option<EgressMode>, endpoint: Option<Endpoint>): Command
    requires mode.Some? && UsesProxy(mode.value) ==> endpoint.Some?
  {
    var script := [FlushTable, AddChain];
    match mode
    case None => NftScript(AddDrop(script, cfg.browserUid))
    case Some(Direct) => NftScript(script)
    case Some(WireGuard) =>
      var accept := AddRule(Rule(cfg.browserUid, OutgoingInterface(WIREGUARD_INTERFACE), Accept));
      NftScript(AddDrop(script + [accept], cfg.browserUid))
    case Some(_) => NftScript(AddProxyGuard(script, cfg.browserUid, endpoint.value))
  }

  function KillSwitchPlan(cfg: NetworkConfig): seq<Command> {
    [NftAddTable, NftTransaction(cfg, None, None)]
  }

  function ActivePolicyPlan(cfg: NetworkConfig, mode: EgressMode, endpoint: Option<Endpoint>): Option<seq<Command>> {
    if UsesProxy(mode) && endpoint.None? then None
    else Some([NftTransaction(cfg, Some(mode), endpoint)])
  }

  function WireguardSetupPlan(cfg: NetworkConfig): seq<Command> {
    [
      WgQuickUp,
      RouteReplace(false),
      RouteReplace(true),
      RuleAdd(false, WIREGUARD_RULE_PRIORITY, cfg.browserUid),
      RuleAdd(true, WIREGUARD_RULE_PRIORITY, cfg.browserUid),
      WgShow
    ]
  }

  function WireguardTeardownPlan(cfg: NetworkConfig): seq<Command> {
    [
      RuleDel(false, WIREGUARD_RULE_PRIORITY, cfg.browserUid),
      RuleDel(true, WIREGUARD_RULE_PRIORITY, cfg.browserUid),
      RouteFlush(false),
      RouteFlush(true),
      LinkDelete
    ]
  }

  // ----- what a command does

  function ExecStatement(s: Statement, t: Table): Option<Table> {
    match s
    case FlushTable => if t.Absent? then None else if t.Bare? then Some(Bare) else Some(Chain([]))
    case AddChain => if t.Absent? then None else if t.Bare? then Some(Chain([])) else Some(t)
    case AddRule(r) =>
      if !t.Chain? then None
      else if r.match_.TcpTo? && r.match_.family.Ip6? != r.match_.address.V6? then None
      else Some(Chain(t.rules + [r]))
  }

  function ExecScript(script: seq<Statement>, t: Table): Option<Table> {
    if script == [] then Some(t)
    else
      var next := ExecStatement(script[0], t);
      if next.None? then None else ExecScript(script[1..], next.value)
  }

  function Routing(v6: bool, m: Machine): multiset<nat> {
    if v6 then m.rules6 else m.rules4
  }

  function WithRouting(v6: bool, m: Machine, rules: multiset<nat>): Machine {
    if v6 then m.(rules6 := rules) else m.(rules4 := rules)
  }

  function WithRoute(v6: bool, m: Machine, present: bool): Machine {
    if v6 then m.(route6 := present) else m.(route4 := present)
  }

  /** The machine after a successful run; None when the command cannot succeed here. */
  function Commit(c: Command, m: Machine): Option<Machine> {
    match c
    case NftAddTable => Some(m.(nft := if m.nft.Absent? then Bare else m.nft))
    case NftScript(script) =>
      var t := ExecScript(script, m.nft);
      if t.None? then None else Some(m.(nft := t.value))
    case WgQuickUp => if m.wg0 then None else Some(m.(wg0 := true))
    case WgShow => if m.wg0 then Some(m) else None
    case RouteReplace(v6) => if m.wg0 then Some(WithRoute(v6, m, true)) else None
    case RouteFlush(v6) => Some(WithRoute(v6, m, false))
    case RuleAdd(v6, priority, uid) =>
      Some(if uid == m.uid then WithRouting(v6, m, Routing(v6, m) + multiset{priority}) else m)
    case RuleDel(v6, priority, uid) =>
      if uid != m.uid then Some(m)
      else if priority in Routing(v6, m) then Some(WithRouting(v6, m, Routing(v6, m) - multiset{priority}))
      else None
    case LinkDelete => if m.wg0 then Some(m.(wg0 := false, route4 := false, route6 := false)) else None
  }

  /** What a command that does not succeed may leave behind: wg-quick may or may not have created
      the interface, a flush may or may not have happened, everything else changes nothing. */
  function Residue(c: Command, m: Machine, partial: bool): Machine {
    match c
    case WgQuickUp => if m.wg0 then m else m.(wg0 := partial)
    case RouteFlush(v6) => if partial then WithRoute(v6, m, false) else m
    case _ => m
  }

  // ----- the final table of each transaction

  function PolicyRules(cfg: NetworkConfig, mode: EgressMode): seq<Rule> {
    match mode
    case Direct => []
    case WireGuard => [Rule(cfg.browserUid, OutgoingInterface(WIREGUARD_INTERFACE), Accept), DropRule(cfg)]
    case _ =>
      match ModeEndpoint(cfg, mode)
      case None => []
      case Some(e) =>
        [Rule(cfg.browserUid, TcpTo(if e.ip.V6? then Ip6 else Ip, e.ip, e.port), Accept), DropRule(cfg)]
  }

  lemma ScriptOfTwo(a: Statement, b: Statement, rest: seq<Statement>, t: Table)
    requires ExecStatement(a, t).Some? && ExecStatement(b, ExecStatement(a, t).value).Some?
    ensures ExecScript([a, b] + rest, t) == ExecScript(rest, ExecStatement(b, ExecStatement(a, t).value).value)
  {
    var s := [a, b] + rest;
    assert s[1..] == [b] + rest;
    assert s[1..][1..] == rest;
  }

  /** Running the policy transaction of a mode on any existing table yields exactly the rules of
      that mode, whatever was there before; on a missing table it fails. */
  lemma PolicyScriptMeaning(cfg: NetworkConfig, mode: EgressMode, t: Table)
    requires UsesProxy(mode) ==> ModeEndpoint(cfg, mode).Some?
    ensures var c := NftTransaction(cfg, Some(mode), ModeEndpoint(cfg, mode));
            ExecScript(c.script, t) == if t.Absent? then None else Some(Chain(PolicyRules(cfg, mode)))
  {
    var script := NftTransaction(cfg, Some(mode), ModeEndpoint(cfg, mode)).script;
    assert script[0] == FlushTable;
    if !t.Absent? {
      var body := script[2..];
      assert script == [FlushTable, AddChain] + body;
      ScriptOfTwo(FlushTable, AddChain, body, t);
      if mode != Direct {
        var rules := PolicyRules(cfg, mode);
        assert body == [AddRule(rules[0]), AddRule(rules[1])] + [];
        ScriptOfTwo(AddRule(rules[0]), AddRule(rules[1]), [], Chain([]));
        assert [] + [rules[0]] + [rules[1]] == rules;
      } else {
        assert body == [];
      }
    }
  }

  lemma KillScriptMeaning(cfg: NetworkConfig, t: Table)
    ensures ExecScript(NftTransaction(cfg, None, None).script, t)
         == if t.Absent? then None else Some(Chain([DropRule(cfg)]))
  {
    var script := NftTransaction(cfg, None, None).script;
    assert script[0] == FlushTable;
    if !t.Absent? {
      var body := [AddRule(DropRule(cfg))];
      assert script == [FlushTable, AddChain] + body;
      ScriptOfTwo(FlushTable, AddChain, body, t);
      assert body[1..] == [];
      assert [] + [DropRule(cfg)] == [DropRule(cfg)];
    }
  }

  /** The rules of a mode accept exactly what the design allows in that mode. */
  lemma PolicyRulesEnforce(cfg: NetworkConfig, mode: EgressMode, m: Machine)
    requires UsesProxy(mode) ==> ModeEndpoint(cfg, mode).Some?
    requires Rules(m.nft) == PolicyRules(cfg, mode)
    ensures Enforces(cfg, mode, m)
  {
    var rules := PolicyRules(cfg, mode);
    forall p: Packet ensures Accepted(rules, p) <==> Allowed(cfg, mode, p) {
      if mode != Direct {
        assert rules[1..] == [DropRule(cfg)];
        assert rules[1..][1..] == [];
        assert Accepted(rules, p) == if Matches(rules[0], p) then true else Accepted([DropRule(cfg)], p);
        assert Accepted([DropRule(cfg)], p) == (p.uid != cfg.browserUid);
      }
    }
  }

  lemma DropRuleDrops(cfg: NetworkConfig, m: Machine)
    requires Rules(m.nft) == [DropRule(cfg)]
    ensures Drops(cfg, m)
  {
  }

  /** No mode is a kill-switch: each lets some packet of the browser through. */
  lemma PolicyIsNotDrop(cfg: NetworkConfig, mode: EgressMode, m: Machine)
    requires UsesProxy(mode) ==> ModeEndpoint(cfg, mode).Some?
    requires Rules(m.nft) == PolicyRules(cfg, mode)
    ensures !Drops(cfg, m)
  {
    PolicyRulesEnforce(cfg, mode, m);
    var e := ModeEndpoint(cfg, mode);
    var p := if e.Some? then Packet(cfg.browserUid, e.value.ip, Tcp, e.value.port, "")
             else Packet(cfg.browserUid, V4(0), Udp, 0, WIREGUARD_INTERFACE);
    assert Allowed(cfg, mode, p);
    assert Accepted(Rules(m.nft), p);
  }
}
