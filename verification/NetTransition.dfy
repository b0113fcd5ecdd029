/** The fail-closed egress transition of the privileged helper.

    What the outside world decides (does a command succeed, is the helper cancelled by its
    deadline while a command runs) is read from a tape.  A tape that runs out cancels the helper
    at that point, so a statement about every tape speaks about every prefix of every run. */
module NetTransition {
  import opened Types
  import opened NetPlans

  /** Exited: the command ran to its exit status (`existing`: stderr says "File exists").
      Broken: it could not be spawned or awaited.  Killed: the deadline dropped it. */
  datatype Event =
    | Exited(ok: bool, existing: bool, partial: bool)
    | Broken(partial: bool)
    | Killed(committed: bool, partial: bool)

  datatype Status = Succeeded | Failure(existing: bool) | Fault | Aborted

  datatype End = Completed | Errored | Cancelled

  /** The machine states an execution went through (the start excluded), the unread tape, and how
      it ended. */
  datatype Exec = Exec(visited: seq<Machine>, rest: seq<Event>, end: End)

  /** The secret files the helper reads: None or false when unreadable or invalid. */
  datatype HostFiles = HostFiles(proxyFile: Option<Endpoint>, wireguardValid: bool)

  datatype Net = Net(machine: Machine, activeMode: Option<EgressMode>)

  function Final(m: Machine, visited: seq<Machine>): Machine {
    if visited == [] then m else visited[|visited| - 1]
  }

  function Join(a: Exec, b: Exec): Exec {
    Exec(a.visited + b.visited, b.rest, b.end)
  }

  function Perform(c: Command, m: Machine, o: Event): (Machine, Status) {
    var failed := Residue(c, m, o.partial);
    match o
    case Exited(ok, existing, _) =>
      if ok && Commit(c, m).Some? then (Commit(c, m).value, Succeeded) else (failed, Failure(existing))
    case Broken(_) => (failed, Fault)
    case Killed(committed, _) =>
      if committed && Commit(c, m).Some? then (Commit(c, m).value, Aborted) else (failed, Aborted)
  }

  predicate Continues(c: Command, s: Status, allowExistingTable: bool, ignoreFailures: bool) {
    s.Succeeded? || (s.Failure? && ((allowExistingTable && c.NftAddTable? && s.existing) || ignoreFailures))
  }

  function RunPlan(plan: seq<Command>, m: Machine, tape: seq<Event>,
                   allowExistingTable: bool, ignoreFailures: bool): Exec
  {
    if plan == [] then Exec([], tape, Completed)
    else if tape == [] then Exec([], [], Cancelled)
    else
      var (next, s) := Perform(plan[0], m, tape[0]);
      if Continues(plan[0], s, allowExistingTable, ignoreFailures) then
        Join(Exec([next], tape[1..], Completed),
             RunPlan(plan[1..], next, tape[1..], allowExistingTable, ignoreFailures))
      else
        Exec([next], tape[1..], if s.Aborted? then Cancelled else Errored)
  }

  /** `ip rule show`: does a rule for the browser UID remain? */
  function InspectRules(rules: multiset<nat>, tape: seq<Event>): Exec {
    if tape == [] then Exec([], [], Cancelled)
    else if tape[0].Killed? then Exec([], tape[1..], Cancelled)
    else if tape[0].Exited? && tape[0].ok && |rules| == 0 then Exec([], tape[1..], Completed)
    else Exec([], tape[1..], Errored)
  }

  function Teardown(cfg: NetworkConfig, m: Machine, tape: seq<Event>): Exec {
    var plan := RunPlan(WireguardTeardownPlan(cfg), m, tape, false, true);
    var after := Final(m, plan.visited);
    if !plan.end.Completed? then plan
    else if after.wg0 then plan.(end := Errored)
    else
      var four := Join(plan, InspectRules(after.rules4, plan.rest));
      if !four.end.Completed? then four else Join(four, InspectRules(after.rules6, four.rest))
  }

  /** The outer option is the error of a missing, invalid or mismatching proxy endpoint. */
  function ResolveEndpoint(cfg: NetworkConfig, mode: EgressMode, host: HostFiles): Option<Option<Endpoint>> {
    if !UsesProxy(mode) then Some(None)
    else if ModeEndpoint(cfg, mode).None? then None
    else if mode.Proxy? && host.proxyFile != cfg.proxyEndpoint then None
    else Some(ModeEndpoint(cfg, mode))
  }

  /** Connecting to the proxy endpoint changes nothing on the machine. */
  function Probe(tape: seq<Event>): Exec {
    if tape == [] || tape[0].Killed? then Exec([], if tape == [] then [] else tape[1..], Cancelled)
    else Exec([], tape[1..], if tape[0].Exited? && tape[0].ok then Completed else Errored)
  }

  /** Everything between teardown and the policy commit. */
  function Prepare(cfg: NetworkConfig, mode: EgressMode, host: HostFiles, m: Machine, tape: seq<Event>): Exec {
    if ResolveEndpoint(cfg, mode, host).None? then Exec([], tape, Errored)
    else if mode.WireGuard? then
      if !host.wireguardValid then Exec([], tape, Errored)
      else RunPlan(WireguardSetupPlan(cfg), m, tape, false, false)
    else if UsesProxy(mode) then Probe(tape)
    else Exec([], tape, Completed)
  }

  function TransitionInner(cfg: NetworkConfig, mode: EgressMode, host: HostFiles, m: Machine, tape: seq<Event>): Exec {
    var down := Teardown(cfg, m, tape);
    if !down.end.Completed? then down
    else
      var torn := Final(m, down.visited);
      var ready := Join(down, Prepare(cfg, mode, host, torn, down.rest));
      if !ready.end.Completed? then ready
      else
        var plan := ActivePolicyPlan(cfg, mode, ModeEndpoint(cfg, mode));
        if plan.None? then ready.(end := Errored)
        else Join(ready, RunPlan(plan.value, Final(m, ready.visited), ready.rest, false, false))
  }

  function KillSwitch(cfg: NetworkConfig, m: Machine, tape: seq<Event>): Exec {
    RunPlan(KillSwitchPlan(cfg), m, tape, true, false)
  }

  /** After a failed transition: tear down, then restore the kill-switch; both failures are only
      reported. */
  function Recover(cfg: NetworkConfig, m: Machine, tape: seq<Event>): Exec {
    var down := Teardown(cfg, m, tape);
    if down.end.Cancelled? then down
    else
      var all := Join(down, KillSwitch(cfg, Final(m, down.visited), down.rest));
      if all.end.Cancelled? then all else all.(end := Errored)
  }

  function Attempt(cfg: NetworkConfig, mode: EgressMode, host: HostFiles, m: Machine, tape: seq<Event>): Exec {
    var kill := KillSwitch(cfg, m, tape);
    if !kill.end.Completed? then kill
    else
      var inner := Join(kill, TransitionInner(cfg, mode, host, Final(m, kill.visited), kill.rest));
      if inner.end.Errored? then Join(inner, Recover(cfg, Final(m, inner.visited), inner.rest)) else inner
  }

  function Transition(cfg: NetworkConfig, mode: EgressMode, host: HostFiles, n: Net, tape: seq<Event>): (Net, Exec) {
    var run := Attempt(cfg, mode, host, n.machine, tape);
    (Net(Final(n.machine, run.visited), if run.end.Completed? then Some(mode) else None), run)
  }

  function Initialize(cfg: NetworkConfig, m: Machine, tape: seq<Event>): Exec {
    var kill := KillSwitch(cfg, m, tape);
    if !kill.end.Completed? then kill
    else Join(kill, Teardown(cfg, Final(m, kill.visited), kill.rest))
  }

  // ----- requests over the socket

  datatype EgressCommand = Apply(mode: EgressMode) | Reset | StatusQuery

  datatype Reply = Reply(ok: bool, mode: EgressMode)

  function StatusResponse(n: Net): Reply {
    Reply(n.activeMode.Some?, if n.activeMode.Some? then n.activeMode.value else Direct)
  }

  function Serve(cfg: NetworkConfig, command: EgressCommand, host: HostFiles, n: Net, tape: seq<Event>): (Net, Reply) {
    match command
    case StatusQuery => (n, StatusResponse(n))
    case _ =>
      var mode := if command.Apply? then command.mode else Direct;
      var (next, run) := Transition(cfg, mode, host, n, tape);
      (next, if run.end.Completed? then Reply(true, mode) else Reply(false, Direct))
  }

  datatype Request = Request(command: EgressCommand, host: HostFiles, tape: seq<Event>)

  function ServeAll(cfg: NetworkConfig, n: Net, requests: seq<Request>): Net {
    if requests == [] then n
    else
      var last := requests[|requests| - 1];
      Serve(cfg, last.command, last.host, ServeAll(cfg, n, requests[..|requests| - 1]), last.tape).0
  }

  lemma RunPlanUnfolds(plan: seq<Command>, m: Machine, tape: seq<Event>, allow: bool, ignore: bool)
    requires plan != [] && tape != []
    ensures var (next, s) := Perform(plan[0], m, tape[0]);
            var run := RunPlan(plan, m, tape, allow, ignore);
            var rest := RunPlan(plan[1..], next, tape[1..], allow, ignore);
            if Continues(plan[0], s, allow, ignore) then
              run == Exec([next] + rest.visited, rest.rest, rest.end)
            else
              run == Exec([next], tape[1..], if s.Aborted? then Cancelled else Errored)
  {
  }

  // ----- plans that only touch routing

  predicate RoutingOnly(plan: seq<Command>) {
    forall i | 0 <= i < |plan| :: !plan[i].NftAddTable? && !plan[i].NftScript?
  }

  ghost predicate FirewallKept(t: Table, visited: seq<Machine>) {
    forall i | 0 <= i < |visited| :: visited[i].nft == t
  }

  lemma PerformKeepsFirewall(c: Command, m: Machine, o: Event)
    requires !c.NftAddTable? && !c.NftScript?
    ensures Perform(c, m, o).0.nft == m.nft
  {
    hide ExecScript;
    assert Commit(c, m).Some? ==> Commit(c, m).value.nft == m.nft;
  }

  lemma {:induction false} RoutingKeepsFirewall(plan: seq<Command>, m: Machine, tape: seq<Event>, allow: bool,
                                                ignore: bool)
    requires RoutingOnly(plan)
    ensures FirewallKept(m.nft, RunPlan(plan, m, tape, allow, ignore).visited)
  {
    hide Perform;
    if plan != [] && tape != [] {
      var next := Perform(plan[0], m, tape[0]).0;
      PerformKeepsFirewall(plan[0], m, tape[0]);
      RunPlanUnfolds(plan, m, tape, allow, ignore);
      RoutingKeepsFirewall(plan[1..], next, tape[1..], allow, ignore);
    }
  }

  /** A route through wg0 exists only while wg0 does: the kernel drops them together.  The rules looked
      at are those of the browser's user. */
  predicate Coherent(cfg: NetworkConfig, m: Machine) {
    (m.route4 || m.route6 ==> m.wg0) && m.uid == cfg.browserUid
  }

  function Adds(v6: bool, plan: seq<Command>): nat {
    if plan == [] then 0
    else (if plan[0].RuleAdd? && plan[0].v6 == v6 then 1 else 0) + Adds(v6, plan[1..])
  }

  lemma CommitRouting(cfg: NetworkConfig, v6: bool, c: Command, m: Machine)
    requires Coherent(cfg, m) && Commit(c, m).Some?
    ensures Coherent(cfg, Commit(c, m).value)
    ensures |Routing(v6, Commit(c, m).value)| <= |Routing(v6, m)| + (if c.RuleAdd? && c.v6 == v6 then 1 else 0)
  {
    hide ExecScript;
    match c {
      case RuleAdd(_, _, _) =>
      case RuleDel(_, _, _) =>
      case _ => assert Routing(v6, Commit(c, m).value) == Routing(v6, m);
    }
  }

  lemma PerformRouting(cfg: NetworkConfig, v6: bool, c: Command, m: Machine, o: Event)
    requires Coherent(cfg, m)
    ensures var next := Perform(c, m, o).0;
            && Coherent(cfg, next)
            && |Routing(v6, next)| <= |Routing(v6, m)| + (if c.RuleAdd? && c.v6 == v6 then 1 else 0)
  {
    hide Commit;
    if Commit(c, m).Some? { CommitRouting(cfg, v6, c, m); }
    assert Coherent(cfg, Residue(c, m, o.partial)) && Routing(v6, Residue(c, m, o.partial)) == Routing(v6, m);
  }

  /** A plan adds at most as many UID rules as it has add commands, whatever fails. */
  lemma {:induction false} PlanBoundsRules(cfg: NetworkConfig, v6: bool, plan: seq<Command>, m: Machine,
                                           tape: seq<Event>, allow: bool, ignore: bool)
    requires Coherent(cfg, m)
    ensures var run := RunPlan(plan, m, tape, allow, ignore);
            && (forall i | 0 <= i < |run.visited| :: |Routing(v6, run.visited[i])| <= |Routing(v6, m)| + Adds(v6, plan))
            && (forall i | 0 <= i < |run.visited| :: Coherent(cfg, run.visited[i]))
  {
    hide Perform;
    if plan != [] && tape != [] {
      PerformRouting(cfg, v6, plan[0], m, tape[0]);
      RunPlanUnfolds(plan, m, tape, allow, ignore);
      PlanBoundsRules(cfg, v6, plan[1..], Perform(plan[0], m, tape[0]).0, tape[1..], allow, ignore);
    }
  }

  lemma TeardownAdds(cfg: NetworkConfig, v6: bool)
    ensures Adds(v6, WireguardTeardownPlan(cfg)) == 0
    ensures RoutingOnly(WireguardTeardownPlan(cfg))
  {
    var plan := WireguardTeardownPlan(cfg);
    assert Adds(v6, plan) == Adds(v6, plan[1..]) == Adds(v6, plan[2..]) == Adds(v6, plan[3..])
        == Adds(v6, plan[4..]) == Adds(v6, plan[5..]) by {
      assert plan[1..][1..] == plan[2..] && plan[2..][1..] == plan[3..];
      assert plan[3..][1..] == plan[4..] && plan[4..][1..] == plan[5..];
    }
  }

  lemma SetupAdds(cfg: NetworkConfig, v6: bool)
    ensures Adds(v6, WireguardSetupPlan(cfg)) == 1
    ensures RoutingOnly(WireguardSetupPlan(cfg))
  {
    var plan := WireguardSetupPlan(cfg);
    assert plan[1..][1..] == plan[2..] && plan[2..][1..] == plan[3..] && plan[3..][1..] == plan[4..];
    assert plan[4..][1..] == plan[5..] && plan[5..][1..] == plan[6..] == [];
    assert Adds(v6, plan) == Adds(v6, plan[1..]) == Adds(v6, plan[2..]) == Adds(v6, plan[3..]);
    assert Adds(v6, plan[4..]) == (if v6 then 1 else 0) by { assert Adds(v6, plan[5..]) == 0; }
  }

  predicate AtMostOneRule(cfg: NetworkConfig, m: Machine) {
    Coherent(cfg, m) && |m.rules4| <= 1 && |m.rules6| <= 1
  }

  ghost predicate RulesBounded(cfg: NetworkConfig, visited: seq<Machine>) {
    forall i | 0 <= i < |visited| :: AtMostOneRule(cfg, visited[i])
  }

  predicate NoWireGuard(m: Machine) {
    !m.wg0 && m.rules4 == multiset{} && m.rules6 == multiset{}
  }

  predicate WireGuardUp(m: Machine) {
    && m.wg0 && m.route4 && m.route6
    && m.rules4 == multiset{WIREGUARD_RULE_PRIORITY} && m.rules6 == multiset{WIREGUARD_RULE_PRIORITY}
  }

  /** Teardown ignores command failures, so only its own checks make its success mean anything. */
  lemma TeardownFacts(cfg: NetworkConfig, m: Machine, tape: seq<Event>)
    ensures var run := Teardown(cfg, m, tape);
            && FirewallKept(m.nft, run.visited)
            && (run.end.Completed? ==> NoWireGuard(Final(m, run.visited)))
            && (AtMostOneRule(cfg, m) ==> RulesBounded(cfg, run.visited))
            && (Coherent(cfg, m) ==> Coherent(cfg, Final(m, run.visited)))
  {
    TeardownAdds(cfg, false);
    TeardownAdds(cfg, true);
    var plan := WireguardTeardownPlan(cfg);
    RoutingKeepsFirewall(plan, m, tape, false, true);
    assert Teardown(cfg, m, tape).visited == RunPlan(plan, m, tape, false, true).visited;
    if Coherent(cfg, m) {
      PlanBoundsRules(cfg, false, plan, m, tape, false, true);
      PlanBoundsRules(cfg, true, plan, m, tape, false, true);
    }
  }

  /** A plan without tolerance that completes has committed every one of its commands in turn. */
  function CommitAll(plan: seq<Command>, m: Machine): Option<Machine> {
    if plan == [] then Some(m)
    else if Commit(plan[0], m).None? then None
    else CommitAll(plan[1..], Commit(plan[0], m).value)
  }

  lemma {:induction false} StrictPlanCommitsAll(plan: seq<Command>, m: Machine, tape: seq<Event>)
    requires RunPlan(plan, m, tape, false, false).end.Completed?
    ensures CommitAll(plan, m) == Some(Final(m, RunPlan(plan, m, tape, false, false).visited))
  {
    if plan != [] {
      StrictPlanCommitsAll(plan[1..], Perform(plan[0], m, tape[0]).0, tape[1..]);
    }
  }

  lemma SetupFacts(cfg: NetworkConfig, m: Machine, tape: seq<Event>)
    requires NoWireGuard(m) && Coherent(cfg, m)
    ensures var run := RunPlan(WireguardSetupPlan(cfg), m, tape, false, false);
            && FirewallKept(m.nft, run.visited)
            && RulesBounded(cfg, run.visited)
            && (run.end.Completed? ==> WireGuardUp(Final(m, run.visited)))
  {
    var plan := WireguardSetupPlan(cfg);
    SetupAdds(cfg, false);
    SetupAdds(cfg, true);
    RoutingKeepsFirewall(plan, m, tape, false, false);
    PlanBoundsRules(cfg, false, plan, m, tape, false, false);
    PlanBoundsRules(cfg, true, plan, m, tape, false, false);
    if RunPlan(plan, m, tape, false, false).end.Completed? {
      StrictPlanCommitsAll(plan, m, tape);
      SetupCommits(cfg, m);
    }
  }

  lemma SetupCommits(cfg: NetworkConfig, m: Machine)
    requires NoWireGuard(m) && m.uid == cfg.browserUid
    ensures CommitAll(WireguardSetupPlan(cfg), m).Some? && WireGuardUp(CommitAll(WireguardSetupPlan(cfg), m).value)
  {
    var plan := WireguardSetupPlan(cfg);
    var one := multiset{WIREGUARD_RULE_PRIORITY};
    assert m.rules4 + one == one && m.rules6 + one == one;
    var m1 := m.(wg0 := true);
    var m2 := m1.(route4 := true);
    var m3 := m2.(route6 := true);
    var m4 := m3.(rules4 := one);
    var m5 := m4.(rules6 := one);
    assert CommitAll(plan, m) == CommitAll(plan[1..], m1);
    assert CommitAll(plan[1..], m1) == CommitAll(plan[2..], m2) by { assert plan[1..][1..] == plan[2..]; }
    assert CommitAll(plan[2..], m2) == CommitAll(plan[3..], m3) by { assert plan[2..][1..] == plan[3..]; }
    assert CommitAll(plan[3..], m3) == CommitAll(plan[4..], m4) by { assert plan[3..][1..] == plan[4..]; }
    assert CommitAll(plan[4..], m4) == CommitAll(plan[5..], m5) by { assert plan[4..][1..] == plan[5..]; }
    assert CommitAll(plan[5..], m5) == Some(m5) by { assert plan[5..][1..] == []; }
  }

  // ----- the kill-switch

  predicate Held(cfg: NetworkConfig, m: Machine) {
    Rules(m.nft) == [DropRule(cfg)]
  }

  predicate SameFirewall(a: Machine, b: Machine) {
    Rules(a.nft) == Rules(b.nft) && a.(nft := b.nft) == b
  }

  predicate OnlyFirewall(a: Machine, b: Machine) {
    a.(nft := b.nft) == b
  }

  lemma AddTableOutcome(m: Machine, o: Event)
    ensures SameFirewall(m, Perform(NftAddTable, m, o).0)
  {
  }

  lemma SingleCommand(c: Command, m: Machine, tape: seq<Event>, allow: bool)
    requires !c.NftAddTable?
    ensures var run := RunPlan([c], m, tape, allow, false);
            if tape == [] then run == Exec([], [], Cancelled)
            else var (next, s) := Perform(c, m, tape[0]);
                 run == Exec([next], tape[1..],
                             if s.Succeeded? then Completed else if s.Aborted? then Cancelled else Errored)
  {
    assert [c][1..] == [];
    if tape != [] { RunPlanUnfolds([c], m, tape, allow, false); }
  }

  lemma KillScriptOutcome(cfg: NetworkConfig, m: Machine, o: Event)
    ensures var (next, s) := Perform(NftTransaction(cfg, None, None), m, o);
            && OnlyFirewall(m, next)
            && (next == m || Held(cfg, next))
            && (s.Succeeded? ==> Held(cfg, next))
            && (s.Failure? || s.Fault? ==> next == m)
  {
    KillScriptMeaning(cfg, m.nft);
  }

  /** Running the kill-switch leaves routing alone; every state it passes through still has the
      old rules or has the drop rule, and it completes exactly by installing the drop rule. */
  lemma KillSwitchFacts(cfg: NetworkConfig, m: Machine, tape: seq<Event>)
    ensures var run := KillSwitch(cfg, m, tape);
            && |run.visited| <= 2
            && (forall i | 0 <= i < |run.visited| :: OnlyFirewall(m, run.visited[i]))
            && (|run.visited| > 0 ==> SameFirewall(m, run.visited[0]))
            && (|run.visited| == 2 ==> Held(cfg, run.visited[1]) || SameFirewall(m, run.visited[1]))
            && (run.end.Completed? ==> |run.visited| == 2 && Held(cfg, run.visited[1]))
            && (run.end.Errored? ==> SameFirewall(m, Final(m, run.visited)))
  {
    var plan := KillSwitchPlan(cfg);
    var script := NftTransaction(cfg, None, None);
    if tape != [] {
      RunPlanUnfolds(plan, m, tape, true, false);
      AddTableOutcome(m, tape[0]);
      var (first, s) := Perform(plan[0], m, tape[0]);
      assert plan[1..] == [script];
      if Continues(plan[0], s, true, false) {
        SingleCommand(script, first, tape[1..], true);
        if tape[1..] != [] { KillScriptOutcome(cfg, first, tape[1..][0]); }
      }
    }
  }
}
