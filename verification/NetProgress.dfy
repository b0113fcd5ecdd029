/** Failing closed is not failing for good: from every state a run can reach, a transition that meets
    no fault succeeds. */
module NetProgress {
  import opened Types
  import opened NetPlans
  import opened NetTransition
  import opened NetSafety

  /** The next `k` events are commands that exit successfully whenever they can. */
  predicate Smooth(tape: seq<Event>, k: nat) {
    k <= |tape| && forall i | 0 <= i < k :: tape[i].Exited? && tape[i].ok
  }

  lemma SmoothLater(tape: seq<Event>, j: nat, k: nat)
    requires Smooth(tape, k) && j <= k
    ensures Smooth(tape[j..], k - j)
  {
    forall i | 0 <= i < k - j ensures tape[j..][i].Exited? && tape[j..][i].ok {
      assert tape[j..][i] == tape[j + i];
    }
  }

  // ----- plans without faults

  /** The converse of `StrictPlanCommitsAll`. */
  lemma {:induction false} SmoothStrictPlan(plan: seq<Command>, m: Machine, tape: seq<Event>, allow: bool)
    requires Smooth(tape, |plan|) && CommitAll(plan, m).Some?
    ensures var run := RunPlan(plan, m, tape, allow, false);
      run.end.Completed? && run.rest == tape[|plan|..] && Final(m, run.visited) == CommitAll(plan, m).value
  {
    hide Commit;
    if plan == [] {
      assert tape[0..] == tape;
    } else {
      var next := Commit(plan[0], m).value;
      SmoothLater(tape, 1, |plan|);
      SmoothStrictPlan(plan[1..], next, tape[1..], allow);
      RunPlanUnfolds(plan, m, tape, allow, false);
      assert tape[1..][|plan| - 1..] == tape[|plan|..];
    }
  }

  function Tolerate(c: Command, m: Machine): Machine {
    if Commit(c, m).Some? then Commit(c, m).value else m
  }

  function TolerateAll(plan: seq<Command>, m: Machine): Machine {
    if plan == [] then m else TolerateAll(plan[1..], Tolerate(plan[0], m))
  }

  lemma {:induction false} SmoothTolerantPlan(plan: seq<Command>, m: Machine, tape: seq<Event>)
    requires Smooth(tape, |plan|) && forall i | 0 <= i < |plan| :: !plan[i].WgQuickUp?
    ensures var run := RunPlan(plan, m, tape, false, true);
      run.end.Completed? && run.rest == tape[|plan|..] && Final(m, run.visited) == TolerateAll(plan, m)
  {
    if plan == [] {
      assert tape[0..] == tape;
    } else {
      var next := Tolerate(plan[0], m);
      ToleratedOutcome(plan[0], m, tape[0]);
      hide Perform, Tolerate;
      SmoothLater(tape, 1, |plan|);
      SmoothTolerantPlan(plan[1..], next, tape[1..]);
      RunPlanUnfolds(plan, m, tape, false, true);
      assert tape[1..][|plan| - 1..] == tape[|plan|..];
    }
  }

  lemma ToleratedOutcome(c: Command, m: Machine, o: Event)
    requires !c.WgQuickUp? && o.Exited? && o.ok
    ensures var (next, s) := Perform(c, m, o);
      next == Tolerate(c, m) && Continues(c, s, false, true)
  {
  }

  // ----- the UID rules are the helper's own

  predicate Own(rules: multiset<nat>) {
    forall p | p in rules :: p == WIREGUARD_RULE_PRIORITY
  }

  predicate OwnRules(m: Machine) {
    Own(m.rules4) && Own(m.rules6)
  }

  predicate AddsOwnRules(plan: seq<Command>) {
    forall i | 0 <= i < |plan| :: plan[i].RuleAdd? ==> plan[i].priority == WIREGUARD_RULE_PRIORITY
  }

  lemma CommitOwn(v6: bool, c: Command, m: Machine)
    requires OwnRules(m) && (c.RuleAdd? ==> c.priority == WIREGUARD_RULE_PRIORITY) && Commit(c, m).Some?
    ensures Own(Routing(v6, Commit(c, m).value))
  {
    hide ExecScript;
    if !c.RuleAdd? && !c.RuleDel? { assert Routing(v6, Commit(c, m).value) == Routing(v6, m); }
  }

  lemma PerformOwn(c: Command, m: Machine, o: Event)
    requires OwnRules(m) && (c.RuleAdd? ==> c.priority == WIREGUARD_RULE_PRIORITY)
    ensures OwnRules(Perform(c, m, o).0)
  {
    hide Commit;
    if Commit(c, m).Some? {
      CommitOwn(false, c, m);
      CommitOwn(true, c, m);
      assert OwnRules(Commit(c, m).value);
    }
    var failed := Residue(c, m, o.partial);
    assert failed.rules4 == m.rules4 && failed.rules6 == m.rules6;
  }

  lemma {:induction false} PlanOwn(plan: seq<Command>, m: Machine, tape: seq<Event>, allow: bool, ignore: bool)
    requires OwnRules(m) && AddsOwnRules(plan)
    ensures OwnRules(Final(m, RunPlan(plan, m, tape, allow, ignore).visited))
  {
    hide Perform, OwnRules;
    if plan != [] && tape != [] {
      PerformOwn(plan[0], m, tape[0]);
      RunPlanUnfolds(plan, m, tape, allow, ignore);
      PlanOwn(plan[1..], Perform(plan[0], m, tape[0]).0, tape[1..], allow, ignore);
    }
  }

  lemma TeardownOwn(cfg: NetworkConfig, m: Machine, tape: seq<Event>)
    requires OwnRules(m)
    ensures OwnRules(Final(m, Teardown(cfg, m, tape).visited))
  {
    hide RunPlan, OwnRules;
    PlanOwn(WireguardTeardownPlan(cfg), m, tape, false, true);
  }

  lemma KillOwn(cfg: NetworkConfig, m: Machine, tape: seq<Event>)
    requires OwnRules(m)
    ensures OwnRules(Final(m, KillSwitch(cfg, m, tape).visited))
  {
    PlanOwn(KillSwitchPlan(cfg), m, tape, true, false);
  }

  lemma PrepareOwn(cfg: NetworkConfig, mode: EgressMode, host: HostFiles, m: Machine, tape: seq<Event>)
    requires OwnRules(m)
    ensures OwnRules(Final(m, Prepare(cfg, mode, host, m, tape).visited))
  {
    hide RunPlan;
    PlanOwn(WireguardSetupPlan(cfg), m, tape, false, false);
  }

  lemma InnerOwn(cfg: NetworkConfig, mode: EgressMode, host: HostFiles, m: Machine, tape: seq<Event>)
    requires OwnRules(m)
    ensures OwnRules(Final(m, TransitionInner(cfg, mode, host, m, tape).visited))
  {
    hide RunPlan, OwnRules, Teardown, Prepare;
    var down := Teardown(cfg, m, tape);
    var torn := Final(m, down.visited);
    var prep := Prepare(cfg, mode, host, torn, down.rest);
    TeardownOwn(cfg, m, tape);
    PrepareOwn(cfg, mode, host, torn, down.rest);
    FinalOfJoin(m, down.visited, prep.visited);
    var plan := ActivePolicyPlan(cfg, mode, ModeEndpoint(cfg, mode));
    if plan.Some? {
      var ready := Final(torn, prep.visited);
      PlanOwn(plan.value, ready, prep.rest, false, false);
      FinalOfJoin(m, down.visited + prep.visited, RunPlan(plan.value, ready, prep.rest, false, false).visited);
    }
  }

  lemma RecoverOwn(cfg: NetworkConfig, m: Machine, tape: seq<Event>)
    requires OwnRules(m)
    ensures OwnRules(Final(m, Recover(cfg, m, tape).visited))
  {
    hide OwnRules, Teardown, KillSwitch;
    var down := Teardown(cfg, m, tape);
    TeardownOwn(cfg, m, tape);
    KillOwn(cfg, Final(m, down.visited), down.rest);
    FinalOfJoin(m, down.visited, KillSwitch(cfg, Final(m, down.visited), down.rest).visited);
  }

  lemma TransitionOwn(cfg: NetworkConfig, mode: EgressMode, host: HostFiles, n: Net, tape: seq<Event>)
    requires OwnRules(n.machine)
    ensures OwnRules(Transition(cfg, mode, host, n, tape).0.machine)
  {
    hide OwnRules, KillSwitch, TransitionInner, Recover;
    var m := n.machine;
    var kill := KillSwitch(cfg, m, tape);
    KillOwn(cfg, m, tape);
    if kill.end.Completed? {
      var held := Final(m, kill.visited);
      var inner := TransitionInner(cfg, mode, host, held, kill.rest);
      InnerOwn(cfg, mode, host, held, kill.rest);
      FinalOfJoin(m, kill.visited, inner.visited);
      if inner.end.Errored? {
        var last := Final(held, inner.visited);
        RecoverOwn(cfg, last, inner.rest);
        FinalOfJoin(m, kill.visited + inner.visited, Recover(cfg, last, inner.rest).visited);
      }
    }
  }

  lemma {:induction false} ServeAllOwn(cfg: NetworkConfig, n: Net, requests: seq<Request>)
    requires OwnRules(n.machine)
    ensures OwnRules(ServeAll(cfg, n, requests).machine)
  {
    hide OwnRules, Transition;
    if requests != [] {
      var earlier, last := requests[..|requests| - 1], requests[|requests| - 1];
      ServeAllOwn(cfg, n, earlier);
      var before := ServeAll(cfg, n, earlier);
      if !last.command.StatusQuery? {
        TransitionOwn(cfg, if last.command.Apply? then last.command.mode else Direct, last.host, before, last.tape);
      }
    }
  }

  // ----- a transition without faults

  lemma TeardownTolerated(cfg: NetworkConfig, m: Machine)
    requires AtMostOneRule(cfg, m) && OwnRules(m)
    ensures TolerateAll(WireguardTeardownPlan(cfg), m)
         == m.(rules4 := multiset{}, rules6 := multiset{}, route4 := false, route6 := false, wg0 := false)
  {
    var plan := WireguardTeardownPlan(cfg);
    var m1 := m.(rules4 := multiset{});
    var m2 := m1.(rules6 := multiset{});
    var m3 := m2.(route4 := false);
    var m4 := m3.(route6 := false);
    var m5 := m4.(wg0 := false);
    DeleteTolerated(false, m);
    DeleteTolerated(true, m1);
    assert Tolerate(plan[2], m2) == m3 && Tolerate(plan[3], m3) == m4 && Tolerate(plan[4], m4) == m5;
    hide Tolerate;
    assert plan[1..][1..] == plan[2..] && plan[2..][1..] == plan[3..] && plan[3..][1..] == plan[4..]
        && plan[4..][1..] == [];
    assert TolerateAll(plan, m) == TolerateAll(plan[1..], m1) == TolerateAll(plan[2..], m2)
        == TolerateAll(plan[3..], m3);
    assert TolerateAll(plan[3..], m3) == TolerateAll(plan[4..], m4) == TolerateAll([], m5) == m5;
  }

  lemma DeleteTolerated(v6: bool, m: Machine)
    requires |Routing(v6, m)| <= 1 && Own(Routing(v6, m))
    ensures Tolerate(RuleDel(v6, WIREGUARD_RULE_PRIORITY, m.uid), m) == WithRouting(v6, m, multiset{})
  {
    var rules := Routing(v6, m);
    if WIREGUARD_RULE_PRIORITY in rules {
      var rest := rules - multiset{WIREGUARD_RULE_PRIORITY};
      assert rules == rest + multiset{WIREGUARD_RULE_PRIORITY};
      assert |rest| == 0;
    } else {
      assert rules == multiset{};
    }
  }

  lemma SmoothTeardown(cfg: NetworkConfig, m: Machine, tape: seq<Event>)
    requires AtMostOneRule(cfg, m) && OwnRules(m) && Smooth(tape, 7)
    ensures var run := Teardown(cfg, m, tape);
      && run.end.Completed? && run.rest == tape[7..]
      && NoWireGuard(Final(m, run.visited)) && Final(m, run.visited).nft == m.nft
      && Coherent(cfg, Final(m, run.visited))
  {
    hide TolerateAll, RunPlan;
    var plan := WireguardTeardownPlan(cfg);
    SmoothTolerantPlan(plan, m, tape);
    TeardownTolerated(cfg, m);
    SmoothLater(tape, 5, 7);
    assert tape[5..][0] == tape[5] && tape[5..][1..][0] == tape[6];
    assert tape[5..][1..][1..] == tape[7..];
  }

  lemma SmoothPrepare(cfg: NetworkConfig, mode: EgressMode, host: HostFiles, m: Machine, tape: seq<Event>)
    requires NoWireGuard(m) && m.uid == cfg.browserUid
    requires ResolveEndpoint(cfg, mode, host).Some? && (mode.WireGuard? ==> host.wireguardValid)
    requires Smooth(tape, 6)
    ensures var run := Prepare(cfg, mode, host, m, tape);
      run.end.Completed? && exists k: nat | k <= 6 :: run.rest == tape[k..]
  {
    hide RunPlan;
    if mode.WireGuard? {
      SetupCommits(cfg, m);
      SmoothStrictPlan(WireguardSetupPlan(cfg), m, tape, false);
      assert Prepare(cfg, mode, host, m, tape).rest == tape[6..];
    } else if UsesProxy(mode) {
      assert Prepare(cfg, mode, host, m, tape).rest == tape[1..];
    } else {
      assert Prepare(cfg, mode, host, m, tape).rest == tape[0..];
    }
  }

  lemma SmoothKillSwitch(cfg: NetworkConfig, m: Machine, tape: seq<Event>)
    requires Smooth(tape, 2)
    ensures var run := KillSwitch(cfg, m, tape);
      run.end.Completed? && run.rest == tape[2..] && OnlyFirewall(m, Final(m, run.visited))
          && Held(cfg, Final(m, run.visited))
  {
    hide RunPlan;
    var plan := KillSwitchPlan(cfg);
    var added := m.(nft := if m.nft.Absent? then Bare else m.nft);
    KillScriptMeaning(cfg, added.nft);
    assert plan[1..] == [NftTransaction(cfg, None, None)] && plan[1..][1..] == [];
    assert CommitAll(plan, m) == CommitAll(plan[1..], added);
    var held := added.(nft := Chain([DropRule(cfg)]));
    assert CommitAll(plan[1..], added) == CommitAll([], held) == Some(held);
    SmoothStrictPlan(plan, m, tape, true);
  }

  lemma SmoothPolicy(cfg: NetworkConfig, mode: EgressMode, m: Machine, tape: seq<Event>)
    requires UsesProxy(mode) ==> ModeEndpoint(cfg, mode).Some?
    requires Held(cfg, m) && Smooth(tape, 1)
    ensures RunPlan([NftTransaction(cfg, Some(mode), ModeEndpoint(cfg, mode))], m, tape, false, false).end.Completed?
  {
    PolicyScriptMeaning(cfg, mode, m.nft);
    SingleCommand(NftTransaction(cfg, Some(mode), ModeEndpoint(cfg, mode)), m, tape, false);
  }

  /** A transition whose endpoint or profile is configured and which meets no fault commits its mode,
      from any machine with at most one UID rule of the helper's own in each family. */
  lemma SmoothTransition(cfg: NetworkConfig, mode: EgressMode, host: HostFiles, n: Net, tape: seq<Event>)
    requires AtMostOneRule(cfg, n.machine) && OwnRules(n.machine) && Smooth(tape, 16)
    requires ResolveEndpoint(cfg, mode, host).Some? && (mode.WireGuard? ==> host.wireguardValid)
    ensures Transition(cfg, mode, host, n, tape).1.end.Completed?
  {
    hide RunPlan, OwnRules, KillSwitch, Teardown, Prepare;
    var m := n.machine;
    var kill := KillSwitch(cfg, m, tape);
    SmoothLater(tape, 0, 2);
    assert tape[0..] == tape;
    SmoothKillSwitch(cfg, m, tape);
    KillOwn(cfg, m, tape);
    var held := Final(m, kill.visited);
    SmoothLater(tape, 2, 16);
    SmoothTeardown(cfg, held, kill.rest);
    SmoothInner(cfg, mode, host, held, kill.rest);
  }

  lemma SmoothInner(cfg: NetworkConfig, mode: EgressMode, host: HostFiles, m: Machine, tape: seq<Event>)
    requires AtMostOneRule(cfg, m) && OwnRules(m) && Held(cfg, m) && Smooth(tape, 14)
    requires ResolveEndpoint(cfg, mode, host).Some? && (mode.WireGuard? ==> host.wireguardValid)
    ensures TransitionInner(cfg, mode, host, m, tape).end.Completed?
  {
    hide RunPlan, OwnRules, Teardown, Prepare;
    var down := Teardown(cfg, m, tape);
    SmoothTeardown(cfg, m, tape);
    var torn := Final(m, down.visited);
    SmoothLater(tape, 7, 14);
    var prep := Prepare(cfg, mode, host, torn, down.rest);
    SmoothPrepare(cfg, mode, host, torn, down.rest);
    PrepareFacts(cfg, mode, host, torn, down.rest);
    KeptIsHeld(cfg, torn, prep.visited);
    FinalOfJoin(m, down.visited, prep.visited);
    var k: nat :| k <= 6 && prep.rest == down.rest[k..];
    SmoothLater(down.rest, k, 7);
    SmoothPolicy(cfg, mode, Final(torn, prep.visited), prep.rest);
  }

  /** After any run of requests, whatever failed or was cancelled in it, the next transition that
      meets no fault is granted, and the firewall enforces its mode. */
  lemma NeverStuck(cfg: NetworkConfig, m: Machine, boot: seq<Event>, requests: seq<Request>,
                   mode: EgressMode, host: HostFiles, tape: seq<Event>)
    requires Coherent(cfg, m) && Initialize(cfg, m, boot).end.Completed?
    requires ResolveEndpoint(cfg, mode, host).Some? && (mode.WireGuard? ==> host.wireguardValid)
    requires Smooth(tape, 16)
    ensures var n := ServeAll(cfg, Net(Final(m, Initialize(cfg, m, boot).visited), None), requests);
      var (next, reply) := Serve(cfg, Apply(mode), host, n, tape);
      reply == Reply(true, mode) && next.activeMode == Some(mode) && Enforces(cfg, mode, next.machine)
  {
    hide Initialize, ServeAll, Transition, Enforces;
    var start := Net(Final(m, Initialize(cfg, m, boot).visited), None);
    InitializeEstablishes(cfg, m, boot);
    ServeAllKeepsNetInv(cfg, start, requests);
    ServeAllOwn(cfg, start, requests);
    var n := ServeAll(cfg, start, requests);
    SmoothTransition(cfg, mode, host, n, tape);
    ServeFacts(cfg, Apply(mode), host, n, tape);
  }
}
