/** What the helper answers, exactly: when a transition is granted, which profiles and endpoints are
    refused, and what a failed transition leaves behind. */
module NetAnswers {
  import opened Types
  import opened NetPlans
  import opened NetTransition
  import opened NetSafety
  import opened NetProgress

  /** What the configuration and the secret files must hold for a mode. */
  predicate Configured(cfg: NetworkConfig, mode: EgressMode, host: HostFiles) {
    match mode
    case Direct => true
    case WireGuard => host.wireguardValid
    case Tor => cfg.torEndpoint.Some?
    case Warp => cfg.warpEndpoint.Some?
    case Proxy => cfg.proxyEndpoint.Some? && host.proxyFile == cfg.proxyEndpoint
  }

  /** The events a mode's preparation needs: the setup commands of WireGuard, or one probe. */
  function Steps(mode: EgressMode): nat {
    match mode
    case Direct => 0
    case WireGuard => 6
    case _ => 1
  }

  /** The events of a granted transition: the kill-switch adds its table, which may be there already,
      and commits; the five teardown commands may fail, except those that have something to remove;
      two inspections, the preparation and the policy transaction succeed. */
  predicate GrantingEvents(mode: EgressMode, m: Machine, tape: seq<Event>) {
    && |tape| >= 10 + Steps(mode)
    && tape[0].Exited? && (tape[0].ok || (tape[0].existing && !m.nft.Absent?))
    && tape[1].Exited? && tape[1].ok
    && (forall i | 2 <= i < 10 + Steps(mode) :: tape[i].Exited?)
    && (m.rules4 != multiset{} ==> tape[2].ok) && (m.rules6 != multiset{} ==> tape[3].ok)
    && (m.wg0 ==> tape[6].ok)
    && (forall i | 7 <= i < 10 + Steps(mode) :: tape[i].ok)
  }

  // ----- plans, exactly

  lemma {:induction false} StrictPlanExact(plan: seq<Command>, m: Machine, tape: seq<Event>)
    requires CommitAll(plan, m).Some?
    ensures var run := RunPlan(plan, m, tape, false, false);
            && (run.end.Completed? <==> Smooth(tape, |plan|))
            && (run.end.Completed? ==> run.rest == tape[|plan|..] && Final(m, run.visited) == CommitAll(plan, m).value)
  {
    hide Commit;
    if plan == [] {
      assert tape[0..] == tape;
    } else if tape != [] {
      var next := Commit(plan[0], m).value;
      RunPlanUnfolds(plan, m, tape, false, false);
      if tape[0].Exited? && tape[0].ok {
        StrictPlanExact(plan[1..], next, tape[1..]);
        SmoothTail(tape, |plan|);
        assert |plan| - 1 <= |tape| - 1 ==> tape[1..][|plan| - 1..] == tape[|plan|..];
      }
    }
  }

  lemma SmoothTail(tape: seq<Event>, k: nat)
    requires tape != [] && k > 0
    ensures Smooth(tape, k) <==> tape[0].Exited? && tape[0].ok && Smooth(tape[1..], k - 1)
  {
    forall i | 0 <= i < |tape| - 1 ensures tape[1..][i] == tape[i + 1] {
    }
  }

  lemma KillSwitchExact(cfg: NetworkConfig, m: Machine, tape: seq<Event>)
    ensures var run := KillSwitch(cfg, m, tape);
            && (run.end.Completed? <==>
                  && |tape| >= 2 && tape[0].Exited? && (tape[0].ok || (tape[0].existing && !m.nft.Absent?))
                  && tape[1].Exited? && tape[1].ok)
            && (run.end.Completed? ==> run.rest == tape[2..] && OnlyFirewall(m, Final(m, run.visited))
                                       && Held(cfg, Final(m, run.visited)))
  {
    var plan := KillSwitchPlan(cfg);
    var script := NftTransaction(cfg, None, None);
    if tape != [] {
      RunPlanUnfolds(plan, m, tape, true, false);
      var (first, s) := Perform(plan[0], m, tape[0]);
      assert plan[1..] == [script];
      if Continues(plan[0], s, true, false) {
        SingleCommand(script, first, tape[1..], true);
        KillScriptMeaning(cfg, first.nft);
        if |tape| >= 2 { assert tape[1..][1..] == tape[2..]; }
      }
    }
  }

  // ----- teardown, exactly

  /** A plan that tolerates failures completes exactly when every command runs to its exit. */
  lemma {:induction false} TolerantPlanExact(plan: seq<Command>, m: Machine, tape: seq<Event>)
    ensures var run := RunPlan(plan, m, tape, false, true);
            && (run.end.Completed? <==> |plan| <= |tape| && forall i | 0 <= i < |plan| :: tape[i].Exited?)
            && (run.end.Completed? ==> run.rest == tape[|plan|..]
                                       && Final(m, run.visited) == Outcome(plan, m, tape))
  {
    if plan == [] {
      assert tape[0..] == tape;
    } else if tape != [] {
      hide Commit, Residue;
      var next := Perform(plan[0], m, tape[0]).0;
      RunPlanUnfolds(plan, m, tape, false, true);
      TolerantPlanExact(plan[1..], next, tape[1..]);
      forall i | 0 <= i < |tape| - 1 ensures tape[1..][i] == tape[i + 1] {
      }
      assert |plan| <= |tape| ==> tape[1..][|plan| - 1..] == tape[|plan|..];
      if |plan| <= |tape| && forall i | 0 <= i < |plan| :: tape[i].Exited? {
        forall i | 0 <= i < |plan| - 1 ensures tape[1..][i].Exited? {
          assert tape[1..][i] == tape[i + 1];
        }
      } else if |plan| <= |tape| && tape[0].Exited? {
        var i :| 0 <= i < |plan| && !tape[i].Exited?;
        assert i > 0 && !tape[1..][i - 1].Exited?;
      }
    }
  }

  function Outcome(plan: seq<Command>, m: Machine, tape: seq<Event>): Machine {
    if plan == [] || tape == [] then m else Outcome(plan[1..], Perform(plan[0], m, tape[0]).0, tape[1..])
  }

  lemma DeleteExited(v6: bool, m: Machine, o: Event)
    requires |Routing(v6, m)| <= 1 && Own(Routing(v6, m)) && o.Exited?
    ensures Perform(RuleDel(v6, WIREGUARD_RULE_PRIORITY, m.uid), m, o).0
         == if o.ok then WithRouting(v6, m, multiset{}) else m
  {
    DeleteTolerated(v6, m);
  }

  lemma FlushExited(v6: bool, m: Machine, o: Event)
    requires o.Exited?
    ensures var next := Perform(RouteFlush(v6), m, o).0;
            && next == m.(route4 := next.route4, route6 := next.route6)
            && (if v6 then next.route4 == m.route4 else next.route6 == m.route6)
            && (if v6 then next.route6 ==> m.route6 && !o.ok else next.route4 ==> m.route4 && !o.ok)
  {
  }

  lemma LinkExited(m: Machine, o: Event)
    requires o.Exited?
    ensures var next := Perform(LinkDelete, m, o).0;
            && next == m.(wg0 := m.wg0 && !o.ok, route4 := next.route4, route6 := next.route6)
            && (next.route4 ==> m.route4) && (next.route6 ==> m.route6)
  {
  }

  /** What is left after the teardown commands: whatever its command could not remove. */
  lemma TeardownOutcome(cfg: NetworkConfig, m: Machine, tape: seq<Event>)
    requires AtMostOneRule(cfg, m) && OwnRules(m)
    requires |tape| >= 5 && forall i | 0 <= i < 5 :: tape[i].Exited?
    ensures var after := Outcome(WireguardTeardownPlan(cfg), m, tape);
            && after.nft == m.nft
            && after.rules4 == (if tape[0].ok then multiset{} else m.rules4)
            && after.rules6 == (if tape[1].ok then multiset{} else m.rules6)
            && after.wg0 == (m.wg0 && !tape[4].ok)
            && (after.route4 ==> m.route4 && !tape[2].ok) && (after.route6 ==> m.route6 && !tape[3].ok)
  {
    var plan := WireguardTeardownPlan(cfg);
    var m1 := Perform(plan[0], m, tape[0]).0;
    var m2 := Perform(plan[1], m1, tape[1]).0;
    var m3 := Perform(plan[2], m2, tape[2]).0;
    var m4 := Perform(plan[3], m3, tape[3]).0;
    var m5 := Perform(plan[4], m4, tape[4]).0;
    hide Perform;
    DeleteExited(false, m, tape[0]);
    DeleteExited(true, m1, tape[1]);
    FlushExited(false, m2, tape[2]);
    FlushExited(true, m3, tape[3]);
    LinkExited(m4, tape[4]);
    OutcomeOfFive(plan, m, m1, m2, m3, m4, m5, tape);
  }

  lemma OutcomeOfFive(plan: seq<Command>, m: Machine, m1: Machine, m2: Machine, m3: Machine, m4: Machine, m5: Machine,
                      tape: seq<Event>)
    requires |plan| == 5 && |tape| >= 5
    requires m1 == Perform(plan[0], m, tape[0]).0 && m2 == Perform(plan[1], m1, tape[1]).0
    requires m3 == Perform(plan[2], m2, tape[2]).0 && m4 == Perform(plan[3], m3, tape[3]).0
    requires m5 == Perform(plan[4], m4, tape[4]).0
    ensures Outcome(plan, m, tape) == m5
  {
    hide Perform;
    assert plan[1..][1..] == plan[2..] && plan[2..][1..] == plan[3..] && plan[3..][1..] == plan[4..];
    assert tape[1..][1..] == tape[2..] && tape[2..][1..] == tape[3..] && tape[3..][1..] == tape[4..];
    assert Outcome(plan, m, tape) == Outcome(plan[1..], m1, tape[1..]) == Outcome(plan[2..], m2, tape[2..])
        == Outcome(plan[3..], m3, tape[3..]);
    assert plan[4..][1..] == [];
    assert Outcome(plan[3..], m3, tape[3..]) == Outcome(plan[4..], m4, tape[4..])
        == Outcome([], m5, tape[4..][1..]) == m5;
  }

  lemma TeardownExact(cfg: NetworkConfig, m: Machine, tape: seq<Event>)
    requires AtMostOneRule(cfg, m) && OwnRules(m)
    ensures var run := Teardown(cfg, m, tape);
            && (run.end.Completed? <==>
                  && |tape| >= 7 && (forall i | 0 <= i < 7 :: tape[i].Exited?)
                  && (m.rules4 != multiset{} ==> tape[0].ok) && (m.rules6 != multiset{} ==> tape[1].ok)
                  && (m.wg0 ==> tape[4].ok) && tape[5].ok && tape[6].ok)
            && (run.end.Completed? ==> run.rest == tape[7..])
  {
    hide RunPlan, Outcome, OwnRules, AtMostOneRule;
    var plan := WireguardTeardownPlan(cfg);
    TolerantPlanExact(plan, m, tape);
    if |tape| >= 5 && forall i | 0 <= i < 5 :: tape[i].Exited? {
      TeardownOutcome(cfg, m, tape);
      if |tape| >= 7 {
        assert tape[5..][0] == tape[5] && tape[5..][1..][0] == tape[6];
        assert tape[5..][1..][1..] == tape[7..];
      }
    }
  }

  // ----- the whole transition

  lemma PrepareExact(cfg: NetworkConfig, mode: EgressMode, host: HostFiles, m: Machine, tape: seq<Event>)
    requires NoWireGuard(m) && Coherent(cfg, m)
    ensures var run := Prepare(cfg, mode, host, m, tape);
            && (run.end.Completed? <==> Configured(cfg, mode, host) && Smooth(tape, Steps(mode)))
            && (run.end.Completed? ==> run.rest == tape[Steps(mode)..])
  {
    hide RunPlan;
    if mode.WireGuard? {
      SetupCommits(cfg, m);
      StrictPlanExact(WireguardSetupPlan(cfg), m, tape);
    }
    assert tape[0..] == tape;
  }

  lemma PolicyExact(cfg: NetworkConfig, mode: EgressMode, m: Machine, tape: seq<Event>)
    requires UsesProxy(mode) ==> ModeEndpoint(cfg, mode).Some?
    requires Held(cfg, m)
    ensures RunPlan([NftTransaction(cfg, Some(mode), ModeEndpoint(cfg, mode))], m, tape, false, false).end.Completed?
            <==> Smooth(tape, 1)
  {
    PolicyScriptMeaning(cfg, mode, m.nft);
    SingleCommand(NftTransaction(cfg, Some(mode), ModeEndpoint(cfg, mode)), m, tape, false);
  }

  lemma InnerExact(cfg: NetworkConfig, mode: EgressMode, host: HostFiles, m: Machine, tape: seq<Event>)
    requires AtMostOneRule(cfg, m) && OwnRules(m) && Held(cfg, m)
    ensures TransitionInner(cfg, mode, host, m, tape).end.Completed? <==>
            && Configured(cfg, mode, host) && Teardown(cfg, m, tape).end.Completed?
            && Smooth(Teardown(cfg, m, tape).rest, Steps(mode) + 1)
  {
    hide RunPlan, OwnRules, Teardown, Prepare, Configured;
    var down := Teardown(cfg, m, tape);
    TeardownFacts(cfg, m, tape);
    if down.end.Completed? {
      var torn := Final(m, down.visited);
      var prep := Prepare(cfg, mode, host, torn, down.rest);
      PrepareFacts(cfg, mode, host, torn, down.rest);
      PrepareExact(cfg, mode, host, torn, down.rest);
      KeptIsHeld(cfg, m, down.visited);
      KeptIsHeld(cfg, torn, prep.visited);
      FinalOfJoin(m, down.visited, prep.visited);
      if prep.end.Completed? {
        PolicyExact(cfg, mode, Final(torn, prep.visited), prep.rest);
        SmoothSplits(down.rest, Steps(mode));
      } else if Smooth(down.rest, Steps(mode) + 1) {
        assert Smooth(down.rest, Steps(mode));
      }
    }
  }

  lemma SmoothSplits(tape: seq<Event>, k: nat)
    requires Smooth(tape, k)
    ensures Smooth(tape, k + 1) <==> Smooth(tape[k..], 1)
  {
    if k < |tape| { assert tape[k..][0] == tape[k]; }
  }

  /** A transition is granted exactly when its mode is configured, WireGuard with a profile that
      passes the validator, and its commands run as they must. */
  lemma GrantExact(cfg: NetworkConfig, mode: EgressMode, host: HostFiles, n: Net, tape: seq<Event>)
    requires AtMostOneRule(cfg, n.machine) && OwnRules(n.machine)
    ensures Transition(cfg, mode, host, n, tape).1.end.Completed?
            <==> Configured(cfg, mode, host) && GrantingEvents(mode, n.machine, tape)
  {
    hide RunPlan, OwnRules, KillSwitch, Teardown, TransitionInner, Recover, Configured;
    var m := n.machine;
    var kill := KillSwitch(cfg, m, tape);
    KillSwitchExact(cfg, m, tape);
    if kill.end.Completed? {
      KillOwn(cfg, m, tape);
      var held := Final(m, kill.visited);
      assert AtMostOneRule(cfg, held);
      InnerExact(cfg, mode, host, held, kill.rest);
      TeardownExact(cfg, held, kill.rest);
      var last := Final(held, TransitionInner(cfg, mode, host, held, kill.rest).visited);
      RecoverNeverCompletes(cfg, last, TransitionInner(cfg, mode, host, held, kill.rest).rest);
      FinalOfJoin(m, kill.visited, TransitionInner(cfg, mode, host, held, kill.rest).visited);
      EventsShift(mode, m, tape);
    }
  }

  lemma RecoverNeverCompletes(cfg: NetworkConfig, m: Machine, tape: seq<Event>)
    ensures !Recover(cfg, m, tape).end.Completed?
  {
    hide Teardown, KillSwitch;
  }

  /** The events after the kill-switch, counted from there. */
  lemma EventsShift(mode: EgressMode, m: Machine, tape: seq<Event>)
    requires |tape| >= 2 && tape[0].Exited? && (tape[0].ok || (tape[0].existing && !m.nft.Absent?))
    requires tape[1].Exited? && tape[1].ok
    ensures var t := tape[2..];
            GrantingEvents(mode, m, tape) <==>
              && |t| >= 7 && (forall i | 0 <= i < 7 :: t[i].Exited?)
              && (m.rules4 != multiset{} ==> t[0].ok) && (m.rules6 != multiset{} ==> t[1].ok)
              && (m.wg0 ==> t[4].ok) && t[5].ok && t[6].ok && Smooth(t[7..], Steps(mode) + 1)
  {
    var t, k := tape[2..], Steps(mode) + 1;
    if GrantingEvents(mode, m, tape) {
      forall i | 0 <= i < k ensures t[7..][i].Exited? && t[7..][i].ok {
        assert t[7..][i] == tape[9 + i];
      }
    } else if |t| >= 7 && Smooth(t[7..], k) && (forall i | 0 <= i < 7 :: t[i].Exited?) && t[5].ok && t[6].ok {
      forall i | 2 <= i < 9 + k ensures tape[i].Exited? && (i >= 7 ==> tape[i].ok) {
        if i < 9 { assert tape[i] == t[i - 2]; } else { assert tape[i] == t[7..][i - 9]; }
      }
    }
  }

  /** The answer to every request, and the mode the helper holds for committed afterwards.  A reset
      asks for Direct; a status query changes nothing and reports what is committed. */
  lemma AnswersExact(cfg: NetworkConfig, command: EgressCommand, host: HostFiles, n: Net, tape: seq<Event>)
    requires AtMostOneRule(cfg, n.machine) && OwnRules(n.machine)
    ensures var (next, reply) := Serve(cfg, command, host, n, tape);
            match command
            case StatusQuery =>
              && next == n && (reply.ok <==> n.activeMode.Some?)
              && (reply.ok ==> n.activeMode == Some(reply.mode)) && (!reply.ok ==> reply.mode == Direct)
            case Apply(mode) =>
              if Configured(cfg, mode, host) && GrantingEvents(mode, n.machine, tape)
              then reply == Reply(true, mode) && next.activeMode == Some(mode)
              else reply == Reply(false, Direct) && next.activeMode == None
            case Reset =>
              if GrantingEvents(Direct, n.machine, tape)
              then reply == Reply(true, Direct) && next.activeMode == Some(Direct)
              else reply == Reply(false, Direct) && next.activeMode == None
  {
    hide Attempt, OwnRules, AtMostOneRule, GrantingEvents;
    if !command.StatusQuery? {
      GrantExact(cfg, if command.Apply? then command.mode else Direct, host, n, tape);
    }
  }

  /** The same over every run of requests: nothing else decides what is answered next. */
  lemma RunsAnswerExactly(cfg: NetworkConfig, m: Machine, boot: seq<Event>, requests: seq<Request>,
                          mode: EgressMode, host: HostFiles, tape: seq<Event>)
    requires Coherent(cfg, m) && Initialize(cfg, m, boot).end.Completed?
    ensures var n := ServeAll(cfg, Net(Final(m, Initialize(cfg, m, boot).visited), None), requests);
            Serve(cfg, Apply(mode), host, n, tape).1
            == if Configured(cfg, mode, host) && GrantingEvents(mode, n.machine, tape) then Reply(true, mode)
               else Reply(false, Direct)
  {
    hide Initialize, ServeAll, Serve, OwnRules, AtMostOneRule, GrantingEvents, Configured;
    var start := Net(Final(m, Initialize(cfg, m, boot).visited), None);
    InitializeEstablishes(cfg, m, boot);
    ServeAllKeepsNetInv(cfg, start, requests);
    StartIsOwn(cfg, m, boot);
    ServeAllOwn(cfg, start, requests);
    AnswersExact(cfg, Apply(mode), host, ServeAll(cfg, start, requests), tape);
  }

  lemma StartIsOwn(cfg: NetworkConfig, m: Machine, boot: seq<Event>)
    requires NoWireGuard(Final(m, Initialize(cfg, m, boot).visited))
    ensures OwnRules(Final(m, Initialize(cfg, m, boot).visited))
  {
    hide Initialize;
  }

  // ----- what a grant shows, on any machine

  lemma TeardownConsumes(cfg: NetworkConfig, m: Machine, tape: seq<Event>)
    requires Teardown(cfg, m, tape).end.Completed?
    ensures |tape| >= 7 && Teardown(cfg, m, tape).rest == tape[7..]
  {
    hide RunPlan, Outcome;
    TolerantPlanExact(WireguardTeardownPlan(cfg), m, tape);
    assert |tape| >= 7 ==> tape[5..][1..][1..] == tape[7..];
  }

  lemma PrepareShows(cfg: NetworkConfig, mode: EgressMode, host: HostFiles, m: Machine, tape: seq<Event>)
    requires Prepare(cfg, mode, host, m, tape).end.Completed?
    ensures Configured(cfg, mode, host)
    ensures UsesProxy(mode) ==> tape != [] && tape[0].Exited? && tape[0].ok
  {
    hide RunPlan;
  }

  /** Whatever the state of the machine: a granted mode is configured, a WireGuard profile has passed
      the validator, the proxy file agrees with the configured endpoint, and the endpoint of a proxied
      mode has answered its probe, the tenth event of the transition. */
  lemma GrantedIsConfigured(cfg: NetworkConfig, mode: EgressMode, host: HostFiles, n: Net, tape: seq<Event>)
    requires Serve(cfg, Apply(mode), host, n, tape).1.ok
    ensures Configured(cfg, mode, host)
    ensures UsesProxy(mode) ==> |tape| > 9 && tape[9].Exited? && tape[9].ok
  {
    hide RunPlan, KillSwitch, Teardown, Prepare, Recover, Configured;
    var m := n.machine;
    var kill := KillSwitch(cfg, m, tape);
    KillSwitchExact(cfg, m, tape);
    var held := Final(m, kill.visited);
    var inner := TransitionInner(cfg, mode, host, held, kill.rest);
    RecoverNeverCompletes(cfg, Final(m, kill.visited + inner.visited), inner.rest);
    var down := Teardown(cfg, held, kill.rest);
    TeardownConsumes(cfg, held, kill.rest);
    PrepareShows(cfg, mode, host, Final(held, down.visited), down.rest);
    assert tape[2..][7..] == tape[9..];
  }

  // ----- no interface without a valid profile

  /** The interface is not created along the way: once it is gone it stays gone. */
  ghost predicate Falling(m: Machine, visited: seq<Machine>) {
    && (forall i | 0 <= i < |visited| :: visited[i].wg0 ==> m.wg0)
    && (forall i, j | 0 <= i <= j < |visited| :: visited[j].wg0 ==> visited[i].wg0)
  }

  lemma {:induction false} PlanFalls(plan: seq<Command>, m: Machine, tape: seq<Event>, allow: bool, ignore: bool)
    requires forall i | 0 <= i < |plan| :: !plan[i].WgQuickUp?
    ensures Falling(m, RunPlan(plan, m, tape, allow, ignore).visited)
  {
    hide Perform;
    if plan != [] && tape != [] {
      PerformFalls(plan[0], m, tape[0]);
      RunPlanUnfolds(plan, m, tape, allow, ignore);
      PlanFalls(plan[1..], Perform(plan[0], m, tape[0]).0, tape[1..], allow, ignore);
    }
  }

  lemma PerformFalls(c: Command, m: Machine, o: Event)
    requires !c.WgQuickUp?
    ensures Perform(c, m, o).0.wg0 ==> m.wg0
  {
    hide ExecScript;
    assert Commit(c, m).Some? && Commit(c, m).value.wg0 ==> m.wg0;
  }

  lemma FallingJoin(m: Machine, a: seq<Machine>, b: seq<Machine>)
    requires Falling(m, a) && Falling(Final(m, a), b)
    ensures Falling(m, a + b)
  {
  }

  lemma TeardownFalls(cfg: NetworkConfig, m: Machine, tape: seq<Event>)
    ensures Falling(m, Teardown(cfg, m, tape).visited)
  {
    hide RunPlan;
    PlanFalls(WireguardTeardownPlan(cfg), m, tape, false, true);
    assert Teardown(cfg, m, tape).visited == RunPlan(WireguardTeardownPlan(cfg), m, tape, false, true).visited;
  }

  lemma InnerFalls(cfg: NetworkConfig, mode: EgressMode, host: HostFiles, m: Machine, tape: seq<Event>)
    requires mode.WireGuard? ==> !host.wireguardValid
    ensures Falling(m, TransitionInner(cfg, mode, host, m, tape).visited)
  {
    hide RunPlan, Falling, Teardown;
    var down := Teardown(cfg, m, tape);
    TeardownFalls(cfg, m, tape);
    if down.end.Completed? {
      var torn := Final(m, down.visited);
      var prep := Prepare(cfg, mode, host, torn, down.rest);
      assert prep.visited == [] && down.visited + [] == down.visited;
      if prep.end.Completed? {
        var plan := [NftTransaction(cfg, Some(mode), ModeEndpoint(cfg, mode))];
        PlanFalls(plan, torn, prep.rest, false, false);
        FallingJoin(m, down.visited, RunPlan(plan, torn, prep.rest, false, false).visited);
      }
    }
  }

  lemma RecoverFalls(cfg: NetworkConfig, m: Machine, tape: seq<Event>)
    ensures Falling(m, Recover(cfg, m, tape).visited)
  {
    hide RunPlan, Falling, Teardown;
    var down := Teardown(cfg, m, tape);
    TeardownFalls(cfg, m, tape);
    var after := Final(m, down.visited);
    PlanFalls(KillSwitchPlan(cfg), after, down.rest, true, false);
    FallingJoin(m, down.visited, KillSwitch(cfg, after, down.rest).visited);
  }

  /** A profile that the validator refuses, and every other mode, never brings the interface up, at no
      moment of the transition and with no event; and it is never answered as WireGuard. */
  lemma RefusedProfileStaysDown(cfg: NetworkConfig, mode: EgressMode, host: HostFiles, n: Net, tape: seq<Event>)
    requires mode.WireGuard? ==> !host.wireguardValid
    ensures var (next, run) := Transition(cfg, mode, host, n, tape);
            && Falling(n.machine, run.visited)
            && (next.machine.wg0 ==> n.machine.wg0)
            && (mode.WireGuard? ==> !run.end.Completed? && next.activeMode == None)
  {
    hide RunPlan, Falling, Teardown, Prepare;
    var m := n.machine;
    var kill := KillSwitch(cfg, m, tape);
    PlanFalls(KillSwitchPlan(cfg), m, tape, true, false);
    if kill.end.Completed? {
      var held := Final(m, kill.visited);
      var inner := TransitionInner(cfg, mode, host, held, kill.rest);
      InnerFalls(cfg, mode, host, held, kill.rest);
      FallingJoin(m, kill.visited, inner.visited);
      FinalOfJoin(m, kill.visited, inner.visited);
      var last := Final(held, inner.visited);
      if inner.end.Errored? {
        RecoverFalls(cfg, last, inner.rest);
        RecoverNeverCompletes(cfg, last, inner.rest);
        FallingJoin(m, kill.visited + inner.visited, Recover(cfg, last, inner.rest).visited);
      } else if inner.end.Completed? && mode.WireGuard? {
        RefusedInner(cfg, host, held, kill.rest);
      }
    }
    FallsToEnd(m, Transition(cfg, mode, host, n, tape).1.visited);
  }

  lemma RefusedInner(cfg: NetworkConfig, host: HostFiles, m: Machine, tape: seq<Event>)
    requires !host.wireguardValid
    ensures !TransitionInner(cfg, WireGuard, host, m, tape).end.Completed?
  {
    hide RunPlan, Teardown;
  }

  lemma FallsToEnd(m: Machine, visited: seq<Machine>)
    requires Falling(m, visited)
    ensures Final(m, visited).wg0 ==> m.wg0
  {
  }

  /** From the end of a completed teardown on, a transition without a valid profile has no interface. */
  lemma DownAfterTeardown(cfg: NetworkConfig, mode: EgressMode, host: HostFiles, m: Machine, tape: seq<Event>)
    requires mode.WireGuard? ==> !host.wireguardValid
    requires Teardown(cfg, m, tape).end.Completed?
    ensures var run, down := TransitionInner(cfg, mode, host, m, tape), Teardown(cfg, m, tape);
            && |run.visited| >= |down.visited|
            && forall i | |down.visited| <= i < |run.visited| :: !run.visited[i].wg0
  {
    hide RunPlan;
    var run, down := TransitionInner(cfg, mode, host, m, tape), Teardown(cfg, m, tape);
    TeardownFacts(cfg, m, tape);
    InnerFalls(cfg, mode, host, m, tape);
    if down.visited == [] {
      assert !m.wg0;
    } else {
      assert run.visited[|down.visited| - 1] == down.visited[|down.visited| - 1];
    }
  }

  // ----- what a failed transition leaves behind

  /** A recovery that meets no fault restores the kill-switch and leaves nothing of WireGuard. */
  lemma SmoothRecovery(cfg: NetworkConfig, m: Machine, tape: seq<Event>)
    requires AtMostOneRule(cfg, m) && OwnRules(m) && Smooth(tape, 9)
    ensures var run := Recover(cfg, m, tape);
            && run.end.Errored? && run.rest == tape[9..]
            && Held(cfg, Final(m, run.visited)) && NoWireGuard(Final(m, run.visited))
  {
    hide RunPlan, OwnRules, Teardown, KillSwitch;
    var down := Teardown(cfg, m, tape);
    SmoothTeardown(cfg, m, tape);
    SmoothLater(tape, 7, 9);
    var after := Final(m, down.visited);
    SmoothKillSwitch(cfg, after, down.rest);
    FinalOfJoin(m, down.visited, KillSwitch(cfg, after, down.rest).visited);
    assert tape[7..][2..] == tape[9..];
  }

  /** A refused transition that meets no fault: an unconfigured mode is refused after the teardown, and
      the machine ends dropping, without the interface and without the UID rules, whatever it enforced
      before. */
  lemma RefusalCleansUp(cfg: NetworkConfig, mode: EgressMode, host: HostFiles, n: Net, tape: seq<Event>)
    requires AtMostOneRule(cfg, n.machine) && OwnRules(n.machine) && Smooth(tape, 18)
    requires !Configured(cfg, mode, host)
    ensures var (next, run) := Transition(cfg, mode, host, n, tape);
            run.end.Errored? && next.activeMode == None && Drops(cfg, next.machine) && NoWireGuard(next.machine)
  {
    hide RunPlan, OwnRules, Teardown, KillSwitch, Recover, Drops, Configured, Prepare;
    var m := n.machine;
    var kill := KillSwitch(cfg, m, tape);
    SmoothLater(tape, 0, 2);
    assert tape[0..] == tape;
    SmoothKillSwitch(cfg, m, tape);
    KillOwn(cfg, m, tape);
    var held := Final(m, kill.visited);
    SmoothLater(tape, 2, 18);
    var down := Teardown(cfg, held, kill.rest);
    SmoothTeardown(cfg, held, kill.rest);
    SmoothLater(kill.rest, 7, 16);
    var torn := Final(held, down.visited);
    PrepareRefuses(cfg, mode, host, torn, down.rest);
    assert down.visited + [] == down.visited;
    FinalOfJoin(m, kill.visited, down.visited);
    assert AtMostOneRule(cfg, torn);
    TeardownOwn(cfg, held, kill.rest);
    SmoothRecovery(cfg, torn, down.rest);
    var recovery := Recover(cfg, torn, down.rest);
    FinalOfJoin(m, kill.visited + down.visited, recovery.visited);
    HeldDrops(cfg, Final(torn, recovery.visited));
  }

  lemma PrepareRefuses(cfg: NetworkConfig, mode: EgressMode, host: HostFiles, m: Machine, tape: seq<Event>)
    requires !Configured(cfg, mode, host)
    ensures Prepare(cfg, mode, host, m, tape) == Exec([], tape, Errored)
  {
  }
}
