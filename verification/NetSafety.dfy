/** What the fail-closed transition guarantees: in every intermediate state of one transition,
    and over every run of requests. */
module NetSafety {
  import opened Types
  import opened NetPlans
  import opened NetTransition

  predicate PolicyInstalled(cfg: NetworkConfig, mode: EgressMode, m: Machine) {
    (UsesProxy(mode) ==> ModeEndpoint(cfg, mode).Some?) && Rules(m.nft) == PolicyRules(cfg, mode)
  }

  ghost predicate AllHeld(cfg: NetworkConfig, visited: seq<Machine>) {
    forall i | 0 <= i < |visited| :: Held(cfg, visited[i])
  }

  /** Everything is held, except that the very last state may carry the mode's policy. */
  ghost predicate HeldUntilPolicy(cfg: NetworkConfig, mode: EgressMode, run: Exec) {
    && (forall i | 0 <= i < |run.visited| - 1 :: Held(cfg, run.visited[i]))
    && (run.visited != [] ==>
          Held(cfg, run.visited[|run.visited| - 1])
          || (!run.end.Errored? && PolicyInstalled(cfg, mode, run.visited[|run.visited| - 1])))
  }

  lemma KeptIsHeld(cfg: NetworkConfig, m: Machine, visited: seq<Machine>)
    requires Held(cfg, m) && FirewallKept(m.nft, visited)
    ensures AllHeld(cfg, visited) && Held(cfg, Final(m, visited))
  {
  }

  lemma PrepareFacts(cfg: NetworkConfig, mode: EgressMode, host: HostFiles, m: Machine, tape: seq<Event>)
    requires NoWireGuard(m) && Coherent(cfg, m)
    ensures var run := Prepare(cfg, mode, host, m, tape);
            && FirewallKept(m.nft, run.visited)
            && RulesBounded(cfg, run.visited)
            && (run.end.Completed? && mode.WireGuard? ==> WireGuardUp(Final(m, run.visited)))
            && (!mode.WireGuard? ==> Final(m, run.visited) == m)
            && (run.end.Completed? && UsesProxy(mode) ==> ModeEndpoint(cfg, mode).Some?)
  {
    SetupFacts(cfg, m, tape);
  }

  lemma PolicyCommit(cfg: NetworkConfig, mode: EgressMode, m: Machine, tape: seq<Event>)
    requires UsesProxy(mode) ==> ModeEndpoint(cfg, mode).Some?
    ensures var run := RunPlan([NftTransaction(cfg, Some(mode), ModeEndpoint(cfg, mode))], m, tape, false, false);
            && |run.visited| <= 1
            && (forall i | 0 <= i < |run.visited| :: OnlyFirewall(m, run.visited[i]))
            && (Final(m, run.visited) == m || (PolicyInstalled(cfg, mode, Final(m, run.visited)) && !run.end.Errored?))
            && (run.end.Completed? ==> PolicyInstalled(cfg, mode, Final(m, run.visited)))
  {
    PolicyScriptMeaning(cfg, mode, m.nft);
    SingleCommand(NftTransaction(cfg, Some(mode), ModeEndpoint(cfg, mode)), m, tape, false);
  }

  /** The state a committed mode promises. */
  predicate Consistent(cfg: NetworkConfig, mode: EgressMode, m: Machine) {
    && PolicyInstalled(cfg, mode, m)
    && (if mode.WireGuard? then WireGuardUp(m) else NoWireGuard(m))
  }

  lemma FinalOfJoin(m: Machine, a: seq<Machine>, b: seq<Machine>)
    ensures Final(m, a + b) == Final(Final(m, a), b)
  {
  }

  lemma BoundedJoin(cfg: NetworkConfig, a: seq<Machine>, b: seq<Machine>)
    requires RulesBounded(cfg, a) && RulesBounded(cfg, b)
    ensures RulesBounded(cfg, a + b)
  {
  }

  /** `ready` is a run that changes routing only, `commit` the policy transaction after it. */
  lemma ComposeInner(cfg: NetworkConfig, mode: EgressMode, ready: Exec, commit: Exec, mid: Machine)
    requires AllHeld(cfg, ready.visited)
    requires Held(cfg, mid)
    requires |commit.visited| <= 1
    requires Final(mid, commit.visited) == mid
        || (PolicyInstalled(cfg, mode, Final(mid, commit.visited)) && !commit.end.Errored?)
    ensures HeldUntilPolicy(cfg, mode, Join(ready, commit))
  {
  }

  lemma HeldRun(cfg: NetworkConfig, mode: EgressMode, run: Exec)
    requires AllHeld(cfg, run.visited)
    ensures HeldUntilPolicy(cfg, mode, run)
  {
  }

  /** Teardown and preparation from a held machine: only routing moves. */
  lemma ReadyFacts(cfg: NetworkConfig, mode: EgressMode, host: HostFiles, m: Machine, tape: seq<Event>)
    requires Held(cfg, m) && AtMostOneRule(cfg, m)
    requires Teardown(cfg, m, tape).end.Completed?
    ensures var down := Teardown(cfg, m, tape);
            var torn := Final(m, down.visited);
            var ready := Join(down, Prepare(cfg, mode, host, torn, down.rest));
            var mid := Final(m, ready.visited);
            && AllHeld(cfg, ready.visited) && RulesBounded(cfg, ready.visited)
            && Held(cfg, mid) && AtMostOneRule(cfg, mid)
            && (ready.end.Completed? ==>
                  && (UsesProxy(mode) ==> ModeEndpoint(cfg, mode).Some?)
                  && (if mode.WireGuard? then WireGuardUp(mid) else NoWireGuard(mid)))
  {
    var down := Teardown(cfg, m, tape);
    TeardownFacts(cfg, m, tape);
    KeptIsHeld(cfg, m, down.visited);
    var torn := Final(m, down.visited);
    var prep := Prepare(cfg, mode, host, torn, down.rest);
    PrepareFacts(cfg, mode, host, torn, down.rest);
    KeptIsHeld(cfg, torn, prep.visited);
    FinalOfJoin(m, down.visited, prep.visited);
    BoundedJoin(cfg, down.visited, prep.visited);
  }

  /** From a held machine, every state up to the final commit stays held, and success means that
      firewall, interface, routes and rules all agree with the mode. */
  lemma InnerFacts(cfg: NetworkConfig, mode: EgressMode, host: HostFiles, m: Machine, tape: seq<Event>)
    requires Held(cfg, m) && AtMostOneRule(cfg, m)
    ensures var run := TransitionInner(cfg, mode, host, m, tape);
            && HeldUntilPolicy(cfg, mode, run)
            && RulesBounded(cfg, run.visited)
            && (run.end.Completed? ==> run.visited != [] && Consistent(cfg, mode, Final(m, run.visited)))
            && (run.end.Errored? ==> Held(cfg, Final(m, run.visited)))
  {
    var down := Teardown(cfg, m, tape);
    TeardownFacts(cfg, m, tape);
    KeptIsHeld(cfg, m, down.visited);
    if !down.end.Completed? {
      HeldRun(cfg, mode, down);
    } else {
      var ready := Join(down, Prepare(cfg, mode, host, Final(m, down.visited), down.rest));
      ReadyFacts(cfg, mode, host, m, tape);
      if !ready.end.Completed? {
        HeldRun(cfg, mode, ready);
      } else {
        var mid := Final(m, ready.visited);
        var commit := RunPlan([NftTransaction(cfg, Some(mode), ModeEndpoint(cfg, mode))], mid, ready.rest, false,
                              false);
        PolicyCommit(cfg, mode, mid, ready.rest);
        ComposeInner(cfg, mode, ready, commit, mid);
        FinalOfJoin(m, ready.visited, commit.visited);
        BoundedJoin(cfg, ready.visited, commit.visited);
      }
    }
  }

  lemma RecoverFacts(cfg: NetworkConfig, m: Machine, tape: seq<Event>)
    requires Held(cfg, m) && AtMostOneRule(cfg, m)
    ensures var run := Recover(cfg, m, tape);
            && AllHeld(cfg, run.visited)
            && RulesBounded(cfg, run.visited)
            && !run.end.Completed?
  {
    hide RunPlan, Teardown;
    var down := Teardown(cfg, m, tape);
    TeardownFacts(cfg, m, tape);
    KeptIsHeld(cfg, m, down.visited);
    KillSwitchFacts(cfg, Final(m, down.visited), down.rest);
  }

  /** The index of the state in which the first kill-switch of a transition has committed, or the
      number of visited states when it never does. */
  function KillPoint(cfg: NetworkConfig, m: Machine, tape: seq<Event>): nat {
    var kill := KillSwitch(cfg, m, tape);
    if |kill.visited| == 2 && Held(cfg, kill.visited[1]) then 1 else |kill.visited|
  }

  /** The facts about one attempt; `k` is where its first kill-switch committed. */
  ghost predicate AttemptSafe(cfg: NetworkConfig, mode: EgressMode, m: Machine, run: Exec, k: nat) {
    && k <= |run.visited|
    && (forall i | 0 <= i < k :: SameFirewall(m, run.visited[i]))
    && (forall i | k <= i < |run.visited| - 1 :: Held(cfg, run.visited[i]))
    && RulesBounded(cfg, run.visited)
    && (k < |run.visited| ==> Held(cfg, Final(m, run.visited))
                              || (!run.end.Errored? && PolicyInstalled(cfg, mode, Final(m, run.visited))))
    && (run.end.Completed? ==> k < |run.visited| && Consistent(cfg, mode, Final(m, run.visited)))
  }

  lemma ComposeAttempt(cfg: NetworkConfig, mode: EgressMode, m: Machine, kill: Exec, inner: Exec)
    requires |kill.visited| == 2 && SameFirewall(m, kill.visited[0]) && Held(cfg, kill.visited[1])
    requires RulesBounded(cfg, kill.visited) && RulesBounded(cfg, inner.visited)
    requires HeldUntilPolicy(cfg, mode, inner)
    requires inner.end.Completed? ==>
      inner.visited != [] && Consistent(cfg, mode, Final(kill.visited[1], inner.visited))
    ensures AttemptSafe(cfg, mode, m, Join(kill, inner), 1)
  {
    BoundedJoin(cfg, kill.visited, inner.visited);
  }

  lemma ComposeRecovery(cfg: NetworkConfig, mode: EgressMode, m: Machine, run: Exec, recovery: Exec, k: nat)
    requires AttemptSafe(cfg, mode, m, run, k) && run.end.Errored? && k < |run.visited|
    requires AllHeld(cfg, recovery.visited) && RulesBounded(cfg, recovery.visited) && !recovery.end.Completed?
    ensures AttemptSafe(cfg, mode, m, Join(run, recovery), k)
  {
    BoundedJoin(cfg, run.visited, recovery.visited);
  }

  lemma KillAloneSafe(cfg: NetworkConfig, mode: EgressMode, m: Machine, tape: seq<Event>)
    requires AtMostOneRule(cfg, m)
    ensures var kill := KillSwitch(cfg, m, tape);
            && RulesBounded(cfg, kill.visited)
            && (!kill.end.Completed? ==> AttemptSafe(cfg, mode, m, kill, KillPoint(cfg, m, tape)))
  {
    KillSwitchFacts(cfg, m, tape);
    var kill := KillSwitch(cfg, m, tape);
    forall i | 0 <= i < |kill.visited| ensures AtMostOneRule(cfg, kill.visited[i]) {
      assert OnlyFirewall(m, kill.visited[i]);
    }
  }

  lemma AttemptFacts(cfg: NetworkConfig, mode: EgressMode, host: HostFiles, m: Machine, tape: seq<Event>)
    requires AtMostOneRule(cfg, m)
    ensures AttemptSafe(cfg, mode, m, Attempt(cfg, mode, host, m, tape), KillPoint(cfg, m, tape))
  {
    var kill := KillSwitch(cfg, m, tape);
    KillSwitchFacts(cfg, m, tape);
    KillAloneSafe(cfg, mode, m, tape);
    if kill.end.Completed? {
      var held := Final(m, kill.visited);
      var inner := TransitionInner(cfg, mode, host, held, kill.rest);
      InnerFacts(cfg, mode, host, held, kill.rest);
      ComposeAttempt(cfg, mode, m, kill, inner);
      if inner.end.Errored? {
        var joined := Join(kill, inner);
        var last := Final(m, joined.visited);
        FinalOfJoin(m, kill.visited, inner.visited);
        assert AtMostOneRule(cfg, last);
        RecoverFacts(cfg, last, joined.rest);
        ComposeRecovery(cfg, mode, m, joined, Recover(cfg, last, joined.rest), 1);
      }
    }
  }

  lemma SafeIsLeakFree(cfg: NetworkConfig, mode: EgressMode, m: Machine, run: Exec, k: nat)
    requires AttemptSafe(cfg, mode, m, run, k)
    ensures forall i | k <= i < |run.visited| - 1 :: Drops(cfg, run.visited[i])
    ensures k < |run.visited| ==> Drops(cfg, Final(m, run.visited))
                                  || (!run.end.Errored? && Enforces(cfg, mode, Final(m, run.visited)))
    ensures run.end.Completed? ==> Enforces(cfg, mode, Final(m, run.visited))
  {
    forall i | k <= i < |run.visited| - 1 ensures Drops(cfg, run.visited[i]) {
      DropRuleDrops(cfg, run.visited[i]);
    }
    var last := Final(m, run.visited);
    if Held(cfg, last) { DropRuleDrops(cfg, last); }
    if PolicyInstalled(cfg, mode, last) { PolicyRulesEnforce(cfg, mode, last); }
  }

  /** No-leak window.  Until the first kill-switch commits, the old firewall and routing stay; from
      then on every state drops every packet of the browser, up to the last state, which alone may
      carry the policy of the requested mode, and only if the transition did not report an error.
      A transition that errs ends dropping, unless the first kill-switch never committed, in which
      case firewall rules and routing are what they were. */
  lemma NoLeakWindow(cfg: NetworkConfig, mode: EgressMode, host: HostFiles, n: Net, tape: seq<Event>)
    requires AtMostOneRule(cfg, n.machine)
    ensures var (next, run) := Transition(cfg, mode, host, n, tape);
            var k := KillPoint(cfg, n.machine, tape);
            var last := |run.visited| - 1;
            && k <= |run.visited|
            && (forall i | 0 <= i < k :: SameFirewall(n.machine, run.visited[i]))
            && (forall i | k <= i < last :: Drops(cfg, run.visited[i]))
            && (k <= last ==> Drops(cfg, next.machine) || (!run.end.Errored? && Enforces(cfg, mode, next.machine)))
            && (run.end.Completed? ==> k <= last && next.activeMode == Some(mode) && Enforces(cfg, mode, next.machine))
            && (!run.end.Completed? ==> next.activeMode == None)
            && (run.end.Errored? ==>
                  if k <= last then Drops(cfg, next.machine) else SameFirewall(n.machine, next.machine))
  {
    AttemptFacts(cfg, mode, host, n.machine, tape);
    SafeIsLeakFree(cfg, mode, n.machine, Attempt(cfg, mode, host, n.machine, tape), KillPoint(cfg, n.machine, tape));
  }

  // ----- when the report of a held browser is right

  /** The event lets a command that can commit do so. */
  predicate Commits(o: Event) {
    (o.Exited? && o.ok) || (o.Killed? && o.committed)
  }

  /** The first kill-switch gets past adding its table, and its script commits. */
  predicate KillCommits(m: Machine, tape: seq<Event>) {
    && |tape| >= 2 && tape[0].Exited? && (tape[0].ok || (tape[0].existing && !m.nft.Absent?))
    && Commits(tape[1])
  }

  /** Teardown and preparation succeed, and the deadline strikes in the policy transaction, too late
      to keep it from committing. */
  predicate CutAfterPolicy(cfg: NetworkConfig, mode: EgressMode, host: HostFiles, held: Machine, tape: seq<Event>) {
    var down := Teardown(cfg, held, tape);
    var prep := Prepare(cfg, mode, host, Final(held, down.visited), down.rest);
    && down.end.Completed? && prep.end.Completed?
    && prep.rest != [] && prep.rest[0].Killed? && prep.rest[0].committed
  }

  predicate CutOff(cfg: NetworkConfig, mode: EgressMode, host: HostFiles, m: Machine, tape: seq<Event>) {
    var kill := KillSwitch(cfg, m, tape);
    kill.end.Completed? && CutAfterPolicy(cfg, mode, host, Final(m, kill.visited), kill.rest)
  }

  lemma KillSwitchDrops(cfg: NetworkConfig, m: Machine, tape: seq<Event>)
    ensures var run := KillSwitch(cfg, m, tape);
            && (Drops(cfg, Final(m, run.visited)) <==> Drops(cfg, m) || KillCommits(m, tape))
            && (run.end.Completed? ==> KillCommits(m, tape))
  {
    var plan := KillSwitchPlan(cfg);
    var script := NftTransaction(cfg, None, None);
    var run := KillSwitch(cfg, m, tape);
    if tape != [] {
      RunPlanUnfolds(plan, m, tape, true, false);
      var (first, s) := Perform(plan[0], m, tape[0]);
      assert plan[1..] == [script];
      if Continues(plan[0], s, true, false) {
        SingleCommand(script, first, tape[1..], true);
        KillScriptMeaning(cfg, first.nft);
      }
    }
    var last := Final(m, run.visited);
    if KillCommits(m, tape) {
      DropRuleDrops(cfg, last);
    } else {
      assert Rules(last.nft) == Rules(m.nft);
    }
  }

  lemma PolicyCut(cfg: NetworkConfig, mode: EgressMode, m: Machine, tape: seq<Event>)
    requires UsesProxy(mode) ==> ModeEndpoint(cfg, mode).Some?
    requires Held(cfg, m)
    ensures var run := RunPlan([NftTransaction(cfg, Some(mode), ModeEndpoint(cfg, mode))], m, tape, false, false);
            !run.end.Completed? ==>
              if tape != [] && tape[0].Killed? && tape[0].committed
              then run.end.Cancelled? && PolicyInstalled(cfg, mode, Final(m, run.visited))
              else Final(m, run.visited) == m
  {
    PolicyScriptMeaning(cfg, mode, m.nft);
    SingleCommand(NftTransaction(cfg, Some(mode), ModeEndpoint(cfg, mode)), m, tape, false);
  }

  lemma InnerCut(cfg: NetworkConfig, mode: EgressMode, host: HostFiles, m: Machine, tape: seq<Event>)
    requires Held(cfg, m) && AtMostOneRule(cfg, m)
    ensures var run := TransitionInner(cfg, mode, host, m, tape);
            !run.end.Completed? ==>
              if CutAfterPolicy(cfg, mode, host, m, tape)
              then run.end.Cancelled? && PolicyInstalled(cfg, mode, Final(m, run.visited))
              else Held(cfg, Final(m, run.visited))
  {
    hide RunPlan, Teardown, Prepare;
    var down := Teardown(cfg, m, tape);
    TeardownFacts(cfg, m, tape);
    KeptIsHeld(cfg, m, down.visited);
    if down.end.Completed? {
      var torn := Final(m, down.visited);
      var prep := Prepare(cfg, mode, host, torn, down.rest);
      PrepareFacts(cfg, mode, host, torn, down.rest);
      KeptIsHeld(cfg, torn, prep.visited);
      FinalOfJoin(m, down.visited, prep.visited);
      if prep.end.Completed? {
        var mid := Final(torn, prep.visited);
        var commit := RunPlan([NftTransaction(cfg, Some(mode), ModeEndpoint(cfg, mode))], mid, prep.rest, false, false);
        PolicyCut(cfg, mode, mid, prep.rest);
        FinalOfJoin(m, down.visited + prep.visited, commit.visited);
      }
    }
  }

  lemma AttemptCut(cfg: NetworkConfig, mode: EgressMode, host: HostFiles, m: Machine, tape: seq<Event>)
    requires AtMostOneRule(cfg, m) && KillSwitch(cfg, m, tape).end.Completed?
    ensures var run := Attempt(cfg, mode, host, m, tape);
            !run.end.Completed? ==>
              if CutOff(cfg, mode, host, m, tape) then PolicyInstalled(cfg, mode, Final(m, run.visited))
              else Held(cfg, Final(m, run.visited))
  {
    hide RunPlan, KillSwitch, TransitionInner, Recover, CutAfterPolicy;
    var kill := KillSwitch(cfg, m, tape);
    KillSwitchFacts(cfg, m, tape);
    var held := Final(m, kill.visited);
    var inner := TransitionInner(cfg, mode, host, held, kill.rest);
    InnerFacts(cfg, mode, host, held, kill.rest);
    InnerCut(cfg, mode, host, held, kill.rest);
    FinalOfJoin(m, kill.visited, inner.visited);
    if inner.end.Errored? {
      var last := Final(held, inner.visited);
      RecoverFacts(cfg, last, inner.rest);
      FinalOfJoin(m, kill.visited + inner.visited, Recover(cfg, last, inner.rest).visited);
    }
  }

  /** `active_mode = None` is reported as "held by the transition kill-switch".  That is right after
      exactly those unsuccessful transitions that found the machine dropping or whose kill-switch
      script committed, unless the deadline struck while the policy was being committed. */
  lemma HeldReportExact(cfg: NetworkConfig, mode: EgressMode, host: HostFiles, n: Net, tape: seq<Event>)
    requires AtMostOneRule(cfg, n.machine)
    requires !Transition(cfg, mode, host, n, tape).1.end.Completed?
    ensures var next := Transition(cfg, mode, host, n, tape).0;
            && !StatusResponse(next).ok
            && (Drops(cfg, next.machine) <==>
                  (Drops(cfg, n.machine) || KillCommits(n.machine, tape)) && !CutOff(cfg, mode, host, n.machine, tape))
  {
    hide RunPlan, KillSwitch, TransitionInner, Recover, CutAfterPolicy, Drops, Held, PolicyInstalled, KillCommits;
    var m := n.machine;
    KillSwitchDrops(cfg, m, tape);
    if KillSwitch(cfg, m, tape).end.Completed? {
      AttemptCut(cfg, mode, host, m, tape);
      var last := Final(m, Attempt(cfg, mode, host, m, tape).visited);
      if CutOff(cfg, mode, host, m, tape) { InstalledIsNotDrop(cfg, mode, last); } else { HeldDrops(cfg, last); }
    }
  }

  lemma InstalledIsNotDrop(cfg: NetworkConfig, mode: EgressMode, m: Machine)
    requires PolicyInstalled(cfg, mode, m)
    ensures !Drops(cfg, m)
  {
    PolicyIsNotDrop(cfg, mode, m);
  }

  lemma HeldDrops(cfg: NetworkConfig, m: Machine)
    requires Held(cfg, m)
    ensures Drops(cfg, m)
  {
    DropRuleDrops(cfg, m);
  }

  /** The report can be wrong: leaving Direct with a kill-switch that fails keeps accepting. */
  lemma HeldReportCanBeWrong(cfg: NetworkConfig, host: HostFiles)
    ensures var n := Net(Machine(cfg.browserUid, Chain([]), false, multiset{}, multiset{}, false, false), Some(Direct));
            var (next, run) := Transition(cfg, Tor, host, n, [Exited(false, false, false)]);
            && run.end.Errored? && next.activeMode == None
            && Enforces(cfg, Direct, n.machine) && Enforces(cfg, Direct, next.machine) && !Drops(cfg, next.machine)
  {
    var n := Net(Machine(cfg.browserUid, Chain([]), false, multiset{}, multiset{}, false, false), Some(Direct));
    var tape := [Exited(false, false, false)];
    RunPlanUnfolds(KillSwitchPlan(cfg), n.machine, tape, true, false);
    PolicyRulesEnforce(cfg, Direct, n.machine);
    PolicyIsNotDrop(cfg, Direct, n.machine);
  }

  // ----- whole runs

  ghost predicate NetInv(cfg: NetworkConfig, n: Net) {
    && AtMostOneRule(cfg, n.machine)
    && (n.activeMode.Some? ==> Consistent(cfg, n.activeMode.value, n.machine))
  }

  lemma TransitionKeepsNetInv(cfg: NetworkConfig, mode: EgressMode, host: HostFiles, n: Net, tape: seq<Event>)
    requires NetInv(cfg, n)
    ensures NetInv(cfg, Transition(cfg, mode, host, n, tape).0)
    ensures RulesBounded(cfg, Transition(cfg, mode, host, n, tape).1.visited)
  {
    AttemptFacts(cfg, mode, host, n.machine, tape);
  }

  /** A helper that starts at all starts held, with no interface and no UID rule, whatever an
      earlier instance left behind. */
  lemma InitializeEstablishes(cfg: NetworkConfig, m: Machine, tape: seq<Event>)
    requires Coherent(cfg, m)
    requires Initialize(cfg, m, tape).end.Completed?
    ensures var start := Net(Final(m, Initialize(cfg, m, tape).visited), None);
            NetInv(cfg, start) && Drops(cfg, start.machine) && NoWireGuard(start.machine)
  {
    var kill := KillSwitch(cfg, m, tape);
    KillSwitchFacts(cfg, m, tape);
    var held := Final(m, kill.visited);
    var down := Teardown(cfg, held, kill.rest);
    TeardownFacts(cfg, held, kill.rest);
    KeptIsHeld(cfg, held, down.visited);
    var end := Final(held, down.visited);
    assert Final(m, Join(kill, down).visited) == end;
    DropRuleDrops(cfg, end);
  }

  /** One request: the invariant is kept, and a positive answer names the mode now enforced. */
  lemma ServeFacts(cfg: NetworkConfig, command: EgressCommand, host: HostFiles, n: Net, tape: seq<Event>)
    requires NetInv(cfg, n)
    ensures var (next, reply) := Serve(cfg, command, host, n, tape);
            && NetInv(cfg, next)
            && (reply.ok ==> next.activeMode == Some(reply.mode) && Enforces(cfg, reply.mode, next.machine))
  {
    var next := Serve(cfg, command, host, n, tape).0;
    if !command.StatusQuery? {
      TransitionKeepsNetInv(cfg, if command.Apply? then command.mode else Direct, host, n, tape);
    }
    if next.activeMode.Some? {
      PolicyRulesEnforce(cfg, next.activeMode.value, next.machine);
    }
  }

  lemma {:induction false} ServeAllKeepsNetInv(cfg: NetworkConfig, n: Net, requests: seq<Request>)
    requires NetInv(cfg, n)
    ensures NetInv(cfg, ServeAll(cfg, n, requests))
  {
    if requests != [] {
      var earlier := requests[..|requests| - 1];
      var last := requests[|requests| - 1];
      ServeAllKeepsNetInv(cfg, n, earlier);
      ServeFacts(cfg, last.command, last.host, ServeAll(cfg, n, earlier), last.tape);
    }
  }

  lemma ConsistentEnforces(cfg: NetworkConfig, n: Net)
    requires NetInv(cfg, n) && n.activeMode.Some?
    ensures Enforces(cfg, n.activeMode.value, n.machine)
  {
    PolicyRulesEnforce(cfg, n.activeMode.value, n.machine);
  }

  /** The two modes are pinned to one and the same policy. */
  predicate SamePolicy(cfg: NetworkConfig, a: EgressMode, b: EgressMode) {
    a == b || (UsesProxy(a) && UsesProxy(b) && ModeEndpoint(cfg, a) == ModeEndpoint(cfg, b))
  }

  /** A machine that enforces one mode enforces another exactly when the two share their policy; in
      particular one that enforces Direct enforces nothing else. */
  lemma EnforcedModes(cfg: NetworkConfig, a: EgressMode, b: EgressMode, m: Machine)
    requires Enforces(cfg, a, m)
    ensures Enforces(cfg, b, m) <==> SamePolicy(cfg, a, b)
  {
    if SamePolicy(cfg, a, b) {
      forall p: Packet ensures Allowed(cfg, a, p) == Allowed(cfg, b, p) {
      }
    } else {
      var p := Distinguishing(cfg, a, b);
      assert Accepted(Rules(m.nft), p) == Allowed(cfg, a, p) != Allowed(cfg, b, p);
    }
  }

  /** A packet that one of the modes allows and the other does not. */
  lemma Distinguishing(cfg: NetworkConfig, a: EgressMode, b: EgressMode) returns (p: Packet)
    requires !SamePolicy(cfg, a, b)
    ensures Allowed(cfg, a, p) != Allowed(cfg, b, p)
  {
    if a.Direct? || b.Direct? {
      p := Packet(cfg.browserUid, V4(0), Udp, 0, "");
    } else if a.WireGuard? || b.WireGuard? {
      p := Packet(cfg.browserUid, V4(0), Udp, 0, WIREGUARD_INTERFACE);
    } else {
      var e := if ModeEndpoint(cfg, a).Some? then ModeEndpoint(cfg, a).value else ModeEndpoint(cfg, b).value;
      p := Packet(cfg.browserUid, e.ip, Tcp, e.port, "");
    }
  }

  /** Fail-closed commitment, over every run: whatever fails or is cancelled, a helper that reports
      a mode enforces exactly that mode, with the WireGuard interface, routes and UID rules present
      exactly in WireGuard mode and never more than one UID rule per address family. */
  lemma FailClosedCommitment(cfg: NetworkConfig, m: Machine, boot: seq<Event>, requests: seq<Request>)
    requires Coherent(cfg, m)
    requires Initialize(cfg, m, boot).end.Completed?
    ensures var n := ServeAll(cfg, Net(Final(m, Initialize(cfg, m, boot).visited), None), requests);
            && AtMostOneRule(cfg, n.machine)
            && (StatusResponse(n).ok ==>
                  && Enforces(cfg, StatusResponse(n).mode, n.machine)
                  && (if StatusResponse(n).mode.WireGuard? then WireGuardUp(n.machine) else NoWireGuard(n.machine)))
  {
    InitializeEstablishes(cfg, m, boot);
    ServeAllKeepsNetInv(cfg, Net(Final(m, Initialize(cfg, m, boot).visited), None), requests);
    var n := ServeAll(cfg, Net(Final(m, Initialize(cfg, m, boot).visited), None), requests);
    if n.activeMode.Some? {
      PolicyRulesEnforce(cfg, n.activeMode.value, n.machine);
    }
  }
}
