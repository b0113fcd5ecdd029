/** Runs in which the code does less than one would expect; each exists for every configuration in
    which it could matter. */
module LifecycleGaps {
  import opened Types
  import opened Auth
  import opened Session
  import opened Lifecycle
  import opened LifecycleInv
  import opened LifecycleTheorems
  import opened LifecycleProgress
  import BrowserHistory
  import NetPlans
  import NetTransition
  import NetSafety
  import NetProgress

  // ----- places to start from

  function Bare(cfg: Config): NetPlans.Machine {
    NetPlans.Machine(cfg.net.browserUid, NetPlans.Absent, false, multiset{}, multiset{}, false, false)
  }

  /** A helper can initialise a machine that knows nothing of it. */
  lemma InitializeWorks(cfg: Config)
    ensures NetTransition.Coherent(cfg.net, Bare(cfg))
    ensures NetTransition.Initialize(cfg.net, Bare(cfg), CleanTape()).end.Completed?
  {
    hide NetTransition.Teardown, NetTransition.KillSwitch;
    var tape := CleanTape();
    NetProgress.SmoothLater(tape, 0, 2);
    assert tape[0..] == tape;
    NetProgress.SmoothKillSwitch(cfg.net, Bare(cfg), tape);
    var held := NetTransition.Final(Bare(cfg), NetTransition.KillSwitch(cfg.net, Bare(cfg), tape).visited);
    NetProgress.SmoothLater(tape, 2, 9);
    NetProgress.SmoothTeardown(cfg.net, held, tape[2..]);
  }

  lemma BootIsReachable(cfg: Config, net: NetTransition.Net, bridge: BrowserHistory.Bridge, now: nat)
    requires Startup(cfg, net, bridge)
    ensures Reachable(cfg, Boot(cfg, net, bridge, now))
  {
    hide Startup, Boot;
    assert Run(cfg, Boot(cfg, net, bridge, now), [], Boot(cfg, net, bridge, now));
  }

  /** The first daemon beside a new helper and a new bridge. */
  lemma FreshStart(cfg: Config) returns (w: World)
    ensures Reachable(cfg, w) && w.op.Free? && w.sess == NewSession(cfg.session, 0)
    ensures w.auth.pairing == Some(w.people.file.secret) && w.back.calls == []
  {
    hide NetTransition.Initialize, Reachable;
    InitializeWorks(cfg);
    var net := Started(cfg, Bare(cfg), CleanTape());
    assert NetTransition.ServeAll(cfg.net, net, []) == net;
    assert BrowserHistory.ServeAll(BrowserHistory.DEFAULT, []) == BrowserHistory.DEFAULT;
    assert Startup(cfg, net, BrowserHistory.DEFAULT);
    w := Boot(cfg, net, BrowserHistory.DEFAULT, 0);
    BootIsReachable(cfg, net, BrowserHistory.DEFAULT, 0);
  }

  /** A daemon restarted beside a helper and a bridge that an earlier one has left in a mode. */
  lemma RestartedStart(cfg: Config, earlier: EgressMode, url: Url, host: NetTransition.HostFiles) returns (w: World)
    requires Configured(cfg, earlier, host)
    ensures Reachable(cfg, w) && w.op.Free? && w.sess == NewSession(cfg.session, 0)
    ensures w.auth.pairing == Some(w.people.file.secret)
    ensures w.back.calls == [] && w.back.stray
        && w.back.bridge.child == Some(BrowserHistory.Child(url, FullHd30, earlier))
    ensures NetPlans.Enforces(cfg.net, earlier, w.back.net.machine)
  {
    hide NetTransition.Initialize, NetTransition.Transition, NetTransition.ResolveEndpoint, NetPlans.Enforces,
         Reachable;
    InitializeWorks(cfg);
    var initial := Started(cfg, Bare(cfg), CleanTape());
    var served := [NetTransition.Request(NetTransition.Apply(earlier), host, CleanTape())];
    var command := BrowserHistory.Start(0, url, FullHd30, earlier);
    var commands := [BrowserHistory.Request(command, BrowserHistory.Fate(true, false))];
    assert served[..0] == [] && NetTransition.ServeAll(cfg.net, initial, []) == initial;
    assert commands[..0] == [] && BrowserHistory.ServeAll(BrowserHistory.DEFAULT, []) == BrowserHistory.DEFAULT;
    NetProgress.NeverStuck(cfg.net, Bare(cfg), CleanTape(), [], earlier, host, CleanTape());
    var net := NetTransition.ServeAll(cfg.net, initial, served);
    var bridge := BrowserHistory.ServeAll(BrowserHistory.DEFAULT, commands);
    assert net == NetTransition.Serve(cfg.net, NetTransition.Apply(earlier), host, initial, CleanTape()).0;
    assert Startup(cfg, net, bridge);
    w := Boot(cfg, net, bridge, 0);
    BootIsReachable(cfg, net, bridge, 0);
  }

  /** A session that went well, with its controller at hand. */
  ghost predicate Healthy(cfg: Config, w: World, context: AuthContext) {
    && Reachable(cfg, w) && w.op.Free? && w.sess.snapshot.phase.Active?
    && w.sess.snapshot.url.Some?
    && Launched(w.back, w.sess.snapshot.url.value, w.sess.snapshot.profile, w.sess.snapshot.egress)
    && context in w.people.contexts && ValidateContext(w.auth, context, w.now).1
    && w.sess.controller == Some(context.client)
    && SameSettings(w.sess, NewSession(cfg.session, 0)) && w.sess.lastActivity == w.now
  }

  lemma StillCurrent(auth: AuthState, context: AuthContext, now: nat)
    requires ValidateContext(auth, context, now).1
    ensures ValidateContext(Prune(auth, now), context, now).1
  {
    var live := Prune(auth, now);
    assert Prune(live, now).sessions == live.sessions;
  }

  lemma HealthySession(cfg: Config, url: Url, host: NetTransition.HostFiles) returns (w: World, context: AuthContext)
    requires cfg.ttl.auth > 0 && !Blocked(cfg, url) && Configured(cfg, cfg.session.egress, host)
    ensures Healthy(cfg, w, context)
  {
    hide Ahead, Reachable, Paired, Blocked, Configured, ValidateContext, Prune;
    var start := FreshStart(cfg);
    AheadStarts(cfg, start);
    PairedIsAhead(cfg, start, start);
    PairedHoldsContext(cfg, start);
    var paired := Paired(cfg, start);
    context := AuthContext(start.nextId + 2, start.auth.generation);
    w := StartCanSucceed(cfg, start, paired, context, url, host);
    AheadIsReachable(cfg, start, w);
    StillCurrent(paired.auth, context, paired.now);
  }

  function Quiet(w: World): Choice {
    Choice(true, w.back.net, Lost)
  }

  lemma GoOn(cfg: Config, w: World, c: Choice)
    requires Reachable(cfg, w) && !w.op.Free? && Possible(cfg, w, c)
    ensures Reachable(cfg, Do(cfg, w, Advance(c)))
  {
    hide Reachable, Possible, Do;
    ReachableStep(cfg, w, Advance(c));
  }

  // ----- a browser that outlives its burn

  /** A burn up to the point where it stops the browser. */
  lemma BurnReachesStop(cfg: Config, w: World, context: AuthContext) returns (v: World)
    requires Healthy(cfg, w, context)
    ensures Reachable(cfg, v) && v.op.Burn? && v.op.bpc == BStop && v.back == w.back
  {
    hide Reachable, ValidateContext;
    ReachableInv(cfg, w);
    ActiveHasId(cfg, w);
    var kind := ByClient(context, w.sess.snapshot.id.value);
    ReachableStep(cfg, w, AcquireBurn(kind));
    var w1 := Do(cfg, w, AcquireBurn(kind));
    GoOn(cfg, w1, Quiet(w));
    var w2 := StepBurn(cfg, w1, Quiet(w));
    GoOn(cfg, w2, Quiet(w));
    var w3 := StepBurn(cfg, w2, Quiet(w));
    GoOn(cfg, w3, Quiet(w));
    var w4 := StepBurn(cfg, w3, Quiet(w));
    GoOn(cfg, w4, Quiet(w));
    v := StepBurn(cfg, w4, Quiet(w));
  }

  lemma ActiveHasId(cfg: Config, w: World)
    requires Reachable(cfg, w) && w.sess.snapshot.phase.Active?
    ensures w.sess.snapshot.id.Some?
  {
    hide Reachable;
    PhasesCohere(cfg, w);
  }

  /** Wherever sessions start in a mode other than Direct, a burn can leave a browser running under
      Direct: its stop is lost, its reset is granted. */
  lemma BurnCanUnconfine(cfg: Config, url: Url, host: NetTransition.HostFiles) returns (w: World)
    requires cfg.ttl.auth > 0 && !Blocked(cfg, url) && Configured(cfg, cfg.session.egress, host)
    requires !cfg.session.egress.Direct?
    ensures Reachable(cfg, w) && w.op.Burn? && w.back.bridge.child.Some?
    ensures w.back.bridge.child.value.egress == cfg.session.egress
    ensures NetPlans.Enforces(cfg.net, Direct, w.back.net.machine)
    ensures !NetPlans.Enforces(cfg.net, cfg.session.egress, w.back.net.machine)
  {
    hide Reachable, Blocked, NetPlans.Enforces, EgressOutcome, NetTransition.ResolveEndpoint;
    var healthy, context := HealthySession(cfg, url, host);
    var stopping := BurnReachesStop(cfg, healthy, context);
    var lost := Choice(false, stopping.back.net, Lost);
    GoOn(cfg, stopping, lost);
    var resetting := StepBurn(cfg, stopping, lost);
    assert NetTransition.ResolveEndpoint(cfg.net, Direct, host).Some? by { DirectIsConfigured(cfg, host); }
    var net := EgressCanSucceed(cfg, resetting, NetTransition.Reset, host);
    var granted := Choice(true, net, Lost);
    GoOn(cfg, resetting, granted);
    w := StepBurn(cfg, resetting, granted);
    FailedStopThenReset(cfg, stopping, lost, granted);
  }

  lemma DirectIsConfigured(cfg: Config, host: NetTransition.HostFiles)
    ensures Configured(cfg, Direct, host)
  {
  }

  // ----- a browser that the bridge forgot

  /** A navigation up to the point where it is sent to the bridge. */
  lemma NavigationReachesBridge(cfg: Config, w: World, context: AuthContext, command: Navigation) returns (v: World)
    requires Reachable(cfg, w) && w.op.Free? && w.sess.snapshot.phase.Active?
    requires context in w.people.contexts && ValidateContext(w.auth, context, w.now).1
    requires w.sess.controller == Some(context.client) && (command.Visit? ==> !Blocked(cfg, command.url))
    ensures Reachable(cfg, v) && v.op.Navigate? && v.op.npc == NCall && v.op.command == command
    ensures v.back == w.back && v.sess.snapshot == w.sess.snapshot && v.sess.controller == w.sess.controller
    ensures SameHolders(v, w)
  {
    hide Reachable, Prune, Current, Blocked;
    ActiveHasId(cfg, w);
    var acquire := AcquireNavigate(context, w.sess.snapshot.id.value, command);
    ReachableStep(cfg, w, acquire);
    var w1 := Do(cfg, w, acquire);
    GoOn(cfg, w1, Quiet(w));
    var w2 := StepNavigate(cfg, w1, Quiet(w));
    GoOn(cfg, w2, Quiet(w));
    var w3 := StepNavigate(cfg, w2, Quiet(w));
    GoOn(cfg, w3, Quiet(w));
    v := StepNavigate(cfg, w3, Quiet(w));
  }

  /** The same wherever sessions start in another mode: a deadline and a visit later, a browser that is
      not even stray runs with the settings of Direct, behind the policy of the session. */
  lemma DeadlineCanMismatch(cfg: Config, url: Url, host: NetTransition.HostFiles) returns (w: World)
    requires cfg.ttl.auth > 0 && !Blocked(cfg, url) && Configured(cfg, cfg.session.egress, host)
    requires !cfg.session.egress.Direct?
    ensures Reachable(cfg, w) && w.sess.snapshot.phase.Active? && w.sess.snapshot.egress == cfg.session.egress
    ensures w.back.cut && !w.back.stray && w.back.bridge.child.Some? && w.back.bridge.child.value.egress == Direct
    ensures NetPlans.Enforces(cfg.net, cfg.session.egress, w.back.net.machine)
    ensures !NetPlans.Enforces(cfg.net, Direct, w.back.net.machine)
  {
    hide Reachable, Blocked, Prune, Current, NetPlans.Enforces, Configured;
    var healthy, context := HealthySession(cfg, url, host);
    var reloading := NavigationReachesBridge(cfg, healthy, context, Reload);
    var w1 := DeadlineStrikes(cfg, reloading);
    StillCurrent(healthy.auth, context, healthy.now);
    var visiting := NavigationReachesBridge(cfg, w1, context, Visit(url));
    w := VisitLaunches(cfg, visiting);
    ActiveSessionIsEnforced(cfg, w);
    RunningBrowserIsConfined(cfg, w);
  }

  lemma DeadlineStrikes(cfg: Config, w: World) returns (v: World)
    requires Reachable(cfg, w) && w.op.Navigate? && w.op.npc == NCall && w.op.command.Reload?
    requires w.back.bridge.child.Some? && !w.back.stray
    ensures Reachable(cfg, v) && v.op.Free? && v.sess == w.sess && v.auth == w.auth && v.people == w.people
    ensures v.now == w.now && v.back.cut && !v.back.stray
  {
    hide Reachable;
    CoherentBridge(cfg, w);
    var late := Choice(false, w.back.net, Delivered(BrowserHistory.Fate(true, true)));
    GoOn(cfg, w, late);
    v := StepNavigate(cfg, w, late);
  }

  lemma CoherentBridge(cfg: Config, w: World)
    requires Reachable(cfg, w)
    ensures BrowserHistory.Coherent(w.back.bridge)
  {
    hide Reachable, NetSafety.NetInv, PeopleInv, OpInv;
    ReachableInv(cfg, w);
  }

  lemma VisitLaunches(cfg: Config, w: World) returns (v: World)
    requires Reachable(cfg, w) && w.op.Navigate? && w.op.npc == NCall && w.op.command.Visit?
    requires w.sess.snapshot.phase.Active? && w.back.cut && !w.back.stray
    ensures Reachable(cfg, v) && v.sess.snapshot == w.sess.snapshot && v.back.cut && !v.back.stray
    ensures v.back.bridge.child.Some? && v.back.bridge.child.value.egress == Direct
  {
    hide Reachable;
    var c := Choice(true, w.back.net, SMOOTHLY);
    GoOn(cfg, w, c);
    v := StepNavigate(cfg, w, c);
    RelaunchAfterDeadline(cfg, w, c);
  }

  // ----- a browser that an earlier daemon left

  /** A restarted daemon can change the egress mode under a browser that it never started: for any two
      modes with policies of their own, its first start does. */
  lemma RestartCanUnconfine(cfg: Config, earlier: EgressMode, url: Url, host: NetTransition.HostFiles)
    returns (w: World)
    requires cfg.ttl.auth > 0 && !Blocked(cfg, url)
    requires Configured(cfg, cfg.session.egress, host) && Configured(cfg, earlier, host)
    requires !NetSafety.SamePolicy(cfg.net, cfg.session.egress, earlier)
    ensures Reachable(cfg, w) && w.op.Start? && w.back.calls == [EgressApply(cfg.session.egress, true)]
    ensures w.back.bridge.child == Some(BrowserHistory.Child(url, FullHd30, earlier))
    ensures !NetPlans.Enforces(cfg.net, earlier, w.back.net.machine)
  {
    hide Ahead, Reachable, Paired, Blocked, Configured, ValidateContext, EgressOutcome, NetPlans.Enforces;
    hide NetSafety.SamePolicy;
    var start := RestartedStart(cfg, earlier, url, host);
    AheadStarts(cfg, start);
    PairedIsAhead(cfg, start, start);
    PairedHoldsContext(cfg, start);
    PairedLeavesBackends(cfg, start);
    var context := AuthContext(start.nextId + 2, start.auth.generation);
    var begun := ReachesApply(cfg, start, Paired(cfg, start), context, url);
    AheadIsReachable(cfg, start, begun);
    var net := EgressCanSucceed(cfg, begun, NetTransition.Apply(begun.op.egress), host);
    var granted := Choice(true, net, Lost);
    GoOn(cfg, begun, granted);
    w := StepStart(cfg, begun, granted);
    EgressCallUnderBrowser(cfg, begun, granted);
  }

  lemma PairedLeavesBackends(cfg: Config, w: World)
    ensures Paired(cfg, w).back == w.back
  {
    hide ExchangePairing, Authenticate;
  }

  // ----- a burn for inactivity in spite of activity

  /** Wherever inactivity burns at all, a controller who changes a setting between the watchdog's check
      and the burn loses the session all the same. */
  lemma AutoBurnInSpiteOfActivity(cfg: Config, url: Url, host: NetTransition.HostFiles) returns (w: World)
    requires cfg.ttl.auth > 0 && !Blocked(cfg, url) && Configured(cfg, cfg.session.egress, host)
    requires cfg.session.autoBurn > 0
    ensures Reachable(cfg, w) && w.op.Burn? && w.op.kind.Auto? && w.op.bpc == BBegin
    ensures w.sess.snapshot.phase.Active? && w.sess.lastActivity == w.now
    ensures StepBurn(cfg, w, Quiet(w)).sess.snapshot.phase.Burning?
    ensures Reachable(cfg, StepBurn(cfg, w, Quiet(w)))
  {
    hide Reachable, Blocked, Configured, ValidateContext;
    var healthy, context := HealthySession(cfg, url, host);
    var idle := Tick(cfg.session.autoBurn * SECOND);
    ReachableStep(cfg, healthy, idle);
    var w1 := Do(cfg, healthy, idle);
    ReachableStep(cfg, w1, AcquireBurn(Auto(0)));
    var w2 := Do(cfg, w1, AcquireBurn(Auto(0)));
    GoOn(cfg, w2, Quiet(w2));
    var w3 := StepBurn(cfg, w2, Quiet(w2));
    GoOn(cfg, w3, Quiet(w2));
    var w4 := StepBurn(cfg, w3, Quiet(w2));
    var change := SetFor(context, BlocklistEnabled(true));
    ReachableStep(cfg, w4, change);
    w := Do(cfg, w4, change);
    GoOn(cfg, w, Quiet(w));
  }
}
