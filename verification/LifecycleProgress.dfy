/** The daemon is of use: from wherever it got, there is a way to a running session. */
module LifecycleProgress {
  import opened Types
  import opened Auth
  import opened Session
  import opened Lifecycle
  import opened LifecycleInv
  import opened LifecycleTheorems
  import opened LifecycleRecovery
  import BrowserHistory
  import NetPlans
  import NetTransition
  import NetSafety
  import NetProgress

  // ----- the helper's rules stay its own

  lemma ServedOwn(cfg: Config, net: NetTransition.Net, command: NetTransition.EgressCommand,
                  next: NetTransition.Net, ok: bool)
    requires NetProgress.OwnRules(net.machine) && EgressOutcome(cfg, net, command, next, ok)
    ensures NetProgress.OwnRules(next.machine)
  {
    hide NetProgress.OwnRules, NetTransition.Transition;
    if next != net || ok {
      var host, tape :|
        var (served, reply) := NetTransition.Serve(cfg.net, command, host, net, tape);
        served == next && (ok ==> reply.ok);
      NetProgress.TransitionOwn(cfg.net, if command.Apply? then command.mode else Direct, host, net, tape);
    }
  }

  lemma ActionKeepsOwn(cfg: Config, w: World, a: Action)
    requires NetProgress.OwnRules(w.back.net.machine) && Enabled(cfg, w, a)
    ensures NetProgress.OwnRules(Do(cfg, w, a).back.net.machine)
  {
    hide NetProgress.OwnRules, Do, EgressOutcome;
    NetChangesByCalls(cfg, w, a);
    if a.Advance? && EgressCallOf(w.op).Some? {
      EgressCallStep(cfg, w, a.choice);
      ServedOwn(cfg, w.back.net, EgressRequestOf(w.op).value, a.choice.net, a.choice.ok);
    }
  }

  lemma {:induction false} RunsOwn(cfg: Config, start: World, actions: seq<Action>, end: World)
    requires NetProgress.OwnRules(start.back.net.machine) && Run(cfg, start, actions, end)
    ensures NetProgress.OwnRules(end.back.net.machine)
  {
    hide NetProgress.OwnRules, Do, Enabled;
    if actions != [] {
      var last := |actions| - 1;
      var before :| Run(cfg, start, actions[..last], before)
                    && Enabled(cfg, before, actions[last]) && end == Do(cfg, before, actions[last]);
      RunsOwn(cfg, start, actions[..last], before);
      ActionKeepsOwn(cfg, before, actions[last]);
    }
  }

  lemma ReachableOwn(cfg: Config, w: World)
    requires Reachable(cfg, w)
    ensures NetProgress.OwnRules(w.back.net.machine)
  {
    hide Startup, Run, NetProgress.OwnRules;
    var net, bridge, now, actions :|
      Startup(cfg, net, bridge) && Run(cfg, Boot(cfg, net, bridge, now), actions, w);
    StartupOwn(cfg, net, bridge);
    RunsOwn(cfg, Boot(cfg, net, bridge, now), actions, w);
  }

  lemma StartupOwn(cfg: Config, net: NetTransition.Net, bridge: BrowserHistory.Bridge)
    requires Startup(cfg, net, bridge)
    ensures NetProgress.OwnRules(net.machine)
  {
    hide NetTransition.Initialize, NetTransition.ServeAll;
    var m, boot, served, commands :|
      && NetTransition.Coherent(cfg.net, m) && NetTransition.Initialize(cfg.net, m, boot).end.Completed?
      && net == NetTransition.ServeAll(cfg.net, Started(cfg, m, boot), served)
      && bridge == BrowserHistory.ServeAll(BrowserHistory.DEFAULT, commands);
    NetSafety.InitializeEstablishes(cfg.net, m, boot);
    NetProgress.ServeAllOwn(cfg.net, Started(cfg, m, boot), served);
  }

  // ----- going on

  /** `w` is reachable, and it is ahead of `from`: some run leads there. */
  ghost predicate Ahead(cfg: Config, from: World, w: World) {
    Reachable(cfg, w) && exists actions :: Run(cfg, from, actions, w)
  }

  lemma AheadStarts(cfg: Config, w: World)
    requires Reachable(cfg, w)
    ensures Ahead(cfg, w, w)
  {
    hide Reachable;
    assert Run(cfg, w, [], w);
  }

  lemma AheadStep(cfg: Config, from: World, w: World, a: Action)
    requires Ahead(cfg, from, w) && Enabled(cfg, w, a)
    ensures Ahead(cfg, from, Do(cfg, w, a))
  {
    hide Reachable, Enabled, Do;
    ReachableStep(cfg, w, a);
    var actions :| Run(cfg, from, actions, w);
    var longer := actions + [a];
    assert longer[..|longer| - 1] == actions;
    assert Run(cfg, from, longer, Do(cfg, w, a));
  }

  lemma AheadIsReachable(cfg: Config, from: World, w: World)
    requires Ahead(cfg, from, w)
    ensures Reachable(cfg, w)
  {
    hide Reachable, Run;
  }

  predicate Configured(cfg: Config, mode: EgressMode, host: NetTransition.HostFiles) {
    NetTransition.ResolveEndpoint(cfg.net, mode, host).Some? && (mode.WireGuard? ==> host.wireguardValid)
  }

  function CleanTape(): (tape: seq<NetTransition.Event>)
    ensures NetProgress.Smooth(tape, 16)
  {
    seq(16, i => NetTransition.Exited(true, false, false))
  }

  /** The bridge gets the command, in time, and its launch works. */
  const SMOOTHLY := Delivered(BrowserHistory.Fate(true, false))

  /** The helper can grant a mode that is configured. */
  lemma EgressCanSucceed(cfg: Config, w: World, command: NetTransition.EgressCommand,
                         host: NetTransition.HostFiles)
    returns (next: NetTransition.Net)
    requires Reachable(cfg, w) && !command.StatusQuery?
    requires Configured(cfg, if command.Apply? then command.mode else Direct, host)
    ensures EgressOutcome(cfg, w.back.net, command, next, true)
  {
    hide Reachable, Inv, NetTransition.Transition, NetProgress.OwnRules, NetTransition.ResolveEndpoint;
    ReachableInv(cfg, w);
    NetOfInv(cfg, w);
    ReachableOwn(cfg, w);
    var mode := if command.Apply? then command.mode else Direct;
    NetProgress.SmoothTransition(cfg.net, mode, host, w.back.net, CleanTape());
    var (served, reply) := NetTransition.Serve(cfg.net, command, host, w.back.net, CleanTape());
    next := served;
    assert reply.ok;
  }

  lemma NetOfInv(cfg: Config, w: World)
    requires Inv(cfg, w)
    ensures NetTransition.AtMostOneRule(cfg.net, w.back.net.machine)
  {
    hide PeopleInv, OpInv, Shape;
  }

  // ----- starting

  /** A current controller asks for an allowed page while nothing is under way or running. */
  ghost predicate Startable(cfg: Config, w: World, context: AuthContext, url: Url) {
    && w.op.Free? && (w.sess.snapshot.phase.Idle? || w.sess.snapshot.phase.Failed?)
    && context in w.people.contexts && ValidateContext(w.auth, context, w.now).1
    && !(w.sess.snapshot.blocklistEnabled && Blocked(cfg, url))
  }

  /** One step of a start that goes well. */
  lemma GoodStep(cfg: Config, from: World, w: World, c: Choice)
    requires Ahead(cfg, from, w) && w.op.Start? && Possible(cfg, w, c)
    ensures Ahead(cfg, from, StepStart(cfg, w, c))
  {
    hide Ahead, Possible, StepStart;
    AheadStep(cfg, from, w, Advance(c));
  }

  predicate SameSettings(d: SessionData, e: SessionData) {
    && d.snapshot.egress == e.snapshot.egress && d.snapshot.profile == e.snapshot.profile
    && d.snapshot.autoBurn == e.snapshot.autoBurn
    && d.snapshot.blocklistEnabled == e.snapshot.blocklistEnabled
  }

  /** Whoever was a controller before still is. */
  predicate SameHolders(v: World, w: World) {
    v.auth == Prune(w.auth, w.now) && v.people == w.people && v.now == w.now
  }

  /** The browser of a start that went well: it shows the page that was asked for, in the profile and
      under the mode of the session, and is not stray. */
  predicate Launched(b: Backends, url: Url, profile: StreamProfile, mode: EgressMode) {
    b.bridge.child == Some(BrowserHistory.Child(url, profile, mode)) && !b.stray && !b.cut
  }

  lemma LaunchGoesWell(cfg: Config, w: World, c: Choice)
    requires w.op.Start? && w.op.spc == SLaunch && c.ok && c.delivery == SMOOTHLY
    ensures Possible(cfg, w, c)
    ensures var v := StepStart(cfg, w, c);
            && Launched(v.back, w.op.url, w.op.profile, w.op.egress) && v.op == w.op.(spc := SFinish)
            && v.sess == w.sess && v.auth == w.auth && v.people == w.people && v.now == w.now
  {
  }

  lemma ReachesApply(cfg: Config, from: World, w: World, context: AuthContext, url: Url) returns (v: World)
    requires Ahead(cfg, from, w) && Startable(cfg, w, context, url)
    ensures Ahead(cfg, from, v) && v.op.Start? && v.op.spc == SApply && v.op.url == url
    ensures v.op.egress == w.sess.snapshot.egress == v.sess.snapshot.egress
    ensures v.op.profile == w.sess.snapshot.profile
    ensures v.sess.snapshot.url == Some(url) && v.sess.controller == Some(context.client)
    ensures SameSettings(v.sess, w.sess) && SameHolders(v, w) && v.back == w.back
    ensures v.sess.lastActivity == v.now
  {
    hide Ahead, Reachable, Prune, Current, Blocked;
    var idle := Choice(true, w.back.net, Lost);
    var acquired := Do(cfg, w, AcquireStart(context, url));
    AheadStep(cfg, from, w, AcquireStart(context, url));
    GoodStep(cfg, from, acquired, idle);
    var valid := StepStart(cfg, acquired, idle);
    AheadIsReachable(cfg, from, valid);
    NoLeaseConflict(cfg, valid);
    GoodStep(cfg, from, valid, idle);
    v := StepStart(cfg, valid, idle);
  }

  /** From every reachable state in which nothing runs, a run leads on to a session that a current
      controller has started on an allowed page: active, with its lease held by that controller and
      its egress mode enforced. */
  lemma StartCanSucceed(cfg: Config, from: World, w: World, context: AuthContext, url: Url,
                        host: NetTransition.HostFiles)
    returns (end: World)
    requires Ahead(cfg, from, w) && Startable(cfg, w, context, url)
    requires Configured(cfg, w.sess.snapshot.egress, host)
    ensures Ahead(cfg, from, end) && end.op.Free?
    ensures end.sess.snapshot.phase.Active? && end.sess.snapshot.url == Some(url)
    ensures end.sess.controller == Some(context.client) && SameSettings(end.sess, w.sess) && SameHolders(end, w)
    ensures Launched(end.back, url, w.sess.snapshot.profile, w.sess.snapshot.egress) && end.sess.lastActivity == end.now
    ensures NetPlans.Enforces(cfg.net, end.sess.snapshot.egress, end.back.net.machine)
  {
    hide Ahead, Reachable, EgressOutcome, NetPlans.Enforces, Configured, BrowserHistory.Serve, Tell, Prune;
    var begun := ReachesApply(cfg, from, w, context, url);
    AheadIsReachable(cfg, from, begun);
    var net := EgressCanSucceed(cfg, begun, NetTransition.Apply(begun.op.egress), host);
    var granted := Choice(true, net, SMOOTHLY);
    GoodStep(cfg, from, begun, granted);
    var applied := StepStart(cfg, begun, granted);
    LaunchGoesWell(cfg, applied, granted);
    GoodStep(cfg, from, applied, granted);
    var launched := StepStart(cfg, applied, granted);
    GoodStep(cfg, from, launched, granted);
    end := StepStart(cfg, launched, granted);
    AheadIsReachable(cfg, from, end);
    ActiveSessionIsEnforced(cfg, end);
  }

  // ----- from the hand-off file to a session

  function WaitOut(w: World): Action {
    Tick(if w.auth.lockedUntil.Some? then w.auth.lockedUntil.value else 0)
  }

  /** The state after waiting out a lockout, presenting the secret of the hand-off file and using
      the cookie it is exchanged for. */
  ghost function Paired(cfg: Config, w: World): World {
    var rested := Do(cfg, w, WaitOut(w));
    var exchanged := Do(cfg, rested, Exchange(w.people.file.secret, true, true));
    Do(cfg, exchanged, Login(Some(w.nextId), None, false))
  }

  lemma PairedIsAhead(cfg: Config, from: World, w: World)
    requires Ahead(cfg, from, w)
    ensures Ahead(cfg, from, Paired(cfg, w))
  {
    hide Ahead, Do;
    var rested := Do(cfg, w, WaitOut(w));
    AheadStep(cfg, from, w, WaitOut(w));
    var exchange := Exchange(w.people.file.secret, true, true);
    AheadStep(cfg, from, rested, exchange);
    AheadStep(cfg, from, Do(cfg, rested, exchange), Login(Some(w.nextId), None, false));
  }

  lemma PairedHoldsContext(cfg: Config, w: World)
    requires w.auth.pairing == Some(w.people.file.secret) && cfg.ttl.auth > 0
    ensures var v := Paired(cfg, w);
      var context := AuthContext(w.nextId + 2, w.auth.generation);
      && context in v.people.contexts && ValidateContext(v.auth, context, v.now).1
      && v.sess == w.sess && v.op == w.op
  {
    var v := Paired(cfg, w);
    var context := AuthContext(w.nextId + 2, w.auth.generation);
    var live := Prune(v.auth, v.now);
    assert w.nextId in live.sessions && live.sessions[w.nextId].client == context.client;
  }

  /** Whoever reads the hand-off file while the pairing in it is open can get a session: wait out a
      lockout, exchange the secret, use the cookie, start. */
  lemma PairAndStart(cfg: Config, from: World, w: World, url: Url, host: NetTransition.HostFiles) returns (end: World)
    requires Ahead(cfg, from, w) && w.op.Free?
    requires w.auth.pairing == Some(w.people.file.secret) && cfg.ttl.auth > 0
    requires !(w.sess.snapshot.blocklistEnabled && Blocked(cfg, url)) && Configured(cfg, w.sess.snapshot.egress, host)
    ensures Ahead(cfg, from, end) && end.op.Free?
    ensures end.sess.snapshot.phase.Active? && end.sess.snapshot.url == Some(url)
    ensures NetPlans.Enforces(cfg.net, end.sess.snapshot.egress, end.back.net.machine)
  {
    hide Ahead, Reachable, Paired, Blocked, Configured, NetPlans.Enforces, ValidateContext;
    AheadIsReachable(cfg, from, w);
    OpenMeansUnused(cfg, w);
    PairedIsAhead(cfg, from, w);
    PairedHoldsContext(cfg, w);
    end := StartCanSucceed(cfg, from, Paired(cfg, w), AuthContext(w.nextId + 2, w.auth.generation), url, host);
  }

  /** Pairing is open only while no session is; then the hand-off file says how. */
  lemma OpenMeansUnused(cfg: Config, w: World)
    requires Reachable(cfg, w)
    ensures w.auth.pairing.Some? ==> w.sess.snapshot.phase.Idle? || w.sess.snapshot.phase.Failed?
    ensures w.auth.pairing.Some? && w.op.Free? ==> w.auth.pairing == Some(w.people.file.secret)
    ensures w.sess.snapshot.phase.Starting? || w.sess.snapshot.phase.Active? ==> w.sess.snapshot.id.Some?
    ensures w.sess.snapshot.phase.Burning? && w.auth.sessions != map[] ==> w.sess.snapshot.id.Some?
  {
    hide NetSafety.NetInv, OpInv, AuthInv, LastLaunch, LastEgress;
    ReachableInv(cfg, w);
  }

  // ----- a burn without faults

  predicate Committed(pc: BurnPc) {
    pc != BCheck && pc != BCheckId && pc != BLease && pc != BInvalidate
  }

  /** A burn past its checks that has met no fault, on its way to new pairing material. */
  predicate BurningWell(w: World) {
    && w.op.Burn? && Committed(w.op.bpc) && !w.op.faulted
    && (w.op.bpc == BWrite ==> w.auth.pairing == Some(w.people.material.secret))
  }

  predicate BurnedWell(w: World) {
    w.op.Free? && PhaseOf(w, Idle) && w.auth.pairing == Some(w.people.file.secret)
  }

  lemma BurnGoesOn(cfg: Config, w: World, c: Choice)
    requires BurningWell(w) && BurnSessInv(w) && c.ok
    ensures var v := StepBurn(cfg, w, c);
            && (BurnedWell(v) || (BurningWell(v) && StepsLeft(v.op.bpc) < StepsLeft(w.op.bpc)))
            && (v.sess.snapshot.egress == w.sess.snapshot.egress || v.sess.snapshot.egress == cfg.session.egress)
  {
    hide BurnCheck, BurnCheckId, EnsureLease, Tell, EndsWithCalls, NoTab;
  }

  lemma GoodBurnChoice(cfg: Config, w: World) returns (c: Choice)
    requires Reachable(cfg, w) && w.op.Burn?
    ensures c.ok && Possible(cfg, w, c)
  {
    hide Reachable, EgressOutcome;
    c := Choice(true, w.back.net, SMOOTHLY);
    if EgressCallOf(w.op).Some? {
      var net := EgressCanSucceed(cfg, w, NetTransition.Reset, NetTransition.HostFiles(None, false));
      c := Choice(true, net, SMOOTHLY);
    }
  }

  /** A burn can always be brought to a good end. */
  lemma {:induction false} BurnCanFinish(cfg: Config, from: World, w: World) returns (end: World)
    requires Ahead(cfg, from, w) && BurningWell(w)
    ensures Ahead(cfg, from, end) && BurnedWell(end)
    ensures end.sess.snapshot.egress == w.sess.snapshot.egress || end.sess.snapshot.egress == cfg.session.egress
    decreases StepsLeft(w.op.bpc)
  {
    hide Ahead, Reachable, Inv, Possible, StepBurn, BurnedWell;
    AheadIsReachable(cfg, from, w);
    ReachableInv(cfg, w);
    OpOfInv(cfg, w);
    var c := GoodBurnChoice(cfg, w);
    AheadStep(cfg, from, w, Advance(c));
    BurnGoesOn(cfg, w, c);
    var next := StepBurn(cfg, w, c);
    if BurnedWell(next) {
      end := next;
    } else {
      end := BurnCanFinish(cfg, from, next);
    }
  }

  // ----- no dead end

  ghost predicate Usable(cfg: Config, w: World, url: Url) {
    && w.op.Free? && w.sess.snapshot.phase.Active? && w.sess.snapshot.url == Some(url)
    && NetPlans.Enforces(cfg.net, w.sess.snapshot.egress, w.back.net.machine)
  }

  /** One step of a burn that goes well and makes no backend call. */
  lemma QuietBurnStep(cfg: Config, from: World, w: World)
    requires Ahead(cfg, from, w) && w.op.Burn? && BeforeBegin(w.op.bpc)
    ensures Ahead(cfg, from, StepBurn(cfg, w, Choice(true, w.back.net, Lost)))
  {
    hide Ahead, StepBurn;
    AheadStep(cfg, from, w, Advance(Choice(true, w.back.net, Lost)));
  }

  /** When recovery is required it can be carried through, from any phase. */
  lemma RecoverAndPair(cfg: Config, from: World, w: World) returns (end: World)
    requires Ahead(cfg, from, w) && w.op.Free? && RecoveryRequired(w.auth, w.now)
    ensures Ahead(cfg, from, end) && BurnedWell(end)
    ensures end.sess.snapshot.egress == w.sess.snapshot.egress || end.sess.snapshot.egress == cfg.session.egress
  {
    hide Ahead, Prune, RecoveryRequired, ValidateContext, BurnedWell;
    var quiet := Choice(true, w.back.net, Lost);
    AheadStep(cfg, from, w, AcquireBurn(Recovery));
    var acquired := Do(cfg, w, AcquireBurn(Recovery));
    QuietBurnStep(cfg, from, acquired);
    var required := StepBurn(cfg, acquired, quiet);
    QuietBurnStep(cfg, from, required);
    end := BurnCanFinish(cfg, from, StepBurn(cfg, required, quiet));
  }

  /** A current controller can burn whatever session there is, a stranded one included. */
  lemma BurnAndPair(cfg: Config, from: World, w: World, context: AuthContext) returns (end: World)
    requires Ahead(cfg, from, w) && w.op.Free? && w.sess.snapshot.id.Some?
    requires context in w.people.contexts && ValidateContext(w.auth, context, w.now).1
    ensures Ahead(cfg, from, end) && BurnedWell(end)
    ensures end.sess.snapshot.egress == w.sess.snapshot.egress || end.sess.snapshot.egress == cfg.session.egress
  {
    hide Ahead, ValidateContext, BurnedWell, Reachable;
    var quiet := Choice(true, w.back.net, Lost);
    var kind := ByClient(context, w.sess.snapshot.id.value);
    AheadStep(cfg, from, w, AcquireBurn(kind));
    var acquired := Do(cfg, w, AcquireBurn(kind));
    QuietBurnStep(cfg, from, acquired);
    var valid := StepBurn(cfg, acquired, quiet);
    QuietBurnStep(cfg, from, valid);
    var identified := StepBurn(cfg, valid, quiet);
    AheadIsReachable(cfg, from, identified);
    NoLeaseConflict(cfg, identified);
    QuietBurnStep(cfg, from, identified);
    end := BurnCanFinish(cfg, from, StepBurn(cfg, identified, quiet));
  }

  /** Whoever holds the cookie of a live session can be authenticated. */
  lemma LoginIsAhead(cfg: Config, from: World, w: World, t: nat) returns (v: World, context: AuthContext)
    requires Ahead(cfg, from, w) && SessionAlive(w.auth, w.now, t) && w.auth.sessions[t].generation == w.auth.generation
    ensures Ahead(cfg, from, v) && v.sess == w.sess && v.op == w.op && v.auth.sessions != map[]
    ensures context in v.people.contexts && ValidateContext(v.auth, context, v.now).1
  {
    hide Ahead;
    AheadStep(cfg, from, w, Login(Some(t), None, false));
    v := Do(cfg, w, Login(Some(t), None, false));
    context := AuthContext(w.auth.sessions[t].client, w.auth.sessions[t].generation);
    assert t in Prune(v.auth, v.now).sessions;
  }

  lemma SessionsAreCurrent(cfg: Config, w: World, t: nat)
    requires Reachable(cfg, w) && t in w.auth.sessions
    ensures w.auth.sessions[t].generation == w.auth.generation
  {
    hide NetSafety.NetInv, OpInv, LastLaunch, LastEgress;
    ReachableInv(cfg, w);
  }

  /** There is no dead end.  From every reachable state in which no operation is under way, whatever
      failed, was dropped or was stranded before, a run leads on to an active session on any page that
      is not blocked, with its mode enforced. */
  lemma NoDeadEnd(cfg: Config, w: World, url: Url, host: NetTransition.HostFiles) returns (end: World)
    requires Reachable(cfg, w) && w.op.Free? && cfg.ttl.auth > 0 && !Blocked(cfg, url)
    requires Configured(cfg, w.sess.snapshot.egress, host) && Configured(cfg, cfg.session.egress, host)
    ensures Ahead(cfg, w, end) && Usable(cfg, end, url)
  {
    hide Ahead, Reachable, Configured, Blocked, RecoveryRequired, ValidateContext, NetPlans.Enforces;
    AheadStarts(cfg, w);
    AlwaysAWayIn(cfg, w);
    OpenMeansUnused(cfg, w);
    if w.auth.pairing.Some? {
      end := PairAndStart(cfg, w, w, url, host);
    } else if RecoveryRequired(w.auth, w.now) {
      var burned := RecoverAndPair(cfg, w, w);
      end := PairAndStart(cfg, w, burned, url, host);
    } else {
      var t :| SessionAlive(w.auth, w.now, t);
      SessionsAreCurrent(cfg, w, t);
      var v, context := LoginIsAhead(cfg, w, w, t);
      AheadIsReachable(cfg, w, v);
      OpenMeansUnused(cfg, v);
      if v.sess.snapshot.phase.Idle? || v.sess.snapshot.phase.Failed? {
        end := StartCanSucceed(cfg, w, v, context, url, host);
      } else {
        var burned := BurnAndPair(cfg, w, v, context);
        end := PairAndStart(cfg, w, burned, url, host);
      }
    }
  }
}
