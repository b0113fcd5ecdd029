/** What holds in every state that any interleaving can reach. */
module LifecycleTheorems {
  import opened Types
  import opened Auth
  import opened Session
  import opened Lifecycle
  import opened LifecycleInv
  import opened LifecycleSteps
  import BrowserHistory
  import NetPlans
  import NetTransition
  import NetSafety

  /** What a daemon can find when it starts: a helper that has initialised the machine and served any
      requests since, and a bridge that has served any, of an earlier daemon. */
  ghost predicate Startup(cfg: Config, net: NetTransition.Net, bridge: BrowserHistory.Bridge) {
    exists m, boot, served, commands ::
      && NetTransition.Coherent(cfg.net, m) && NetTransition.Initialize(cfg.net, m, boot).end.Completed?
      && net == NetTransition.ServeAll(cfg.net, Started(cfg, m, boot), served)
      && bridge == BrowserHistory.ServeAll(BrowserHistory.DEFAULT, commands)
  }

  function Started(cfg: Config, m: NetPlans.Machine, boot: seq<NetTransition.Event>): NetTransition.Net {
    NetTransition.Net(NetTransition.Final(m, NetTransition.Initialize(cfg.net, m, boot).visited), None)
  }

  /** Some run of the daemon leads here. */
  ghost predicate Reachable(cfg: Config, w: World) {
    exists net, bridge, now, actions ::
      Startup(cfg, net, bridge) && Run(cfg, Boot(cfg, net, bridge, now), actions, w)
  }

  lemma StartupFacts(cfg: Config, net: NetTransition.Net, bridge: BrowserHistory.Bridge)
    requires Startup(cfg, net, bridge)
    ensures NetSafety.NetInv(cfg.net, net) && BrowserHistory.Coherent(bridge)
  {
    hide NetTransition.Initialize, NetTransition.ServeAll, NetSafety.NetInv;
    var m, boot, served, commands :|
      && NetTransition.Coherent(cfg.net, m) && NetTransition.Initialize(cfg.net, m, boot).end.Completed?
      && net == NetTransition.ServeAll(cfg.net, Started(cfg, m, boot), served)
      && bridge == BrowserHistory.ServeAll(BrowserHistory.DEFAULT, commands);
    NetSafety.InitializeEstablishes(cfg.net, m, boot);
    NetSafety.ServeAllKeepsNetInv(cfg.net, Started(cfg, m, boot), served);
    BrowserHistory.RunsStayCoherent(BrowserHistory.DEFAULT, commands);
  }

  lemma ReachableInv(cfg: Config, w: World)
    requires Reachable(cfg, w)
    ensures Inv(cfg, w)
  {
    hide Startup, NetSafety.NetInv, Inv, Run, Boot;
    var net, bridge, now, actions :|
      Startup(cfg, net, bridge) && Run(cfg, Boot(cfg, net, bridge, now), actions, w);
    StartupFacts(cfg, net, bridge);
    BootInv(cfg, net, bridge, now);
    RunsKeepInv(cfg, Boot(cfg, net, bridge, now), actions, w);
  }

  /** One more enabled action leads from a reachable state to a reachable state. */
  lemma ReachableStep(cfg: Config, w: World, a: Action)
    requires Reachable(cfg, w) && Enabled(cfg, w, a)
    ensures Reachable(cfg, Do(cfg, w, a))
  {
    hide Enabled, Do, Boot, Startup;
    var net, bridge, now, actions :|
      Startup(cfg, net, bridge) && Run(cfg, Boot(cfg, net, bridge, now), actions, w);
    var longer := actions + [a];
    assert longer[..|longer| - 1] == actions;
    assert Run(cfg, Boot(cfg, net, bridge, now), longer, Do(cfg, w, a));
  }

  /** The state that a run is in after its actions. */
  ghost function Play(cfg: Config, start: World, actions: seq<Action>): World {
    if actions == [] then start
    else Do(cfg, Play(cfg, start, actions[..|actions| - 1]), actions[|actions| - 1])
  }

  lemma {:induction false} RunPlays(cfg: Config, start: World, actions: seq<Action>, end: World)
    requires Run(cfg, start, actions, end)
    ensures end == Play(cfg, start, actions)
  {
    hide Do, Enabled;
    if actions != [] {
      var last := |actions| - 1;
      var before :| Run(cfg, start, actions[..last], before)
                    && Enabled(cfg, before, actions[last]) && end == Do(cfg, before, actions[last]);
      RunPlays(cfg, start, actions[..last], before);
    }
  }

  // ----- lease and generation

  /** The lease is only ever held by the client that paired in the current generation, and at most
      one client did: rotation never leaves a lease holder behind. */
  lemma LeaseBelongsToGeneration(cfg: Config, w: World)
    requires Reachable(cfg, w)
    ensures w.sess.controller.Some? ==> w.people.exchanged == w.sess.controller
    ensures forall c, d | Knows(w.people, c, w.auth.generation) && Knows(w.people, d, w.auth.generation) :: c == d
    ensures w.sess.controller.Some? ==> Knows(w.people, w.sess.controller.value, w.auth.generation)
    ensures forall t | t in w.auth.sessions :: w.people.exchanged == Some(w.auth.sessions[t].client)
  {
    hide NetSafety.NetInv, AuthInv, OpInv, Shape;
    ReachableInv(cfg, w);
  }

  predicate LeaseChecked(o: Op) {
    || (o.Start? && o.spc == SBegin) || (o.Navigate? && o.npc == NBegin)
    || (o.Switch? && o.wpc == WBegin) || (o.Burn? && o.bpc == BLease)
  }

  function ClientOf(o: Op): nat
    requires LeaseChecked(o)
  {
    if o.Burn? then (if o.kind.ByClient? then o.kind.context.client else 0) else o.context.client
  }

  /** An operation that got past the validation of its context never meets a lease conflict; in
      particular a burn never rotates the pairing while it leaves the session to somebody else. */
  lemma NoLeaseConflict(cfg: Config, w: World)
    requires Reachable(cfg, w) && LeaseChecked(w.op)
    ensures w.sess.controller.None? || w.sess.controller == Some(ClientOf(w.op))
    ensures !w.op.Start? ==> EnsureLease(w.sess, ClientOf(w.op)).None?
  {
    hide NetSafety.NetInv, PeopleInv, Inv;
    ReachableInv(cfg, w);
    ShapeOf(cfg, w);
    LeaseOf(cfg, w);
    match w.op {
      case Start(_, _, _, _, _, _) =>
      case Navigate(_, _, _, _) => assert NavigateInv(w);
      case Switch(_, _, _, _, _, _, _, _) => assert SwitchInv(w);
      case Burn(_, _, _, _, _, _, _) => assert BurnAuthInv(w) && BurnSessInv(w);
    }
  }

  lemma LeaseOf(cfg: Config, w: World)
    requires Inv(cfg, w)
    ensures LeaseInv(w.sess, w.people)
  {
    hide NetSafety.NetInv, PeopleInv, OpInv, Shape;
  }

  // ----- dead generations

  /** The action succeeds in changing something on behalf of the holder of `context`. */
  ghost predicate ActsFor(cfg: Config, w: World, a: Action, context: AuthContext) {
    match a
    case SetFor(holder, setting) => holder == context && ChangeSetting(w.sess, context.client, setting, w.now).Ok?
    case IssueFor(holder, purpose, drawn) =>
      holder == context
      && IssueTicket(w.auth, cfg.ttl, context, purpose, w.now, if drawn then Some(w.nextId) else None).1.Ok?
    case Advance(_) =>
      (match w.op
       case Free => false
       case Start(spc, holder, _, _, _, _) => holder == context && spc != SValidate
       case Navigate(npc, holder, _, _) => holder == context && npc != NValidate
       case Switch(wpc, holder, _, _, _, _, _, _) => holder == context && wpc != WValidate
       case Burn(bpc, kind, _, _, _, _, _) =>
         kind.ByClient? && kind.context == context && bpc != BCheck && Published(w.op))
    case _ => false
  }

  /** After a rotation nothing of an earlier generation succeeds again, on the paths that validate
      their context under the lifecycle lock and on those that do not: whoever changes a setting,
      gets a ticket or drives an operation is the client of the current generation. */
  lemma OnlyTheCurrentClientActs(cfg: Config, w: World, a: Action, context: AuthContext)
    requires Reachable(cfg, w) && Enabled(cfg, w, a) && ActsFor(cfg, w, a, context)
    ensures context.generation == w.auth.generation && w.people.exchanged == Some(context.client)
  {
    hide NetSafety.NetInv, Possible, Inv, IssueTicket;
    ReachableInv(cfg, w);
    OpOfInv(cfg, w);
    PeopleOfInv(cfg, w);
    LeaseOf(cfg, w);
    if a.IssueFor? {
      var token := if a.drawn then Some(w.nextId) else None;
      GrantIsCurrent(w.auth, w.people, w.nextId, cfg.ttl, context, a.purpose, w.now, token);
    }
    ExchangedIsCurrent(w.auth, w.people, w.nextId, context);
  }

  lemma GrantIsCurrent(auth: AuthState, p: People, nextId: nat, ttl: Ttl, context: AuthContext,
                       purpose: TicketPurpose, now: nat, token: Option<nat>)
    requires PeopleInv(auth, p, nextId) && IssueTicket(auth, ttl, context, purpose, now, token).1.Ok?
    ensures p.exchanged == Some(context.client)
  {
    hide PeopleInv;
    PruneGentle(auth, p, nextId, now);
    CurrentIsExchanged(Prune(auth, now), p, nextId, context, now);
  }

  lemma ExchangedIsCurrent(auth: AuthState, p: People, nextId: nat, context: AuthContext)
    requires PeopleInv(auth, p, nextId) && context in p.contexts && p.exchanged == Some(context.client)
    ensures context.generation == auth.generation
  {
    hide AuthInv;
  }

  lemma OpOfInv(cfg: Config, w: World)
    requires Inv(cfg, w)
    ensures OpInv(w)
  {
    hide NetSafety.NetInv, PeopleInv, OpInv, Shape;
  }

  lemma PeopleOfInv(cfg: Config, w: World)
    requires Inv(cfg, w)
    ensures PeopleInv(w.auth, w.people, w.nextId)
  {
  }

  /** The same for WebSockets, which consume a ticket first and look at the lease later. */
  lemma OnlyTheCurrentClientConnects(cfg: Config, w: World, context: AuthContext)
    requires Reachable(cfg, w) && context in w.people.contexts
    requires EnsureActiveLease(w.sess, context.client).None?
    ensures context.generation == w.auth.generation && w.people.exchanged == Some(context.client)
  {
    hide NetSafety.NetInv, OpInv, Shape, AuthInv;
    ReachableInv(cfg, w);
  }

  // ----- phases

  /** Phase coherence, and the consequences the code relies on: a switch never ends in
      `SessionNotActive` after it has set Burning, and a navigation only ever writes its second
      half to an active session. */
  lemma PhasesCohere(cfg: Config, w: World)
    requires Reachable(cfg, w)
    ensures w.sess.snapshot.phase.Idle? ==>
              w.sess.snapshot.id.None? && w.sess.snapshot.url.None? && w.sess.controller.None? && w.sess.history == []
    ensures w.sess.snapshot.phase.Active? ==>
              w.sess.snapshot.id.Some? && w.sess.snapshot.url.Some? && w.sess.controller.Some?
                  && !w.sess.snapshot.failure
    ensures w.op.Switch? && w.op.wpc == WBegin ==>
              var (d, error) := BeginSwitch(w.sess, w.op.context.client);
              (error.Some? ==> d == w.sess) && (w.sess.snapshot.phase.Active? ==> error.None?)
    ensures w.op.Navigate? && w.op.npc == NFinish ==> w.sess.snapshot.phase.Active?
  {
    hide NetSafety.NetInv, PeopleInv;
    ReachableInv(cfg, w);
  }

  // ----- history

  /** The RAM history is the last 128 entries of everything visited since the last clear; it is
      empty while idle, starting or failed, and ends with the shown URL while active. */
  lemma HistoryRefinesLog(cfg: Config, w: World)
    requires Reachable(cfg, w)
    ensures var log := w.back.pushed;
            w.sess.history == if |log| <= 128 then log else log[|log| - 128..]
    ensures w.sess.snapshot.phase.Idle? || w.sess.snapshot.phase.Starting? || w.sess.snapshot.phase.Failed? ==>
              w.sess.history == []
    ensures w.sess.snapshot.phase.Active? ==>
              w.sess.history != [] && Some(w.sess.history[|w.sess.history| - 1]) == w.sess.snapshot.url
  {
    hide NetSafety.NetInv, PeopleInv, OpInv;
    ReachableInv(cfg, w);
  }

  // ----- egress

  /** While a session is active, the last successful browser start was for its id and mode, the last
      successful egress call was for its mode, and the firewall lets the browser user do exactly
      what that mode allows. */
  lemma ActiveSessionIsEnforced(cfg: Config, w: World)
    requires Reachable(cfg, w) && w.sess.snapshot.phase.Active?
    ensures LastEgress(w.back.calls) == Some(w.sess.snapshot.egress)
    ensures w.sess.snapshot.id.Some?
         && LastLaunch(w.back.calls) == Some(Tab(w.sess.snapshot.id.value, w.sess.snapshot.egress))
    ensures NetPlans.Enforces(cfg.net, w.sess.snapshot.egress, w.back.net.machine)
  {
    hide PeopleInv, OpInv;
    ReachableInv(cfg, w);
    NetSafety.ConsistentEnforces(cfg.net, w.back.net);
  }

  /** The machine enforces the mode of the last successful start under every running browser that is
      not stray, also under one that a navigation has brought back, in every state of every
      interleaving.  The mode the browser itself was launched with is enforced exactly if the bridge's
      deadline has cut no command off since that start, or the mode is Direct anyway: a deadline makes
      the bridge forget, and what it then launches it launches without a proxy. */
  lemma RunningBrowserIsConfined(cfg: Config, w: World)
    requires Reachable(cfg, w) && !w.back.stray && w.back.bridge.child.Some?
    ensures LastLaunch(w.back.calls).Some?
    ensures var started := LastLaunch(w.back.calls).value.egress;
            var launched := w.back.bridge.child.value.egress;
            && NetPlans.Enforces(cfg.net, started, w.back.net.machine)
            && launched == (if w.back.cut then Direct else started)
            && (NetPlans.Enforces(cfg.net, launched, w.back.net.machine) <==> !w.back.cut || started.Direct?)
  {
    hide PeopleInv, OpInv, Shape, NetPlans.Enforces;
    ReachableInv(cfg, w);
    NetSafety.ConsistentEnforces(cfg.net, w.back.net);
    NetSafety.EnforcedModes(cfg.net, LastLaunch(w.back.calls).value.egress, Direct, w.back.net.machine);
  }

  /** What the deadline does: a command it cuts off during a session leaves the session active without
      a browser, and the next page that is loaded is loaded under Direct, behind the policy of the
      session. */
  lemma RelaunchAfterDeadline(cfg: Config, w: World, c: Choice)
    requires Reachable(cfg, w) && w.op.Navigate? && w.op.npc == NCall && Enabled(cfg, w, Advance(c))
    requires c.delivery.Delivered?
    ensures var v := Do(cfg, w, Advance(c));
            var command := BrowserHistory.Navigate(w.op.command);
            && v.sess.snapshot.phase.Active?
            && NetPlans.Enforces(cfg.net, v.sess.snapshot.egress, v.back.net.machine)
            && (BrowserHistory.CutOff(w.back.bridge, command, c.delivery.fate) ==>
                  v.back.cut && v.back.bridge.child.None? && !c.ok)
            && (w.back.cut && v.back.bridge.child.Some? ==> v.back.bridge.child.value.egress == Direct)
            && (w.op.command.Visit? && c.ok ==>
                  v.back.bridge.child.Some? && v.back.bridge.child.value.url == w.op.command.url)
  {
    hide Reachable, Inv, Possible, Do, Sound, NetPlans.Enforces, Recorded;
    ReachableInv(cfg, w);
    OpOfInv(cfg, w);
    ReachableStep(cfg, w, Advance(c));
    PossibleIsSound(cfg, w, c);
    AgreementOf(cfg, w);
    NavigationStep(cfg, w, c);
    ActiveSessionIsEnforced(cfg, Do(cfg, w, Advance(c)));
  }

  lemma NavigationStep(cfg: Config, w: World, c: Choice)
    requires w.op.Navigate? && w.op.npc == NCall && Sound(cfg, w, c) && c.delivery.Delivered?
    requires Recorded(w.back) && BrowserHistory.Coherent(w.back.bridge)
    ensures var v := Do(cfg, w, Advance(c));
            var command := BrowserHistory.Navigate(w.op.command);
            && v.sess == w.sess
            && (BrowserHistory.CutOff(w.back.bridge, command, c.delivery.fate) ==>
                  v.back.cut && v.back.bridge.child.None? && !c.ok)
            && (w.back.cut && v.back.bridge.child.Some? ==> v.back.bridge.child.value.egress == Direct)
            && (w.op.command.Visit? && c.ok ==>
                  v.back.bridge.child.Some? && v.back.bridge.child.value.url == w.op.command.url)
  {
    hide ValidateContext, BeginNavigate, Blocked, LastLaunch;
  }

  lemma AgreementOf(cfg: Config, w: World)
    requires Inv(cfg, w)
    ensures w.sess.snapshot.phase.Active? ==> Recorded(w.back)
    ensures BrowserHistory.Coherent(w.back.bridge)
  {
    hide NetSafety.NetInv, PeopleInv, OpInv, LastLaunch, LastEgress;
  }

  /** And no step changes the egress state under it. */
  lemma NoEgressChangeUnderBrowser(cfg: Config, w: World, a: Action)
    requires Reachable(cfg, w) && Enabled(cfg, w, a) && !w.back.stray
    requires Do(cfg, w, a).back.net != w.back.net
    ensures w.back.bridge.child.None?
  {
    hide NetSafety.NetInv, Inv, Enabled, Do;
    ReachableInv(cfg, w);
    OpOfInv(cfg, w);
    NetChangesByCalls(cfg, w, a);
  }

  lemma NetChangesByCalls(cfg: Config, w: World, a: Action)
    ensures Do(cfg, w, a).back.net != w.back.net ==> a.Advance? && EgressCallOf(w.op).Some?
  {
    hide ValidateContext, BeginStart, BeginSwitch, BeginNavigate, ExchangePairing, Authenticate, IssueTicket,
         ConsumeTicket;
    if a.Advance? {
      if EgressCallOf(w.op).None? {
        hide StepStart, StepSwitch, StepBurn;
        if w.op.Start? { StartNet(cfg, w, a.choice); }
        if w.op.Switch? { SwitchNet(w, a.choice); }
        if w.op.Burn? { BurnNet(cfg, w, a.choice); }
      }
    }
  }

  lemma StartNet(cfg: Config, w: World, c: Choice)
    requires w.op.Start? && EgressCallOf(w.op).None?
    ensures StepStart(cfg, w, c).back.net == w.back.net
  {
    hide ValidateContext, BeginStart, Blocked;
  }

  lemma SwitchNet(w: World, c: Choice)
    requires w.op.Switch? && EgressCallOf(w.op).None?
    ensures StepSwitch(w, c).back.net == w.back.net
  {
    hide ValidateContext, BeginSwitch;
  }

  lemma BurnNet(cfg: Config, w: World, c: Choice)
    requires w.op.Burn? && EgressCallOf(w.op).None?
    ensures StepBurn(cfg, w, c).back.net == w.back.net
  {
    hide ValidateContext, Prune, RecoveryRequired;
  }

  /** Stray browsers are different.  An egress call that is granted under a running browser leaves the
      browser alone and the machine enforcing the mode asked for, so the browser's own mode is
      enforced afterwards exactly if it shares its policy with that one. */
  lemma EgressCallUnderBrowser(cfg: Config, w: World, c: Choice)
    requires Reachable(cfg, w) && Enabled(cfg, w, Advance(c)) && c.ok
    requires EgressCallOf(w.op).Some? && w.back.bridge.child.Some?
    ensures var v := Do(cfg, w, Advance(c));
            var mode := EgressCallOf(w.op).value;
            var launched := w.back.bridge.child.value.egress;
            && v.back.bridge == w.back.bridge
            && NetPlans.Enforces(cfg.net, mode, v.back.net.machine)
            && (NetPlans.Enforces(cfg.net, launched, v.back.net.machine)
                <==> NetSafety.SamePolicy(cfg.net, mode, launched))
  {
    hide Inv, Possible, Sound, NetSafety.NetInv, NetPlans.Enforces, Do;
    ReachableInv(cfg, w);
    PossibleIsSound(cfg, w, c);
    var mode := EgressCallOf(w.op).value;
    EgressCallStep(cfg, w, c);
    SoundNet(cfg, w, c);
    NetSafety.ConsistentEnforces(cfg.net, c.net);
    NetSafety.EnforcedModes(cfg.net, mode, w.back.bridge.child.value.egress, c.net.machine);
  }

  lemma EgressCallStep(cfg: Config, w: World, c: Choice)
    requires EgressCallOf(w.op).Some?
    ensures var v := Do(cfg, w, Advance(c));
            v.back.net == c.net && v.back.bridge == w.back.bridge && v.back.stray == w.back.stray
  {
    hide ValidateContext, BeginStart, BeginSwitch, BeginNavigate, BurnCheck, BurnCheckId, Blocked, EnsureLease,
         FinishBurn;
  }

  lemma SoundNet(cfg: Config, w: World, c: Choice)
    requires Sound(cfg, w, c) && EgressCallOf(w.op).Some? && c.ok
    ensures NetSafety.NetInv(cfg.net, c.net) && c.net.activeMode == EgressCallOf(w.op)
  {
    hide NetSafety.NetInv, Granted;
  }

  /** A failed stop after which the operation goes on to a reset: in a burn, after a failed start, in
      a rollback. */
  predicate ResetsAfterStop(o: Op) {
    || (o.Burn? && o.bpc == BStop) || (o.Start? && o.spc == SStop) || (o.Switch? && o.wpc == XStop)
  }

  /** In all three the reset is made although the stop has failed, and a reset applies Direct: the
      surviving browser is confined to the mode it was launched with exactly when that is Direct. */
  lemma FailedStopThenReset(cfg: Config, w: World, stop: Choice, reset: Choice)
    requires Reachable(cfg, w) && ResetsAfterStop(w.op) && w.back.bridge.child.Some?
    requires !stop.ok && stop.delivery.Lost? && reset.ok
    requires Enabled(cfg, w, Advance(stop)) && Enabled(cfg, Do(cfg, w, Advance(stop)), Advance(reset))
    ensures var after := Do(cfg, Do(cfg, w, Advance(stop)), Advance(reset));
            && after.back.bridge == w.back.bridge && after.back.stray
            && NetPlans.Enforces(cfg.net, Direct, after.back.net.machine)
            && (NetPlans.Enforces(cfg.net, w.back.bridge.child.value.egress, after.back.net.machine)
                <==> w.back.bridge.child.value.egress.Direct?)
  {
    hide Enabled, Do, NetPlans.Enforces;
    var mid := Do(cfg, w, Advance(stop));
    StopStep(cfg, w, stop);
    ReachableStep(cfg, w, Advance(stop));
    EgressCallUnderBrowser(cfg, mid, reset);
    EgressCallStep(cfg, mid, reset);
  }

  lemma StopStep(cfg: Config, w: World, c: Choice)
    requires ResetsAfterStop(w.op) && !c.ok && c.delivery.Lost?
    ensures var v := Do(cfg, w, Advance(c));
            && v.back.bridge == w.back.bridge && EgressCallOf(v.op) == Some(Direct)
            && (w.back.bridge.child.Some? ==> v.back.stray)
  {
    hide ValidateContext, BeginStart, BeginSwitch, BurnCheck, BurnCheckId, Blocked, EnsureLease, FinishBurn;
  }
}
