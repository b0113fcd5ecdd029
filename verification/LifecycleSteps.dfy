/** Every step keeps the invariant, one kind of step at a time. */
module LifecycleSteps {
  import opened Types
  import opened Auth
  import opened Session
  import opened Lifecycle
  import opened LifecycleInv
  import BrowserHistory
  import NetTransition
  import NetSafety
  import AuthRuns

  // ----- authentication steps

  lemma PruneGentle(auth: AuthState, p: People, nextId: nat, now: nat)
    requires PeopleInv(auth, p, nextId)
    ensures PeopleInv(Prune(auth, now), p, nextId) && Gentle(auth, p, Prune(auth, now), p)
  {
  }

  lemma CurrentIsExchanged(auth: AuthState, p: People, nextId: nat, context: AuthContext, now: nat)
    requires PeopleInv(auth, p, nextId) && Current(auth, context, now)
    ensures p.exchanged == Some(context.client)
  {
  }

  lemma ValidateGentle(auth: AuthState, p: People, nextId: nat, context: AuthContext, now: nat)
    requires PeopleInv(auth, p, nextId)
    ensures var (after, valid) := ValidateContext(auth, context, now);
            && PeopleInv(after, p, nextId) && Gentle(auth, p, after, p)
            && (valid ==> p.exchanged == Some(context.client) && context.generation == auth.generation)
  {
    PruneGentle(auth, p, nextId, now);
    if Current(Prune(auth, now), context, now) {
      CurrentIsExchanged(Prune(auth, now), p, nextId, context, now);
    }
  }

  /** Pairing succeeds only on available material, and then the new client is the only session. */
  lemma ExchangeShape(auth: AuthState, ttl: Ttl, presented: nat, now: nat, draw: Draw)
    requires AuthInv(auth)
    ensures var (after, r) := ExchangePairing(auth, ttl, presented, now, draw);
            && after.generation == auth.generation && after.tickets == auth.tickets
            && (r.Err? ==>
                  && after.sessions == auth.sessions
                  && (after.pairing.Some? ==> after.pairing == auth.pairing && after.manual == auth.manual))
            && (r.Ok? ==>
                  && auth.pairing.Some? && after.pairing.None? && after.manual.None?
                  && draw.session.Some? && draw.csrf.Some?
                  && after.sessions == map[draw.session.value :=
                       AuthSession(draw.client, draw.csrf.value, now + ttl.auth, auth.generation)])
            && (auth.pairing.None? ==> after.pairing.None?)
  {
  }

  lemma ExchangeGentle(cfg: Config, w: World, presented: nat, sessionDrawn: bool, csrfDrawn: bool)
    requires PeopleInv(w.auth, w.people, w.nextId)
    ensures var v := DoExchange(cfg, w, presented, sessionDrawn, csrfDrawn);
            PeopleInv(v.auth, v.people, v.nextId) && Gentle(w.auth, w.people, v.auth, v.people)
  {
    hide ExchangePairing, AuthInv;
    var draw := Draw(if sessionDrawn then Some(w.nextId) else None,
                     if csrfDrawn then Some(w.nextId + 1) else None,
                     w.nextId + 2);
    ExchangeShape(w.auth, cfg.ttl, presented, w.now, draw);
    AuthRuns.ExchangeKeepsAuthInv(w.auth, cfg.ttl, presented, w.now, draw);
    AvailableIsEmpty(w.auth);
  }

  lemma AvailableIsEmpty(auth: AuthState)
    requires AuthInv(auth)
    ensures auth.pairing.Some? <==> auth.manual.Some?
    ensures auth.pairing.Some? ==> auth.sessions == map[] && auth.tickets == map[]
  {
  }

  lemma LoginGentle(auth: AuthState, p: People, nextId: nat, cookie: Option<nat>, csrf: Option<nat>,
                    requireCsrf: bool, now: nat)
    requires PeopleInv(auth, p, nextId)
    ensures var (after, r) := Authenticate(auth, cookie, csrf, requireCsrf, now);
            PeopleInv(after, Hold(p, r), nextId) && Gentle(auth, p, after, Hold(p, r))
  {
    PruneGentle(auth, p, nextId, now);
  }

  lemma IssueGentle(cfg: Config, w: World, context: AuthContext, purpose: TicketPurpose, drawn: bool)
    requires PeopleInv(w.auth, w.people, w.nextId) && context in w.people.contexts
    ensures var token := if drawn then Some(w.nextId) else None;
            var after := IssueTicket(w.auth, cfg.ttl, context, purpose, w.now, token).0;
            PeopleInv(after, w.people, w.nextId + 1) && Gentle(w.auth, w.people, after, w.people)
  {
    PruneGentle(w.auth, w.people, w.nextId, w.now);
  }

  lemma PresentGentle(auth: AuthState, p: People, nextId: nat, ticket: nat, purpose: TicketPurpose, now: nat)
    requires PeopleInv(auth, p, nextId)
    ensures var (after, r) := ConsumeTicket(auth, ticket, purpose, now);
            PeopleInv(after, Hold(p, r), nextId) && Gentle(auth, p, after, Hold(p, r))
  {
  }

  // ----- backend calls

  lemma CallsUnfold(b: Backends, call: Call)
    ensures var after := Log(b, call);
            && LastLaunch(after.calls)
                 == (if call.BrowserStart? && call.ok then Some(call.tab) else LastLaunch(b.calls))
            && LastEgress(after.calls) == (if call.EgressApply? && call.ok then Some(call.mode)
                                           else if call.EgressReset? && call.ok then Some(Direct)
                                           else LastEgress(b.calls))
  {
    assert (b.calls + [call])[..|b.calls|] == b.calls;
  }

  lemma SuffixGrows(calls: seq<Call>, suffix: seq<Call>, call: Call)
    requires EndsWithCalls(calls, suffix)
    ensures EndsWithCalls(calls + [call], suffix + [call])
  {
    var after := calls + [call];
    assert after[|after| - |suffix| - 1..] == calls[|calls| - |suffix|..] + [call];
  }

  /** A call to the bridge leaves everything else alone. */
  predicate OnlyBridge(b: Backends, v: Backends) {
    v.net == b.net && v.pushed == b.pushed && v.burned == b.burned
  }

  /** A start that succeeds is on record; after one that fails no browser runs, or a stray
      one. */
  lemma LaunchFacts(b: Backends, tab: Tab, url: Url, profile: StreamProfile, c: Choice)
    requires BrowserHistory.Coherent(b.bridge)
    requires c.ok ==> Granted(b.bridge, BrowserHistory.Start(tab.id, url, profile, tab.egress), c.delivery)
    ensures var v := CallLaunch(b, tab, url, profile, c);
            && OnlyBridge(b, v) && BrowserHistory.Coherent(v.bridge)
            && v.calls == b.calls + [BrowserStart(tab, c.ok)]
            && LastEgress(v.calls) == LastEgress(b.calls)
            && (c.ok ==> LastLaunch(v.calls) == Some(tab) && Recorded(v))
            && (!c.ok ==> LastLaunch(v.calls) == LastLaunch(b.calls) && NoTab(v))
  {
    hide LastLaunch, LastEgress;
    CallsUnfold(Tell(b, BrowserHistory.Start(tab.id, url, profile, tab.egress), c), BrowserStart(tab, c.ok));
  }

  lemma StopFacts(b: Backends, c: Choice)
    requires BrowserHistory.Coherent(b.bridge) && (c.ok ==> Granted(b.bridge, BrowserHistory.Stop, c.delivery))
    ensures var v := CallStop(b, c);
            && OnlyBridge(b, v) && BrowserHistory.Coherent(v.bridge)
            && v.calls == b.calls + [BrowserStop(c.ok)]
            && LastEgress(v.calls) == LastEgress(b.calls) && LastLaunch(v.calls) == LastLaunch(b.calls)
            && NoTab(v)
  {
    hide LastLaunch, LastEgress;
    CallsUnfold(Tell(b, BrowserHistory.Stop, c), BrowserStop(c.ok));
  }

  /** A navigation may bring a browser back, under the mode on record. */
  lemma NavigateFacts(b: Backends, command: Navigation, c: Choice)
    requires BrowserHistory.Coherent(b.bridge) && Recorded(b)
    ensures var v := CallNavigate(b, command, c);
            && OnlyBridge(b, v) && BrowserHistory.Coherent(v.bridge) && Recorded(v)
            && LastEgress(v.calls) == LastEgress(b.calls) && LastLaunch(v.calls) == LastLaunch(b.calls)
  {
    hide LastLaunch, LastEgress;
    CallsUnfold(Tell(b, BrowserHistory.Navigate(command), c), BrowserNavigate(c.ok));
  }

  /** A granted egress call leaves the helper enforcing the mode that was asked for. */
  lemma EgressFacts(cfg: Config, net: NetTransition.Net, command: NetTransition.EgressCommand,
                    next: NetTransition.Net, ok: bool)
    requires NetSafety.NetInv(cfg.net, net) && EgressOutcome(cfg, net, command, next, ok)
    requires !command.StatusQuery?
    ensures NetSafety.NetInv(cfg.net, next)
    ensures ok ==> next.activeMode == Some(if command.Apply? then command.mode else Direct)
  {
    hide NetTransition.Serve, NetSafety.NetInv;
    if next != net || ok {
      var host, tape :| var (served, reply) := NetTransition.Serve(cfg.net, command, host, net, tape);
                        served == next && (ok ==> reply.ok);
      NetSafety.ServeFacts(cfg.net, command, host, net, tape);
      GrantedMode(cfg, net, command, host, tape);
    }
  }

  lemma GrantedMode(cfg: Config, net: NetTransition.Net, command: NetTransition.EgressCommand,
                    host: NetTransition.HostFiles, tape: seq<NetTransition.Event>)
    requires !command.StatusQuery?
    ensures var (served, reply) := NetTransition.Serve(cfg.net, command, host, net, tape);
            reply.ok ==> served.activeMode == Some(if command.Apply? then command.mode else Direct)
  {
    hide NetTransition.Attempt;
  }

  /** What the invariant proofs need to know about a step's outcome. */
  ghost predicate Sound(cfg: Config, w: World, c: Choice) {
    && (EgressCallOf(w.op).Some? ==>
          NetSafety.NetInv(cfg.net, c.net) && (c.ok ==> c.net.activeMode == EgressCallOf(w.op)))
    && (BrowserCallOf(w.op).Some? && c.ok ==> Granted(w.back.bridge, BrowserCallOf(w.op).value, c.delivery))
  }

  lemma PossibleIsSound(cfg: Config, w: World, c: Choice)
    requires Inv(cfg, w) && Possible(cfg, w, c)
    ensures Sound(cfg, w, c)
  {
    hide NetSafety.NetInv, EgressOutcome;
    if EgressCallOf(w.op).Some? {
      EgressFacts(cfg, w.back.net, EgressRequestOf(w.op).value, c.net, c.ok);
    }
  }

  predicate BetweenCalls(o: Op) {
    Published(o) && !(o.Burn? && o.bpc == BRevoke)
  }

  lemma InvParts(cfg: Config, w: World)
    requires Inv(cfg, w)
    ensures NetSafety.NetInv(cfg.net, w.back.net) && StrayInv(w.sess, w.back) && OpInv(w)
    ensures BrowserHistory.Coherent(w.back.bridge)
  {
    hide NetSafety.NetInv, PeopleInv, OpInv, StrayInv;
  }

  /** A backend call made while the session is not active touches only the backends. */
  lemma CallKeepsInv(cfg: Config, w: World, b: Backends, o: Op)
    requires Inv(cfg, w) && !w.sess.snapshot.phase.Active?
    requires NetSafety.NetInv(cfg.net, b.net) && StrayInv(w.sess, b) && BrowserHistory.Coherent(b.bridge)
    requires b.pushed == w.back.pushed && b.burned == w.back.burned
    requires BetweenCalls(w.op) && BetweenCalls(o) && OpInv(w.(back := b, op := o))
    ensures Inv(cfg, w.(back := b, op := o))
  {
    hide NetSafety.NetInv, PeopleInv, OpInv, StrayInv, Shape, LeaseInv;
  }

  // ----- operations under the lifecycle lock

  lemma NextIdGrows(auth: AuthState, p: People, nextId: nat, later: nat)
    requires PeopleInv(auth, p, nextId) && nextId <= later
    ensures PeopleInv(auth, p, later)
  {
    hide AuthInv;
  }

  lemma ExchangedIsSpent(auth: AuthState, p: People, nextId: nat)
    requires PeopleInv(auth, p, nextId)
    ensures p.exchanged.Some? ==> auth.pairing.None?
  {
    hide AuthInv;
  }

  /** The client of the current generation never meets a lease conflict. */
  lemma BeginStartFacts(sess: SessionData, p: People, client: nat, url: Url, blocked: bool, id: nat, now: nat)
    requires Shape(sess) && LeaseInv(sess, p) && p.exchanged == Some(client)
    ensures var r := BeginStart(sess, client, url, blocked, id, now);
            && r != Err(LeaseConflict)
            && (r.Ok? ==>
                  && Shape(r.value) && LeaseInv(r.value, p)
                  && (sess.snapshot.phase.Idle? || sess.snapshot.phase.Failed?)
                  && r.value.history == sess.history
                  && r.value.snapshot.phase.Starting? && r.value.snapshot.id == Some(id)
                  && r.value.snapshot.url == Some(url))
  {
  }

  lemma StartEntersInv(cfg: Config, w: World, c: Choice)
    requires Inv(cfg, w) && w.op.Start? && (w.op.spc == SValidate || w.op.spc == SBegin)
    ensures Inv(cfg, StepStart(cfg, w, c))
  {
    hide NetSafety.NetInv, PeopleInv, Blocked, ValidateContext, BeginStart, Shape, LastEntries;
    var o := w.op;
    if o.spc == SValidate {
      ValidateGentle(w.auth, w.people, w.nextId, o.context, w.now);
      GentleKeepsInv(cfg, w, ValidateContext(w.auth, o.context, w.now).0, w.people, w.nextId, w.now);
    } else {
      ExchangedIsSpent(w.auth, w.people, w.nextId);
      BeginStartFacts(w.sess, w.people, o.context.client, o.url, Blocked(cfg, o.url), w.nextId, w.now);
      NextIdGrows(w.auth, w.people, w.nextId, w.nextId + 1);
    }
  }

  predicate Launching(pc: StartPc) {
    pc == SApply || pc == SLaunch || pc == SStop || pc == SReset || pc == SClear
  }

  lemma StartCallsKeepInv(cfg: Config, w: World, c: Choice)
    requires Inv(cfg, w) && w.op.Start? && Sound(cfg, w, c) && Launching(w.op.spc)
    ensures Inv(cfg, StepStart(cfg, w, c))
  {
    hide NetSafety.NetInv, Inv, LastLaunch, LastEgress, Tell, Granted, Recorded, BrowserHistory.Coherent, BeginStart,
         FinishStart, ValidateContext, Blocked;
    InvParts(cfg, w);
    var v := StepStart(cfg, w, c);
    var o := w.op;
    if o.spc == SApply {
      CallsUnfold(w.back, EgressApply(o.egress, c.ok));
    } else if o.spc == SLaunch {
      LaunchFacts(w.back, Tab(o.id, o.egress), o.url, o.profile, c);
    } else if o.spc == SStop {
      StopFacts(w.back, c);
    } else if o.spc == SReset {
      CallsUnfold(w.back, EgressReset(c.ok));
    } else {
      CallsUnfold(w.back, ClearRuntime(c.ok));
    }
    CallKeepsInv(cfg, w, v.back, v.op);
  }

  lemma StartKeepsInv(cfg: Config, w: World, c: Choice)
    requires Inv(cfg, w) && w.op.Start? && Sound(cfg, w, c)
    ensures Inv(cfg, StepStart(cfg, w, c))
  {
    hide Inv, Sound, StepStart;
    if w.op.spc == SValidate || w.op.spc == SBegin {
      StartEntersInv(cfg, w, c);
    } else if Launching(w.op.spc) {
      StartCallsKeepInv(cfg, w, c);
    } else {
      StartEndsInv(cfg, w, c);
    }
  }

  lemma StartEndsInv(cfg: Config, w: World, c: Choice)
    requires Inv(cfg, w) && w.op.Start? && (w.op.spc == SFinish || w.op.spc == SFail)
    ensures Inv(cfg, StepStart(cfg, w, c))
  {
    hide NetSafety.NetInv, Inv, LastLaunch, LastEgress, BrowserHistory.Coherent, LastEntries, ValidateContext,
         BeginStart;
    InvParts(cfg, w);
    ShapeOf(cfg, w);
    GenerationBound(cfg, w);
    HistoryIsLog(cfg, w);
    if w.op.spc == SFinish {
      PushKeepsLastEntries(w.back.pushed, w.op.url);
      SessionEndsInv(cfg, w, FinishStart(w.sess, w.op.url), w.back.pushed + [w.op.url]);
    } else {
      SessionEndsInv(cfg, w, Fail(w.sess), w.back.pushed);
    }
  }

  lemma HistoryIsLog(cfg: Config, w: World)
    requires Inv(cfg, w)
    ensures w.sess.history == LastEntries(w.back.pushed)
  {
    hide NetSafety.NetInv, PeopleInv, OpInv, Shape, LastEntries;
  }

  lemma NavigateKeepsInv(cfg: Config, w: World, c: Choice)
    requires Inv(cfg, w) && w.op.Navigate? && Sound(cfg, w, c)
    ensures Inv(cfg, StepNavigate(cfg, w, c))
  {
    hide NetSafety.NetInv, PeopleInv, Blocked, ValidateContext, LastEntries;
    var o := w.op;
    match o.npc {
      case NValidate =>
        ValidateGentle(w.auth, w.people, w.nextId, o.context, w.now);
        GentleKeepsInv(cfg, w, ValidateContext(w.auth, o.context, w.now).0, w.people, w.nextId, w.now);
      case NCheckId =>
      case NBegin =>
      case NCall => NavigateFacts(w.back, o.command, c);
      case NFinish => if o.command.Visit? { PushKeepsLastEntries(w.back.pushed, o.command.url); }
    }
  }

  // ----- switch

  lemma SwitchEntersInv(cfg: Config, w: World, c: Choice)
    requires Inv(cfg, w) && w.op.Switch? && (w.op.wpc == WValidate || w.op.wpc == WCheckId || w.op.wpc == WBegin)
    ensures Inv(cfg, StepSwitch(w, c))
  {
    hide NetSafety.NetInv, PeopleInv, ValidateContext, LastEntries, LastLaunch, LastEgress, SwitchCall, RollbackCall;
    var o := w.op;
    if o.wpc == WValidate {
      ValidateGentle(w.auth, w.people, w.nextId, o.context, w.now);
      GentleKeepsInv(cfg, w, ValidateContext(w.auth, o.context, w.now).0, w.people, w.nextId, w.now);
    } else if o.wpc == WBegin {
      NextIdGrows(w.auth, w.people, w.nextId, w.nextId + 2);
    }
  }

  lemma SwitchCallsKeepInv(cfg: Config, w: World, c: Choice)
    requires Inv(cfg, w) && w.op.Switch? && Sound(cfg, w, c) && Switching(w.op.wpc)
    ensures Inv(cfg, SwitchCall(w, c))
  {
    hide NetSafety.NetInv, Inv, LastLaunch, LastEgress, Tell, Granted, Recorded, BrowserHistory.Coherent, StartInv,
         NavigateInv, BurnSessInv, BurnAuthInv;
    InvParts(cfg, w);
    var v := SwitchCall(w, c);
    var o := w.op;
    if o.wpc == WStop {
      StopFacts(w.back, c);
    } else if o.wpc == WReset {
      CallsUnfold(w.back, EgressReset(c.ok));
    } else if o.wpc == WClear {
      CallsUnfold(w.back, ClearRuntime(c.ok));
    } else if o.wpc == WApply {
      CallsUnfold(w.back, EgressApply(o.mode, c.ok));
    } else {
      LaunchFacts(w.back, Tab(o.id, o.mode), o.url, o.profile, c);
    }
    CallKeepsInv(cfg, w, v.back, v.op);
  }

  lemma RollbackCallsKeepInv(cfg: Config, w: World, c: Choice)
    requires Inv(cfg, w) && w.op.Switch? && Sound(cfg, w, c) && RollingBack(w.op.wpc)
    ensures Inv(cfg, RollbackCall(w, c))
  {
    hide NetSafety.NetInv, Inv, LastLaunch, LastEgress, Tell, Granted, Recorded, BrowserHistory.Coherent, StartInv,
         NavigateInv, BurnSessInv, BurnAuthInv;
    InvParts(cfg, w);
    var v := RollbackCall(w, c);
    var o := w.op;
    if o.wpc == XStop {
      StopFacts(w.back, c);
    } else if o.wpc == XReset {
      CallsUnfold(w.back, EgressReset(c.ok));
    } else if o.wpc == XClear {
      CallsUnfold(w.back, ClearRuntime(c.ok));
    } else {
      RestoreKeepsInv(cfg, w, c);
      return;
    }
    CallKeepsInv(cfg, w, v.back, v.op);
  }

  lemma RestoreKeepsInv(cfg: Config, w: World, c: Choice)
    requires Inv(cfg, w) && w.op.Switch? && Sound(cfg, w, c) && (w.op.wpc == XApply || w.op.wpc == XLaunch)
    ensures Inv(cfg, RollbackCall(w, c))
  {
    hide NetSafety.NetInv, Inv, LastLaunch, LastEgress, Tell, Granted, Recorded, BrowserHistory.Coherent, StartInv,
         NavigateInv, BurnSessInv, BurnAuthInv;
    InvParts(cfg, w);
    var v := RollbackCall(w, c);
    var o := w.op;
    if o.wpc == XApply {
      CallsUnfold(w.back, EgressApply(o.previous, c.ok));
    } else {
      LaunchFacts(w.back, Tab(o.id + 1, o.previous), o.url, o.profile, c);
    }
    CallKeepsInv(cfg, w, v.back, v.op);
  }

  lemma FinishShapes(d: SessionData, id: nat, mode: EgressMode, url: Url, now: nat)
    requires Shape(d) && d.controller.Some? && d.snapshot.url == Some(url) && !d.snapshot.failure
    ensures var s := FinishSwitch(d, id, mode, url, now);
            && Shape(s) && s.controller == d.controller && s.history == LastEntries([url])
            && s.snapshot.phase.Active? && s.snapshot.id == Some(id) && s.snapshot.egress == mode
    ensures FinishRollback(d, id, mode, url, now) == FinishSwitch(d, id, mode, url, now)
    ensures Shape(FailSwitch(d)) && FailSwitch(d).snapshot.phase.Failed? && FailSwitch(d).history == LastEntries([])
  {
  }

  /** An operation that ends by rewriting the session. */
  lemma SessionEndsInv(cfg: Config, w: World, d: SessionData, pushed: seq<Url>)
    requires Inv(cfg, w) && BetweenCalls(w.op)
    requires Shape(d) && d.controller == w.sess.controller && d.history == LastEntries(pushed)
    requires AgreementInv(d, w.back) && StrayInv(d, w.back) && OpenInv(w.auth, d)
    ensures Inv(cfg, Done(w.(sess := d, back := w.back.(pushed := pushed))))
  {
    hide NetSafety.NetInv, PeopleInv, Shape, LastLaunch, LastEgress, LastEntries, BrowserHistory.Coherent;
    hide StartInv, NavigateInv, SwitchInv, BurnSessInv, BurnAuthInv;
  }

  lemma SwitchEndStep(w: World, c: Choice)
    requires w.op.Switch? && (w.op.wpc == WFinish || w.op.wpc == XFinish || w.op.wpc == XFail)
    ensures var o := w.op;
            StepSwitch(w, c)
            == if o.wpc == XFail then Done(w.(sess := FailSwitch(w.sess), back := w.back.(pushed := [])))
               else if o.wpc == XFinish then
                 Done(w.(sess := FinishRollback(w.sess, o.id + 1, o.previous, o.url, w.now),
                         back := w.back.(pushed := [o.url])))
               else Done(w.(sess := FinishSwitch(w.sess, o.id, o.mode, o.url, w.now),
                            back := w.back.(pushed := [o.url])))
  {
    hide ValidateContext, BeginSwitch, SwitchCall, RollbackCall, FinishSwitch, FinishRollback, FailSwitch;
  }

  lemma SwitchEndsInv(cfg: Config, w: World, c: Choice)
    requires Inv(cfg, w) && w.op.Switch? && (w.op.wpc == WFinish || w.op.wpc == XFinish || w.op.wpc == XFail)
    ensures Inv(cfg, StepSwitch(w, c))
  {
    hide NetSafety.NetInv, Inv, StepSwitch, LastLaunch, LastEgress, BrowserHistory.Coherent, Shape, LastEntries;
    hide StartInv, NavigateInv, BurnSessInv, BurnAuthInv, FinishSwitch, FinishRollback;
    var o := w.op;
    ShapeOf(cfg, w);
    InvParts(cfg, w);
    GenerationBound(cfg, w);
    SwitchEndStep(w, c);
    if o.wpc == WFinish {
      FinishShapes(w.sess, o.id, o.mode, o.url, w.now);
      SessionEndsInv(cfg, w, FinishSwitch(w.sess, o.id, o.mode, o.url, w.now), [o.url]);
    } else {
      FinishShapes(w.sess, o.id + 1, o.previous, o.url, w.now);
      if o.wpc == XFinish {
        SessionEndsInv(cfg, w, FinishRollback(w.sess, o.id + 1, o.previous, o.url, w.now), [o.url]);
      } else {
        SessionEndsInv(cfg, w, FailSwitch(w.sess), []);
      }
    }
  }

  lemma ShapeOf(cfg: Config, w: World)
    requires Inv(cfg, w)
    ensures Shape(w.sess) && OpInv(w)
  {
    hide NetSafety.NetInv, PeopleInv, OpInv, Shape;
  }

  lemma SwitchKeepsInv(cfg: Config, w: World, c: Choice)
    requires Inv(cfg, w) && w.op.Switch? && Sound(cfg, w, c)
    ensures Inv(cfg, StepSwitch(w, c))
  {
    hide Inv, Sound, SwitchCall, RollbackCall;
    if w.op.wpc == WValidate || w.op.wpc == WCheckId || w.op.wpc == WBegin {
      SwitchEntersInv(cfg, w, c);
    } else if Switching(w.op.wpc) {
      SwitchCallsKeepInv(cfg, w, c);
    } else if RollingBack(w.op.wpc) {
      RollbackCallsKeepInv(cfg, w, c);
    } else {
      SwitchEndsInv(cfg, w, c);
    }
  }

  // ----- burn

  lemma BurnCheckKeepsInv(cfg: Config, w: World)
    requires Inv(cfg, w) && w.op.Burn? && w.op.bpc == BCheck
    ensures Inv(cfg, BurnCheck(w))
  {
    hide NetSafety.NetInv, ValidateContext, LastEntries, LastLaunch, LastEgress, Prune, Shape;
    var o := w.op;
    if o.kind.ByClient? {
      ValidateGentle(w.auth, w.people, w.nextId, o.kind.context, w.now);
      GentleKeepsInv(cfg, w, ValidateContext(w.auth, o.kind.context, w.now).0, w.people, w.nextId, w.now);
    } else if o.kind.Recovery? {
      PruneGentle(w.auth, w.people, w.nextId, w.now);
      GentleKeepsInv(cfg, w, Prune(w.auth, w.now), w.people, w.nextId, w.now);
    } else {
      ActiveIsPaired(cfg, w);
    }
  }

  lemma ActiveIsPaired(cfg: Config, w: World)
    requires Inv(cfg, w)
    ensures w.sess.snapshot.phase.Active? ==> w.auth.pairing.None?
  {
    hide NetSafety.NetInv, AuthInv, LastEntries, LastLaunch, LastEgress;
  }

  lemma BurnCheckIdKeepsInv(cfg: Config, w: World)
    requires Inv(cfg, w) && w.op.Burn? && w.op.bpc == BCheckId
    ensures Inv(cfg, BurnCheckId(w))
  {
    hide NetSafety.NetInv, PeopleInv, LastEntries, LastLaunch, LastEgress, StrayInv;
  }

  lemma BurnEntersInv(cfg: Config, w: World, c: Choice)
    requires Inv(cfg, w) && w.op.Burn? && BeforeBegin(w.op.bpc)
    ensures Inv(cfg, StepBurn(cfg, w, c))
  {
    if w.op.bpc == BCheck {
      hide Inv, BurnCheck;
      BurnCheckKeepsInv(cfg, w);
    } else if w.op.bpc == BCheckId {
      hide Inv, BurnCheckId;
      BurnCheckIdKeepsInv(cfg, w);
    } else {
      hide NetSafety.NetInv, PeopleInv, BurnCheck, BurnCheckId, LastEntries, LastLaunch, LastEgress, FinishBurn;
    }
  }

  lemma BurnCallsKeepInv(cfg: Config, w: World, c: Choice)
    requires Inv(cfg, w) && w.op.Burn? && Sound(cfg, w, c)
    requires w.op.bpc == BStop || w.op.bpc == BReset || w.op.bpc == BClear
    ensures Inv(cfg, StepBurn(cfg, w, c))
  {
    hide NetSafety.NetInv, Inv, LastLaunch, LastEgress, Tell, Granted, Recorded, BrowserHistory.Coherent,
         EndsWithCalls, FinishBurn, BurnCheck, BurnCheckId;
    InvParts(cfg, w);
    var v := StepBurn(cfg, w, c);
    var o := w.op;
    var calls := w.back.calls;
    if o.bpc == BStop {
      StopFacts(w.back, c);
      SuffixStarts(calls, BrowserStop(c.ok));
    } else if o.bpc == BReset {
      CallsUnfold(w.back, EgressReset(c.ok));
      SuffixGrows(calls, [BrowserStop(o.stopped)], EgressReset(c.ok));
      assert [BrowserStop(o.stopped)] + [EgressReset(c.ok)] == [BrowserStop(o.stopped), EgressReset(c.ok)];
    } else {
      var before := [BrowserStop(o.stopped), EgressReset(o.reset)];
      CallsUnfold(w.back, ClearRuntime(c.ok));
      SuffixGrows(calls, before, ClearRuntime(c.ok));
      assert before + [ClearRuntime(c.ok)] == [BrowserStop(o.stopped), EgressReset(o.reset), ClearRuntime(c.ok)];
    }
    CallKeepsInv(cfg, w, v.back, v.op);
  }

  lemma SuffixStarts(calls: seq<Call>, call: Call)
    ensures EndsWithCalls(calls + [call], [call])
  {
  }

  lemma BurnFinishKeepsInv(cfg: Config, w: World, c: Choice)
    requires Inv(cfg, w) && w.op.Burn? && w.op.bpc == BFinish
    ensures Inv(cfg, StepBurn(cfg, w, c))
  {
    hide NetSafety.NetInv, PeopleInv, LastLaunch, LastEgress, EndsWithCalls, BurnCheck, BurnCheckId;
    GenerationBound(cfg, w);
  }

  lemma GenerationBound(cfg: Config, w: World)
    requires Inv(cfg, w)
    ensures w.sess.controller.Some? ==> w.auth.pairing.None?
  {
    hide NetSafety.NetInv, AuthInv, LastEntries, LastLaunch, LastEgress;
  }

  lemma RotationKeepsPeople(auth: AuthState, p: People, nextId: nat)
    requires PeopleInv(auth, p, nextId)
    ensures var m := PairingMaterial(nextId, nextId + 1);
            PeopleInv(RotatePairing(auth, m), p.(exchanged := None, material := m), nextId + 2)
  {
  }

  lemma RevocationKeepsPeople(auth: AuthState, p: People, nextId: nat)
    requires PeopleInv(auth, p, nextId)
    ensures PeopleInv(RevokeAll(auth), p, nextId) && PeopleInv(InvalidateUnpublished(auth), p, nextId)
  {
  }

  lemma BurnRotatesInv(cfg: Config, w: World, c: Choice)
    requires Inv(cfg, w) && w.op.Burn? && !BeforeBegin(w.op.bpc) && !Clearing(w.op.bpc)
    ensures Inv(cfg, StepBurn(cfg, w, c))
  {
    hide NetSafety.NetInv, PeopleInv, LastEntries, LastLaunch, LastEgress, Shape;
    match w.op.bpc {
      case BRevoke => RevocationKeepsPeople(w.auth, w.people, w.nextId);
      case BRotate => RotationKeepsPeople(w.auth, w.people, w.nextId);
      case BWrite => FileKeepsPeople(w.auth, w.people, w.nextId);
      case BInvalidate => RevocationKeepsPeople(w.auth, w.people, w.nextId);
      case _ =>
    }
  }

  lemma FileKeepsPeople(auth: AuthState, p: People, nextId: nat)
    requires PeopleInv(auth, p, nextId)
    ensures PeopleInv(auth, p.(file := p.material), nextId)
  {
    hide AuthInv;
  }

  lemma BurnKeepsInv(cfg: Config, w: World, c: Choice)
    requires Inv(cfg, w) && w.op.Burn? && Sound(cfg, w, c)
    ensures Inv(cfg, StepBurn(cfg, w, c))
  {
    hide Inv, Sound, StepBurn;
    if BeforeBegin(w.op.bpc) {
      BurnEntersInv(cfg, w, c);
    } else if w.op.bpc == BFinish {
      BurnFinishKeepsInv(cfg, w, c);
    } else if Clearing(w.op.bpc) {
      BurnCallsKeepInv(cfg, w, c);
    } else {
      BurnRotatesInv(cfg, w, c);
    }
  }

  // ----- all actions

  lemma FreeActionsKeepInv(cfg: Config, w: World, a: Action)
    requires Inv(cfg, w) && Enabled(cfg, w, a)
    requires a.Exchange? || a.Login? || a.IssueFor? || a.Present? || a.Tick?
    ensures Inv(cfg, Do(cfg, w, a))
  {
    hide Inv, PeopleInv, Gentle, DoExchange, Authenticate, IssueTicket, ConsumeTicket;
    InvPeople(cfg, w);
    var v := Do(cfg, w, a);
    match a {
      case Exchange(presented, sessionDrawn, csrfDrawn) =>
        ExchangeGentle(cfg, w, presented, sessionDrawn, csrfDrawn);
        ExchangeOnlyAuth(cfg, w, presented, sessionDrawn, csrfDrawn);
      case Login(cookie, csrf, requireCsrf) =>
        LoginGentle(w.auth, w.people, w.nextId, cookie, csrf, requireCsrf, w.now);
      case IssueFor(context, purpose, drawn) =>
        IssueGentle(cfg, w, context, purpose, drawn);
      case Present(ticket, purpose) =>
        PresentGentle(w.auth, w.people, w.nextId, ticket, purpose, w.now);
      case _ => SelfGentle(w.auth, w.people);
    }
    GentleKeepsInv(cfg, w, v.auth, v.people, v.nextId, v.now);
  }

  lemma InvPeople(cfg: Config, w: World)
    requires Inv(cfg, w)
    ensures PeopleInv(w.auth, w.people, w.nextId)
  {
  }

  lemma SelfGentle(auth: AuthState, p: People)
    ensures Gentle(auth, p, auth, p)
  {
  }

  lemma ExchangeOnlyAuth(cfg: Config, w: World, presented: nat, sessionDrawn: bool, csrfDrawn: bool)
    ensures var v := DoExchange(cfg, w, presented, sessionDrawn, csrfDrawn);
            v == w.(auth := v.auth, people := v.people, nextId := v.nextId)
  {
    hide ExchangePairing;
  }

  lemma SettingKeepsInv(cfg: Config, w: World, context: AuthContext, setting: Setting)
    requires Inv(cfg, w)
    ensures Inv(cfg, Do(cfg, w, SetFor(context, setting)))
  {
    hide PeopleInv, NetSafety.NetInv, LastEntries, LastLaunch, LastEgress;
  }

  lemma LockActionsKeepInv(cfg: Config, w: World, a: Action)
    requires Inv(cfg, w) && Enabled(cfg, w, a)
    requires a.AcquireStart? || a.AcquireNavigate? || a.AcquireSwitch? || a.AcquireBurn? || a.Drop?
    ensures Inv(cfg, Do(cfg, w, a))
  {
    hide PeopleInv, NetSafety.NetInv, LastEntries, LastLaunch, LastEgress, Shape;
  }

  /** Every action that can happen keeps the invariant. */
  lemma ActionKeepsInv(cfg: Config, w: World, a: Action)
    requires Inv(cfg, w) && Enabled(cfg, w, a)
    ensures Inv(cfg, Do(cfg, w, a))
  {
    hide Inv, Possible, Sound, StepStart, StepNavigate, StepSwitch, StepBurn;
    match a {
      case Advance(choice) =>
        PossibleIsSound(cfg, w, choice);
        match w.op {
          case Start(_, _, _, _, _, _) => StartKeepsInv(cfg, w, choice);
          case Navigate(_, _, _, _) => NavigateKeepsInv(cfg, w, choice);
          case Switch(_, _, _, _, _, _, _, _) => SwitchKeepsInv(cfg, w, choice);
          case Burn(_, _, _, _, _, _, _) => BurnKeepsInv(cfg, w, choice);
          case Free =>
        }
      case SetFor(context, setting) => SettingKeepsInv(cfg, w, context, setting);
      case AcquireStart(_, _) => LockActionsKeepInv(cfg, w, a);
      case AcquireNavigate(_, _, _) => LockActionsKeepInv(cfg, w, a);
      case AcquireSwitch(_, _, _) => LockActionsKeepInv(cfg, w, a);
      case AcquireBurn(_) => LockActionsKeepInv(cfg, w, a);
      case Drop => LockActionsKeepInv(cfg, w, a);
      case _ => FreeActionsKeepInv(cfg, w, a);
    }
  }

  lemma BootInv(cfg: Config, net: NetTransition.Net, bridge: BrowserHistory.Bridge, now: nat)
    requires NetSafety.NetInv(cfg.net, net) && BrowserHistory.Coherent(bridge)
    ensures Inv(cfg, Boot(cfg, net, bridge, now))
  {
    hide NetSafety.NetInv;
  }

  /** Every state of every interleaving from a state with the invariant has it too. */
  lemma {:induction false} RunsKeepInv(cfg: Config, start: World, actions: seq<Action>, end: World)
    requires Inv(cfg, start) && Run(cfg, start, actions, end)
    ensures Inv(cfg, end)
    decreases |actions|
  {
    hide Inv, Enabled, Do;
    if actions != [] {
      var last := |actions| - 1;
      var before :| Run(cfg, start, actions[..last], before)
                    && Enabled(cfg, before, actions[last]) && end == Do(cfg, before, actions[last]);
      RunsKeepInv(cfg, start, actions[..last], before);
      ActionKeepsInv(cfg, before, actions[last]);
    }
  }
}
