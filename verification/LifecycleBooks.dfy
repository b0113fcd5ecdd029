/** What the operations do in detail: which calls they make in which order, with which arguments, and
    what that leaves in the bridge and in the session. */
module LifecycleBooks {
  import opened Types
  import opened Auth
  import opened Session
  import opened Lifecycle
  import opened LifecycleInv
  import opened LifecycleSteps
  import opened LifecycleTheorems
  import BrowserHistory
  import NetSafety

  // ----- call sequences

  predicate Trail(calls: seq<Call>, suffix: seq<Call>) {
    EndsWithCalls(calls, suffix)
  }

  /** A stop, successful or not, and then these calls. */
  predicate AfterStop(calls: seq<Call>, rest: seq<Call>) {
    Trail(calls, [BrowserStop(true)] + rest) || Trail(calls, [BrowserStop(false)] + rest)
  }

  /** The egress was refused, or the browser did not start and was stopped again. */
  predicate FailedOpening(calls: seq<Call>, tab: Tab) {
    || Trail(calls, [EgressApply(tab.egress, false)])
    || Trail(calls, [EgressApply(tab.egress, true), BrowserStart(tab, false), BrowserStop(true)])
    || Trail(calls, [EgressApply(tab.egress, true), BrowserStart(tab, false), BrowserStop(false)])
  }

  predicate StartTrail(o: Op, calls: seq<Call>)
    requires o.Start?
  {
    var tab, n := Tab(o.id, o.egress), |calls|;
    match o.spc
    case SValidate => true
    case SBegin => true
    case SApply => true
    case SLaunch => Trail(calls, [EgressApply(o.egress, true)])
    case SFinish => Trail(calls, [EgressApply(o.egress, true), BrowserStart(tab, true)])
    case SStop => Trail(calls, [EgressApply(o.egress, true), BrowserStart(tab, false)])
    case SReset => FailedOpening(calls, tab)
    case SClear => n >= 1 && calls[n - 1].EgressReset? && FailedOpening(calls[..n - 1], tab)
    case SFail =>
      n >= 2 && calls[n - 1].ClearRuntime? && calls[n - 2].EgressReset? && FailedOpening(calls[..n - 2], tab)
  }

  predicate SwitchTrail(o: Op, calls: seq<Call>)
    requires o.Switch?
  {
    var tab, back := Tab(o.id, o.mode), Tab(o.id + 1, o.previous);
    match o.wpc
    case WReset => Trail(calls, [BrowserStop(true)])
    case WClear => Trail(calls, [BrowserStop(true), EgressReset(true)])
    case WApply => Trail(calls, [BrowserStop(true), EgressReset(true), ClearRuntime(true)])
    case WLaunch => Trail(calls, [BrowserStop(true), EgressReset(true), ClearRuntime(true), EgressApply(o.mode, true)])
    case WFinish =>
      Trail(calls, [BrowserStop(true), EgressReset(true), ClearRuntime(true), EgressApply(o.mode, true),
                    BrowserStart(tab, true)])
    case XReset => AfterStop(calls, [])
    case XClear => AfterStop(calls, [EgressReset(true)])
    case XApply => AfterStop(calls, [EgressReset(true), ClearRuntime(true)])
    case XLaunch => AfterStop(calls, [EgressReset(true), ClearRuntime(true), EgressApply(o.previous, true)])
    case XFinish =>
      AfterStop(calls, [EgressReset(true), ClearRuntime(true), EgressApply(o.previous, true), BrowserStart(back, true)])
    case XFail =>
      || AfterStop(calls, [EgressReset(false)])
      || AfterStop(calls, [EgressReset(true), ClearRuntime(false)])
      || AfterStop(calls, [EgressReset(true), ClearRuntime(true), EgressApply(o.previous, false)])
      || AfterStop(calls, [EgressReset(true), ClearRuntime(true), EgressApply(o.previous, true),
                           BrowserStart(back, false)])
    case _ => true
  }

  // ----- the books

  /** The flags that go with a phase, and the settings that every idle session has. */
  predicate Settled(cfg: Config, d: SessionData) {
    var s := d.snapshot;
    && (s.controllerAttached <==> d.controller.Some?)
    && (s.phase.Failed? ==> s.failure)
    && (s.phase.Idle? ==>
          && s.egress == cfg.session.egress && s.profile == cfg.session.profile
          && s.autoBurn == cfg.session.autoBurn && s.blocklistEnabled)
  }

  predicate Runs(b: Backends, url: Url, profile: StreamProfile, egress: EgressMode) {
    b.bridge.child == Some(BrowserHistory.Child(url, profile, egress))
  }

  predicate StartBooks(w: World)
    requires w.op.Start?
  {
    var o := w.op;
    && StartTrail(o, w.back.calls)
    && (o.spc != SValidate && o.spc != SBegin ==> w.sess.snapshot.profile == o.profile)
    && (o.spc == SFinish ==> Runs(w.back, o.url, o.profile, o.egress))
  }

  predicate NavigateBooks(w: World)
    requires w.op.Navigate?
  {
    var o := w.op;
    && (o.npc != NValidate && o.npc != NCheckId ==> w.sess.snapshot.id == Some(o.expected))
    && (o.npc == NFinish ==> Trail(w.back.calls, [BrowserNavigate(true)]))
  }

  predicate SwitchBooks(w: World)
    requires w.op.Switch?
  {
    var o := w.op;
    && SwitchTrail(o, w.back.calls)
    && (o.wpc != WValidate && o.wpc != WCheckId ==> w.sess.snapshot.id == Some(o.expected))
    && (o.wpc != WValidate && o.wpc != WCheckId && o.wpc != WBegin ==> w.sess.snapshot.profile == o.profile)
    && (o.wpc == WFinish ==> Runs(w.back, o.url, o.profile, o.mode))
    && (o.wpc == XFinish ==> Runs(w.back, o.url, o.profile, o.previous))
  }

  predicate BurnBooks(w: World)
    requires w.op.Burn?
  {
    var o := w.op;
    o.kind.ByClient? && (o.bpc == BLease || o.bpc == BBegin || Clearing(o.bpc)) ==>
      w.sess.snapshot.id == Some(o.kind.expected)
  }

  predicate Books(cfg: Config, w: World) {
    && Settled(cfg, w.sess)
    && match w.op
       case Free => true
       case Start(_, _, _, _, _, _) => StartBooks(w)
       case Navigate(_, _, _, _) => NavigateBooks(w)
       case Switch(_, _, _, _, _, _, _, _) => SwitchBooks(w)
       case Burn(_, _, _, _, _, _, _) => BurnBooks(w)
  }

  // ----- steps

  lemma TrailGrows(calls: seq<Call>, suffix: seq<Call>, call: Call, longer: seq<Call>)
    requires Trail(calls, suffix) && longer == suffix + [call]
    ensures Trail(calls + [call], longer)
  {
    SuffixGrows(calls, suffix, call);
  }

  lemma TrailStarts(calls: seq<Call>, call: Call)
    ensures Trail(calls + [call], [call])
  {
  }

  lemma AfterStopGrows(calls: seq<Call>, rest: seq<Call>, call: Call, longer: seq<Call>)
    requires AfterStop(calls, rest) && longer == rest + [call]
    ensures AfterStop(calls + [call], longer)
  {
    hide Trail;
    assert [BrowserStop(true)] + longer == ([BrowserStop(true)] + rest) + [call];
    assert [BrowserStop(false)] + longer == ([BrowserStop(false)] + rest) + [call];
    if Trail(calls, [BrowserStop(true)] + rest) {
      TrailGrows(calls, [BrowserStop(true)] + rest, call, [BrowserStop(true)] + longer);
    } else {
      TrailGrows(calls, [BrowserStop(false)] + rest, call, [BrowserStop(false)] + longer);
    }
  }

  lemma LaunchRuns(b: Backends, tab: Tab, url: Url, profile: StreamProfile, c: Choice)
    requires c.ok ==> Granted(b.bridge, BrowserHistory.Start(tab.id, url, profile, tab.egress), c.delivery)
    ensures var v := CallLaunch(b, tab, url, profile, c);
            v.calls == b.calls + [BrowserStart(tab, c.ok)] && (c.ok ==> Runs(v, url, profile, tab.egress))
  {
  }

  lemma BridgeCallsAreLogged(b: Backends, command: Navigation, c: Choice)
    ensures CallStop(b, c).calls == b.calls + [BrowserStop(c.ok)]
    ensures CallNavigate(b, command, c).calls == b.calls + [BrowserNavigate(c.ok)]
  {
  }

  lemma StartStepsBook(cfg: Config, w: World, c: Choice)
    requires w.op.Start? && Settled(cfg, w.sess) && StartBooks(w) && Sound(cfg, w, c)
    requires w.op.spc == SApply || w.op.spc == SLaunch || w.op.spc == SStop
    ensures Books(cfg, StepStart(cfg, w, c))
  {
    hide Trail, Granted, Tell, NetSafety.NetInv, ValidateContext, BeginStart, Blocked, BrowserHistory.Serve;
    var o, calls, tab := w.op, w.back.calls, Tab(w.op.id, w.op.egress);
    match o.spc {
      case SApply => TrailStarts(calls, EgressApply(o.egress, c.ok));
      case SLaunch =>
        LaunchRuns(w.back, tab, o.url, o.profile, c);
        TrailGrows(calls, [EgressApply(o.egress, true)], BrowserStart(tab, c.ok),
                   [EgressApply(o.egress, true), BrowserStart(tab, c.ok)]);
      case SStop =>
        BridgeCallsAreLogged(w.back, Reload, c);
        TrailGrows(calls, [EgressApply(o.egress, true), BrowserStart(tab, false)], BrowserStop(c.ok),
                   [EgressApply(o.egress, true), BrowserStart(tab, false), BrowserStop(c.ok)]);
      case _ =>
    }
  }

  lemma StartCleansBook(cfg: Config, w: World, c: Choice)
    requires w.op.Start? && Settled(cfg, w.sess) && StartBooks(w) && (w.op.spc == SReset || w.op.spc == SClear)
    ensures Books(cfg, StepStart(cfg, w, c))
  {
    hide FailedOpening, Settled, ValidateContext, BeginStart, Blocked, Tell;
    var v := StepStart(cfg, w, c);
    if w.op.spc == SReset {
      assert v.back.calls[..|v.back.calls| - 1] == w.back.calls;
    } else {
      assert v.back.calls[..|v.back.calls| - 2] == w.back.calls[..|w.back.calls| - 1];
    }
  }

  lemma StartEndsBook(cfg: Config, w: World, c: Choice)
    requires w.op.Start? && Settled(cfg, w.sess) && StartBooks(w) && OpInv(w)
    requires w.op.spc == SValidate || w.op.spc == SBegin || w.op.spc == SFinish || w.op.spc == SFail
    ensures Books(cfg, StepStart(cfg, w, c))
  {
    hide Trail, ValidateContext, Blocked, FailedOpening;
  }

  lemma NavigateBook(cfg: Config, w: World, c: Choice)
    requires w.op.Navigate? && Settled(cfg, w.sess) && NavigateBooks(w)
    ensures Books(cfg, StepNavigate(cfg, w, c))
  {
    hide Trail, ValidateContext, Blocked, Tell;
    BridgeCallsAreLogged(w.back, w.op.command, c);
    TrailStarts(w.back.calls, BrowserNavigate(true));
  }

  lemma SwitchCallsBook(cfg: Config, w: World, c: Choice)
    requires w.op.Switch? && Settled(cfg, w.sess) && SwitchBooks(w) && Sound(cfg, w, c) && Switching(w.op.wpc)
    ensures Books(cfg, SwitchCall(w, c))
  {
    hide Trail, Granted, Tell, NetSafety.NetInv, BrowserHistory.Serve;
    var o, calls, tab := w.op, w.back.calls, Tab(w.op.id, w.op.mode);
    match o.wpc {
      case WStop =>
        BridgeCallsAreLogged(w.back, Reload, c);
        TrailStarts(calls, BrowserStop(c.ok));
      case WReset =>
        TrailGrows(calls, [BrowserStop(true)], EgressReset(c.ok), [BrowserStop(true), EgressReset(c.ok)]);
      case WClear =>
        TrailGrows(calls, [BrowserStop(true), EgressReset(true)], ClearRuntime(c.ok),
                   [BrowserStop(true), EgressReset(true), ClearRuntime(c.ok)]);
      case WApply =>
        TrailGrows(calls, [BrowserStop(true), EgressReset(true), ClearRuntime(true)], EgressApply(o.mode, c.ok),
                   [BrowserStop(true), EgressReset(true), ClearRuntime(true), EgressApply(o.mode, c.ok)]);
      case WLaunch =>
        var before := [BrowserStop(true), EgressReset(true), ClearRuntime(true), EgressApply(o.mode, true)];
        LaunchRuns(w.back, tab, o.url, o.profile, c);
        TrailGrows(calls, before, BrowserStart(tab, c.ok),
                   [BrowserStop(true), EgressReset(true), ClearRuntime(true), EgressApply(o.mode, true),
                    BrowserStart(tab, c.ok)]);
    }
  }

  lemma RollbackCallsBook(cfg: Config, w: World, c: Choice)
    requires w.op.Switch? && Settled(cfg, w.sess) && SwitchBooks(w) && Sound(cfg, w, c) && RollingBack(w.op.wpc)
    ensures Books(cfg, RollbackCall(w, c))
  {
    hide AfterStop, Granted, Tell, NetSafety.NetInv, BrowserHistory.Serve;
    var o, calls, tab := w.op, w.back.calls, Tab(w.op.id + 1, w.op.previous);
    match o.wpc {
      case XStop =>
        BridgeCallsAreLogged(w.back, Reload, c);
        StopIsAfterStop(calls, c.ok);
      case XReset => AfterStopGrows(calls, [], EgressReset(c.ok), [EgressReset(c.ok)]);
      case XClear =>
        AfterStopGrows(calls, [EgressReset(true)], ClearRuntime(c.ok), [EgressReset(true), ClearRuntime(c.ok)]);
      case XApply =>
        AfterStopGrows(calls, [EgressReset(true), ClearRuntime(true)], EgressApply(o.previous, c.ok),
                       [EgressReset(true), ClearRuntime(true), EgressApply(o.previous, c.ok)]);
      case XLaunch =>
        LaunchRuns(w.back, tab, o.url, o.profile, c);
        AfterStopGrows(calls, [EgressReset(true), ClearRuntime(true), EgressApply(o.previous, true)],
                       BrowserStart(tab, c.ok),
                       [EgressReset(true), ClearRuntime(true), EgressApply(o.previous, true), BrowserStart(tab, c.ok)]);
    }
  }

  lemma StopIsAfterStop(calls: seq<Call>, ok: bool)
    ensures AfterStop(calls + [BrowserStop(ok)], [])
  {
    hide Trail;
    TrailStarts(calls, BrowserStop(ok));
    assert [BrowserStop(ok)] + [] == [BrowserStop(ok)];
  }

  lemma SwitchEndsBook(cfg: Config, w: World, c: Choice)
    requires w.op.Switch? && Settled(cfg, w.sess) && SwitchBooks(w) && !Switching(w.op.wpc) && !RollingBack(w.op.wpc)
    requires OpInv(w)
    ensures Books(cfg, StepSwitch(w, c))
  {
    hide Trail, AfterStop, ValidateContext;
  }

  lemma BurnBook(cfg: Config, w: World, c: Choice)
    requires w.op.Burn? && Settled(cfg, w.sess) && BurnBooks(w)
    ensures Books(cfg, StepBurn(cfg, w, c))
  {
    hide StepBurn, Settled, BurnBooks;
    if w.op.bpc == BCheck || w.op.bpc == BCheckId {
      BurnChecksBook(cfg, w, c);
    } else if w.op.bpc == BFinish {
      BurnFinishBooks(cfg, w, c);
    } else {
      BurnRestBooks(cfg, w, c);
    }
  }

  lemma BurnFinishBooks(cfg: Config, w: World, c: Choice)
    requires w.op.Burn? && w.op.bpc == BFinish
    ensures Books(cfg, StepBurn(cfg, w, c))
  {
    hide BurnCheck, BurnCheckId, EnsureLease, Tell;
  }

  lemma BurnRestBooks(cfg: Config, w: World, c: Choice)
    requires w.op.Burn? && w.op.bpc != BCheck && w.op.bpc != BCheckId && w.op.bpc != BFinish
    requires Settled(cfg, w.sess) && BurnBooks(w)
    ensures Books(cfg, StepBurn(cfg, w, c))
  {
    hide BurnCheck, BurnCheckId, EnsureLease, Tell, FinishBurn, RotatePairing, RevokeAll, InvalidateUnpublished;
  }

  lemma BurnChecksBook(cfg: Config, w: World, c: Choice)
    requires w.op.Burn? && (w.op.bpc == BCheck || w.op.bpc == BCheckId) && BurnBooks(w)
    ensures var v := StepBurn(cfg, w, c);
            v.sess == w.sess && (v.op.Free? || (v.op.Burn? && BurnBooks(v)))
  {
    hide ValidateContext, Prune, RecoveryRequired, Tell, EnsureLease, FinishBurn;
  }

  lemma StepsBook(cfg: Config, w: World, c: Choice)
    requires Books(cfg, w) && OpInv(w) && Sound(cfg, w, c)
    ensures Books(cfg, Do(cfg, w, Advance(c)))
  {
    hide OpInv, Sound, StepStart, StepNavigate, StepSwitch, StepBurn, StartBooks, NavigateBooks, SwitchBooks, BurnBooks;
    hide Settled;
    match w.op {
      case Free =>
      case Start(_, _, _, _, _, _) => StartBook(cfg, w, c);
      case Navigate(_, _, _, _) => NavigateBook(cfg, w, c);
      case Switch(_, _, _, _, _, _, _, _) => SwitchBook(cfg, w, c);
      case Burn(_, _, _, _, _, _, _) => BurnBook(cfg, w, c);
    }
  }

  lemma StartBook(cfg: Config, w: World, c: Choice)
    requires w.op.Start? && Books(cfg, w) && OpInv(w) && Sound(cfg, w, c)
    ensures Books(cfg, StepStart(cfg, w, c))
  {
    hide StepStart, Sound, StartTrail, StartInv;
    if w.op.spc == SValidate || w.op.spc == SBegin || w.op.spc == SFinish || w.op.spc == SFail {
      StartEndsBook(cfg, w, c);
    } else if w.op.spc == SReset || w.op.spc == SClear {
      StartCleansBook(cfg, w, c);
    } else {
      StartStepsBook(cfg, w, c);
    }
  }

  lemma SwitchBook(cfg: Config, w: World, c: Choice)
    requires w.op.Switch? && Books(cfg, w) && OpInv(w) && Sound(cfg, w, c)
    ensures Books(cfg, StepSwitch(w, c))
  {
    hide SwitchCall, RollbackCall, Sound, SwitchTrail, SwitchInv;
    if Switching(w.op.wpc) {
      SwitchCallsBook(cfg, w, c);
    } else if RollingBack(w.op.wpc) {
      RollbackCallsBook(cfg, w, c);
    } else {
      SwitchEndsBook(cfg, w, c);
    }
  }

  /** Settings change only while the session is active, when no operation relies on them. */
  lemma SettingBooks(cfg: Config, w: World, context: AuthContext, setting: Setting)
    requires Books(cfg, w) && OpInv(w)
    ensures Books(cfg, Do(cfg, w, SetFor(context, setting)))
  {
    hide StartTrail, SwitchTrail, Trail, BurnAuthInv;
  }

  lemma OthersBook(cfg: Config, w: World, a: Action)
    requires Books(cfg, w) && Enabled(cfg, w, a) && !a.Advance? && !a.SetFor?
    ensures Books(cfg, Do(cfg, w, a))
  {
    hide Settled, Trail, AfterStop, FailedOpening, ExchangePairing, Authenticate, IssueTicket, ConsumeTicket;
  }

  lemma ActionKeepsBooks(cfg: Config, w: World, a: Action)
    requires Inv(cfg, w) && Books(cfg, w) && Enabled(cfg, w, a)
    ensures Books(cfg, Do(cfg, w, a))
  {
    hide Inv, OpInv, Sound, Possible, Books, Do;
    OpOfInv(cfg, w);
    match a {
      case Advance(c) =>
        SoundAdvance(cfg, w, c);
        StepsBook(cfg, w, c);
      case SetFor(context, setting) => SettingBooks(cfg, w, context, setting);
      case _ => OthersBook(cfg, w, a);
    }
  }

  lemma SoundAdvance(cfg: Config, w: World, c: Choice)
    requires Inv(cfg, w) && Enabled(cfg, w, Advance(c))
    ensures Sound(cfg, w, c)
  {
    hide Inv, Sound, Possible;
    PossibleIsSound(cfg, w, c);
  }

  lemma {:induction false} RunsKeepBooks(cfg: Config, start: World, actions: seq<Action>, end: World)
    requires Inv(cfg, start) && Books(cfg, start) && Run(cfg, start, actions, end)
    ensures Books(cfg, end)
    decreases |actions|
  {
    hide Inv, Books, Enabled, Do;
    if actions != [] {
      var last := |actions| - 1;
      var before :| Run(cfg, start, actions[..last], before)
                    && Enabled(cfg, before, actions[last]) && end == Do(cfg, before, actions[last]);
      RunsKeepInv(cfg, start, actions[..last], before);
      RunsKeepBooks(cfg, start, actions[..last], before);
      ActionKeepsBooks(cfg, before, actions[last]);
    }
  }

  lemma ReachableBooks(cfg: Config, w: World)
    requires Reachable(cfg, w)
    ensures Books(cfg, w)
  {
    hide Startup, NetSafety.NetInv, Inv, Run;
    var net, bridge, now, actions :|
      Startup(cfg, net, bridge) && Run(cfg, Boot(cfg, net, bridge, now), actions, w);
    StartupFacts(cfg, net, bridge);
    BootInv(cfg, net, bridge, now);
    RunsKeepBooks(cfg, Boot(cfg, net, bridge, now), actions, w);
  }

  // ----- what follows for every reachable state

  /** The browser that an operation is about to call the session's own is the one that was asked for:
      the session's page, profile and mode, or the mode switched to or back to. */
  lemma BrowserIsAsAsked(cfg: Config, w: World)
    requires Reachable(cfg, w)
    ensures w.op.Start? && w.op.spc == SFinish ==>
              w.sess.snapshot.url.Some?
              && Runs(w.back, w.sess.snapshot.url.value, w.sess.snapshot.profile, w.sess.snapshot.egress)
    ensures w.op.Switch? && w.op.wpc == WFinish ==>
              w.sess.snapshot.url.Some?
              && Runs(w.back, w.sess.snapshot.url.value, w.sess.snapshot.profile, w.op.mode)
    ensures w.op.Switch? && w.op.wpc == XFinish ==>
              w.sess.snapshot.url.Some?
              && Runs(w.back, w.sess.snapshot.url.value, w.sess.snapshot.profile, w.sess.snapshot.egress)
  {
    hide Reachable, Inv, StartTrail, SwitchTrail, Settled;
    ReachableInv(cfg, w);
    OpOfInv(cfg, w);
    ReachableBooks(cfg, w);
  }

  predicate Opening(o: Op) {
    (o.Start? && o.spc == SFinish) || (o.Switch? && (o.wpc == WFinish || o.wpc == XFinish))
  }

  /** So a session becomes active only with a browser that shows its page, in its profile, launched
      under its mode. */
  lemma ActiveWithItsBrowser(cfg: Config, w: World, c: Choice)
    requires Reachable(cfg, w) && Opening(w.op)
    ensures var v := Do(cfg, w, Advance(c));
            && v.op.Free? && v.sess.snapshot.phase.Active? && v.sess.snapshot.url.Some?
            && Runs(v.back, v.sess.snapshot.url.value, v.sess.snapshot.profile, v.sess.snapshot.egress)
            && v.sess.snapshot.url == w.sess.snapshot.url && v.sess.snapshot.profile == w.sess.snapshot.profile
  {
    hide Reachable, ValidateContext, BeginStart, BeginSwitch, SwitchCall, RollbackCall, Blocked;
    BrowserIsAsAsked(cfg, w);
    EgressOfOpening(cfg, w);
  }

  lemma EgressOfOpening(cfg: Config, w: World)
    requires Reachable(cfg, w)
    ensures w.op.Switch? && w.op.wpc == XFinish ==> w.sess.snapshot.egress == w.op.previous
  {
    hide Reachable, Inv;
    ReachableInv(cfg, w);
    OpOfInv(cfg, w);
  }

  /** Every operation has made its calls in its order, each success before the next, and after a failure
      the calls that clean up after it. */
  lemma CallsInOrder(cfg: Config, w: World)
    requires Reachable(cfg, w)
    ensures w.op.Start? ==> StartTrail(w.op, w.back.calls)
    ensures w.op.Switch? ==> SwitchTrail(w.op, w.back.calls)
    ensures w.op.Navigate? && w.op.npc == NFinish ==> Trail(w.back.calls, [BrowserNavigate(true)])
  {
    hide Reachable, StartTrail, SwitchTrail, Settled;
    ReachableBooks(cfg, w);
  }

  /** Past the check of its session id, an operation works on the session that was named. */
  lemma IdIsTheNamedOne(cfg: Config, w: World)
    requires Reachable(cfg, w)
    ensures w.op.Navigate? && (w.op.npc == NBegin || w.op.npc == NCall || w.op.npc == NFinish) ==>
              w.sess.snapshot.id == Some(w.op.expected)
    ensures w.op.Switch? && w.op.wpc != WValidate && w.op.wpc != WCheckId ==>
              w.sess.snapshot.id == Some(w.op.expected)
    ensures w.op.Burn? && w.op.kind.ByClient? && (w.op.bpc == BLease || w.op.bpc == BBegin || w.op.bpc == BStop) ==>
              w.sess.snapshot.id == Some(w.op.kind.expected)
  {
    hide Reachable, StartTrail, SwitchTrail, Settled;
    ReachableBooks(cfg, w);
  }

  /** An idle session has the configured settings and its blocklist on, whatever a burned one had; a
      failed one is marked; a controller is attached exactly while the lease is held. */
  lemma SettingsAndFlags(cfg: Config, w: World)
    requires Reachable(cfg, w)
    ensures w.sess.snapshot.phase.Idle? ==>
              && w.sess.snapshot.blocklistEnabled && w.sess.snapshot.egress == cfg.session.egress
              && w.sess.snapshot.profile == cfg.session.profile && w.sess.snapshot.autoBurn == cfg.session.autoBurn
    ensures w.sess.snapshot.phase.Failed? ==> w.sess.snapshot.failure
    ensures w.sess.snapshot.failure ==> w.sess.snapshot.phase.Failed? || w.sess.snapshot.phase.Burning?
    ensures w.sess.snapshot.controllerAttached <==> w.sess.controller.Some?
  {
    hide Reachable, StartTrail, SwitchTrail, NetSafety.NetInv, PeopleInv, OpInv, LastLaunch, LastEgress;
    ReachableBooks(cfg, w);
    ReachableInv(cfg, w);
  }

  /** A burn that ends, cleanly or not, puts the settings back. */
  lemma BurnRestoresSettings(cfg: Config, w: World, c: Choice)
    requires w.op.Burn? && w.op.bpc == BFinish
    ensures var s := Do(cfg, w, Advance(c)).sess.snapshot;
            && s.blocklistEnabled && s.egress == cfg.session.egress && s.profile == cfg.session.profile
            && s.autoBurn == cfg.session.autoBurn && s.url.None? && !s.controllerAttached
            && (s.failure <==> !(w.op.stopped && w.op.reset && w.op.cleared))
  {
    hide BurnCheck, BurnCheckId, EnsureLease, Tell;
  }

  /** The bridge is told exactly what the operation is about, if the command gets there. */
  lemma BridgeIsTold(cfg: Config, w: World, c: Choice)
    requires !w.op.Free?
    ensures var told := Do(cfg, w, Advance(c)).back.bridge;
            var o := w.op;
            var serve := (command: BrowserHistory.Command) =>
              if c.delivery.Lost? then w.back.bridge
              else BrowserHistory.Serve(w.back.bridge, BrowserHistory.Request(command, c.delivery.fate));
            if o.Start? && o.spc == SLaunch then told == serve(BrowserHistory.Start(o.id, o.url, o.profile, o.egress))
            else if o.Switch? && o.wpc == WLaunch then
              told == serve(BrowserHistory.Start(o.id, o.url, o.profile, o.mode))
            else if o.Switch? && o.wpc == XLaunch then
              told == serve(BrowserHistory.Start(o.id + 1, o.url, o.profile, o.previous))
            else if StopsNext(o) then told == serve(BrowserHistory.Stop)
            else if o.Navigate? && o.npc == NCall then told == serve(BrowserHistory.Navigate(o.command))
            else told == w.back.bridge
  {
    hide BrowserHistory.Serve, ValidateContext, BeginStart, BeginNavigate, BeginSwitch, Blocked, EnsureLease,
         FinishBurn;
    hide Prune, RecoveryRequired, BrowserHistory.CutOff;
  }
}
