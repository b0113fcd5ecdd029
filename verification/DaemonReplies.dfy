/** What an answer of the daemon tells the caller about the state the operation leaves, whatever ran
    beside it. */
module DaemonReplies {
  import opened Types
  import opened Auth
  import opened Session
  import opened Lifecycle
  import opened LifecycleTheorems
  import opened LifecycleBooks
  import opened Daemon
  import SessionLaws
  import LifecycleInv
  import NetPlans

  // ----- the last step of an operation

  /** The request is the one the operation was acquired with. */
  predicate SameRequest(a: Op, b: Op) {
    match a
    case Free => b.Free?
    case Start(_, context, url, _, _, _) => b.Start? && b.context == context && b.url == url
    case Navigate(_, context, expected, command) =>
      b.Navigate? && b.context == context && b.expected == expected && b.command == command
    case Switch(_, context, expected, mode, _, _, _, _) =>
      b.Switch? && b.context == context && b.expected == expected && b.mode == mode
    case Burn(_, kind, _, _, _, gen0, _) =>
      b.Burn? && b.gen0 == gen0 && (kind.ByClient? || b.kind.ByClient? ==> b.kind == kind)
  }

  lemma StepKeepsRequest(cfg: Config, w: World, c: Choice)
    requires !w.op.Free? && !Do(cfg, w, Advance(c)).op.Free?
    ensures SameRequest(w.op, Do(cfg, w, Advance(c)).op)
  {
    hide StepStart, StepNavigate, StepSwitch, StepBurn;
    match w.op {
      case Start(_, _, _, _, _, _) => StartKeepsRequest(cfg, w, c);
      case Navigate(_, _, _, _) => NavigateKeepsRequest(cfg, w, c);
      case Switch(_, _, _, _, _, _, _, _) => SwitchKeepsRequest(w, c);
      case Burn(_, _, _, _, _, _, _) => BurnKeepsRequest(cfg, w, c);
    }
  }

  lemma StartKeepsRequest(cfg: Config, w: World, c: Choice)
    requires w.op.Start? && !StepStart(cfg, w, c).op.Free?
    ensures SameRequest(w.op, StepStart(cfg, w, c).op)
  {
    hide ValidateContext, BeginStart, Blocked, CallApply, CallLaunch, CallStop, CallReset, CallClear, Fail, FinishStart;
  }

  lemma NavigateKeepsRequest(cfg: Config, w: World, c: Choice)
    requires w.op.Navigate? && !StepNavigate(cfg, w, c).op.Free?
    ensures SameRequest(w.op, StepNavigate(cfg, w, c).op)
  {
    hide ValidateContext, BeginNavigate, Blocked, CallNavigate, FinishNavigate;
  }

  lemma SwitchKeepsRequest(w: World, c: Choice)
    requires w.op.Switch? && !StepSwitch(w, c).op.Free?
    ensures SameRequest(w.op, StepSwitch(w, c).op)
  {
    hide ValidateContext, BeginSwitch, CallApply, CallLaunch, CallStop, CallReset, CallClear, FinishSwitch,
         FinishRollback, FailSwitch;
  }

  lemma BurnKeepsRequest(cfg: Config, w: World, c: Choice)
    requires w.op.Burn? && !StepBurn(cfg, w, c).op.Free?
    ensures SameRequest(w.op, StepBurn(cfg, w, c).op)
  {
    hide ValidateContext, RecoveryRequired, Prune, CallStop, CallReset, CallClear, EnsureLease, BeginBurn, FinishBurn,
         RevokeAll, RotatePairing, InvalidateUnpublished;
  }

  /** A burn past its cleaning that has noted no fault has left the session idle. */
  predicate Noted(w: World, fault: Option<AppError>) {
    && (fault.Some? ==> fault.value == LeaseConflict || fault.value == ServiceUnavailable)
    && (w.op.Burn? && !LifecycleInv.BeforeBegin(w.op.bpc) && !LifecycleInv.Clearing(w.op.bpc) && fault.None? ==>
          w.sess.snapshot.phase.Idle?)
  }

  lemma StepKeepsNote(cfg: Config, w: World, c: Choice, fault: Option<AppError>)
    requires !w.op.Free? && Noted(w, fault)
    ensures Noted(Do(cfg, w, Advance(c)), Note(w, fault))
  {
    hide StepStart, StepNavigate, StepSwitch, StepBurn, Noted;
    if w.op.Burn? {
      BurnKeepsNote(cfg, w, c, fault);
    } else {
      OthersHaveNoNote(cfg, w, c, fault);
    }
  }

  lemma OthersHaveNoNote(cfg: Config, w: World, c: Choice, fault: Option<AppError>)
    requires !w.op.Free? && !w.op.Burn? && Noted(w, fault)
    ensures Noted(Do(cfg, w, Advance(c)), Note(w, fault))
  {
    hide StepStart, StepNavigate, StepSwitch;
    var next := Do(cfg, w, Advance(c));
    if !next.op.Free? { StepKeepsRequest(cfg, w, c); }
  }

  lemma BurnKeepsNote(cfg: Config, w: World, c: Choice, fault: Option<AppError>)
    requires w.op.Burn? && Noted(w, fault)
    ensures Noted(StepBurn(cfg, w, c), Note(w, fault))
  {
    hide ValidateContext, RecoveryRequired, Prune, CallStop, CallReset, CallClear, EnsureLease, RevokeAll,
         RotatePairing, InvalidateUnpublished;
    if w.op.kind.ByClient? { LeaseError(w.sess, w.op.kind.context.client); }
  }

  lemma LeaseError(d: SessionData, client: nat)
    ensures EnsureLease(d, client).Some? ==> EnsureLease(d, client).value == LeaseConflict
  {
  }

  lemma {:induction false} AsideKeepsNote(cfg: Config, w: World, actions: seq<Action>, fault: Option<AppError>)
    requires Noted(w, fault)
    ensures Noted(Others(cfg, w, actions), fault)
  {
    hide Do;
    if actions != [] {
      var front, last := actions[..|actions| - 1], actions[|actions| - 1];
      AsideKeepsNote(cfg, w, front, fault);
      AsideKeepsPhase(cfg, Others(cfg, w, front), last);
    }
  }

  lemma AsideKeepsPhase(cfg: Config, w: World, a: Action)
    ensures Aside(cfg, w, a).sess.snapshot.phase == w.sess.snapshot.phase
  {
    hide StepStart, StepNavigate, StepSwitch, StepBurn, ExchangePairing, Authenticate, IssueTicket, ConsumeTicket;
  }

  /** An operation that is not dropped ends with a step from a reachable state, for the request it was
      acquired with, and answers what that step answers. */
  lemma {:induction false} LastStep(cfg: Config, w: World, fault: Option<AppError>, script: Script, k: nat)
    returns (v: World, c: Choice, note: Option<AppError>)
    requires Reachable(cfg, w) && !w.op.Free? && Honest(cfg, w, script, k) && Noted(w, fault)
    requires Proceed(cfg, w, fault, script, k).reply != Dropped
    ensures Reachable(cfg, v) && !v.op.Free? && Possible(cfg, v, c) && SameRequest(w.op, v.op) && Noted(v, note)
    ensures var g := Proceed(cfg, w, fault, script, k);
            g.world == Do(cfg, v, Advance(c)) && g.world.op.Free? && g.reply == Answer(cfg, v, c, note)
    decreases StepsToGo(w.op)
  {
    hide Reachable, Do, Possible, Others, Note, Answer, Noted, SameRequest;
    var t := script(k);
    v, c, note := Others(cfg, w, t.others), t.choice, fault;
    ReachableOthers(cfg, w, t.others);
    AsideKeepsNote(cfg, w, t.others, fault);
    SameRequestReflexive(w.op);
    StepsDecrease(cfg, v, c);
    var next := Do(cfg, v, Advance(c));
    if !next.op.Free? {
      AdvanceEnabled(cfg, v, c);
      ReachableStep(cfg, v, Advance(c));
      StepKeepsRequest(cfg, v, c);
      StepKeepsNote(cfg, v, c, fault);
      var first := v;
      v, c, note := LastStep(cfg, next, Note(v, fault), script, k + 1);
      SameRequestTransitive(first.op, next.op, v.op);
    }
  }

  lemma SameRequestReflexive(o: Op)
    ensures SameRequest(o, o)
  {
  }

  lemma SameRequestTransitive(a: Op, b: Op, c: Op)
    requires SameRequest(a, b) && SameRequest(b, c)
    ensures SameRequest(a, c)
  {
  }

  // ----- what the answers mean

  /** An active session with the browser it names, behind the mode it names. */
  ghost predicate Serving(cfg: Config, w: World) {
    var s := w.sess.snapshot;
    && s.phase.Active? && s.url.Some? && w.sess.controller.Some? && !s.failure
    && Runs(w.back, s.url.value, s.profile, s.egress)
    && NetPlans.Enforces(cfg.net, s.egress, w.back.net.machine)
  }

  /** The context an operation was acquired with, if a client asked for it. */
  function Asker(o: Op): Option<AuthContext> {
    match o
    case Free => None
    case Start(_, context, _, _, _, _) => Some(context)
    case Navigate(_, context, _, _) => Some(context)
    case Switch(_, context, _, _, _, _, _, _) => Some(context)
    case Burn(_, kind, _, _, _, _, _) => if kind.ByClient? then Some(kind.context) else None
  }

  /** Somebody who is told to be unauthorized is. */
  predicate Unwelcome(o: Op, reply: Reply, w: World) {
    reply == Replied(Some(Unauthorized)) && Asker(o).Some? ==> !ValidateContext(w.auth, Asker(o).value, w.now).1
  }

  lemma ValidatedTwice(s: AuthState, context: AuthContext, now: nat)
    ensures ValidateContext(ValidateContext(s, context, now).0, context, now).1 == ValidateContext(s, context, now).1
  {
    assert Prune(Prune(s, now), now) == Prune(s, now);
  }

  lemma StepRefusesTruly(cfg: Config, v: World, c: Choice, note: Option<AppError>)
    requires !v.op.Free? && Noted(v, note) && Do(cfg, v, Advance(c)).op.Free?
    ensures Unwelcome(v.op, Answer(cfg, v, c, note), Do(cfg, v, Advance(c)))
  {
    hide ValidateContext, BeginStart, BeginNavigate, BeginSwitch, Blocked, CallApply, CallLaunch, CallStop, CallReset,
         CallClear, CallNavigate, EnsureLease, RecoveryRequired, Prune, SwitchCall, RollbackCall;
    if Asker(v.op).Some? { ValidatedTwice(v.auth, Asker(v.op).value, v.now); }
    if v.op.Start? {
      SessionLaws.StartDecision(v.sess, v.op.context.client, v.op.url, Blocked(cfg, v.op.url), v.nextId, v.now);
    } else if v.op.Navigate? {
      SessionLaws.NavigateDecision(v.sess, v.op.context.client, v.op.command,
                                   v.op.command.Visit? && Blocked(cfg, v.op.command.url), v.now);
      LeaseErrors(v.sess, v.op.context.client);
    } else if v.op.Switch? {
      SwitchErrors(v.sess, v.op.context.client);
    }
  }

  lemma SwitchErrors(d: SessionData, client: nat)
    ensures BeginSwitch(d, client).1 in {None, Some(LeaseConflict), Some(SessionNotActive)}
  {
  }

  /** What an answer says about the state it was given in. */
  ghost predicate Means(cfg: Config, o: Op, reply: Reply, w: World) {
    var s := w.sess.snapshot;
    match o
    case Free => true
    case Start(_, context, url, _, _, _) =>
      && (reply == DONE ==> Serving(cfg, w) && s.url == Some(url) && w.sess.controller == Some(context.client)
                            && w.sess.history == [url])
      && (reply == Replied(Some(ServiceUnavailable)) ==> s.phase.Failed? && s.failure && s.url == Some(url))
      && (reply == Replied(Some(InvalidTransition)) ==> !s.phase.Idle? && !s.phase.Failed?)
      && (reply == Replied(Some(NavigationBlocked)) ==> s.blocklistEnabled && Blocked(cfg, url))
      && (reply == Replied(Some(LeaseConflict)) ==>
            w.sess.controller.Some? && w.sess.controller != Some(context.client))
    case Navigate(_, context, expected, command) =>
      && (reply == Replied(Some(NavigationBlocked)) ==>
            command.Visit? && s.blocklistEnabled && Blocked(cfg, command.url))
      && (reply == Replied(Some(LeaseConflict)) ==> w.sess.controller != Some(context.client))
      && (reply == Replied(Some(SessionNotActive)) ==> w.sess.controller == Some(context.client) && !s.phase.Active?)
      && (reply == DONE ==> s.phase.Active? && (command.Visit? ==> s.url == Some(command.url)))
      && (reply == Replied(Some(NotFound)) ==> s.id != Some(expected))
    case Switch(_, context, expected, mode, _, _, _, _) =>
      && (reply == Replied(Some(LeaseConflict)) ==> w.sess.controller != Some(context.client))
      && (reply == Replied(Some(SessionNotActive)) ==> w.sess.controller == Some(context.client) && !s.phase.Active?)
      && (reply == DONE ==> Serving(cfg, w) && s.egress == mode)
      && (reply == Replied(Some(ServiceUnavailable)) ==> Serving(cfg, w) || s.phase.Failed?)
      && (reply == Replied(Some(NotFound)) ==> s.id != Some(expected))
    case Burn(_, kind, _, _, _, gen0, _) =>
      && (reply == DONE ==> s.phase.Idle? && w.sess.controller.None? && w.sess.history == []
                            && w.people.file == w.people.material && w.auth.generation == gen0 + 1)
      && (reply == Replied(Some(NotFound)) && kind.ByClient? ==> s.id != Some(kind.expected))
  }

  /** The answer of every operation holds of the state that it leaves, beside whatever else ran. */
  lemma AnswersAreTrue(cfg: Config, w: World, script: Script, k: nat)
    requires Reachable(cfg, w) && !w.op.Free? && Honest(cfg, w, script, k)
    requires w.op.Burn? ==> w.op.bpc == BCheck
    ensures var g := Proceed(cfg, w, None, script, k);
            g.reply != Dropped ==> Means(cfg, w.op, g.reply, g.world) && Unwelcome(w.op, g.reply, g.world)
  {
    hide Reachable, Do, Possible, Answer, Proceed, Honest, SameRequest, Means, Unwelcome;
    if Proceed(cfg, w, None, script, k).reply != Dropped {
      var v, c, note := LastStep(cfg, w, None, script, k);
      StepAnswersTruly(cfg, v, c, note);
      StepRefusesTruly(cfg, v, c, note);
      MeansTheSame(cfg, w.op, v.op, Answer(cfg, v, c, note), Do(cfg, v, Advance(c)));
    }
  }

  lemma MeansTheSame(cfg: Config, a: Op, b: Op, reply: Reply, w: World)
    requires SameRequest(a, b) && Means(cfg, b, reply, w) && Unwelcome(b, reply, w)
    ensures Means(cfg, a, reply, w) && Unwelcome(a, reply, w)
  {
  }

  lemma StepAnswersTruly(cfg: Config, v: World, c: Choice, note: Option<AppError>)
    requires Reachable(cfg, v) && !v.op.Free? && Possible(cfg, v, c) && Noted(v, note)
    requires Do(cfg, v, Advance(c)).op.Free?
    ensures Means(cfg, v.op, Answer(cfg, v, c, note), Do(cfg, v, Advance(c)))
  {
    hide Reachable, Do, Possible, Answer, Means;
    match v.op {
      case Start(_, _, _, _, _, _) => StartAnswers(cfg, v, c, note);
      case Navigate(_, _, _, _) => NavigateAnswers(cfg, v, c, note);
      case Switch(_, _, _, _, _, _, _, _) => SwitchAnswers(cfg, v, c, note);
      case Burn(_, _, _, _, _, _, _) => BurnAnswers(cfg, v, c, note);
    }
  }

  lemma OpenedIsServing(cfg: Config, v: World, c: Choice)
    requires Reachable(cfg, v) && Opening(v.op) && Possible(cfg, v, c)
    ensures Serving(cfg, Do(cfg, v, Advance(c)))
  {
    hide Reachable, Do, Possible, Runs;
    ActiveWithItsBrowser(cfg, v, c);
    AdvanceEnabled(cfg, v, c);
    ReachableStep(cfg, v, Advance(c));
    var w := Do(cfg, v, Advance(c));
    ActiveSessionIsEnforced(cfg, w);
    SettingsAndFlags(cfg, w);
    PhasesCohere(cfg, w);
  }

  lemma StartAnswers(cfg: Config, v: World, c: Choice, note: Option<AppError>)
    requires Reachable(cfg, v) && v.op.Start? && Possible(cfg, v, c)
    requires Do(cfg, v, Advance(c)).op.Free?
    ensures Means(cfg, v.op, Answer(cfg, v, c, note), Do(cfg, v, Advance(c)))
  {
    hide Reachable, Possible, ValidateContext, BeginStart, Blocked, Serving, CallApply, CallLaunch, CallStop, CallReset,
         CallClear;
    StartFacts(cfg, v);
    if v.op.spc == SFinish { OpenedIsServing(cfg, v, c); }
    SessionLaws.StartDecision(v.sess, v.op.context.client, v.op.url, Blocked(cfg, v.op.url), v.nextId, v.now);
  }

  lemma StartFacts(cfg: Config, v: World)
    requires Reachable(cfg, v) && v.op.Start?
    ensures v.op.spc != SValidate && v.op.spc != SBegin ==>
      v.sess.snapshot.url == Some(v.op.url) && v.sess.controller == Some(v.op.context.client) && v.sess.history == []
  {
    hide Reachable;
    ReachableInv(cfg, v);
  }

  lemma NavigateAnswers(cfg: Config, v: World, c: Choice, note: Option<AppError>)
    requires Reachable(cfg, v) && v.op.Navigate? && Possible(cfg, v, c)
    requires Do(cfg, v, Advance(c)).op.Free?
    ensures Means(cfg, v.op, Answer(cfg, v, c, note), Do(cfg, v, Advance(c)))
  {
    hide Reachable, Possible, ValidateContext, BeginNavigate, EnsureActiveLease, Blocked, Serving, CallNavigate;
    ActiveAtFinish(cfg, v);
    SessionLaws.NavigateDecision(v.sess, v.op.context.client, v.op.command,
                                 v.op.command.Visit? && Blocked(cfg, v.op.command.url), v.now);
    SessionLaws.LeaseDecision(v.sess, v.op.context.client);
    LeaseErrors(v.sess, v.op.context.client);
  }

  lemma LeaseErrors(d: SessionData, client: nat)
    ensures EnsureActiveLease(d, client) in {None, Some(LeaseConflict), Some(SessionNotActive)}
  {
  }

  lemma ActiveAtFinish(cfg: Config, v: World)
    requires Reachable(cfg, v) && v.op.Navigate?
    ensures v.op.npc == NFinish ==> v.sess.snapshot.phase.Active?
  {
    hide Reachable;
    ReachableInv(cfg, v);
  }

  lemma SwitchAnswers(cfg: Config, v: World, c: Choice, note: Option<AppError>)
    requires Reachable(cfg, v) && v.op.Switch? && Possible(cfg, v, c)
    requires Do(cfg, v, Advance(c)).op.Free?
    ensures Means(cfg, v.op, Answer(cfg, v, c, note), Do(cfg, v, Advance(c)))
  {
    hide Reachable, Possible, Means, Answer, StepSwitch, Do;
    EndsOfSwitch(cfg, v, c);
    if Opening(v.op) {
      OpenedIsServing(cfg, v, c);
      SwitchOpened(cfg, v, c, note);
    } else if v.op.wpc == XFail {
      SwitchFailed(cfg, v, c, note);
    } else {
      PhasesCohere(cfg, v);
      SwitchRefused(cfg, v, c, note);
    }
  }

  lemma EndsOfSwitch(cfg: Config, v: World, c: Choice)
    requires v.op.Switch? && Do(cfg, v, Advance(c)).op.Free?
    ensures !Switching(v.op.wpc) && !RollingBack(v.op.wpc)
  {
    hide SwitchCall, RollbackCall, ValidateContext, BeginSwitch;
    CallsGoOn(v, c);
  }

  lemma SwitchOpened(cfg: Config, v: World, c: Choice, note: Option<AppError>)
    requires v.op.Switch? && Opening(v.op) && Serving(cfg, Do(cfg, v, Advance(c)))
    ensures Means(cfg, v.op, Answer(cfg, v, c, note), Do(cfg, v, Advance(c)))
  {
    hide Serving, SwitchCall, RollbackCall, ValidateContext, BeginSwitch;
  }

  lemma SwitchFailed(cfg: Config, v: World, c: Choice, note: Option<AppError>)
    requires v.op.Switch? && v.op.wpc == XFail
    ensures Means(cfg, v.op, Answer(cfg, v, c, note), Do(cfg, v, Advance(c)))
  {
    hide Serving, SwitchCall, RollbackCall, ValidateContext, BeginSwitch;
  }

  lemma SwitchRefused(cfg: Config, v: World, c: Choice, note: Option<AppError>)
    requires v.op.Switch? && (v.op.wpc == WValidate || v.op.wpc == WCheckId || v.op.wpc == WBegin)
    requires Do(cfg, v, Advance(c)).op.Free?
    requires v.op.wpc == WBegin && v.sess.snapshot.phase.Active? ==> v.sess.snapshot.url.Some?
    ensures Means(cfg, v.op, Answer(cfg, v, c, note), Do(cfg, v, Advance(c)))
  {
    hide Serving, SwitchCall, RollbackCall, ValidateContext, BeginSwitch, EnsureActiveLease;
    SessionLaws.SwitchDecision(v.sess, v.op.context.client);
    SessionLaws.LeaseDecision(v.sess, v.op.context.client);
    LeaseErrors(v.sess, v.op.context.client);
  }

  lemma CallsGoOn(v: World, c: Choice)
    requires v.op.Switch?
    ensures Switching(v.op.wpc) ==> !SwitchCall(v, c).op.Free?
    ensures RollingBack(v.op.wpc) ==> !RollbackCall(v, c).op.Free?
  {
    hide CallApply, CallLaunch, CallStop, CallReset, CallClear;
  }

  lemma BurnAnswers(cfg: Config, v: World, c: Choice, note: Option<AppError>)
    requires Reachable(cfg, v) && v.op.Burn? && Possible(cfg, v, c) && Noted(v, note)
    requires Do(cfg, v, Advance(c)).op.Free?
    ensures Means(cfg, v.op, Answer(cfg, v, c, note), Do(cfg, v, Advance(c)))
  {
    hide Reachable, Possible, ValidateContext, RecoveryRequired, Prune, CallStop, CallReset, CallClear,
         BeginBurn, FinishBurn, RevokeAll, RotatePairing, InvalidateUnpublished;
    BurnFacts(cfg, v);
  }

  lemma BurnFacts(cfg: Config, v: World)
    requires Reachable(cfg, v) && v.op.Burn?
    ensures v.op.bpc == BWrite ==> v.auth.generation == v.op.gen0 + 1
    ensures v.sess.snapshot.phase.Idle? ==> v.sess.controller.None? && v.sess.history == []
  {
    hide Reachable;
    ReachableInv(cfg, v);
  }
}
