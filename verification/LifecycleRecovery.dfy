/** Burning and recovering: what a burn leaves, and why the daemon cannot lock everybody out. */
module LifecycleRecovery {
  import opened Types
  import opened Auth
  import opened Session
  import opened Lifecycle
  import opened LifecycleInv
  import opened LifecycleSteps
  import opened LifecycleTheorems
  import NetSafety

  // ----- burn

  predicate PhaseOf(w: World, phase: SessionPhase) {
    w.sess.snapshot.phase == phase
  }

  /** The last step of clearing a session: stop, reset and clear have all been attempted, the
      session is forgotten either way, and it is idle exactly if all three succeeded.  The request
      cannot be dropped until the authentication state has been revoked and rotated. */
  lemma BurnIsAllOrFailed(cfg: Config, w: World, c: Choice)
    requires Reachable(cfg, w) && w.op.Burn? && w.op.bpc == BFinish
    ensures var v := Do(cfg, w, Advance(c));
            var o := w.op;
            && EndsWithCalls(v.back.calls, [BrowserStop(o.stopped), EgressReset(o.reset), ClearRuntime(o.cleared)])
            && v.sess.snapshot.phase == (if o.stopped && o.reset && o.cleared then Idle else Failed)
            && v.sess.controller.None? && v.sess.history == [] && v.sess.snapshot.id.None?
            && v.op.Burn? && v.op.bpc == BRevoke && !Droppable(v.op)
  {
    hide Inv;
    ReachableInv(cfg, w);
    OpOfInv(cfg, w);
  }

  /** The only way into Idle is a burn whose three backend calls have all succeeded. */
  lemma IdleOnlyAfterCleanBurn(cfg: Config, w: World, a: Action)
    requires Reachable(cfg, w) && Enabled(cfg, w, a)
    requires !PhaseOf(w, Idle) && PhaseOf(Do(cfg, w, a), Idle)
    ensures EndsWithCalls(w.back.calls, [BrowserStop(true), EgressReset(true), ClearRuntime(true)])
  {
    hide Inv, Enabled, Do;
    ReachableInv(cfg, w);
    OpOfInv(cfg, w);
    IdleByFinish(cfg, w, a);
  }

  lemma IdleByFinish(cfg: Config, w: World, a: Action)
    requires !PhaseOf(w, Idle) && PhaseOf(Do(cfg, w, a), Idle)
    ensures a.Advance? && w.op.Burn? && w.op.bpc == BFinish && w.op.stopped && w.op.reset && w.op.cleared
  {
    hide ValidateContext, ExchangePairing, Authenticate, IssueTicket, ConsumeTicket;
    if a.Advance? {
      hide StepStart, StepNavigate, StepSwitch, StepBurn;
      if w.op.Start? { StartNotIdle(cfg, w, a.choice); }
      if w.op.Navigate? { NavigateNotIdle(cfg, w, a.choice); }
      if w.op.Switch? { SwitchNotIdle(w, a.choice); }
      if w.op.Burn? { BurnToIdle(cfg, w, a.choice); }
    }
  }

  lemma StartNotIdle(cfg: Config, w: World, c: Choice)
    requires w.op.Start? && !PhaseOf(w, Idle)
    ensures !PhaseOf(StepStart(cfg, w, c), Idle)
  {
    hide ValidateContext, Blocked;
  }

  lemma NavigateNotIdle(cfg: Config, w: World, c: Choice)
    requires w.op.Navigate? && !PhaseOf(w, Idle)
    ensures !PhaseOf(StepNavigate(cfg, w, c), Idle)
  {
    hide ValidateContext, Blocked;
  }

  lemma SwitchNotIdle(w: World, c: Choice)
    requires w.op.Switch? && !PhaseOf(w, Idle)
    ensures !PhaseOf(StepSwitch(w, c), Idle)
  {
    hide ValidateContext;
  }

  lemma BurnToIdle(cfg: Config, w: World, c: Choice)
    requires w.op.Burn? && !PhaseOf(w, Idle) && PhaseOf(StepBurn(cfg, w, c), Idle)
    ensures w.op.bpc == BFinish && w.op.stopped && w.op.reset && w.op.cleared
  {
    hide ValidateContext, Prune, RecoveryRequired;
  }

  /** Whenever nothing is under way, completed or dropped, the generation whose session was burned
      last is over: it has been rotated away, or nothing of it is left to present. */
  lemma BurnedGenerationIsOver(cfg: Config, w: World)
    requires Reachable(cfg, w) && w.op.Free? && w.back.burned.Some?
    ensures w.back.burned.value < w.auth.generation
         || (w.auth.sessions == map[] && w.auth.tickets == map[] && w.auth.pairing.None? && w.auth.manual.None?)
  {
    hide NetSafety.NetInv, OpInv, Shape;
    ReachableInv(cfg, w);
  }

  // ----- recovery

  predicate SessionAlive(auth: AuthState, now: nat, t: nat) {
    t in auth.sessions && auth.sessions[t].expiresAt > now
  }

  /** Nobody is locked out for good: whenever nothing is under way, either the hand-off file holds
      exactly the pairing material that will be accepted, or an unexpired controller session
      exists, or the watchdog will recover. */
  lemma AlwaysAWayIn(cfg: Config, w: World)
    requires Reachable(cfg, w) && w.op.Free?
    ensures || (w.auth.pairing == Some(w.people.file.secret) && w.auth.manual == Some(w.people.file.manualCode))
            || (exists t :: SessionAlive(w.auth, w.now, t))
            || RecoveryRequired(w.auth, w.now)
  {
    hide NetSafety.NetInv, OpInv, Shape;
    ReachableInv(cfg, w);
    if w.auth.pairing.None? && !RecoveryRequired(w.auth, w.now) {
      var live := Prune(w.auth, w.now).sessions;
      assert live != map[];
      var t :| t in live;
      assert SessionAlive(w.auth, w.now, t);
    }
  }

  /** The watchdog's recovery, past its check and without a fault so far. */
  predicate Recovering(w: World, generation: nat) {
    && w.op.Burn? && w.op.kind.Recovery? && w.op.bpc != BCheck && w.op.bpc != BInvalidate
    && !w.op.faulted && w.op.gen0 == generation
  }

  predicate Recovered(w: World, generation: nat) {
    && w.op.Free? && PhaseOf(w, Idle) && w.auth.generation == generation + 1
    && w.people.file == w.people.material
  }

  /** How many steps of its own a recovery still takes at most. */
  function StepsLeft(pc: BurnPc): nat {
    match pc
    case BCheck => 10
    case BCheckId => 9
    case BLease => 8
    case BBegin => 8
    case BStop => 7
    case BReset => 6
    case BClear => 5
    case BFinish => 4
    case BRevoke => 3
    case BRotate => 2
    case BWrite => 1
    case BInvalidate => 0
  }

  /** A step that is not a fault of the backends, the random source or the file system, and does
      not drop the operation. */
  predicate FaultFree(a: Action) {
    !a.Drop? && (a.Advance? ==> a.choice.ok)
  }

  ghost predicate Segment(cfg: Config, w: World, actions: seq<Action>, end: World)
    decreases |actions|
  {
    if actions == [] then end == w
    else Enabled(cfg, w, actions[0]) && FaultFree(actions[0]) && Segment(cfg, Do(cfg, w, actions[0]), actions[1..], end)
  }

  function Advances(actions: seq<Action>): nat {
    if actions == [] then 0 else (if actions[0].Advance? then 1 else 0) + Advances(actions[1..])
  }

  lemma RecoveryAdvances(cfg: Config, w: World, c: Choice, generation: nat)
    requires Recovering(w, generation) && c.ok && BurnSessInv(w) && BurnAuthInv(w)
    ensures var v := StepBurn(cfg, w, c);
            Recovered(v, generation) || (Recovering(v, generation) && StepsLeft(v.op.bpc) < StepsLeft(w.op.bpc))
  {
    hide BurnCheck, BeginBurn, FinishBurn, RevokeAll, RotatePairing, CallStop, CallReset, CallClear, EndsWithCalls,
         NoTab;
  }

  lemma OthersKeepOp(cfg: Config, w: World, a: Action)
    requires Enabled(cfg, w, a) && !w.op.Free? && !a.Advance? && !a.Drop?
    ensures Do(cfg, w, a).op == w.op
  {
    hide ExchangePairing, Authenticate, IssueTicket, ConsumeTicket, ChangeSetting;
  }

  lemma RecoveryStep(cfg: Config, w: World, a: Action, generation: nat)
    requires Inv(cfg, w) && Enabled(cfg, w, a) && FaultFree(a) && Recovering(w, generation)
    ensures var v := Do(cfg, w, a);
            if a.Advance? then
              Recovered(v, generation) || (Recovering(v, generation) && StepsLeft(v.op.bpc) < StepsLeft(w.op.bpc))
            else Recovering(v, generation) && v.op == w.op
  {
    hide Inv, Enabled, Recovered, StepBurn, BurnSessInv, BurnAuthInv;
    OpOfInv(cfg, w);
    if a.Advance? {
      RecoveryAdvances(cfg, w, a.choice, generation);
    } else {
      hide Do;
      OthersKeepOp(cfg, w, a);
    }
  }

  /** A recovery that meets no fault completes, whatever else runs in between: within nine steps of
      its own, and from any phase, stranded ones included, the daemon is idle and the material of a
      new generation is in the hand-off file. */
  lemma {:induction false} FaultFreeRecovery(cfg: Config, w: World, generation: nat, actions: seq<Action>, end: World)
    returns (k: nat, after: World)
    requires Inv(cfg, w) && Recovering(w, generation)
    requires Segment(cfg, w, actions, end) && Advances(actions) >= StepsLeft(w.op.bpc)
    ensures k <= |actions| && Segment(cfg, w, actions[..k], after) && Recovered(after, generation)
    decreases |actions|
  {
    hide Inv, Enabled, Do;
    var a := actions[0];
    var next := Do(cfg, w, a);
    RecoveryStep(cfg, w, a, generation);
    ActionKeepsInv(cfg, w, a);
    if Recovered(next, generation) {
      k, after := 1, next;
      assert actions[..1][1..] == [];
    } else {
      var j, found := FaultFreeRecovery(cfg, next, generation, actions[1..], end);
      k, after := j + 1, found;
      assert actions[..k][0] == a && actions[..k][1..] == actions[1..][..j];
    }
  }

  /** The recovery check passes exactly when recovery is required, and then the recovery is under
      way with the generation it is going to end. */
  lemma RecoveryStarts(cfg: Config, w: World, c: Choice)
    requires Reachable(cfg, w) && w.op.Burn? && w.op.kind.Recovery? && w.op.bpc == BCheck
    ensures var v := Do(cfg, w, Advance(c));
            if RecoveryRequired(w.auth, w.now) then Recovering(v, w.auth.generation) && v.sess == w.sess
            else v.op.Free? && v.sess == w.sess
  {
    hide Inv, RecoveryRequired;
    ReachableInv(cfg, w);
    OpOfInv(cfg, w);
  }

  predicate Rotating(w: World, a: Action) {
    a.Advance? && w.op.Burn? && w.op.bpc == BRotate && a.choice.ok
  }

  /** Once recovery is required it stays required, whatever happens, until a burn rotates the pairing. */
  lemma RecoveryNeedPersists(cfg: Config, w: World, a: Action)
    requires RecoveryRequired(w.auth, w.now)
    ensures RecoveryRequired(Do(cfg, w, a).auth, Do(cfg, w, a).now) <==> !Rotating(w, a)
  {
    hide Inv, Enabled, Prune, RecoveryRequired, Current, DoExchange, ChangeSetting;
    NeedMeans(w.auth, w.now);
    match a {
      case Exchange(presented, sessionDrawn, csrfDrawn) =>
        NeedAfterExchange(cfg, w, presented, sessionDrawn, csrfDrawn);
      case Login(cookie, csrf, requireCsrf) => NeedAfterPrune(w.auth, w.now);
      case IssueFor(context, purpose, drawn) => NeedAfterPrune(w.auth, w.now);
      case Present(ticket, purpose) => NeedMeans(ConsumeTicket(w.auth, ticket, purpose, w.now).0, w.now);
      case Tick(elapsed) => NeedMeans(w.auth, w.now + elapsed);
      case Advance(choice) => NeedAfterStep(cfg, w, choice);
      case _ =>
    }
  }

  lemma NeedAfterStep(cfg: Config, w: World, c: Choice)
    requires RecoveryRequired(w.auth, w.now)
    ensures var v := Do(cfg, w, Advance(c));
            RecoveryRequired(v.auth, v.now) <==> !Rotating(w, Advance(c))
  {
    hide Prune, RecoveryRequired, Current, BeginStart, BeginNavigate, BeginSwitch, SwitchCall, RollbackCall, Blocked;
    hide StepBurn;
    NeedAfterPrune(w.auth, w.now);
    if w.op.Burn? {
      NeedAfterBurnStep(cfg, w, c);
    } else if w.op.Switch? {
      SwitchAuth(w, c);
    }
  }

  lemma SwitchAuth(w: World, c: Choice)
    requires w.op.Switch?
    ensures StepSwitch(w, c).now == w.now
    ensures StepSwitch(w, c).auth == w.auth || StepSwitch(w, c).auth == Prune(w.auth, w.now)
  {
    hide Prune, Current, BeginSwitch;
  }

  lemma NeedAfterBurnStep(cfg: Config, w: World, c: Choice)
    requires w.op.Burn? && RecoveryRequired(w.auth, w.now)
    ensures var v := StepBurn(cfg, w, c);
            v.now == w.now && (RecoveryRequired(v.auth, v.now) <==> !(w.op.bpc == BRotate && c.ok))
  {
    hide Prune, RecoveryRequired, Current, FinishBurn, BeginBurn, EnsureLease, Tell;
    NeedMeans(w.auth, w.now);
    NeedAfterPrune(w.auth, w.now);
    NeedMeans(StepBurn(cfg, w, c).auth, w.now);
  }

  /** There is nothing left to exchange. */
  lemma NeedAfterExchange(cfg: Config, w: World, presented: nat, sessionDrawn: bool, csrfDrawn: bool)
    requires RecoveryRequired(w.auth, w.now)
    ensures var v := DoExchange(cfg, w, presented, sessionDrawn, csrfDrawn);
            RecoveryRequired(v.auth, v.now)
  {
    hide RecoveryRequired;
    NeedMeans(w.auth, w.now);
    NeedMeans(DoExchange(cfg, w, presented, sessionDrawn, csrfDrawn).auth, w.now);
  }

  lemma NeedMeans(auth: AuthState, now: nat)
    ensures RecoveryRequired(auth, now) <==>
            && auth.generation > 0 && auth.pairing.None? && auth.manual.None?
            && forall t | t in auth.sessions ::
                 auth.sessions[t].expiresAt <= now || auth.sessions[t].generation != auth.generation
  {
    var live := Prune(auth, now).sessions;
    if t :| t in auth.sessions && auth.sessions[t].expiresAt > now && auth.sessions[t].generation == auth.generation {
      assert t in live;
    } else {
      assert live == map[];
    }
  }

  lemma NeedAfterPrune(auth: AuthState, now: nat)
    requires RecoveryRequired(auth, now)
    ensures Prune(auth, now).sessions == map[] && RecoveryRequired(Prune(auth, now), now)
    ensures forall context :: !Current(Prune(auth, now), context, now)
  {
  }

  /** Put together: a recovery that finds recovery required, and meets no fault, ends with an idle
      daemon and a strictly newer generation whose material is published. */
  lemma RecoveryCompletes(cfg: Config, w: World, c: Choice, actions: seq<Action>, end: World)
    returns (k: nat, after: World)
    requires Reachable(cfg, w) && w.op.Burn? && w.op.kind.Recovery? && w.op.bpc == BCheck
    requires RecoveryRequired(w.auth, w.now) && Enabled(cfg, w, Advance(c))
    requires Segment(cfg, Do(cfg, w, Advance(c)), actions, end) && Advances(actions) >= 9
    ensures k <= |actions| && Segment(cfg, Do(cfg, w, Advance(c)), actions[..k], after)
    ensures after.op.Free? && PhaseOf(after, Idle) && after.auth.generation > w.auth.generation
    ensures after.people.file == after.people.material
  {
    hide Inv, Enabled, Do, RecoveryRequired, Segment;
    ReachableInv(cfg, w);
    RecoveryStarts(cfg, w, c);
    ActionKeepsInv(cfg, w, Advance(c));
    k, after := FaultFreeRecovery(cfg, Do(cfg, w, Advance(c)), w.auth.generation, actions, end);
  }
}
