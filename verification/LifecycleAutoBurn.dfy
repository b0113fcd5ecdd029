/** Burning for inactivity: what the watchdog has seen when it burns, and what it may have missed. */
module LifecycleAutoBurn {
  import opened Types
  import opened Auth
  import opened Session
  import opened Lifecycle
  import opened LifecycleInv
  import opened LifecycleSteps
  import opened LifecycleTheorems

  /** Activity outside the lifecycle lock: a setting that is accepted. */
  predicate Touches(w: World, a: Action) {
    a.SetFor? && ChangeSetting(w.sess, a.context.client, a.setting, w.now).Ok?
  }

  predicate AutoAt(o: Op, pc: BurnPc, threshold: nat) {
    o.Burn? && o.kind == Auto(threshold) && o.bpc == pc
  }

  /** What the watchdog found at step `k` of a run, and what has happened since. */
  ghost predicate WasDue(cfg: Config, start: World, actions: seq<Action>, k: nat, threshold: nat)
    requires k < |actions|
  {
    var u := Play(cfg, start, actions[..k]);
    var v := Play(cfg, start, actions);
    && actions[k].Advance? && AutoAt(u.op, BCheckId, threshold)
    && u.sess.lastActivity + threshold <= u.now
    && u.now <= v.now
    && (forall i | k < i < |actions| :: !actions[i].Advance?)
    && (if exists i | k < i < |actions| :: Touches(Play(cfg, start, actions[..i]), actions[i])
        then u.now <= v.sess.lastActivity
        else v.sess.lastActivity == u.sess.lastActivity)
  }

  lemma OnlyBurnsBurn(cfg: Config, w: World, c: Choice)
    requires !w.op.Burn?
    ensures !Do(cfg, w, Advance(c)).op.Burn?
  {
    hide ValidateContext, BeginStart, BeginNavigate, BeginSwitch, Blocked, Tell;
  }

  /** The step into the burn itself comes from the check of the idle time, which has passed. */
  lemma StepIntoBurn(cfg: Config, w: World, c: Choice, threshold: nat)
    requires OpInv(w) && AutoAt(Do(cfg, w, Advance(c)).op, BBegin, threshold)
    ensures var v := Do(cfg, w, Advance(c));
            && AutoAt(w.op, BCheckId, threshold) && w.sess.lastActivity + threshold <= w.now
            && v.sess == w.sess && v.now == w.now
  {
    hide StepStart, StepNavigate, StepSwitch, StepBurn, BurnAuthInv, BurnSessInv;
    if w.op.Burn? {
      BurnStepIntoBurn(cfg, w, c, threshold);
    } else {
      OnlyBurnsBurn(cfg, w, c);
    }
  }

  lemma BurnStepIntoBurn(cfg: Config, w: World, c: Choice, threshold: nat)
    requires w.op.Burn? && BurnSessInv(w) && AutoAt(StepBurn(cfg, w, c).op, BBegin, threshold)
    ensures var v := StepBurn(cfg, w, c);
            && AutoAt(w.op, BCheckId, threshold) && w.sess.lastActivity + threshold <= w.now
            && v.sess == w.sess && v.now == w.now
  {
    hide Prune, RecoveryRequired, ValidateContext, EnsureLease, FinishBurn, Tell, EndsWithCalls, NoTab;
  }

  /** Between the check and the burn only the actions outside the lock can happen, and of those only an
      accepted setting counts as activity. */
  lemma BesideBurn(cfg: Config, w: World, a: Action, threshold: nat)
    requires Enabled(cfg, w, a) && !a.Advance? && AutoAt(Do(cfg, w, a).op, BBegin, threshold)
    ensures var v := Do(cfg, w, a);
            && v.op == w.op && w.now <= v.now
            && v.sess.lastActivity == (if Touches(w, a) then w.now else w.sess.lastActivity)
  {
    hide ExchangePairing, Authenticate, IssueTicket, ConsumeTicket;
  }

  lemma DueAtOnce(cfg: Config, start: World, actions: seq<Action>, threshold: nat)
    requires actions != [] && actions[|actions| - 1].Advance?
    requires var u, v := Play(cfg, start, actions[..|actions| - 1]), Play(cfg, start, actions);
             && AutoAt(u.op, BCheckId, threshold) && u.sess.lastActivity + threshold <= u.now
             && v.sess == u.sess && v.now == u.now
    ensures WasDue(cfg, start, actions, |actions| - 1, threshold)
  {
    hide Do;
  }

  lemma StillDue(cfg: Config, start: World, actions: seq<Action>, k: nat, threshold: nat)
    requires actions != [] && k < |actions| - 1 && !actions[|actions| - 1].Advance?
    requires WasDue(cfg, start, actions[..|actions| - 1], k, threshold)
    requires var w, v := Play(cfg, start, actions[..|actions| - 1]), Play(cfg, start, actions);
             && w.now <= v.now
             && v.sess.lastActivity == (if Touches(w, actions[|actions| - 1]) then w.now else w.sess.lastActivity)
    ensures WasDue(cfg, start, actions, k, threshold)
  {
    hide Do, Touches, Play;
    PlaySame(cfg, start, actions, k);
    var last := |actions| - 1;
    var front := actions[..last];
    assert front[..k] == actions[..k] && front[k] == actions[k];
    if !Touches(Play(cfg, start, front), actions[last]) {
      if i :| k < i < |actions| && Touches(Play(cfg, start, actions[..i]), actions[i]) {
        assert i < last && Touches(Play(cfg, start, front[..i]), front[i]);
      }
    }
  }

  lemma PlaySame(cfg: Config, start: World, actions: seq<Action>, k: nat)
    requires k < |actions|
    ensures var front := actions[..|actions| - 1];
      forall i | k < i < |front| :: front[..i] == actions[..i] && front[i] == actions[i]
  {
  }

  /** In every run, an inactivity burn commits only after a check that found the threshold passed.
      Between that check and the burn the lock is held; activity has come after the check exactly when
      a setting was accepted there, and the burn does not look again. */
  lemma {:induction false} AutoBurnWasDue(cfg: Config, start: World, actions: seq<Action>, v: World, threshold: nat)
    returns (k: nat)
    requires Reachable(cfg, start) && start.op.Free? && Run(cfg, start, actions, v) && AutoAt(v.op, BBegin, threshold)
    ensures k < |actions| && WasDue(cfg, start, actions, k, threshold)
    decreases |actions|
  {
    hide Do, Enabled, WasDue, Touches, Reachable, Inv, OpInv;
    var last := |actions| - 1;
    var before :| Run(cfg, start, actions[..last], before)
                  && Enabled(cfg, before, actions[last]) && v == Do(cfg, before, actions[last]);
    RunPlays(cfg, start, actions[..last], before);
    RunPlays(cfg, start, actions, v);
    if actions[last].Advance? {
      ReachableInv(cfg, start);
      RunsKeepInv(cfg, start, actions[..last], before);
      OpOfInv(cfg, before);
      StepIntoBurn(cfg, before, actions[last].choice, threshold);
      k := last;
      DueAtOnce(cfg, start, actions, threshold);
    } else {
      BesideBurn(cfg, before, actions[last], threshold);
      k := AutoBurnWasDue(cfg, start, actions[..last], before, threshold);
      StillDue(cfg, start, actions, k, threshold);
    }
  }

  // ----- where the threshold comes from

  /** The watchdog reads the setting of an active session, in nanoseconds. */
  ghost predicate ReadsThreshold(cfg: Config, start: World, actions: seq<Action>, k: nat, threshold: nat)
    requires k < |actions|
  {
    var u := Play(cfg, start, actions[..k]);
    && actions[k].Advance? && u.op.Burn? && u.op.kind.Auto? && u.op.bpc == BCheck
    && u.sess.snapshot.phase.Active? && u.sess.snapshot.autoBurn > 0
    && threshold == u.sess.snapshot.autoBurn * 1_000_000_000
  }

  lemma StepIntoCheck(cfg: Config, w: World, c: Choice, threshold: nat)
    requires AutoAt(Do(cfg, w, Advance(c)).op, BCheckId, threshold)
    ensures w.op.Burn? && w.op.kind.Auto? && w.op.bpc == BCheck
    ensures w.sess.snapshot.phase.Active? && w.sess.snapshot.autoBurn > 0
    ensures threshold == w.sess.snapshot.autoBurn * 1_000_000_000
  {
    hide StepStart, StepNavigate, StepSwitch, StepBurn;
    if w.op.Burn? {
      BurnStepIntoCheck(cfg, w, c, threshold);
    } else {
      OnlyBurnsBurn(cfg, w, c);
    }
  }

  lemma BurnStepIntoCheck(cfg: Config, w: World, c: Choice, threshold: nat)
    requires w.op.Burn? && AutoAt(StepBurn(cfg, w, c).op, BCheckId, threshold)
    ensures w.op.kind.Auto? && w.op.bpc == BCheck
    ensures w.sess.snapshot.phase.Active? && w.sess.snapshot.autoBurn > 0
    ensures threshold == w.sess.snapshot.autoBurn * 1_000_000_000
  {
    hide Prune, RecoveryRequired, ValidateContext, EnsureLease, FinishBurn, Tell;
  }

  lemma BesideCheck(cfg: Config, w: World, a: Action, threshold: nat)
    requires Enabled(cfg, w, a) && !a.Advance? && AutoAt(Do(cfg, w, a).op, BCheckId, threshold)
    ensures w.op == Do(cfg, w, a).op
  {
    hide ExchangePairing, Authenticate, IssueTicket, ConsumeTicket;
  }

  /** The threshold that a check compares with is the setting that the watchdog read from an active
      session in the step before, while it held the lock; a session that never burns is left alone. */
  lemma {:induction false} ThresholdWasSet(cfg: Config, start: World, actions: seq<Action>, v: World, threshold: nat)
    returns (k: nat)
    requires start.op.Free? && Run(cfg, start, actions, v) && AutoAt(v.op, BCheckId, threshold)
    ensures k < |actions| && ReadsThreshold(cfg, start, actions, k, threshold)
    ensures forall i | k < i < |actions| :: !actions[i].Advance?
    decreases |actions|
  {
    hide Do, Enabled, AutoAt;
    assert actions != [] by { AutoIsBusy(v.op, threshold); }
    var last := |actions| - 1;
    var front := actions[..last];
    var before :| Run(cfg, start, front, before) && Enabled(cfg, before, actions[last])
        && v == Do(cfg, before, actions[last]);
    RunPlays(cfg, start, front, before);
    if actions[last].Advance? {
      StepIntoCheck(cfg, before, actions[last].choice, threshold);
      k := last;
    } else {
      BesideCheck(cfg, before, actions[last], threshold);
      k := ThresholdWasSet(cfg, start, front, before, threshold);
      assert front[..k] == actions[..k] && front[k] == actions[k];
      forall i | k < i < |front| ensures front[i] == actions[i] {
      }
    }
  }

  /** The watchdog goes on exactly for an active session with a threshold, and then burns exactly if the
      session has been idle for that many seconds; otherwise it lets go and has changed nothing. */
  lemma WatchdogDecides(cfg: Config, w: World, c: Choice)
    requires w.op.Burn? && w.op.kind.Auto?
    ensures var v, s := Do(cfg, w, Advance(c)), w.sess.snapshot;
            && (w.op.bpc == BCheck ==>
                  if s.phase.Active? && s.autoBurn > 0
                  then v.op.Burn? && v.op.bpc == BCheckId && v.op.kind == Auto(s.autoBurn * 1_000_000_000)
                  else v.op.Free?)
            && (w.op.bpc == BCheckId ==>
                  if w.now >= w.sess.lastActivity + w.op.kind.threshold
                  then v.op.Burn? && v.op.bpc == BBegin && v.op.kind == w.op.kind
                  else v.op.Free?)
            && (w.op.bpc == BCheck || w.op.bpc == BCheckId ==> v == w.(op := v.op))
  {
    hide FinishBurn, EnsureLease, Tell, RevokeAll, RotatePairing, InvalidateUnpublished, ValidateContext,
         RecoveryRequired, Prune;
  }

  lemma AutoIsBusy(o: Op, threshold: nat)
    requires AutoAt(o, BCheckId, threshold)
    ensures !o.Free?
  {
  }

  // ----- what counts as activity

  /** The action is somebody's use of the session, or makes the session a new one. */
  ghost predicate Uses(cfg: Config, w: World, a: Action) {
    || Touches(w, a)
    || (a.Advance? &&
        match w.op
        case Start(spc, _, _, _, _, _) => spc == SBegin && Do(cfg, w, a).op.Start?
        case Navigate(npc, context, _, _) =>
          npc == NBegin && w.sess.controller == Some(context.client) && w.sess.snapshot.phase.Active?
        case Switch(wpc, _, _, _, _, _, _, _) => wpc == WFinish || wpc == XFinish
        case Burn(bpc, _, _, _, _, _, _) => bpc == BFinish
        case Free => false)
  }

  /** The idle time runs from the last use exactly: a start that is let in, a navigation by the holder of
      the lease (a blocked one too), an accepted setting, the end of a switch, a rollback or a burn. */
  lemma ActivityExact(cfg: Config, w: World, a: Action)
    requires Enabled(cfg, w, a)
    ensures Do(cfg, w, a).sess.lastActivity == (if Uses(cfg, w, a) then w.now else w.sess.lastActivity)
  {
    hide Blocked, ValidateContext, ExchangePairing, Authenticate, IssueTicket, ConsumeTicket, Possible;
    hide StepStart, StepNavigate, StepSwitch, StepBurn;
    if a.Advance? {
      match w.op {
        case Free =>
        case Start(_, _, _, _, _, _) => StartActivity(cfg, w, a.choice);
        case Navigate(_, _, _, _) => NavigateActivity(cfg, w, a.choice);
        case Switch(_, _, _, _, _, _, _, _) => SwitchActivity(w, a.choice);
        case Burn(_, _, _, _, _, _, _) => BurnActivity(cfg, w, a.choice);
      }
    }
  }

  lemma StartActivity(cfg: Config, w: World, c: Choice)
    requires w.op.Start?
    ensures var v := StepStart(cfg, w, c);
            v.sess.lastActivity == (if w.op.spc == SBegin && v.op.Start? then w.now else w.sess.lastActivity)
  {
    hide Blocked, ValidateContext, Tell;
  }

  lemma NavigateActivity(cfg: Config, w: World, c: Choice)
    requires w.op.Navigate?
    ensures var used := w.op.npc == NBegin && w.sess.controller == Some(w.op.context.client)
        && w.sess.snapshot.phase.Active?;
            StepNavigate(cfg, w, c).sess.lastActivity == (if used then w.now else w.sess.lastActivity)
  {
    hide Blocked, ValidateContext, Tell;
  }

  lemma SwitchActivity(w: World, c: Choice)
    requires w.op.Switch?
    ensures StepSwitch(w, c).sess.lastActivity
         == (if w.op.wpc == WFinish || w.op.wpc == XFinish then w.now else w.sess.lastActivity)
  {
    hide ValidateContext, Tell;
  }

  lemma BurnActivity(cfg: Config, w: World, c: Choice)
    requires w.op.Burn?
    ensures StepBurn(cfg, w, c).sess.lastActivity == (if w.op.bpc == BFinish then w.now else w.sess.lastActivity)
  {
    hide ValidateContext, Prune, RecoveryRequired, Tell, EnsureLease;
  }
}
