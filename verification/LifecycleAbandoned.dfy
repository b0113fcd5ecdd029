/** What a dropped request leaves behind: a session between two phases, which only a burn can end. */
module LifecycleAbandoned {
  import opened Types
  import opened Auth
  import opened Session
  import opened Lifecycle
  import opened LifecycleInv
  import opened LifecycleTheorems
  import opened LifecycleProgress
  import LifecycleGaps
  import SessionLaws
  import NetSafety

  /** The session is between two phases, and no operation is at work on it. */
  predicate Abandoned(w: World) {
    && (w.sess.snapshot.phase.Starting? || w.sess.snapshot.phase.Burning?)
    && match w.op
       case Free => true
       case Start(spc, _, _, _, _, _) => spc == SValidate || spc == SBegin
       case Navigate(npc, _, _, _) => npc == NValidate || npc == NCheckId || npc == NBegin
       case Switch(wpc, _, _, _, _, _, _, _) => wpc == WValidate || wpc == WCheckId || wpc == WBegin
       case Burn(bpc, _, _, _, _, _, _) => !Clearing(bpc)
  }

  predicate BurnBegins(w: World, a: Action) {
    a.Advance? && w.op.Burn? && w.op.bpc == BBegin
  }

  lemma StepKeepsAbandoned(cfg: Config, w: World, c: Choice)
    requires Abandoned(w) && !w.op.Free? && !w.op.Burn?
    ensures var v := Do(cfg, w, Advance(c));
            Abandoned(v) && v.sess.snapshot.phase == w.sess.snapshot.phase
  {
    hide ValidateContext, Blocked, EnsureActiveLease;
    match w.op {
      case Start(_, context, url, _, _, _) =>
        SessionLaws.StartDecision(w.sess, context.client, url, Blocked(cfg, url), w.nextId, w.now);
      case Navigate(_, context, _, command) =>
        SessionLaws.NavigateDecision(w.sess, context.client, command, command.Visit? && Blocked(cfg, command.url),
                                     w.now);
      case Switch(_, context, _, _, _, _, _, _) =>
        SessionLaws.SwitchDecision(w.sess, context.client);
    }
  }

  lemma BurnKeepsAbandoned(cfg: Config, w: World, c: Choice)
    requires Abandoned(w) && w.op.Burn? && w.op.bpc != BBegin
    ensures var v := Do(cfg, w, Advance(c));
            Abandoned(v) && v.sess.snapshot.phase == w.sess.snapshot.phase
  {
    hide ValidateContext, RecoveryRequired, Prune, RevokeAll, RotatePairing, InvalidateUnpublished, EnsureLease;
  }

  lemma OthersKeepAbandoned(cfg: Config, w: World, a: Action)
    requires Abandoned(w) && Enabled(cfg, w, a) && !a.Advance?
    ensures var v := Do(cfg, w, a);
            Abandoned(v) && v.sess.snapshot.phase == w.sess.snapshot.phase
  {
    hide ExchangePairing, Authenticate, IssueTicket, ConsumeTicket, Possible;
  }

  lemma ActionKeepsAbandoned(cfg: Config, w: World, a: Action)
    requires Abandoned(w) && Enabled(cfg, w, a) && !BurnBegins(w, a)
    ensures Abandoned(Do(cfg, w, a)) && Do(cfg, w, a).sess.snapshot.phase == w.sess.snapshot.phase
  {
    hide Do, Abandoned;
    if !a.Advance? {
      OthersKeepAbandoned(cfg, w, a);
    } else {
      NotFree(cfg, w, a.choice);
      if w.op.Burn? { BurnKeepsAbandoned(cfg, w, a.choice); } else { StepKeepsAbandoned(cfg, w, a.choice); }
    }
  }

  lemma NotFree(cfg: Config, w: World, c: Choice)
    requires Enabled(cfg, w, Advance(c))
    ensures !w.op.Free?
  {
  }

  /** Whatever is done to an abandoned session, it stays in its phase until a burn begins: a run that has
      changed the phase has a burn in it. */
  lemma {:induction false} AbandonedUntilBurn(cfg: Config, start: World, actions: seq<Action>, end: World)
    returns (k: nat)
    requires Abandoned(start) && Run(cfg, start, actions, end)
    ensures k <= |actions|
    ensures k == |actions| ==> Abandoned(end) && end.sess.snapshot.phase == start.sess.snapshot.phase
    ensures k < |actions| ==> BurnBegins(Play(cfg, start, actions[..k]), actions[k])
    decreases |actions|
  {
    hide Do, Enabled, Abandoned, BurnBegins, Play;
    k := 0;
    if actions != [] {
      var last := |actions| - 1;
      var front := actions[..last];
      var before :| Run(cfg, start, front, before)
                    && Enabled(cfg, before, actions[last]) && end == Do(cfg, before, actions[last]);
      k := AbandonedUntilBurn(cfg, start, front, before);
      if k < last {
        assert front[..k] == actions[..k];
      } else if !BurnBegins(before, actions[last]) {
        ActionKeepsAbandoned(cfg, before, actions[last]);
        k := |actions|;
      } else {
        RunPlays(cfg, start, front, before);
      }
    }
  }

  /** A request that goes away while its operation is between two calls abandons the session. */
  lemma DropAbandons(cfg: Config, w: World)
    requires Reachable(cfg, w) && Droppable(w.op)
    ensures Enabled(cfg, w, Drop) && Reachable(cfg, Do(cfg, w, Drop))
    ensures w.op.Start? && w.op.spc != SBegin ==>
              Abandoned(Do(cfg, w, Drop)) && Do(cfg, w, Drop).op.Free? && Do(cfg, w, Drop).sess.snapshot.phase.Starting?
    ensures w.op.Switch? && w.op.wpc != WCheckId && w.op.wpc != WBegin ==>
              Abandoned(Do(cfg, w, Drop)) && Do(cfg, w, Drop).op.Free?
  {
    hide Reachable, NetSafety.NetInv, PeopleInv;
    ReachableInv(cfg, w);
    ReachableStep(cfg, w, Drop);
  }

  /** Such a session exists for every configuration: a start is dropped before its first call. */
  lemma StartCanBeAbandoned(cfg: Config, url: Url) returns (w: World)
    requires cfg.ttl.auth > 0 && !Blocked(cfg, url)
    ensures Reachable(cfg, w) && w.op.Free? && Abandoned(w) && w.sess.snapshot.phase.Starting?
    ensures w.back.calls == [] && w.sess.snapshot.url == Some(url)
  {
    hide Ahead, Reachable, Paired, Blocked, Abandoned;
    var start := LifecycleGaps.FreshStart(cfg);
    AheadStarts(cfg, start);
    PairedIsAhead(cfg, start, start);
    PairedHoldsContext(cfg, start);
    LifecycleGaps.PairedLeavesBackends(cfg, start);
    var context := AuthContext(start.nextId + 2, start.auth.generation);
    var begun := ReachesApply(cfg, start, Paired(cfg, start), context, url);
    AheadIsReachable(cfg, start, begun);
    DropAbandons(cfg, begun);
    w := Do(cfg, begun, Drop);
  }
}
