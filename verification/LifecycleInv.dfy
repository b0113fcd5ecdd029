/** What every interleaving of the daemon's steps keeps. */
module LifecycleInv {
  import opened Types
  import opened Auth
  import opened Session
  import opened Lifecycle
  import BrowserHistory
  import NetSafety

  predicate Knows(p: People, client: nat, generation: nat) {
    client in p.clients && p.clients[client] == generation
  }

  /** The authentication state and the history of pairings agree: everybody who holds anything
      paired in the generation it carries, and one client at most paired in the current one. */
  ghost predicate PeopleInv(auth: AuthState, p: People, nextId: nat) {
    && AuthInv(auth) && auth.generation > 0
    && (forall t | t in auth.sessions :: Knows(p, auth.sessions[t].client, auth.generation))
    && (forall t | t in auth.tickets :: Knows(p, auth.tickets[t].client, auth.generation))
    && (forall x | x in p.contexts :: Knows(p, x.client, x.generation))
    && (forall c | c in p.clients ::
          c < nextId && p.clients[c] <= auth.generation && (p.clients[c] == auth.generation ==> p.exchanged == Some(c)))
    && (p.exchanged.Some? ==> Knows(p, p.exchanged.value, auth.generation) && auth.pairing.None?)
    && (auth.pairing.Some? ==> auth.pairing == Some(p.material.secret) && auth.manual == Some(p.material.manualCode))
  }

  /** The lease is held by the client of the current generation, or by nobody. */
  predicate LeaseInv(sess: SessionData, p: People) {
    sess.controller.Some? ==> p.exchanged == sess.controller
  }

  /** Phase coherence. */
  predicate Shape(d: SessionData) {
    var s := d.snapshot;
    && (d.controller.Some? <==> s.id.Some?) && (d.controller.Some? <==> s.url.Some?)
    && (s.phase.Idle? ==> d.controller.None? && !s.controllerAttached && !s.failure)
    && (s.phase.Starting? ==> d.controller.Some? && !s.failure)
    && (s.phase.Active? ==>
          d.controller.Some? && !s.failure && d.history != [] && d.history[|d.history| - 1] == s.url.value)
    && (s.phase.Idle? || s.phase.Starting? || s.phase.Failed? ==> d.history == [])
  }

  function LastLaunch(calls: seq<Call>): Option<Tab> {
    if calls == [] then None
    else
      var c := calls[|calls| - 1];
      if c.BrowserStart? && c.ok then Some(c.tab) else LastLaunch(calls[..|calls| - 1])
  }

  /** The mode of the last successful egress call; a reset applies Direct. */
  function LastEgress(calls: seq<Call>): Option<EgressMode> {
    if calls == [] then None
    else
      var c := calls[|calls| - 1];
      if c.EgressApply? && c.ok then Some(c.mode)
      else if c.EgressReset? && c.ok then Some(Direct)
      else LastEgress(calls[..|calls| - 1])
  }

  predicate EgressIs(b: Backends, mode: EgressMode) {
    LastEgress(b.calls) == Some(mode) && b.net.activeMode == Some(mode)
  }

  /** The bridge has the mode of the last successful start on record, until a deadline makes it
      forget; then it is Direct. */
  predicate Recorded(b: Backends) {
    && LastLaunch(b.calls).Some?
    && b.bridge.egress == (if b.cut then Direct else LastLaunch(b.calls).value.egress)
  }

  /** An active session's browser and egress policy are the ones its snapshot names. */
  predicate AgreementInv(d: SessionData, b: Backends) {
    d.snapshot.phase.Active? && d.snapshot.id.Some? ==>
      && EgressIs(b, d.snapshot.egress) && LastLaunch(b.calls) == Some(Tab(d.snapshot.id.value, d.snapshot.egress))
      && Recorded(b)
  }

  /** A running browser sits behind the policy of the last successful start. */
  predicate Confined(b: Backends) {
    b.bridge.child.Some? ==> Recorded(b) && b.net.activeMode == Some(LastLaunch(b.calls).value.egress)
  }

  /** Every browser that is not stray is confined, and there is none while the session is idle or
      failed. */
  predicate StrayInv(d: SessionData, b: Backends) {
    !b.stray ==> Confined(b) && (d.snapshot.phase.Idle? || d.snapshot.phase.Failed? ==> b.bridge.child.None?)
  }

  predicate NoTab(b: Backends) {
    !b.stray ==> b.bridge.child.None?
  }

  predicate EndsWithCalls(calls: seq<Call>, suffix: seq<Call>) {
    |suffix| <= |calls| && calls[|calls| - |suffix|..] == suffix
  }

  // ----- what holds at each program counter

  predicate StartInv(w: World)
    requires w.op.Start?
  {
    var o := w.op;
    var s := w.sess.snapshot;
    && o.context in w.people.contexts
    && (o.spc != SValidate ==> w.people.exchanged == Some(o.context.client))
    && (o.spc != SValidate && o.spc != SBegin ==>
          s.phase.Starting? && s.id == Some(o.id) && s.url == Some(o.url) && s.egress == o.egress)
    && (o.spc == SLaunch || o.spc == SFinish ==> EgressIs(w.back, o.egress))
    && (o.spc == SFinish ==> LastLaunch(w.back.calls) == Some(Tab(o.id, o.egress)) && Recorded(w.back))
    && (o.spc != SValidate && o.spc != SBegin && o.spc != SFinish ==> NoTab(w.back))
  }

  predicate NavigateInv(w: World)
    requires w.op.Navigate?
  {
    var o := w.op;
    && o.context in w.people.contexts
    && (o.npc != NValidate ==> w.people.exchanged == Some(o.context.client))
    && (o.npc == NBegin ==> w.sess.snapshot.id.Some?)
    && (o.npc == NCall || o.npc == NFinish ==> w.sess.snapshot.phase.Active?)
  }

  predicate BrowserMayRun(pc: SwitchPc) {
    pc == WValidate || pc == WCheckId || pc == WBegin || pc == WStop || pc == WFinish || pc == XFinish
  }

  predicate SwitchInv(w: World)
    requires w.op.Switch?
  {
    var o := w.op;
    var s := w.sess.snapshot;
    && o.context in w.people.contexts
    && (o.wpc != WValidate ==> w.people.exchanged == Some(o.context.client))
    && (o.wpc == WBegin ==> w.sess.snapshot.id.Some?)
    && (o.wpc != WValidate && o.wpc != WCheckId && o.wpc != WBegin ==>
          && s.phase.Burning? && w.sess.controller.Some? && s.url == Some(o.url) && !s.failure
          && s.egress == o.previous)
    && (o.wpc == WLaunch || o.wpc == WFinish ==> EgressIs(w.back, o.mode))
    && (o.wpc == WFinish ==> LastLaunch(w.back.calls) == Some(Tab(o.id, o.mode)) && Recorded(w.back))
    && (o.wpc == XLaunch || o.wpc == XFinish ==> EgressIs(w.back, o.previous))
    && (o.wpc == XFinish ==> LastLaunch(w.back.calls) == Some(Tab(o.id + 1, o.previous)) && Recorded(w.back))
    && (!BrowserMayRun(o.wpc) ==> NoTab(w.back))
  }

  predicate Published(o: Op) {
    !(o.Burn? && (o.bpc == BWrite || o.bpc == BInvalidate))
  }

  predicate BeforeBegin(pc: BurnPc) {
    pc == BCheck || pc == BCheckId || pc == BLease || pc == BBegin
  }

  predicate Clearing(pc: BurnPc) {
    pc == BStop || pc == BReset || pc == BClear || pc == BFinish
  }

  /** The session side of a burn. */
  predicate BurnSessInv(w: World)
    requires w.op.Burn?
  {
    var o := w.op;
    var s := w.sess.snapshot;
    && (o.bpc == BLease ==> o.kind.ByClient? && s.id.Some?)
    && (o.bpc == BCheckId && o.kind.Auto? ==> s.phase.Active?)
    && (o.bpc == BBegin ==> !s.phase.Idle?)
    && (o.bpc == BBegin && !o.kind.Recovery? ==> w.sess.controller.Some?)
    && (Clearing(o.bpc) ==> s.phase.Burning?)
    && (!BeforeBegin(o.bpc) && !Clearing(o.bpc) ==> w.sess.controller.None? && (s.phase.Idle? || s.phase.Failed?))
    && (BeforeBegin(o.bpc) || o.bpc == BStop ==> !o.faulted)
    && (o.bpc == BReset ==> o.faulted == !o.stopped && EndsWithCalls(w.back.calls, [BrowserStop(o.stopped)]))
    && (o.bpc == BClear ==> o.faulted == !(o.stopped && o.reset)
                            && EndsWithCalls(w.back.calls, [BrowserStop(o.stopped), EgressReset(o.reset)]))
    && (o.bpc == BFinish ==>
          && o.faulted == !(o.stopped && o.reset && o.cleared)
          && EndsWithCalls(w.back.calls, [BrowserStop(o.stopped), EgressReset(o.reset), ClearRuntime(o.cleared)]))
    && (o.bpc == BRevoke || o.bpc == BRotate || o.bpc == BWrite ==> !o.faulted ==> s.phase.Idle?)
    && (o.bpc == BReset || o.bpc == BClear || o.bpc == BFinish ==> NoTab(w.back))
  }

  /** The authentication side of a burn: the pairing of the generation it ends is used up. */
  predicate BurnAuthInv(w: World)
    requires w.op.Burn?
  {
    var o := w.op;
    && (o.kind.ByClient? ==> o.kind.context in w.people.contexts)
    && (o.kind.ByClient? && o.bpc != BCheck && Published(o) ==> w.people.exchanged == Some(o.kind.context.client))
    && (o.bpc != BCheck && Published(o) ==> w.auth.pairing.None?)
    && (o.bpc == BRotate ==> w.auth.sessions == map[] && w.auth.tickets == map[])
    && (o.kind.Recovery? && o.bpc != BCheck && Published(o) ==> w.auth.sessions == map[])
    && w.auth.generation == o.gen0 + (if Published(o) then 0 else 1)
  }

  /** Pairing is open only when no session is, and a burn that somebody began without a lease began
      when nobody could be a controller any more. */
  predicate OpenInv(auth: AuthState, d: SessionData) {
    && (auth.pairing.Some? ==> d.snapshot.phase.Idle? || d.snapshot.phase.Failed?)
    && (d.snapshot.phase.Burning? && d.controller.None? ==> auth.pairing.None? && auth.sessions == map[])
  }

  /** Once a burn has cleared the session, the generation it burned is dead as soon as the auth
      state is revoked; only the step in between may still see it. */
  predicate BurnedInv(auth: AuthState, burned: Option<nat>, o: Op) {
    burned.Some? ==>
      && burned.value <= auth.generation
      && (burned.value == auth.generation ==>
            auth.pairing.None? && (!(o.Burn? && o.bpc == BRevoke) ==> auth.sessions == map[] && auth.tickets == map[]))
  }

  predicate OpInv(w: World) {
    match w.op
    case Free => true
    case Start(_, _, _, _, _, _) => StartInv(w)
    case Navigate(_, _, _, _) => NavigateInv(w)
    case Switch(_, _, _, _, _, _, _, _) => SwitchInv(w)
    case Burn(_, _, _, _, _, _, _) => BurnSessInv(w) && BurnAuthInv(w)
  }

  ghost predicate Inv(cfg: Config, w: World) {
    && PeopleInv(w.auth, w.people, w.nextId)
    && LeaseInv(w.sess, w.people)
    && Shape(w.sess)
    && w.sess.history == LastEntries(w.back.pushed)
    && AgreementInv(w.sess, w.back)
    && NetSafety.NetInv(cfg.net, w.back.net)
    && BrowserHistory.Coherent(w.back.bridge) && StrayInv(w.sess, w.back)
    && (w.auth.pairing.Some? && Published(w.op) ==> w.people.file == w.people.material)
    && BurnedInv(w.auth, w.back.burned, w.op)
    && OpenInv(w.auth, w.sess)
    && OpInv(w)
  }

  // ----- steps of the authentication state that respect what an operation relies on

  /** Nothing an operation under way may rely on is lost. */
  ghost predicate Gentle(a: AuthState, p: People, b: AuthState, q: People) {
    && b.generation == a.generation
    && (a.pairing.None? ==> b.pairing.None?)
    && (b.pairing.Some? ==> b.pairing == a.pairing && b.manual == a.manual)
    && (a.pairing.None? && a.sessions == map[] ==> b.sessions == map[])
    && (a.pairing.None? && a.sessions == map[] && a.tickets == map[] ==> b.tickets == map[])
    && (p.exchanged.Some? ==> q.exchanged == p.exchanged)
    && p.contexts <= q.contexts && q.material == p.material && q.file == p.file
  }

  lemma GentleKeepsInv(cfg: Config, w: World, auth: AuthState, people: People, nextId: nat, now: nat)
    requires Inv(cfg, w) && Gentle(w.auth, w.people, auth, people) && PeopleInv(auth, people, nextId)
    ensures Inv(cfg, w.(auth := auth, people := people, nextId := nextId, now := now))
  {
    hide PeopleInv, NetSafety.NetInv;
  }
}
