/** The daemon as a transition system.

    Start, navigate, switch, burn and the two watchdog actions hold the lifecycle lock, so at most
    one of them is under way; its program counter names the next stretch of code that runs without
    a suspension.  Pairing, cookies, tickets and settings do not take that lock and may run between
    any two of its steps.  A request that is dropped at an await just disappears, leaving the
    session as it is.  Every backend call may fail. */
module Lifecycle {
  import opened Types
  import opened Auth
  import opened Session
  import opened BlocklistTools
  import BrowserHistory
  import NetPlans
  import NetTransition

  const SECOND: nat := 1_000_000_000

  datatype Config = Config(
    ttl: Ttl,
    session: SessionConfig,
    net: NetPlans.NetworkConfig,
    blocklist: Option<seq<string>>)

  ghost predicate Blocked(cfg: Config, url: Url) {
    && (url.scheme == "http" || url.scheme == "https") && url.host.Some?
    && cfg.blocklist.Some? && Matches(cfg.blocklist.value, url.host.value)
  }

  /** The session that a browser is started for, and its mode. */
  datatype Tab = Tab(id: nat, egress: EgressMode)

  datatype Call =
    | EgressApply(mode: EgressMode, ok: bool)
    | EgressReset(ok: bool)
    | BrowserStart(tab: Tab, ok: bool)
    | BrowserStop(ok: bool)
    | BrowserNavigate(ok: bool)
    | ClearRuntime(ok: bool)

  // ----- operations that hold the lifecycle lock

  datatype StartPc = SValidate | SBegin | SApply | SLaunch | SFinish | SStop | SReset | SClear | SFail

  datatype NavigatePc = NValidate | NCheckId | NBegin | NCall | NFinish

  datatype SwitchPc =
    | WValidate | WCheckId | WBegin | WStop | WReset | WClear | WApply | WLaunch | WFinish
    | XStop | XReset | XClear | XApply | XLaunch | XFinish | XFail

  datatype BurnPc =
    | BCheck | BCheckId | BLease | BBegin | BStop | BReset | BClear | BFinish
    | BRevoke | BRotate | BWrite | BInvalidate

  datatype BurnKind = ByClient(context: AuthContext, expected: nat) | Auto(threshold: nat) | Recovery

  datatype Op =
    | Free
    | Start(spc: StartPc, context: AuthContext, url: Url, id: nat, profile: StreamProfile, egress: EgressMode)
    | Navigate(npc: NavigatePc, context: AuthContext, expected: nat, command: Navigation)
    | Switch(wpc: SwitchPc, context: AuthContext, expected: nat, mode: EgressMode,
             url: Url, profile: StreamProfile, previous: EgressMode, id: nat)
    | Burn(bpc: BurnPc, kind: BurnKind, stopped: bool, reset: bool, cleared: bool, gen0: nat, faulted: bool)

  // ----- the world

  /** Who has paired.  `exchanged` is the client of the current generation, `clients` the
      generation every client ever paired in, `contexts` every context a request may still hold,
      `material` the pairing material drawn last and `file` what the hand-off file contains. */
  datatype People = People(
    contexts: set<AuthContext>,
    exchanged: Option<nat>,
    clients: map<nat, nat>,
    material: PairingMaterial,
    file: PairingMaterial)

  /** The backends, with the log of calls made to them.  `cut` says that the bridge's deadline has
      cut a command off since the last successful start, `pushed` logs visited URLs since the session
      was last cleared, `stray` says that the browser that runs was left by a failed stop or start, or
      by an earlier daemon,
      `burned` is the generation in which a burn last cleared the session. */
  datatype Backends = Backends(
    net: NetTransition.Net,
    bridge: BrowserHistory.Bridge,
    cut: bool,
    calls: seq<Call>,
    pushed: seq<Url>,
    stray: bool,
    burned: Option<nat>)

  datatype World = World(
    auth: AuthState,
    people: People,
    sess: SessionData,
    back: Backends,
    op: Op,
    now: nat,
    nextId: nat)

  /** A command to the bridge does not get there, or it does and meets its fate; either way the answer
      may be lost. */
  datatype Delivery = Lost | Delivered(fate: BrowserHistory.Fate)

  /** What the environment decides about one step: does it look like a success to the daemon, what
      does the helper's machine look like afterwards, and what became of a command to the bridge. */
  datatype Choice = Choice(ok: bool, net: NetTransition.Net, delivery: Delivery)

  function Deliver(bridge: BrowserHistory.Bridge, command: BrowserHistory.Command, d: Delivery): BrowserHistory.Bridge {
    if d.Lost? then bridge else BrowserHistory.Serve(bridge, BrowserHistory.Request(command, d.fate))
  }

  /** The bridge carried the command out, and says so. */
  predicate Granted(bridge: BrowserHistory.Bridge, command: BrowserHistory.Command, d: Delivery) {
    d.Delivered? && BrowserHistory.Succeeds(bridge, BrowserHistory.Request(command, d.fate))
  }

  /** A command sent to the bridge. */
  function Tell(b: Backends, command: BrowserHistory.Command, c: Choice): Backends {
    var bridge := Deliver(b.bridge, command, c.delivery);
    var late := c.delivery.Delivered? && BrowserHistory.CutOff(b.bridge, command, c.delivery.fate);
    b.(bridge := bridge,
       cut := !(command.Start? && c.ok) && (b.cut || late),
       stray := bridge.child.Some? && !(command.Start? && c.ok) && (b.stray || (!c.ok && !command.Navigate?)))
  }

  function Log(b: Backends, call: Call): Backends {
    b.(calls := b.calls + [call])
  }

  function CallApply(b: Backends, mode: EgressMode, c: Choice): Backends {
    Log(b.(net := c.net), EgressApply(mode, c.ok))
  }

  function CallReset(b: Backends, c: Choice): Backends {
    Log(b.(net := c.net), EgressReset(c.ok))
  }

  function CallLaunch(b: Backends, tab: Tab, url: Url, profile: StreamProfile, c: Choice): Backends {
    Log(Tell(b, BrowserHistory.Start(tab.id, url, profile, tab.egress), c), BrowserStart(tab, c.ok))
  }

  function CallStop(b: Backends, c: Choice): Backends {
    Log(Tell(b, BrowserHistory.Stop, c), BrowserStop(c.ok))
  }

  function CallNavigate(b: Backends, command: Navigation, c: Choice): Backends {
    Log(Tell(b, BrowserHistory.Navigate(command), c), BrowserNavigate(c.ok))
  }

  function CallClear(b: Backends, c: Choice): Backends {
    Log(b, ClearRuntime(c.ok))
  }

  function Done(w: World): World {
    w.(op := Free)
  }

  // ----- start_session

  ghost function StepStart(cfg: Config, w: World, c: Choice): World
    requires w.op.Start?
  {
    var o := w.op;
    match o.spc
    case SValidate =>
      var (auth, valid) := ValidateContext(w.auth, o.context, w.now);
      w.(auth := auth, op := if valid then o.(spc := SBegin) else Free)
    case SBegin =>
      (match BeginStart(w.sess, o.context.client, o.url, Blocked(cfg, o.url), w.nextId, w.now)
       case Err(_) => Done(w)
       case Ok(d) => w.(sess := d, nextId := w.nextId + 1, 
                              op := o.(spc := SApply, id := w.nextId, profile := d.snapshot.profile,
                                       egress := d.snapshot.egress)))
    case SApply => w.(back := CallApply(w.back, o.egress, c), op := o.(spc := if c.ok then SLaunch else SReset))
    case SLaunch => w.(back := CallLaunch(w.back, Tab(o.id, o.egress), o.url, o.profile, c),
                       op := o.(spc := if c.ok then SFinish else SStop))
    case SFinish =>
      Done(w.(sess := FinishStart(w.sess, o.url), back := w.back.(pushed := w.back.pushed + [o.url])))
    case SStop => w.(back := CallStop(w.back, c), op := o.(spc := SReset))
    case SReset => w.(back := CallReset(w.back, c), op := o.(spc := SClear))
    case SClear => w.(back := CallClear(w.back, c), op := o.(spc := SFail))
    case SFail => Done(w.(sess := Fail(w.sess)))
  }

  // ----- navigate

  ghost function StepNavigate(cfg: Config, w: World, c: Choice): World
    requires w.op.Navigate?
  {
    var o := w.op;
    match o.npc
    case NValidate =>
      var (auth, valid) := ValidateContext(w.auth, o.context, w.now);
      w.(auth := auth, op := if valid then o.(npc := NCheckId) else Free)
    case NCheckId => w.(op := if w.sess.snapshot.id == Some(o.expected) then o.(npc := NBegin) else Free)
    case NBegin =>
      var (d, error) := BeginNavigate(w.sess, o.context.client, o.command,
                                      o.command.Visit? && Blocked(cfg, o.command.url), w.now);
      w.(sess := d, op := if error.None? then o.(npc := NCall) else Free)
    case NCall => w.(back := CallNavigate(w.back, o.command, c), op := if c.ok then o.(npc := NFinish) else Free)
    case NFinish =>
      var pushed := if o.command.Visit? then w.back.pushed + [o.command.url] else w.back.pushed;
      Done(w.(sess := FinishNavigate(w.sess, o.command), back := w.back.(pushed := pushed)))
  }

  // ----- switch_egress

  predicate Switching(pc: SwitchPc) {
    pc == WStop || pc == WReset || pc == WClear || pc == WApply || pc == WLaunch
  }

  predicate RollingBack(pc: SwitchPc) {
    pc == XStop || pc == XReset || pc == XClear || pc == XApply || pc == XLaunch
  }

  /** The switch proper: the first failure goes to the rollback. */
  function SwitchCall(w: World, c: Choice): World
    requires w.op.Switch? && Switching(w.op.wpc)
  {
    var o := w.op;
    match o.wpc
    case WStop => w.(back := CallStop(w.back, c), op := o.(wpc := if c.ok then WReset else XStop))
    case WReset => w.(back := CallReset(w.back, c), op := o.(wpc := if c.ok then WClear else XStop))
    case WClear => w.(back := CallClear(w.back, c), op := o.(wpc := if c.ok then WApply else XStop))
    case WApply => w.(back := CallApply(w.back, o.mode, c), op := o.(wpc := if c.ok then WLaunch else XStop))
    case WLaunch =>
      w.(back := CallLaunch(w.back, Tab(o.id, o.mode), o.url, o.profile, c),
         op := o.(wpc := if c.ok then WFinish else XStop))
  }

  /** The rollback: a failing stop is ignored, any later failure ends it. */
  function RollbackCall(w: World, c: Choice): World
    requires w.op.Switch? && RollingBack(w.op.wpc)
  {
    var o := w.op;
    match o.wpc
    case XStop => w.(back := CallStop(w.back, c), op := o.(wpc := XReset))
    case XReset => w.(back := CallReset(w.back, c), op := o.(wpc := if c.ok then XClear else XFail))
    case XClear => w.(back := CallClear(w.back, c), op := o.(wpc := if c.ok then XApply else XFail))
    case XApply => w.(back := CallApply(w.back, o.previous, c), op := o.(wpc := if c.ok then XLaunch else XFail))
    case XLaunch =>
      w.(back := CallLaunch(w.back, Tab(o.id + 1, o.previous), o.url, o.profile, c),
         op := o.(wpc := if c.ok then XFinish else XFail))
  }

  function StepSwitch(w: World, c: Choice): World
    requires w.op.Switch?
  {
    var o := w.op;
    if Switching(o.wpc) then SwitchCall(w, c)
    else if RollingBack(o.wpc) then RollbackCall(w, c)
    else
      match o.wpc
      case WValidate =>
        var (auth, valid) := ValidateContext(w.auth, o.context, w.now);
        w.(auth := auth, op := if valid then o.(wpc := WCheckId) else Free)
      case WCheckId => w.(op := if w.sess.snapshot.id == Some(o.expected) then o.(wpc := WBegin) else Free)
      case WBegin =>
        var (d, error) := BeginSwitch(w.sess, o.context.client);
        if error.Some? then Done(w.(sess := d))
        else w.(sess := d, nextId := w.nextId + 2,
                op := o.(wpc := WStop, url := d.snapshot.url.value, profile := d.snapshot.profile,
                         previous := d.snapshot.egress, id := w.nextId))
      case WFinish =>
        Done(w.(sess := FinishSwitch(w.sess, o.id, o.mode, o.url, w.now), back := w.back.(pushed := [o.url])))
      case XFinish =>
        Done(w.(sess := FinishRollback(w.sess, o.id + 1, o.previous, o.url, w.now), back := w.back.(pushed := [o.url])))
      case XFail => Done(w.(sess := FailSwitch(w.sess), back := w.back.(pushed := [])))
  }

  // ----- burn_controller_session, auto_burn_if_due, recover_expired_auth

  /** Who may burn: a validated context, an active session that has an inactivity threshold, or
      the recovery check. */
  function BurnCheck(w: World): World
    requires w.op.Burn?
  {
    var o := w.op;
    match o.kind
    case ByClient(context, _) =>
      var (auth, valid) := ValidateContext(w.auth, context, w.now);
      w.(auth := auth, op := if valid then o.(bpc := BCheckId) else Free)
    case Auto(_) =>
      if !w.sess.snapshot.phase.Active? || w.sess.snapshot.autoBurn == 0 then Done(w)
      else w.(op := o.(bpc := BCheckId, kind := Auto(w.sess.snapshot.autoBurn * SECOND)))
    case Recovery =>
      w.(auth := Prune(w.auth, w.now), op := if RecoveryRequired(w.auth, w.now) then o.(bpc := BCheckId) else Free)
  }

  function BurnCheckId(w: World): World
    requires w.op.Burn?
  {
    var o := w.op;
    match o.kind
    case ByClient(_, expected) =>
      w.(op := if w.sess.snapshot.id == Some(expected) then o.(bpc := BLease) else Free)
    case Auto(threshold) =>
      w.(op := if w.sess.lastActivity + threshold <= w.now then o.(bpc := BBegin) else Free)
    case Recovery =>
      w.(op := o.(bpc := if w.sess.snapshot.phase.Idle? then BRevoke else BBegin))
  }

  /** A lease conflict or an idle session skips to revocation: the burn result is returned only
      after the pairing material has been rotated. */
  function StepBurn(cfg: Config, w: World, c: Choice): World
    requires w.op.Burn?
  {
    var o := w.op;
    var o' := o.(faulted := o.faulted || !c.ok);
    match o.bpc
    case BCheck => BurnCheck(w)
    case BCheckId => BurnCheckId(w)
    case BLease =>
      var conflict := o.kind.ByClient? && EnsureLease(w.sess, o.kind.context.client).Some?;
      w.(op := o.(bpc := if conflict then BRevoke else BBegin))
    case BBegin =>
      w.(sess := BeginBurn(w.sess), op := o.(bpc := if w.sess.snapshot.phase.Idle? then BRevoke else BStop))
    case BStop => w.(back := CallStop(w.back, c), op := o'.(bpc := BReset, stopped := c.ok))
    case BReset => w.(back := CallReset(w.back, c), op := o'.(bpc := BClear, reset := c.ok))
    case BClear => w.(back := CallClear(w.back, c), op := o'.(bpc := BFinish, cleared := c.ok))
    case BFinish =>
      w.(sess := FinishBurn(cfg.session, o.stopped && o.reset && o.cleared, w.now),
         back := w.back.(pushed := [], burned := Some(w.auth.generation)), op := o.(bpc := BRevoke))
    case BRevoke => w.(auth := RevokeAll(w.auth), op := o.(bpc := BRotate))
    case BRotate =>
      if !c.ok then Done(w)
      else
        var m := PairingMaterial(w.nextId, w.nextId + 1);
        w.(auth := RotatePairing(w.auth, m), nextId := w.nextId + 2,
           people := w.people.(exchanged := None, material := m), op := o.(bpc := BWrite))
    case BWrite =>
      if c.ok then Done(w.(people := w.people.(file := w.people.material)))
      else w.(op := o'.(bpc := BInvalidate))
    case BInvalidate => Done(w.(auth := InvalidateUnpublished(w.auth)))
  }

  // ----- everything that can happen

  datatype Action =
    | AcquireStart(context: AuthContext, url: Url)
    | AcquireNavigate(context: AuthContext, expected: nat, command: Navigation)
    | AcquireSwitch(context: AuthContext, expected: nat, mode: EgressMode)
    | AcquireBurn(kind: BurnKind)
    | Advance(choice: Choice)
    | Drop
    | Exchange(presented: nat, sessionDrawn: bool, csrfDrawn: bool)
    | Login(cookie: Option<nat>, csrf: Option<nat>, requireCsrf: bool)
    | IssueFor(context: AuthContext, purpose: TicketPurpose, drawn: bool)
    | Present(ticket: nat, purpose: TicketPurpose)
    | SetFor(context: AuthContext, setting: Setting)
    | Tick(elapsed: nat)

  /** Points at which a request future can be dropped: right before the next await. */
  predicate Droppable(o: Op) {
    match o
    case Free => false
    case Start(spc, _, _, _, _, _) => spc != SValidate && spc != SClear
    case Navigate(npc, _, _, _) => npc != NValidate
    case Switch(wpc, _, _, _, _, _, _, _) => wpc != WValidate && wpc != WClear && wpc != XClear
    case Burn(bpc, _, _, _, _, _, _) =>
      bpc == BCheckId || bpc == BLease || bpc == BBegin || bpc == BStop || bpc == BReset || bpc == BFinish
  }

  /** The mode an egress call asks for, if the next step of an operation is one. */
  function EgressCallOf(o: Op): Option<EgressMode> {
    match o
    case Start(spc, _, _, _, _, egress) =>
      if spc == SApply then Some(egress) else if spc == SReset then Some(Direct) else None
    case Switch(wpc, _, _, mode, _, _, previous, _) =>
      if wpc == WApply then Some(mode) else if wpc == XApply then Some(previous)
      else if wpc == WReset || wpc == XReset then Some(Direct) else None
    case Burn(bpc, _, _, _, _, _, _) => if bpc == BReset then Some(Direct) else None
    case _ => None
  }

  predicate ResetsNext(o: Op) {
    || (o.Start? && o.spc == SReset) || (o.Burn? && o.bpc == BReset)
    || (o.Switch? && (o.wpc == WReset || o.wpc == XReset))
  }

  /** The command an operation sends to the helper next, if any. */
  function EgressRequestOf(o: Op): Option<NetTransition.EgressCommand> {
    if ResetsNext(o) then Some(NetTransition.Reset)
    else if EgressCallOf(o).Some? then Some(NetTransition.Apply(EgressCallOf(o).value))
    else None
  }

  function LaunchOf(o: Op): Option<Tab> {
    match o
    case Start(spc, _, _, id, _, egress) => if spc == SLaunch then Some(Tab(id, egress)) else None
    case Switch(wpc, _, _, mode, _, _, previous, id) =>
      if wpc == WLaunch then Some(Tab(id, mode)) else if wpc == XLaunch then Some(Tab(id + 1, previous)) else None
    case _ => None
  }

  predicate StopsNext(o: Op) {
    || (o.Start? && o.spc == SStop)
    || (o.Switch? && (o.wpc == WStop || o.wpc == XStop))
    || (o.Burn? && o.bpc == BStop)
  }

  /** The command an operation sends to the bridge next, if any. */
  function BrowserCallOf(o: Op): Option<BrowserHistory.Command> {
    if StopsNext(o) then Some(BrowserHistory.Stop)
    else if LaunchOf(o).None? then
      if o.Navigate? && o.npc == NCall then Some(BrowserHistory.Navigate(o.command)) else None
    else
      var tab := LaunchOf(o).value;
      if o.Start? then Some(BrowserHistory.Start(tab.id, o.url, o.profile, tab.egress))
      else if o.Switch? then Some(BrowserHistory.Start(tab.id, o.url, o.profile, tab.egress))
      else None
  }

  /** The helper's answer to one request.  The request may not get there; if it does, the daemon sees
      success only if the helper granted it, but may miss a success. */
  ghost predicate EgressOutcome(cfg: Config, net: NetTransition.Net, command: NetTransition.EgressCommand,
                                next: NetTransition.Net, ok: bool) {
    || (next == net && !ok)
    || exists host, tape ::
         var (served, reply) := NetTransition.Serve(cfg.net, command, host, net, tape);
         served == next && (ok ==> reply.ok)
  }

  /** The backends answer only as backends do: the helper as a helper, the bridge as the bridge. */
  ghost predicate Possible(cfg: Config, w: World, c: Choice) {
    && (EgressRequestOf(w.op).Some? ==> EgressOutcome(cfg, w.back.net, EgressRequestOf(w.op).value, c.net, c.ok))
    && (BrowserCallOf(w.op).Some? && c.ok ==> Granted(w.back.bridge, BrowserCallOf(w.op).value, c.delivery))
  }

  ghost predicate Enabled(cfg: Config, w: World, a: Action) {
    match a
    case AcquireStart(context, _) => w.op.Free? && context in w.people.contexts
    case AcquireNavigate(context, _, _) => w.op.Free? && context in w.people.contexts
    case AcquireSwitch(context, _, _) => w.op.Free? && context in w.people.contexts
    case AcquireBurn(kind) => w.op.Free? && (kind.ByClient? ==> kind.context in w.people.contexts)
    case Advance(choice) => !w.op.Free? && Possible(cfg, w, choice)
    case Drop => Droppable(w.op)
    case IssueFor(context, _, _) => context in w.people.contexts
    case SetFor(context, _) => context in w.people.contexts
    case _ => true
  }

  function DoExchange(cfg: Config, w: World, presented: nat, sessionDrawn: bool, csrfDrawn: bool): World {
    var client := w.nextId + 2;
    var draw := Draw(if sessionDrawn then Some(w.nextId) else None,
                     if csrfDrawn then Some(w.nextId + 1) else None,
                     client);
    var (auth, r) := ExchangePairing(w.auth, cfg.ttl, presented, w.now, draw);
    var paired := w.people.(exchanged := Some(client), clients := w.people.clients[client := w.auth.generation]);
    w.(auth := auth, nextId := w.nextId + 3, people := if r.Ok? then paired else w.people)
  }

  function Hold(p: People, r: Result<AuthContext, AppError>): People {
    if r.Ok? then p.(contexts := p.contexts + {r.value}) else p
  }

  ghost function Do(cfg: Config, w: World, a: Action): World {
    match a
    case AcquireStart(context, url) => w.(op := Start(SValidate, context, url, 0, FullHd30, Direct))
    case AcquireNavigate(context, expected, command) => w.(op := Navigate(NValidate, context, expected, command))
    case AcquireSwitch(context, expected, mode) =>
      w.(op := Switch(WValidate, context, expected, mode, Url("", None, ""), FullHd30, Direct, 0))
    case AcquireBurn(kind) => w.(op := Burn(BCheck, kind, false, false, false, w.auth.generation, false))
    case Advance(choice) =>
      (match w.op
       case Free => w
       case Start(_, _, _, _, _, _) => StepStart(cfg, w, choice)
       case Navigate(_, _, _, _) => StepNavigate(cfg, w, choice)
       case Switch(_, _, _, _, _, _, _, _) => StepSwitch(w, choice)
       case Burn(_, _, _, _, _, _, _) => StepBurn(cfg, w, choice))
    case Drop => Done(w)
    case Exchange(presented, sessionDrawn, csrfDrawn) => DoExchange(cfg, w, presented, sessionDrawn, csrfDrawn)
    case Login(cookie, csrf, requireCsrf) =>
      var (auth, r) := Authenticate(w.auth, cookie, csrf, requireCsrf, w.now);
      w.(auth := auth, people := Hold(w.people, r))
    case IssueFor(context, purpose, drawn) =>
      var (auth, r) := IssueTicket(w.auth, cfg.ttl, context, purpose, w.now, if drawn then Some(w.nextId) else None);
      w.(auth := auth, nextId := w.nextId + 1)
    case Present(ticket, purpose) =>
      var (auth, r) := ConsumeTicket(w.auth, ticket, purpose, w.now);
      w.(auth := auth, people := Hold(w.people, r))
    case SetFor(context, setting) =>
      var r := ChangeSetting(w.sess, context.client, setting, w.now);
      w.(sess := if r.Ok? then r.value else w.sess)
    case Tick(elapsed) => w.(now := w.now + elapsed)
  }

  /** The daemon right after start-up: pairing material drawn and published, no session.  It finds the
      helper and the bridge as they are; nothing stops a browser that an earlier daemon has left. */
  function Boot(cfg: Config, net: NetTransition.Net, bridge: BrowserHistory.Bridge, now: nat): World {
    var m := PairingMaterial(0, 1);
    World(RotatePairing(NEW_AUTH, m), People({}, None, map[], m, m), NewSession(cfg.session, now),
          Backends(net, bridge, false, [], [], bridge.child.Some?, None), Free, now, 2)
  }

  ghost predicate Run(cfg: Config, start: World, actions: seq<Action>, end: World) {
    if actions == [] then end == start
    else
      var last := |actions| - 1;
      exists before :: Run(cfg, start, actions[..last], before)
                       && Enabled(cfg, before, actions[last]) && end == Do(cfg, before, actions[last])
  }
}
