/**
 * The daemon's operations as the source writes them: methods that hold the lifecycle lock and pause
 * at every step, where other requests run and where the request itself may be dropped.  Each method
 * is proved to take exactly the steps of the transition system.
 */
module Daemon {
  import opened Types
  import opened Auth
  import opened Session
  import opened Lifecycle
  import opened BlocklistTools
  import BrowserHistory
  import LifecycleSteps
  import LifecycleTheorems
  import NetTransition

  /** What happens around one step: what others do before it, how it goes, whether it is dropped. */
  datatype Turn = Turn(others: seq<Action>, choice: Choice, dropped: bool)

  type Script = nat -> Turn

  predicate LockFree(a: Action) {
    a.Exchange? || a.Login? || a.IssueFor? || a.Present? || a.SetFor? || a.Tick?
  }

  ghost function Aside(cfg: Config, w: World, a: Action): (v: World)
    ensures v.op == w.op
  {
    if LockFree(a) then Do(cfg, w, a) else w
  }

  ghost function Others(cfg: Config, w: World, actions: seq<Action>): (v: World)
    ensures v.op == w.op
  {
    if actions == [] then w
    else Aside(cfg, Others(cfg, w, actions[..|actions| - 1]), actions[|actions| - 1])
  }

  /** An upper bound on the steps an operation still takes. */
  function StepsToGo(o: Op): nat {
    match o
    case Free => 0
    case Start(spc, _, _, _, _, _) =>
      (match spc
       case SValidate => 8 case SBegin => 7 case SApply => 6 case SLaunch => 5 case SStop => 4
       case SReset => 3 case SClear => 2 case SFail => 1 case SFinish => 1)
    case Navigate(npc, _, _, _) =>
      (match npc case NValidate => 5 case NCheckId => 4 case NBegin => 3 case NCall => 2 case NFinish => 1)
    case Switch(wpc, _, _, _, _, _, _, _) =>
      (match wpc
       case WValidate => 14 case WCheckId => 13 case WBegin => 12 case WStop => 11 case WReset => 10
       case WClear => 9 case WApply => 8 case WLaunch => 7 case WFinish => 1
       case XStop => 6 case XReset => 5 case XClear => 4 case XApply => 3 case XLaunch => 2
       case XFinish => 1 case XFail => 1)
    case Burn(bpc, _, _, _, _, _, _) =>
      (match bpc
       case BCheck => 12 case BCheckId => 11 case BLease => 10 case BBegin => 9 case BStop => 8
       case BReset => 7 case BClear => 6 case BFinish => 5 case BRevoke => 4 case BRotate => 3
       case BWrite => 2 case BInvalidate => 1)
  }

  lemma StartDecreases(cfg: Config, w: World, c: Choice)
    requires w.op.Start?
    ensures StepsToGo(StepStart(cfg, w, c).op) < StepsToGo(w.op)
  {
    hide ValidateContext, BeginStart, Blocked;
  }

  lemma NavigateDecreases(cfg: Config, w: World, c: Choice)
    requires w.op.Navigate?
    ensures StepsToGo(StepNavigate(cfg, w, c).op) < StepsToGo(w.op)
  {
    hide ValidateContext, BeginNavigate, Blocked;
  }

  lemma SwitchDecreases(w: World, c: Choice)
    requires w.op.Switch?
    ensures StepsToGo(StepSwitch(w, c).op) < StepsToGo(w.op)
  {
    hide ValidateContext, BeginSwitch;
  }

  lemma BurnDecreases(cfg: Config, w: World, c: Choice)
    requires w.op.Burn?
    ensures StepsToGo(StepBurn(cfg, w, c).op) < StepsToGo(w.op)
  {
    hide StepBurn;
    if w.op.bpc == BCheck || w.op.bpc == BCheckId {
      BurnCheckDecreases(cfg, w, c);
    } else if Calling(w.op) {
      BurnCalls(cfg, w, c);
      assert AfterCall(w.op, c.ok).Burn?;
    } else {
      BurnRestDecreases(cfg, w, c);
    }
  }

  lemma BurnRestDecreases(cfg: Config, w: World, c: Choice)
    requires w.op.Burn? && w.op.bpc != BCheck && w.op.bpc != BCheckId && !Calling(w.op)
    ensures StepsToGo(StepBurn(cfg, w, c).op) < StepsToGo(w.op)
  {
    hide EnsureLease, RevokeAll, RotatePairing, InvalidateUnpublished, BeginBurn, FinishBurn, BurnCheck, BurnCheckId,
         Tell;
  }

  lemma BurnCheckDecreases(cfg: Config, w: World, c: Choice)
    requires w.op.Burn? && (w.op.bpc == BCheck || w.op.bpc == BCheckId)
    ensures StepsToGo(StepBurn(cfg, w, c).op) < StepsToGo(w.op)
  {
    hide ValidateContext, Prune, RecoveryRequired, FinishBurn, EnsureLease, Tell;
  }

  lemma StepsDecrease(cfg: Config, w: World, c: Choice)
    requires !w.op.Free?
    ensures StepsToGo(Do(cfg, w, Advance(c)).op) < StepsToGo(w.op)
  {
    hide StepStart, StepNavigate, StepSwitch, StepBurn, StepsToGo;
    match w.op {
      case Start(_, _, _, _, _, _) => StartDecreases(cfg, w, c);
      case Navigate(_, _, _, _) => NavigateDecreases(cfg, w, c);
      case Switch(_, _, _, _, _, _, _, _) => SwitchDecreases(w, c);
      case Burn(_, _, _, _, _, _, _) => BurnDecreases(cfg, w, c);
    }
  }

  // ----- answers

  datatype Reply = Replied(error: Option<AppError>) | NotDue | Dropped

  const DONE := Replied(None)

  /** The failure of a burn that is reported only after the rotation. */
  function Note(w: World, fault: Option<AppError>): Option<AppError> {
    if w.op.Burn? && w.op.bpc == BLease && w.op.kind.ByClient? && EnsureLease(w.sess, w.op.kind.context.client).Some?
    then EnsureLease(w.sess, w.op.kind.context.client)
    else if w.op.Burn? && w.op.bpc == BFinish
        && !(w.op.stopped && w.op.reset && w.op.cleared) then Some(ServiceUnavailable)
    else fault
  }

  /** A burn that has rotated reports its own failure first. */
  function RotationReply(fault: Option<AppError>, published: bool): Reply {
    if fault.Some? then Replied(fault) else if published then DONE else Replied(Some(Internal))
  }

  /** The answer of an operation that ends with this step. */
  ghost function Answer(cfg: Config, w: World, c: Choice, fault: Option<AppError>): Reply {
    match w.op
    case Free => DONE
    case Start(spc, context, url, _, _, _) =>
      if spc == SValidate then Replied(Some(Unauthorized))
      else if spc == SBegin then
        var r := BeginStart(w.sess, context.client, url, Blocked(cfg, url), w.nextId, w.now);
        if r.Err? then Replied(Some(r.error)) else DONE
      else if spc == SFinish then DONE
      else Replied(Some(ServiceUnavailable))
    case Navigate(npc, context, _, command) =>
      if npc == NValidate then Replied(Some(Unauthorized))
      else if npc == NCheckId then Replied(Some(NotFound))
      else if npc == NBegin then
        Replied(BeginNavigate(w.sess, context.client, command, command.Visit? && Blocked(cfg, command.url), w.now).1)
      else if npc == NFinish then DONE
      else Replied(Some(ServiceUnavailable))
    case Switch(wpc, context, _, _, _, _, _, _) =>
      if wpc == WValidate then Replied(Some(Unauthorized))
      else if wpc == WCheckId then Replied(Some(NotFound))
      else if wpc == WBegin then Replied(BeginSwitch(w.sess, context.client).1)
      else if wpc == WFinish then DONE
      else Replied(Some(ServiceUnavailable))
    case Burn(bpc, kind, _, _, _, _, _) =>
      if bpc == BCheck then if kind.ByClient? then Replied(Some(Unauthorized)) else NotDue
      else if bpc == BCheckId then if kind.ByClient? then Replied(Some(NotFound)) else NotDue
      else RotationReply(fault, bpc == BWrite)
  }

  datatype Goal = Goal(world: World, reply: Reply)

  /** The operation in `w`, run to its end beside the given script, and what it answers. */
  ghost function Proceed(cfg: Config, w: World, fault: Option<AppError>, script: Script, k: nat): (g: Goal)
    requires !w.op.Free?
    ensures g.world.op.Free?
    decreases StepsToGo(w.op)
  {
    var t := script(k);
    var v := Others(cfg, w, t.others);
    if t.dropped && Droppable(v.op) then Goal(Done(v), Dropped)
    else
      StepsDecrease(cfg, v, t.choice);
      var next := Do(cfg, v, Advance(t.choice));
      if next.op.Free? then Goal(next, Answer(cfg, v, t.choice, fault))
      else Proceed(cfg, next, Note(v, fault), script, k + 1)
  }

  // ----- running to the end is a run of the transition system

  ghost predicate OthersEnabled(cfg: Config, w: World, actions: seq<Action>) {
    actions == []
    || (var front, last := actions[..|actions| - 1], actions[|actions| - 1];
        OthersEnabled(cfg, w, front) && (LockFree(last) ==> Enabled(cfg, Others(cfg, w, front), last)))
  }

  /** Everything in the script is something the world can do at its point. */
  ghost predicate Honest(cfg: Config, w: World, script: Script, k: nat)
    decreases StepsToGo(w.op)
  {
    w.op.Free? ||
    (var t := script(k);
     var v := Others(cfg, w, t.others);
     OthersEnabled(cfg, w, t.others) &&
     ((t.dropped && Droppable(v.op)) ||
      (StepsDecrease(cfg, v, t.choice);
       Possible(cfg, v, t.choice) && Honest(cfg, Do(cfg, v, Advance(t.choice)), script, k + 1))))
  }

  lemma {:induction false} ReachableOthers(cfg: Config, w: World, actions: seq<Action>)
    requires LifecycleTheorems.Reachable(cfg, w) && OthersEnabled(cfg, w, actions)
    ensures LifecycleTheorems.Reachable(cfg, Others(cfg, w, actions))
  {
    hide LifecycleTheorems.Reachable, Do, Enabled;
    if actions != [] {
      var front := actions[..|actions| - 1];
      ReachableOthers(cfg, w, front);
      if LockFree(actions[|actions| - 1]) {
        LifecycleTheorems.ReachableStep(cfg, Others(cfg, w, front), actions[|actions| - 1]);
      }
    }
  }

  /** Whatever an operation does beside an honest script stays within the reachable states. */
  lemma {:induction false} ProceedIsReachable(cfg: Config, w: World, fault: Option<AppError>, script: Script, k: nat)
    requires !w.op.Free?
    requires LifecycleTheorems.Reachable(cfg, w) && Honest(cfg, w, script, k)
    ensures LifecycleTheorems.Reachable(cfg, Proceed(cfg, w, fault, script, k).world)
    decreases StepsToGo(w.op)
  {
    hide LifecycleTheorems.Reachable, Do, Possible, Others, Note, Answer;
    var t := script(k);
    var v := Others(cfg, w, t.others);
    ReachableOthers(cfg, w, t.others);
    if t.dropped && Droppable(v.op) {
      DropIsDone(cfg, v);
      LifecycleTheorems.ReachableStep(cfg, v, Drop);
    } else {
      AdvanceEnabled(cfg, v, t.choice);
      LifecycleTheorems.ReachableStep(cfg, v, Advance(t.choice));
      StepsDecrease(cfg, v, t.choice);
      var next := Do(cfg, v, Advance(t.choice));
      if !next.op.Free? {
        ProceedIsReachable(cfg, next, Note(v, fault), script, k + 1);
      }
    }
  }

  /** From a reachable state, an operation run to its end beside an honest script ends in a reachable
      state, so everything proved of reachable states holds when the lock is released. */
  lemma OperationStaysReachable(cfg: Config, w: World, a: Action, script: Script, k: nat)
    requires LifecycleTheorems.Reachable(cfg, w) && Enabled(cfg, w, a) && !Do(cfg, w, a).op.Free?
    requires Honest(cfg, Do(cfg, w, a), script, k)
    ensures LifecycleTheorems.Reachable(cfg, Proceed(cfg, Do(cfg, w, a), None, script, k).world)
  {
    hide LifecycleTheorems.Reachable, Do, Enabled, Honest, Proceed;
    LifecycleTheorems.ReachableStep(cfg, w, a);
    ProceedIsReachable(cfg, Do(cfg, w, a), None, script, k);
  }

  lemma DropIsDone(cfg: Config, w: World)
    ensures Do(cfg, w, Drop) == Done(w)
    ensures Droppable(w.op) ==> Enabled(cfg, w, Drop)
  {
  }

  lemma AdvanceEnabled(cfg: Config, w: World, c: Choice)
    requires !w.op.Free? && Possible(cfg, w, c)
    ensures Enabled(cfg, w, Advance(c))
  {
  }

  // ----- the program counters that the operations share

  predicate Validating(o: Op, context: AuthContext) {
    || (o.Start? && o.spc == SValidate && o.context == context)
    || (o.Navigate? && o.npc == NValidate && o.context == context)
    || (o.Switch? && o.wpc == WValidate && o.context == context)
    || (o.Burn? && o.bpc == BCheck && o.kind.ByClient? && o.kind.context == context)
  }

  function Validated(o: Op): Op
    requires !o.Free?
  {
    match o
    case Start(_, _, _, _, _, _) => o.(spc := SBegin)
    case Navigate(_, _, _, _) => o.(npc := NCheckId)
    case Switch(_, _, _, _, _, _, _, _) => o.(wpc := WCheckId)
    case Burn(_, _, _, _, _, _, _) => o.(bpc := BCheckId)
  }

  predicate CheckingId(o: Op, expected: nat) {
    || (o.Navigate? && o.npc == NCheckId && o.expected == expected)
    || (o.Switch? && o.wpc == WCheckId && o.expected == expected)
    || (o.Burn? && o.bpc == BCheckId && o.kind.ByClient? && o.kind.expected == expected)
  }

  function IdChecked(o: Op): Op
    requires !o.Free? && !o.Start?
  {
    match o
    case Navigate(_, _, _, _) => o.(npc := NBegin)
    case Switch(_, _, _, _, _, _, _, _) => o.(wpc := WBegin)
    case Burn(_, _, _, _, _, _, _) => o.(bpc := BLease)
  }

  predicate Calling(o: Op) {
    match o
    case Free => false
    case Start(spc, _, _, _, _, _) => spc == SApply || spc == SLaunch || spc == SStop || spc == SReset || spc == SClear
    case Navigate(npc, _, _, _) => npc == NCall
    case Switch(wpc, _, _, _, _, _, _, _) => Switching(wpc) || RollingBack(wpc)
    case Burn(bpc, _, _, _, _, _, _) => bpc == BStop || bpc == BReset || bpc == BClear
  }

  predicate ClearsNext(o: Op) {
    || (o.Start? && o.spc == SClear) || (o.Burn? && o.bpc == BClear)
    || (o.Switch? && (o.wpc == WClear || o.wpc == XClear))
  }

  predicate AppliesNext(o: Op, mode: EgressMode) {
    || (o.Start? && o.spc == SApply && o.egress == mode)
    || (o.Switch? && o.wpc == WApply && o.mode == mode)
    || (o.Switch? && o.wpc == XApply && o.previous == mode)
  }

  /** Where an operation goes on after a backend call. */
  function AfterCall(o: Op, ok: bool): Op
    requires Calling(o)
  {
    match o
    case Start(spc, _, _, _, _, _) =>
      o.(spc := match spc
        case SApply => if ok then SLaunch else SReset
        case SLaunch => if ok then SFinish else SStop
        case SStop => SReset
        case SReset => SClear
        case _ => SFail)
    case Navigate(_, _, _, _) => if ok then o.(npc := NFinish) else Free
    case Switch(wpc, _, _, _, _, _, _, _) =>
      o.(wpc := match wpc
        case WStop => if ok then WReset else XStop
        case WReset => if ok then WClear else XStop
        case WClear => if ok then WApply else XStop
        case WApply => if ok then WLaunch else XStop
        case WLaunch => if ok then WFinish else XStop
        case XStop => XReset
        case XReset => if ok then XClear else XFail
        case XClear => if ok then XApply else XFail
        case XApply => if ok then XLaunch else XFail
        case _ => if ok then XFinish else XFail)
    case Burn(bpc, _, _, stopped, reset, cleared, _) =>
      var f := o.(faulted := o.faulted || !ok);
      if bpc == BStop then f.(bpc := BReset, stopped := ok)
      else if bpc == BReset then f.(bpc := BClear, reset := ok)
      else f.(bpc := BFinish, cleared := ok)
  }

  function CallOf(w: World, c: Choice): Backends {
    if StopsNext(w.op) then CallStop(w.back, c)
    else if ResetsNext(w.op) then CallReset(w.back, c)
    else if ClearsNext(w.op) then CallClear(w.back, c)
    else if LaunchOf(w.op).Some? && BrowserCallOf(w.op).Some? then
      CallLaunch(w.back, LaunchOf(w.op).value, BrowserCallOf(w.op).value.url, BrowserCallOf(w.op).value.profile, c)
    else if w.op.Navigate? then CallNavigate(w.back, w.op.command, c)
    else if EgressCallOf(w.op).Some? then CallApply(w.back, EgressCallOf(w.op).value, c)
    else w.back
  }

  lemma StartCalls(cfg: Config, w: World, c: Choice)
    requires w.op.Start? && Calling(w.op)
    ensures StepStart(cfg, w, c) == w.(back := CallOf(w, c), op := AfterCall(w.op, c.ok))
  {
    hide ValidateContext, BeginStart, Blocked;
  }

  lemma SwitchCalls(w: World, c: Choice)
    requires w.op.Switch? && Calling(w.op)
    ensures StepSwitch(w, c) == w.(back := CallOf(w, c), op := AfterCall(w.op, c.ok))
  {
    hide ValidateContext, BeginSwitch, CallStop, CallReset, CallClear, CallLaunch, CallApply;
  }

  lemma BurnCalls(cfg: Config, w: World, c: Choice)
    requires w.op.Burn? && Calling(w.op)
    ensures StepBurn(cfg, w, c) == w.(back := CallOf(w, c), op := AfterCall(w.op, c.ok))
  {
    hide BurnCheck, BurnCheckId, EnsureLease;
  }

  lemma CallStep(cfg: Config, w: World, c: Choice)
    requires Calling(w.op)
    ensures Do(cfg, w, Advance(c)) == w.(back := CallOf(w, c), op := AfterCall(w.op, c.ok))
    ensures forall fault :: Note(w, fault) == fault
    ensures !w.op.Navigate? ==> !AfterCall(w.op, c.ok).Free?
  {
    hide CallOf, Blocked, StepStart, StepSwitch, StepBurn;
    match w.op {
      case Start(_, _, _, _, _, _) => StartCalls(cfg, w, c);
      case Navigate(_, _, _, _) => NavigateCalls(cfg, w, c);
      case Switch(_, _, _, _, _, _, _, _) => SwitchCalls(w, c);
      case Burn(_, _, _, _, _, _, _) => BurnCalls(cfg, w, c);
    }
  }

  lemma NavigateCalls(cfg: Config, w: World, c: Choice)
    requires w.op.Navigate? && Calling(w.op)
    ensures StepNavigate(cfg, w, c) == w.(back := CallOf(w, c), op := AfterCall(w.op, c.ok))
  {
    hide ValidateContext, BeginNavigate, Blocked;
  }

  lemma ValidateStep(cfg: Config, w: World, context: AuthContext, c: Choice)
    requires Validating(w.op, context)
    ensures var (auth, valid) := ValidateContext(w.auth, context, w.now);
      Do(cfg, w, Advance(c)) == w.(auth := auth, op := if valid then Validated(w.op) else Free)
    ensures forall fault :: Answer(cfg, w, c, fault) == Replied(Some(Unauthorized)) && Note(w, fault) == fault
  {
    hide ValidateContext, BeginStart, BeginNavigate, BeginSwitch, SwitchCall, RollbackCall, BurnCheckId;
  }

  lemma CheckIdStep(cfg: Config, w: World, expected: nat, c: Choice)
    requires CheckingId(w.op, expected)
    ensures Do(cfg, w, Advance(c)) == w.(op := if w.sess.snapshot.id == Some(expected) then IdChecked(w.op) else Free)
    ensures forall fault :: Answer(cfg, w, c, fault) == Replied(Some(NotFound)) && Note(w, fault) == fault
  {
    hide ValidateContext, BeginStart, BeginNavigate, BeginSwitch, SwitchCall, RollbackCall, BurnCheck;
  }

  lemma RollbackEnds(cfg: Config, w: World, c: Choice)
    requires w.op.Switch? && (w.op.wpc == XFinish || w.op.wpc == XFail)
    ensures Do(cfg, w, Advance(c))
         == if w.op.wpc == XFinish
            then Done(w.(sess := FinishRollback(w.sess, w.op.id + 1, w.op.previous, w.op.url, w.now),
                         back := w.back.(pushed := [w.op.url])))
            else Done(w.(sess := FailSwitch(w.sess), back := w.back.(pushed := [])))
    ensures forall fault :: Answer(cfg, w, c, fault) == Replied(Some(ServiceUnavailable))
  {
    hide StepSwitch, FinishRollback, FailSwitch;
    LifecycleSteps.SwitchEndStep(w, c);
  }

  lemma ClaimStep(cfg: Config, w: World, c: Choice)
    requires w.op.Start? && w.op.spc == SBegin
    ensures var r := BeginStart(w.sess, w.op.context.client, w.op.url, Blocked(cfg, w.op.url), w.nextId, w.now);
            && Do(cfg, w, Advance(c))
               == (match r
                   case Err(_) => Done(w)
                   case Ok(d) =>
                     w.(sess := d, nextId := w.nextId + 1,
                        op := w.op.(spc := SApply, id := w.nextId, profile := d.snapshot.profile,
                                    egress := d.snapshot.egress)))
            && forall fault ::
                 Note(w, fault) == fault && (r.Err? ==> Answer(cfg, w, c, fault) == Replied(Some(r.error)))
  {
    hide BeginStart, Blocked, ValidateContext;
  }

  lemma SuspendStep(cfg: Config, w: World, c: Choice)
    requires w.op.Switch? && w.op.wpc == WBegin
    ensures var (d, error) := BeginSwitch(w.sess, w.op.context.client);
            && Do(cfg, w, Advance(c))
               == (if error.Some? then Done(w.(sess := d))
                   else w.(sess := d, nextId := w.nextId + 2,
                           op := w.op.(wpc := WStop, url := d.snapshot.url.value, profile := d.snapshot.profile,
                                       previous := d.snapshot.egress, id := w.nextId)))
            && forall fault ::
                 Note(w, fault) == fault && (error.Some? ==> Answer(cfg, w, c, fault) == Replied(error))
  {
    hide ValidateContext, SwitchCall, RollbackCall;
  }

  lemma RotateStep(cfg: Config, w: World, c: Choice)
    requires w.op.Burn? && w.op.bpc == BRotate
    ensures var m := PairingMaterial(w.nextId, w.nextId + 1);
            Do(cfg, w, Advance(c))
            == if c.ok then w.(auth := RotatePairing(w.auth, m), nextId := w.nextId + 2,
                               people := w.people.(exchanged := None, material := m), op := w.op.(bpc := BWrite))
               else Done(w)
    ensures forall fault :: Answer(cfg, w, c, fault) == RotationReply(fault, false) && Note(w, fault) == fault
  {
    hide BurnCheck, BurnCheckId, EnsureLease, FinishBurn, Tell, RotatePairing;
  }

  lemma NotDroppable(o: Op, context: AuthContext)
    requires Validating(o, context)
    ensures !Droppable(o)
  {
  }

  // ----- the operations

  class AppState {
    const cfg: Config
    const auth: AuthManager
    const sessions: SessionManager
    const script: Script
    var people: People
    var back: Backends
    var now: nat
    var nextId: nat
    var clock: nat
    ghost var op: Op
    ghost var fault: Option<AppError>

    ghost predicate Valid() {
      auth.ttl == cfg.ttl && sessions.cfg == cfg.session && sessions.blocklist.list == cfg.blocklist
    }

    ghost function View(): World
      reads this, auth, sessions
    {
      World(auth.State(), people, sessions.Data(), back, op, now, nextId)
    }

    /** The operation under way is going to end as `goal` says. */
    ghost predicate OnTrack(goal: Goal)
      reads this, auth, sessions
    {
      !op.Free? && Proceed(cfg, View(), fault, script, clock) == goal
    }

    /** Start-up: no session, and the first pairing material drawn and published. */
    constructor (cfg: Config, net: NetTransition.Net, bridge: BrowserHistory.Bridge, now: nat, script: Script)
      ensures Valid() && View() == Boot(cfg, net, bridge, now)
      ensures this.cfg == cfg && this.script == script && clock == 0
    {
      this.cfg := cfg;
      this.script := script;
      auth := new AuthManager(cfg.ttl);
      var blocklist := new Matcher(cfg.blocklist);
      sessions := new SessionManager(cfg.session, blocklist, now);
      people := People({}, None, map[], PairingMaterial(0, 1), PairingMaterial(0, 1));
      back := Backends(net, bridge, false, [], [], bridge.child.Some?, None);
      this.now, nextId, clock, op, fault := now, 2, 0, Free, None;
      new;
      var r := auth.Rotate(Some(PairingMaterial(0, 1)));
    }

    method RunExchange(presented: nat, sessionDrawn: bool, csrfDrawn: bool)
      requires Valid()
      modifies this`people, this`nextId, auth
      ensures View() == DoExchange(cfg, old(View()), presented, sessionDrawn, csrfDrawn)
    {
      hide ExchangePairing;
      var client, generation := nextId + 2, auth.generation;
      var draw := Draw(if sessionDrawn then Some(nextId) else None,
                       if csrfDrawn then Some(nextId + 1) else None,
                       client);
      var r := auth.Exchange(presented, now, draw);
      if r.Ok? {
        people := people.(exchanged := Some(client), clients := people.clients[client := generation]);
      }
      nextId := nextId + 3;
    }

    method RunOther(a: Action)
      requires Valid()
      modifies this`people, this`now, this`nextId, auth, sessions
      ensures View() == Aside(cfg, old(View()), a)
    {
      hide DoExchange, Authenticate, IssueTicket, ConsumeTicket, ChangeSetting;
      match a {
        case Exchange(presented, sessionDrawn, csrfDrawn) =>
          RunExchange(presented, sessionDrawn, csrfDrawn);
        case Login(cookie, csrf, requireCsrf) =>
          var r := auth.Login(cookie, csrf, requireCsrf, now);
          people := Hold(people, r);
        case IssueFor(context, purpose, drawn) =>
          var r := auth.Issue(context, purpose, now, if drawn then Some(nextId) else None);
          nextId := nextId + 1;
        case Present(ticket, purpose) =>
          var r := auth.Consume(ticket, purpose, now);
          people := Hold(people, r);
        case SetFor(context, setting) =>
          var error := sessions.Set(context.client, setting, now);
        case Tick(elapsed) =>
          now := now + elapsed;
        case _ =>
      }
    }

    method RunOthers(actions: seq<Action>)
      requires Valid()
      modifies this`people, this`now, this`nextId, auth, sessions
      ensures View() == Others(cfg, old(View()), actions)
    {
      hide Aside;
      for i := 0 to |actions|
        invariant View() == Others(cfg, old(View()), actions[..i])
      {
        RunOther(actions[i]);
        assert actions[..i + 1][..i] == actions[..i];
      }
      assert actions[..|actions|] == actions;
    }

    /** A point between two steps.  `awaits` says whether the source awaits something here, so that a
        request whose client has gone can disappear. */
    method Pause(awaits: bool, ghost goal: Goal) returns (c: Choice, dropped: bool)
      requires Valid() && OnTrack(goal) && !op.Free? && awaits == Droppable(op)
      modifies this`people, this`now, this`nextId, this`clock, this`op, auth, sessions
      ensures dropped ==> goal == Goal(View(), Dropped)
      ensures !dropped ==> op == old(op)
      ensures !dropped ==>
        (var next := Do(cfg, View(), Advance(c));
         goal == if next.op.Free? then Goal(next, Answer(cfg, View(), c, fault))
                 else Proceed(cfg, next, Note(View(), fault), script, clock))
      ensures !awaits ==> !dropped
    {
      hide Others, Do, StepsToGo;
      var t := script(clock);
      ghost var w := View();
      clock := clock + 1;
      RunOthers(t.others);
      c, dropped := t.choice, t.dropped && awaits;
      if dropped {
        op := Free;
      }
    }

    // ----- steps that several operations share

    method CheckContext(context: AuthContext, ghost goal: Goal) returns (valid: bool)
      requires Valid() && OnTrack(goal) && Validating(op, context)
      modifies this, auth, sessions
      ensures valid ==> OnTrack(goal) && fault == old(fault) && op == Validated(old(op))
      ensures !valid ==> goal == Goal(View(), Replied(Some(Unauthorized)))
    {
      hide Proceed, Others, StepsToGo, Do, ValidateContext, Droppable;
      assert !Droppable(op) by { NotDroppable(op, context); }
      var c, dropped := Pause(false, goal);
      ValidateStep(cfg, View(), context, c);
      valid := auth.Validate(context, now);
      op := if valid then Validated(op) else Free;
    }

    /** `require_session_id` */
    method RequireSessionId(expected: nat, ghost goal: Goal) returns (dropped: bool, found: bool)
      requires Valid() && OnTrack(goal) && CheckingId(op, expected)
      modifies this, auth, sessions
      ensures !dropped && found ==> OnTrack(goal) && fault == old(fault) && op == IdChecked(old(op))
      ensures dropped ==> goal == Goal(View(), Dropped)
      ensures !dropped && !found ==> goal == Goal(View(), Replied(Some(NotFound)))
    {
      hide Proceed, Others, StepsToGo, Do;
      var c;
      found := false;
      c, dropped := Pause(true, goal);
      if dropped { return; }
      CheckIdStep(cfg, View(), expected, c);
      found := sessions.snapshot.id == Some(expected);
      op := if found then IdChecked(op) else Free;
    }

    method StopBrowser(ghost goal: Goal) returns (dropped: bool, ok: bool)
      requires Valid() && OnTrack(goal) && StopsNext(op)
      modifies this, auth, sessions
      ensures if dropped then goal == Goal(View(), Dropped)
              else OnTrack(goal) && fault == old(fault) && op == AfterCall(old(op), ok)
    {
      hide Proceed, Others, StepsToGo, Do, AfterCall;
      var c;
      ok := false;
      c, dropped := Pause(true, goal);
      if dropped { return; }
      CallStep(cfg, View(), c);
      back := CallStop(back, c);
      op := AfterCall(op, c.ok);
      ok := c.ok;
    }

    method ResetEgress(ghost goal: Goal) returns (dropped: bool, ok: bool)
      requires Valid() && OnTrack(goal) && ResetsNext(op)
      modifies this, auth, sessions
      ensures if dropped then goal == Goal(View(), Dropped)
              else OnTrack(goal) && fault == old(fault) && op == AfterCall(old(op), ok)
    {
      hide Proceed, Others, StepsToGo, Do, AfterCall;
      var c;
      ok := false;
      c, dropped := Pause(true, goal);
      if dropped { return; }
      CallStep(cfg, View(), c);
      back := CallReset(back, c);
      op := AfterCall(op, c.ok);
      ok := c.ok;
    }

    /** Clearing the runtime directory is synchronous: the request cannot be dropped here. */
    method ClearRuntimeDir(ghost goal: Goal) returns (ok: bool)
      requires Valid() && OnTrack(goal) && ClearsNext(op)
      modifies this, auth, sessions
      ensures OnTrack(goal) && fault == old(fault) && op == AfterCall(old(op), ok)
    {
      hide Proceed, Others, StepsToGo, Do, AfterCall;
      var c, dropped := Pause(false, goal);
      CallStep(cfg, View(), c);
      back := CallClear(back, c);
      op := AfterCall(op, c.ok);
      ok := c.ok;
    }

    method ApplyEgress(mode: EgressMode, ghost goal: Goal) returns (dropped: bool, ok: bool)
      requires Valid() && OnTrack(goal) && AppliesNext(op, mode)
      modifies this, auth, sessions
      ensures if dropped then goal == Goal(View(), Dropped) else OnTrack(goal) && op == AfterCall(old(op), ok)
    {
      hide Proceed, Others, StepsToGo, Do, AfterCall;
      var c;
      ok := false;
      c, dropped := Pause(true, goal);
      if dropped { return; }
      CallStep(cfg, View(), c);
      back := CallApply(back, mode, c);
      op := AfterCall(op, c.ok);
      ok := c.ok;
    }

    method LaunchBrowser(id: nat, url: Url, profile: StreamProfile, egress: EgressMode, ghost goal: Goal)
      returns (dropped: bool, ok: bool)
      requires Valid() && OnTrack(goal) && BrowserCallOf(op) == Some(BrowserHistory.Start(id, url, profile, egress))
      modifies this, auth, sessions
      ensures if dropped then goal == Goal(View(), Dropped) else OnTrack(goal) && op == AfterCall(old(op), ok)
    {
      hide Proceed, Others, StepsToGo, Do, AfterCall;
      var c;
      ok := false;
      c, dropped := Pause(true, goal);
      if dropped { return; }
      CallStep(cfg, View(), c);
      back := CallLaunch(back, Tab(id, egress), url, profile, c);
      op := AfterCall(op, c.ok);
      ok := c.ok;
    }

    // ----- start_session

    method StartSession(context: AuthContext, url: Url) returns (r: Reply)
      requires Valid() && op.Free?
      modifies this, auth, sessions, sessions.blocklist
      ensures Goal(View(), r)
          == Proceed(cfg, Do(cfg, old(View()), AcquireStart(context, url)), None, script, old(clock))
      ensures r == DONE ==> sessions.snapshot.phase.Active?
    {
      hide Proceed;
      op := Start(SValidate, context, url, 0, FullHd30, Direct);
      fault := None;
      ghost var goal := Proceed(cfg, View(), fault, script, clock);
      var valid := CheckContext(context, goal);
      if !valid { return Replied(Some(Unauthorized)); }
      var dropped, error, id, profile, egress := Claim(context, url, goal);
      if dropped { return Dropped; }
      if error.Some? { return Replied(error); }
      r := Open(url, id, profile, egress, goal);
    }

    /** The first critical section of `start`. */
    method Claim(context: AuthContext, url: Url, ghost goal: Goal)
      returns (dropped: bool, error: Option<AppError>, id: nat, profile: StreamProfile, egress: EgressMode)
      requires Valid() && OnTrack(goal) && op.Start? && op.spc == SBegin && op.context == context && op.url == url
      modifies this, auth, sessions, sessions.blocklist
      ensures dropped ==> goal == Goal(View(), Dropped)
      ensures !dropped && error.Some? ==> goal == Goal(View(), Replied(error))
      ensures !dropped && error.None? ==>
        OnTrack(goal) && op == old(op).(spc := SApply, id := id, profile := profile, egress := egress)
    {
      hide Proceed, Others, StepsToGo, Do, Answer, Note, BeginStart;
      var c;
      error := None;
      c, dropped := Pause(true, goal);
      id, profile, egress := nextId, sessions.snapshot.profile, sessions.snapshot.egress;
      if dropped { return; }
      ClaimStep(cfg, View(), c);
      error := sessions.StartBegins(context.client, url, id, now);
      if error.Some? {
        op := Free;
        return;
      }
      nextId := nextId + 1;
      profile, egress := sessions.snapshot.profile, sessions.snapshot.egress;
      op := op.(spc := SApply, id := id, profile := profile, egress := egress);
    }

    /** Applying the egress and starting the browser, and what becomes of the session. */
    method Open(url: Url, id: nat, profile: StreamProfile, egress: EgressMode, ghost goal: Goal) returns (r: Reply)
      requires Valid() && OnTrack(goal) && op.Start? && op.spc == SApply
      requires op.url == url && op.id == id && op.profile == profile && op.egress == egress
      modifies this, auth, sessions, sessions.blocklist
      ensures goal == Goal(View(), r)
      ensures r == DONE ==> sessions.snapshot.phase.Active?
    {
      hide OnTrack, View, Proceed;
      var dropped, ok := ApplyEgress(egress, goal);
      if dropped { return Dropped; }
      if ok {
        dropped, ok := LaunchBrowser(id, url, profile, egress, goal);
        if dropped { return Dropped; }
        if ok {
          r := Activate(url, goal);
          return;
        }
        dropped, ok := StopBrowser(goal);
        if dropped { return Dropped; }
      }
      r := CleanUpStart(goal);
    }

    method Activate(url: Url, ghost goal: Goal) returns (r: Reply)
      requires Valid() && OnTrack(goal) && op.Start? && op.spc == SFinish && op.url == url
      modifies this, auth, sessions
      ensures goal == Goal(View(), r)
      ensures r == DONE ==> sessions.snapshot.phase.Active?
    {
      hide Proceed, Others, StepsToGo, StepNavigate, StepSwitch, StepBurn, ValidateContext, BeginStart;
      var c, dropped := Pause(true, goal);
      if dropped { return Dropped; }
      sessions.StartFinishes(url);
      back := back.(pushed := back.pushed + [url]);
      op := Free;
      return DONE;
    }

    method CleanUpStart(ghost goal: Goal) returns (r: Reply)
      requires Valid() && OnTrack(goal) && op.Start? && op.spc == SReset
      modifies this, auth, sessions
      ensures goal == Goal(View(), r)
      ensures r == Dropped || r == Replied(Some(ServiceUnavailable))
    {
      hide OnTrack, View, Proceed;
      var dropped, ok := ResetEgress(goal);
      if dropped { return Dropped; }
      ok := ClearRuntimeDir(goal);
      r := FailSession(goal);
    }

    method FailSession(ghost goal: Goal) returns (r: Reply)
      requires Valid() && OnTrack(goal) && op.Start? && op.spc == SFail
      modifies this, auth, sessions
      ensures goal == Goal(View(), r)
      ensures r == Dropped || r == Replied(Some(ServiceUnavailable))
    {
      hide Proceed, Others, StepsToGo, StepNavigate, StepSwitch, StepBurn, ValidateContext, BeginStart;
      var c, dropped := Pause(true, goal);
      if dropped { return Dropped; }
      sessions.Fails();
      op := Free;
      return Replied(Some(ServiceUnavailable));
    }

    // ----- navigate

    method Navigate(context: AuthContext, expected: nat, command: Navigation) returns (r: Reply)
      requires Valid() && op.Free?
      modifies this, auth, sessions, sessions.blocklist
      ensures Goal(View(), r)
          == Proceed(cfg, Do(cfg, old(View()), AcquireNavigate(context, expected, command)), None, script, old(clock))
      ensures r == DONE && command.Visit? ==> sessions.snapshot.url == Some(command.url)
    {
      hide Proceed;
      op := Op.Navigate(NValidate, context, expected, command);
      fault := None;
      ghost var goal := Proceed(cfg, View(), fault, script, clock);
      var valid := CheckContext(context, goal);
      if !valid { return Replied(Some(Unauthorized)); }
      var dropped, found := RequireSessionId(expected, goal);
      if dropped { return Dropped; }
      if !found { return Replied(Some(NotFound)); }
      var error;
      dropped, error := AllowNavigation(context, command, goal);
      if dropped { return Dropped; }
      if error.Some? { return Replied(error); }
      r := CallAndPush(command, goal);
    }

    method AllowNavigation(context: AuthContext, command: Navigation, ghost goal: Goal)
      returns (dropped: bool, error: Option<AppError>)
      requires Valid() && OnTrack(goal) && op.Navigate? && op.npc == NBegin && op.context == context
          && op.command == command
      modifies this, auth, sessions, sessions.blocklist
      ensures dropped ==> goal == Goal(View(), Dropped)
      ensures !dropped && error.Some? ==> goal == Goal(View(), Replied(error))
      ensures !dropped && error.None? ==> OnTrack(goal) && op == old(op).(npc := NCall)
    {
      hide Proceed, Others, StepsToGo, StepStart, StepSwitch, StepBurn, ValidateContext, BeginNavigate;
      var c;
      error := None;
      c, dropped := Pause(true, goal);
      if dropped { return; }
      error := sessions.NavigateBegins(context.client, command, now);
      op := if error.None? then op.(npc := NCall) else Free;
    }

    method CallAndPush(command: Navigation, ghost goal: Goal) returns (r: Reply)
      requires Valid() && OnTrack(goal) && op.Navigate? && op.npc == NCall && op.command == command
      modifies this, auth, sessions
      ensures goal == Goal(View(), r)
      ensures r == DONE && command.Visit? ==> sessions.snapshot.url == Some(command.url)
    {
      hide Proceed, Others, StepsToGo, StepStart, StepSwitch, StepBurn, ValidateContext, BeginNavigate;
      var c, dropped := Pause(true, goal);
      if dropped { return Dropped; }
      back := CallNavigate(back, command, c);
      if !c.ok {
        op := Free;
        return Replied(Some(ServiceUnavailable));
      }
      op := op.(npc := NFinish);
      c, dropped := Pause(true, goal);
      if dropped { return Dropped; }
      sessions.NavigateFinishes(command);
      if command.Visit? {
        back := back.(pushed := back.pushed + [command.url]);
      }
      op := Free;
      return DONE;
    }

    // ----- switch_egress

    method SwitchEgress(context: AuthContext, expected: nat, mode: EgressMode) returns (r: Reply)
      requires Valid() && op.Free?
      modifies this, auth, sessions, sessions.blocklist
      ensures Goal(View(), r)
          == Proceed(cfg, Do(cfg, old(View()), AcquireSwitch(context, expected, mode)), None, script, old(clock))
      ensures r == DONE ==> sessions.snapshot.phase.Active? && sessions.snapshot.egress == mode
    {
      hide Proceed;
      op := Switch(WValidate, context, expected, mode, Url("", None, ""), FullHd30, Direct, 0);
      fault := None;
      ghost var goal := Proceed(cfg, View(), fault, script, clock);
      var valid := CheckContext(context, goal);
      if !valid { return Replied(Some(Unauthorized)); }
      var dropped, found := RequireSessionId(expected, goal);
      if dropped { return Dropped; }
      if !found { return Replied(Some(NotFound)); }
      r := SwitchAllowed(context, mode, goal);
    }

    method SwitchAllowed(context: AuthContext, mode: EgressMode, ghost goal: Goal) returns (r: Reply)
      requires Valid() && OnTrack(goal) && op.Switch? && op.wpc == WBegin && op.context == context && op.mode == mode
      modifies this, auth, sessions, sessions.blocklist
      ensures goal == Goal(View(), r)
      ensures r == DONE ==> sessions.snapshot.phase.Active? && sessions.snapshot.egress == mode
    {
      hide OnTrack, View, Proceed, BeginSwitch;
      var dropped, error, url, profile, previous, id := Suspend(context, goal);
      if dropped { return Dropped; }
      if error.Some? { return Replied(error); }
      var switched;
      dropped, switched := Reopen(id, url, profile, mode, goal);
      if dropped { return Dropped; }
      if switched {
        r := FinishSwitching(id, mode, url, goal);
      } else {
        r := RollBack(id + 1, url, profile, previous, goal);
      }
    }

    /** The first critical section of `switch_egress`. */
    method Suspend(context: AuthContext, ghost goal: Goal)
      returns (dropped: bool, error: Option<AppError>, url: Url, profile: StreamProfile, previous: EgressMode, id: nat)
      requires Valid() && OnTrack(goal) && op.Switch? && op.wpc == WBegin && op.context == context
      modifies this, auth, sessions
      ensures dropped ==> goal == Goal(View(), Dropped)
      ensures !dropped && error.Some? ==> goal == Goal(View(), Replied(error))
      ensures !dropped && error.None? ==>
        OnTrack(goal) && op == old(op).(wpc := WStop, url := url, profile := profile, previous := previous, id := id)
    {
      hide Proceed, Others, StepsToGo, Do, Answer, Note;
      var c;
      error, url := None, Url("", None, "");
      c, dropped := Pause(true, goal);
      profile, previous, id := sessions.snapshot.profile, sessions.snapshot.egress, nextId;
      if dropped { return; }
      SuspendStep(cfg, View(), c);
      error := sessions.SwitchBegins(context.client);
      if error.Some? {
        op := Free;
        return;
      }
      url := sessions.snapshot.url.value;
      nextId := nextId + 2;
      op := op.(wpc := WStop, url := url, profile := profile, previous := previous, id := id);
    }

    /** Stop, reset, clear, apply and start, up to the first failure. */
    method Reopen(id: nat, url: Url, profile: StreamProfile, mode: EgressMode, ghost goal: Goal)
      returns (dropped: bool, ok: bool)
      requires Valid() && OnTrack(goal) && op.Switch? && op.wpc == WStop
      requires op.id == id && op.url == url && op.profile == profile && op.mode == mode
      modifies this, auth, sessions
      ensures if dropped then goal == Goal(View(), Dropped)
              else OnTrack(goal) && op == old(op).(wpc := if ok then WFinish else XStop)
    {
      hide OnTrack, View, Proceed;
      dropped, ok := StopBrowser(goal);
      if dropped || !ok { return; }
      dropped, ok := ResetEgress(goal);
      if dropped || !ok { return; }
      ok := ClearRuntimeDir(goal);
      if !ok { return; }
      dropped, ok := ApplyEgress(mode, goal);
      if dropped || !ok { return; }
      dropped, ok := LaunchBrowser(id, url, profile, mode, goal);
    }

    method FinishSwitching(id: nat, mode: EgressMode, url: Url, ghost goal: Goal) returns (r: Reply)
      requires Valid() && OnTrack(goal) && op.Switch? && op.wpc == WFinish
      requires op.id == id && op.mode == mode && op.url == url
      modifies this, auth, sessions
      ensures goal == Goal(View(), r)
      ensures r == DONE ==> sessions.snapshot.phase.Active? && sessions.snapshot.egress == mode
    {
      hide Proceed, Others, StepsToGo, StepStart, StepNavigate, StepBurn, ValidateContext, BeginSwitch, SwitchCall,
           RollbackCall;
      var c, dropped := Pause(true, goal);
      if dropped { return Dropped; }
      sessions.SwitchFinishes(id, mode, url, now);
      back := back.(pushed := [url]);
      op := Free;
      return DONE;
    }

    /** As `Reopen`, but a failing stop is ignored. */
    method Restore(id: nat, url: Url, profile: StreamProfile, previous: EgressMode, ghost goal: Goal)
      returns (dropped: bool, ok: bool)
      requires Valid() && OnTrack(goal) && op.Switch? && op.wpc == XStop
      requires op.id + 1 == id && op.url == url && op.profile == profile && op.previous == previous
      modifies this, auth, sessions
      ensures if dropped then goal == Goal(View(), Dropped)
              else OnTrack(goal) && op == old(op).(wpc := if ok then XFinish else XFail)
    {
      hide OnTrack, View, Proceed;
      dropped, ok := StopBrowser(goal);
      if dropped { return; }
      dropped, ok := ResetEgress(goal);
      if dropped || !ok { return; }
      ok := ClearRuntimeDir(goal);
      if !ok { return; }
      dropped, ok := ApplyEgress(previous, goal);
      if dropped || !ok { return; }
      dropped, ok := LaunchBrowser(id, url, profile, previous, goal);
    }

    method RollBack(id: nat, url: Url, profile: StreamProfile, previous: EgressMode, ghost goal: Goal)
      returns (r: Reply)
      requires Valid() && OnTrack(goal) && op.Switch? && op.wpc == XStop
      requires op.id + 1 == id && op.url == url && op.profile == profile && op.previous == previous
      modifies this, auth, sessions
      ensures goal == Goal(View(), r)
      ensures r == Dropped || r == Replied(Some(ServiceUnavailable))
    {
      hide OnTrack, View, Proceed;
      var dropped, restored := Restore(id, url, profile, previous, goal);
      if dropped { return Dropped; }
      if restored {
        r := FinishRestored(id, previous, url, goal);
      } else {
        r := FinishFailed(goal);
      }
    }

    method FinishRestored(id: nat, previous: EgressMode, url: Url, ghost goal: Goal) returns (r: Reply)
      requires Valid() && OnTrack(goal) && op.Switch? && op.wpc == XFinish
      requires op.id + 1 == id && op.previous == previous && op.url == url
      modifies this, auth, sessions
      ensures goal == Goal(View(), r)
      ensures r == Dropped || r == Replied(Some(ServiceUnavailable))
    {
      hide Proceed, Others, StepsToGo, Do, Answer, Note, FinishRollback;
      var c, dropped := Pause(true, goal);
      if dropped { return Dropped; }
      RollbackEnds(cfg, View(), c);
      sessions.RollbackFinishes(id, previous, url, now);
      back := back.(pushed := [url]);
      op := Free;
      return Replied(Some(ServiceUnavailable));
    }

    method FinishFailed(ghost goal: Goal) returns (r: Reply)
      requires Valid() && OnTrack(goal) && op.Switch? && op.wpc == XFail
      modifies this, auth, sessions
      ensures goal == Goal(View(), r)
      ensures r == Dropped || r == Replied(Some(ServiceUnavailable))
    {
      hide Proceed, Others, StepsToGo, Do, Answer, Note, FailSwitch;
      var c, dropped := Pause(true, goal);
      if dropped { return Dropped; }
      RollbackEnds(cfg, View(), c);
      sessions.SwitchFails();
      back := back.(pushed := []);
      op := Free;
      return Replied(Some(ServiceUnavailable));
    }

    // ----- burning

    /** `burn_unchecked` */
    method BurnUnchecked(ghost goal: Goal) returns (dropped: bool, ok: bool)
      requires Valid() && OnTrack(goal) && op.Burn? && op.bpc == BBegin && fault.None?
      modifies this, auth, sessions
      ensures if dropped then goal == Goal(View(), Dropped)
              else OnTrack(goal) && op.Burn? && op.bpc == BRevoke
                   && fault == (if ok then None else Some(ServiceUnavailable))
    {
      hide OnTrack, View, Proceed;
      var idle, stopped, reset;
      ok := true;
      dropped, idle := BeginBurning(goal);
      if dropped || idle { return; }
      dropped, stopped := StopBrowser(goal);
      if dropped { return; }
      dropped, reset := ResetEgress(goal);
      if dropped { return; }
      ok := ClearRuntimeDir(goal);
      ok := stopped && reset && ok;
      dropped := FinishBurning(ok, goal);
    }

    method BeginBurning(ghost goal: Goal) returns (dropped: bool, idle: bool)
      requires Valid() && OnTrack(goal) && op.Burn? && op.bpc == BBegin
      modifies this, auth, sessions
      ensures if dropped then goal == Goal(View(), Dropped)
              else OnTrack(goal) && fault == old(fault) && op == old(op).(bpc := if idle then BRevoke else BStop)
    {
      hide Proceed, Others, StepsToGo, StepStart, StepNavigate, StepSwitch, BurnCheck, BurnCheckId, EnsureLease,
           FinishBurn;
      var c;
      idle := false;
      c, dropped := Pause(true, goal);
      if dropped { return; }
      idle := sessions.BurnBegins();
      op := op.(bpc := if idle then BRevoke else BStop);
    }

    method FinishBurning(ok: bool, ghost goal: Goal) returns (dropped: bool)
      requires Valid() && OnTrack(goal) && op.Burn? && op.bpc == BFinish && ok == (op.stopped && op.reset && op.cleared)
      modifies this, auth, sessions
      ensures if dropped then goal == Goal(View(), Dropped)
              else OnTrack(goal) && op == old(op).(bpc := BRevoke)
                   && fault == (if ok then old(fault) else Some(ServiceUnavailable))
    {
      hide Proceed, Others, StepsToGo, StepStart, StepNavigate, StepSwitch, BurnCheck, BurnCheckId, EnsureLease,
           FinishBurn;
      var c;
      c, dropped := Pause(true, goal);
      if dropped { return; }
      fault := if ok then fault else Some(ServiceUnavailable);
      sessions.BurnFinishes(ok, now);
      back := back.(pushed := [], burned := Some(auth.generation));
      op := op.(bpc := BRevoke);
    }

    /** Revoking everything, then `rotate_pairing_material`; nothing here can be dropped. */
    method RevokeAndRotate(ghost goal: Goal) returns (ok: bool)
      requires Valid() && OnTrack(goal) && op.Burn? && op.bpc == BRevoke
      modifies this, auth, sessions
      ensures goal == Goal(View(), RotationReply(old(fault), ok))
      ensures ok ==> people.file == people.material
    {
      hide Proceed, Others, StepsToGo, StepStart, StepNavigate, StepSwitch, BurnCheck, BurnCheckId, EnsureLease,
           FinishBurn;
      var c, dropped := Pause(false, goal);
      auth.Revoke();
      op := op.(bpc := BRotate);
      var drawn := DrawMaterial(goal);
      if !drawn { return false; }
      ok := Publish(goal);
    }

    method DrawMaterial(ghost goal: Goal) returns (drawn: bool)
      requires Valid() && OnTrack(goal) && op.Burn? && op.bpc == BRotate
      modifies this, auth, sessions
      ensures if drawn then OnTrack(goal) && fault == old(fault) && op == old(op).(bpc := BWrite)
              else goal == Goal(View(), RotationReply(old(fault), false))
    {
      hide Proceed, Others, StepsToGo, Do, Answer, Note, RotationReply, RotatePairing;
      var c, dropped := Pause(false, goal);
      RotateStep(cfg, View(), c);
      var m := PairingMaterial(nextId, nextId + 1);
      var material := auth.Rotate(if c.ok then Some(m) else None);
      drawn := material.Ok?;
      if drawn {
        nextId := nextId + 2;
        people := people.(exchanged := None, material := m);
        op := op.(bpc := BWrite);
      } else {
        op := Free;
      }
    }

    method Publish(ghost goal: Goal) returns (ok: bool)
      requires Valid() && OnTrack(goal) && op.Burn? && op.bpc == BWrite
      modifies this, auth, sessions
      ensures goal == Goal(View(), RotationReply(old(fault), ok))
      ensures ok ==> people.file == people.material
    {
      hide Proceed, Others, StepsToGo, StepStart, StepNavigate, StepSwitch, BurnCheck, BurnCheckId, EnsureLease,
           FinishBurn;
      var c, dropped := Pause(false, goal);
      ok := c.ok;
      if ok {
        people := people.(file := people.material);
        op := Free;
      } else {
        op := op.(bpc := BInvalidate, faulted := true);
        Withdraw(goal);
      }
    }

    method Withdraw(ghost goal: Goal)
      requires Valid() && OnTrack(goal) && op.Burn? && op.bpc == BInvalidate
      modifies this, auth, sessions
      ensures goal == Goal(View(), RotationReply(old(fault), false))
    {
      hide Proceed, Others, StepsToGo, StepStart, StepNavigate, StepSwitch, BurnCheck, BurnCheckId, EnsureLease,
           FinishBurn;
      var c, dropped := Pause(false, goal);
      auth.InvalidateUnpublishedPairing();
      op := Free;
    }

    /** The outcome of the burn is reported only after the rotation. */
    method BurnAndRotate(ghost goal: Goal) returns (r: Reply)
      requires Valid() && OnTrack(goal) && op.Burn? && op.bpc == BBegin && fault.None?
      modifies this, auth, sessions
      ensures goal == Goal(View(), r)
      ensures r == DONE ==> people.file == people.material
    {
      hide Proceed;
      var dropped, burned := BurnUnchecked(goal);
      if dropped { return Dropped; }
      var rotated := RevokeAndRotate(goal);
      if !burned { return Replied(Some(ServiceUnavailable)); }
      return if rotated then DONE else Replied(Some(Internal));
    }

    method BurnControllerSession(context: AuthContext, expected: nat) returns (r: Reply)
      requires Valid() && op.Free?
      modifies this, auth, sessions
      ensures Goal(View(), r)
          == Proceed(cfg, Do(cfg, old(View()), AcquireBurn(ByClient(context, expected))), None, script, old(clock))
      ensures r == DONE ==> people.file == people.material
    {
      hide Proceed;
      op := Burn(BCheck, ByClient(context, expected), false, false, false, auth.generation, false);
      fault := None;
      ghost var goal := Proceed(cfg, View(), fault, script, clock);
      var valid := CheckContext(context, goal);
      if !valid { return Replied(Some(Unauthorized)); }
      var dropped, found := RequireSessionId(expected, goal);
      if dropped { return Dropped; }
      if !found { return Replied(Some(NotFound)); }
      var error;
      dropped, error := CheckLease(context, goal);
      if dropped { return Dropped; }
      if error.Some? {
        var rotated := RevokeAndRotate(goal);
        return Replied(error);
      }
      r := BurnAndRotate(goal);
    }

    method CheckLease(context: AuthContext, ghost goal: Goal) returns (dropped: bool, error: Option<AppError>)
      requires Valid() && OnTrack(goal) && op.Burn? && op.bpc == BLease && op.kind.ByClient?
          && op.kind.context == context && fault.None?
      modifies this, auth, sessions
      ensures if dropped then goal == Goal(View(), Dropped)
              else OnTrack(goal) && fault == error && op == old(op).(bpc := if error.Some? then BRevoke else BBegin)
    {
      hide Proceed, Others, StepsToGo, StepStart, StepNavigate, StepSwitch, BurnCheck, BurnCheckId, EnsureLease,
           FinishBurn;
      var c;
      error := None;
      c, dropped := Pause(true, goal);
      if dropped { return; }
      error := EnsureLease(sessions.Data(), context.client);
      fault := error;
      op := op.(bpc := if error.Some? then BRevoke else BBegin);
    }

    method AutoBurnIfDue() returns (r: Reply)
      requires Valid() && op.Free?
      modifies this, auth, sessions
      ensures Goal(View(), r) == Proceed(cfg, Do(cfg, old(View()), AcquireBurn(Auto(0))), None, script, old(clock))
    {
      hide Proceed;
      op := Burn(BCheck, Auto(0), false, false, false, auth.generation, false);
      fault := None;
      ghost var goal := Proceed(cfg, View(), fault, script, clock);
      var dropped, due := BurnIsDue(goal);
      if dropped { return Dropped; }
      if !due { return NotDue; }
      r := BurnAndRotate(goal);
    }

    method BurnIsDue(ghost goal: Goal) returns (dropped: bool, due: bool)
      requires Valid() && OnTrack(goal) && op.Burn? && op.bpc == BCheck && op.kind.Auto?
      modifies this, auth, sessions
      ensures !dropped && due ==> OnTrack(goal) && fault == old(fault) && op.Burn? && op.bpc == BBegin
      ensures !dropped && !due ==> goal == Goal(View(), NotDue)
      ensures dropped ==> goal == Goal(View(), Dropped)
    {
      hide Proceed, Others, StepsToGo, StepStart, StepNavigate, StepSwitch, ValidateContext, Prune, RecoveryRequired,
           EnsureLease, FinishBurn;
      due, dropped := false, false;
      var c, gone := Pause(false, goal);
      var snapshot := sessions.snapshot;
      if !snapshot.phase.Active? || snapshot.autoBurn == 0 {
        op := Free;
        return;
      }
      var threshold := snapshot.autoBurn * SECOND;
      op := op.(bpc := BCheckId, kind := Auto(threshold));
      c, dropped := Pause(true, goal);
      if dropped { return; }
      due := sessions.lastActivity + threshold <= now;
      op := if due then op.(bpc := BBegin) else Free;
    }

    method RecoverExpiredAuth() returns (r: Reply)
      requires Valid() && op.Free?
      modifies this, auth, sessions
      ensures Goal(View(), r) == Proceed(cfg, Do(cfg, old(View()), AcquireBurn(Recovery)), None, script, old(clock))
    {
      hide Proceed;
      op := Burn(BCheck, Recovery, false, false, false, auth.generation, false);
      fault := None;
      ghost var goal := Proceed(cfg, View(), fault, script, clock);
      var dropped, required, idle := NeedsRecovery(goal);
      if dropped { return Dropped; }
      if !required { return NotDue; }
      if !idle {
        r := BurnAndRotate(goal);
        return;
      }
      var rotated := RevokeAndRotate(goal);
      return if rotated then DONE else Replied(Some(Internal));
    }

    method NeedsRecovery(ghost goal: Goal) returns (dropped: bool, required: bool, idle: bool)
      requires Valid() && OnTrack(goal) && op.Burn? && op.bpc == BCheck && op.kind.Recovery?
      modifies this, auth, sessions
      ensures !dropped && required ==> OnTrack(goal) && fault == old(fault)
      ensures !dropped && required ==> op.Burn? && op.bpc == (if idle then BRevoke else BBegin)
      ensures !dropped && !required ==> goal == Goal(View(), NotDue)
      ensures dropped ==> goal == Goal(View(), Dropped)
    {
      hide Proceed, Others, StepsToGo, StepStart, StepNavigate, StepSwitch, ValidateContext, Prune, RecoveryRequired,
           EnsureLease, FinishBurn;
      dropped, idle := false, false;
      var c, gone := Pause(false, goal);
      required := auth.PairingRecoveryRequired(now);
      if !required {
        op := Free;
        return;
      }
      op := op.(bpc := BCheckId);
      c, dropped := Pause(true, goal);
      if dropped { return; }
      idle := sessions.snapshot.phase.Idle?;
      op := op.(bpc := if idle then BRevoke else BBegin);
    }
  }
}
