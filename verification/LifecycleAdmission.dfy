/** The blocklist over whole runs: nothing that is blocked is ever visited. */
module LifecycleAdmission {
  import opened Types
  import opened Auth
  import opened Session
  import opened Lifecycle
  import opened LifecycleTheorems
  import Blocklist
  import BlocklistLines
  import BlocklistTools
  import BrowserHistory
  import NetTransition

  /** The URL that the next step decides about: of a start, or of a visit. */
  function Decides(o: Op): Option<Url> {
    if o.Start? && o.spc == SBegin then Some(o.url)
    else if o.Navigate? && o.npc == NBegin && o.command.Visit? then Some(o.command.url)
    else None
  }

  ghost predicate Barred(cfg: Config, w: World, url: Url) {
    w.sess.snapshot.blocklistEnabled && Blocked(cfg, url)
  }

  /** What the list blocks: a web page whose host, normalised, is a listed domain or ends in a dot and one. */
  lemma BlockedExact(cfg: Config, url: Url)
    ensures Blocked(cfg, url) <==>
            && url.scheme in {"http", "https"} && url.host.Some? && cfg.blocklist.Some?
            && var h := Blocklist.NormalizeHost(url.host.value);
               exists d | d in cfg.blocklist.value :: h == d || exists x :: h == x + "." + d
  {
    hide Blocklist.NormalizeHost, BlocklistTools.Matches;
    if url.host.Some? && cfg.blocklist.Some? {
      BlocklistLines.MatchesExact(cfg.blocklist.value, url.host.value);
    }
  }

  /** A blocked page is refused while the blocklist is on: the lock is released, and neither the backends
      nor what the session shows has changed; a start leaves no trace at all. */
  lemma BlockedIsRefused(cfg: Config, w: World, c: Choice)
    requires Decides(w.op).Some? && Barred(cfg, w, Decides(w.op).value)
    ensures var v := Do(cfg, w, Advance(c));
            && v.op.Free? && v.back == w.back && v.auth == w.auth && v.people == w.people
            && v.sess.snapshot == w.sess.snapshot && v.sess.controller == w.sess.controller
            && v.sess.history == w.sess.history
            && (w.op.Start? ==> v.sess == w.sess)
  {
    hide Blocked;
  }

  /** A page that is not barred is let through, for the holder of the lease and when the phase allows. */
  lemma AllowedIsAdmitted(cfg: Config, w: World, c: Choice)
    requires Decides(w.op).Some? && !Barred(cfg, w, Decides(w.op).value)
    requires w.op.Start? ==> w.sess.controller.None? && (w.sess.snapshot.phase.Idle? || w.sess.snapshot.phase.Failed?)
    requires w.op.Navigate? ==> w.sess.controller == Some(w.op.context.client) && w.sess.snapshot.phase.Active?
    ensures var v := Do(cfg, w, Advance(c));
            if w.op.Start? then v.op.Start? && v.op.spc == SApply && v.sess.snapshot.url == Some(w.op.url)
            else v.op.Navigate? && v.op.npc == NCall && v.sess.snapshot == w.sess.snapshot
  {
    hide Blocked;
  }

  // ----- over runs

  /** What one action admits, judged by the list and the setting alone. */
  ghost function AdmittedHere(cfg: Config, w: World, a: Action): set<Url> {
    if a.Advance? && Decides(w.op).Some? && !Barred(cfg, w, Decides(w.op).value) then {Decides(w.op).value} else {}
  }

  /** What a run has admitted, each URL at some point at which it was not blocked or the list was off. */
  ghost function Admitted(cfg: Config, start: World, actions: seq<Action>): set<Url> {
    if actions == [] then {}
    else
      var front, last := actions[..|actions| - 1], actions[|actions| - 1];
      Admitted(cfg, start, front) + AdmittedHere(cfg, Play(cfg, start, front), last)
  }

  /** The URL that an operation carries past its admission. */
  function Carries(o: Op): Option<Url> {
    if o.Start? && o.spc != SValidate && o.spc != SBegin then Some(o.url)
    else if o.Navigate? && (o.npc == NCall || o.npc == NFinish) && o.command.Visit? then Some(o.command.url)
    else if o.Switch? && o.wpc != WValidate && o.wpc != WCheckId && o.wpc != WBegin then Some(o.url)
    else None
  }

  predicate In(url: Option<Url>, urls: set<Url>) {
    url.Some? ==> url.value in urls
  }

  predicate AllIn(list: seq<Url>, urls: set<Url>) {
    forall u | u in list :: u in urls
  }

  /** Every URL that the session, its log or an operation holds is among `urls`, and every page that the
      bridge knows is, or was `there` before. */
  predicate Confined(w: World, urls: set<Url>, there: set<Url>) {
    && AllIn(w.back.pushed, urls) && AllIn(BrowserHistory.Pages(w.back.bridge.pages), there + urls)
    && In(w.sess.snapshot.url, urls) && In(Carries(w.op), urls)
  }

  lemma ConfinedGrows(w: World, urls: set<Url>, there: set<Url>, more: set<Url>)
    requires Confined(w, urls, there)
    ensures Confined(w, urls + more, there)
  {
  }

  function UrlOf(c: BrowserHistory.Command): Option<Url> {
    if c.Start? then Some(c.url) else if c.Navigate? && c.navigation.Visit? then Some(c.navigation.url) else None
  }

  /** The bridge comes to know no page that it was not told. */
  lemma BridgeLearnsOnlyUrls(b: Backends, command: BrowserHistory.Command, c: Choice, urls: set<Url>)
    requires AllIn(BrowserHistory.Pages(b.bridge.pages), urls) && In(UrlOf(command), urls)
    ensures AllIn(BrowserHistory.Pages(Tell(b, command, c).bridge.pages), urls)
  {
  }

  lemma StartConfined(cfg: Config, w: World, c: Choice, urls: set<Url>, there: set<Url>)
    requires w.op.Start? && Confined(w, urls, there)
    ensures Confined(StepStart(cfg, w, c), urls + AdmittedHere(cfg, w, Advance(c)), there)
  {
    hide Blocked, ValidateContext, Tell, BrowserHistory.Pages;
    var o := w.op;
    if o.spc == SLaunch {
      BridgeLearnsOnlyUrls(w.back, BrowserHistory.Start(o.id, o.url, o.profile, o.egress), c, there + urls);
    } else if o.spc == SStop {
      BridgeLearnsOnlyUrls(w.back, BrowserHistory.Stop, c, there + urls);
    }
    PushedByTell(w.back, BrowserHistory.Start(o.id, o.url, o.profile, o.egress), c);
    PushedByTell(w.back, BrowserHistory.Stop, c);
  }

  lemma PushedByTell(b: Backends, command: BrowserHistory.Command, c: Choice)
    ensures Tell(b, command, c).pushed == b.pushed
  {
  }

  lemma NavigateConfined(cfg: Config, w: World, c: Choice, urls: set<Url>, there: set<Url>)
    requires w.op.Navigate? && Confined(w, urls, there)
    ensures Confined(StepNavigate(cfg, w, c), urls + AdmittedHere(cfg, w, Advance(c)), there)
  {
    hide Blocked, ValidateContext, Tell, BrowserHistory.Pages;
    if w.op.npc == NCall {
      BridgeLearnsOnlyUrls(w.back, BrowserHistory.Navigate(w.op.command), c, there + urls);
      PushedByTell(w.back, BrowserHistory.Navigate(w.op.command), c);
    }
  }

  lemma SwitchCallConfined(w: World, c: Choice, urls: set<Url>, there: set<Url>)
    requires w.op.Switch? && Switching(w.op.wpc) && Confined(w, urls, there)
    ensures Confined(SwitchCall(w, c), urls, there)
  {
    hide Tell, BrowserHistory.Pages;
    var o := w.op;
    var start := BrowserHistory.Start(o.id, o.url, o.profile, o.mode);
    PushedByTell(w.back, start, c);
    PushedByTell(w.back, BrowserHistory.Stop, c);
    BridgeLearnsOnlyUrls(w.back, start, c, there + urls);
    BridgeLearnsOnlyUrls(w.back, BrowserHistory.Stop, c, there + urls);
  }

  lemma RollbackCallConfined(w: World, c: Choice, urls: set<Url>, there: set<Url>)
    requires w.op.Switch? && RollingBack(w.op.wpc) && Confined(w, urls, there)
    ensures Confined(RollbackCall(w, c), urls, there)
  {
    hide Tell, BrowserHistory.Pages;
    var o := w.op;
    var start := BrowserHistory.Start(o.id + 1, o.url, o.profile, o.previous);
    PushedByTell(w.back, start, c);
    PushedByTell(w.back, BrowserHistory.Stop, c);
    BridgeLearnsOnlyUrls(w.back, start, c, there + urls);
    BridgeLearnsOnlyUrls(w.back, BrowserHistory.Stop, c, there + urls);
  }

  lemma SwitchConfined(w: World, c: Choice, urls: set<Url>, there: set<Url>)
    requires w.op.Switch? && Confined(w, urls, there)
    ensures Confined(StepSwitch(w, c), urls, there)
  {
    hide ValidateContext, SwitchCall, RollbackCall, BeginSwitch, FinishSwitch, FinishRollback, BrowserHistory.Pages;
    if Switching(w.op.wpc) {
      hide Confined;
      SwitchCallConfined(w, c, urls, there);
    } else if RollingBack(w.op.wpc) {
      hide Confined;
      RollbackCallConfined(w, c, urls, there);
    } else {
      SwitchRestConfined(w, c, urls, there);
    }
  }

  lemma SwitchRestConfined(w: World, c: Choice, urls: set<Url>, there: set<Url>)
    requires w.op.Switch? && !Switching(w.op.wpc) && !RollingBack(w.op.wpc) && Confined(w, urls, there)
    ensures Confined(StepSwitch(w, c), urls, there)
  {
    hide ValidateContext, SwitchCall, RollbackCall, BrowserHistory.Pages;
  }

  lemma BurnConfined(cfg: Config, w: World, c: Choice, urls: set<Url>, there: set<Url>)
    requires w.op.Burn? && Confined(w, urls, there)
    ensures Confined(StepBurn(cfg, w, c), urls, there)
  {
    hide BurnCheck, BurnCheckId, EnsureLease, Tell, BrowserHistory.Pages;
    PushedByTell(w.back, BrowserHistory.Stop, c);
    if w.op.bpc == BStop {
      BridgeLearnsOnlyUrls(w.back, BrowserHistory.Stop, c, there + urls);
    } else if w.op.bpc == BCheck || w.op.bpc == BCheckId {
      hide StepBurn;
      BurnChecksOnlyOp(cfg, w, c);
    }
  }

  lemma BurnChecksOnlyOp(cfg: Config, w: World, c: Choice)
    requires w.op.Burn? && (w.op.bpc == BCheck || w.op.bpc == BCheckId)
    ensures var v := StepBurn(cfg, w, c);
            v.back == w.back && v.sess == w.sess && (v.op.Free? || v.op.Burn?)
  {
    hide ValidateContext, Prune, RecoveryRequired, Tell, EnsureLease, FinishBurn;
  }

  lemma OthersConfined(cfg: Config, w: World, a: Action, urls: set<Url>, there: set<Url>)
    requires Confined(w, urls, there) && !a.Advance? && Enabled(cfg, w, a)
    ensures Confined(Do(cfg, w, a), urls, there)
  {
    hide ExchangePairing, Authenticate, IssueTicket, ConsumeTicket, BrowserHistory.Pages;
  }

  lemma ActionConfined(cfg: Config, w: World, a: Action, urls: set<Url>, there: set<Url>)
    requires Confined(w, urls, there) && Enabled(cfg, w, a)
    ensures Confined(Do(cfg, w, a), urls + AdmittedHere(cfg, w, a), there)
  {
    hide StepStart, StepNavigate, StepSwitch, StepBurn, Confined, AdmittedHere, Possible;
    var more := AdmittedHere(cfg, w, a);
    match a {
      case Advance(c) =>
        match w.op {
          case Free => ConfinedGrows(w, urls, there, more);
          case Start(_, _, _, _, _, _) => StartConfined(cfg, w, c, urls, there);
          case Navigate(_, _, _, _) => NavigateConfined(cfg, w, c, urls, there);
          case Switch(_, _, _, _, _, _, _, _) =>
            SwitchConfined(w, c, urls, there);
            ConfinedGrows(StepSwitch(w, c), urls, there, more);
          case Burn(_, _, _, _, _, _, _) =>
            BurnConfined(cfg, w, c, urls, there);
            ConfinedGrows(StepBurn(cfg, w, c), urls, there, more);
        }
      case _ =>
        hide Do, Enabled;
        OthersConfined(cfg, w, a, urls, there);
        ConfinedGrows(Do(cfg, w, a), urls, there, more);
    }
  }

  /** In every run every URL that is logged or shown was admitted by that run, at a point at which it was
      not blocked or the list was off, and so was every page that the bridge knows and did not know
      before. */
  lemma {:induction false} RunsConfined(cfg: Config, start: World, actions: seq<Action>, end: World,
                                        urls: set<Url>, there: set<Url>)
    requires Confined(start, urls, there) && Run(cfg, start, actions, end)
    ensures Confined(end, urls + Admitted(cfg, start, actions), there)
    decreases |actions|
  {
    hide Do, Enabled, Confined, AdmittedHere;
    if actions == [] {
      assert urls + Admitted(cfg, start, []) == urls;
    } else {
      var last := |actions| - 1;
      var front := actions[..last];
      var before :| Run(cfg, start, front, before)
                    && Enabled(cfg, before, actions[last]) && end == Do(cfg, before, actions[last]);
      RunsConfined(cfg, start, front, before, urls, there);
      RunPlays(cfg, start, front, before);
      var sofar := urls + Admitted(cfg, start, front);
      ActionConfined(cfg, before, actions[last], sofar, there);
      assert sofar + AdmittedHere(cfg, before, actions[last]) == urls + Admitted(cfg, start, actions);
    }
  }

  /** A daemon visits only what it has admitted: from any start-up, every URL that it ever logs or shows,
      and every page that the bridge knows besides those an earlier daemon told it, was admitted at some
      step of the run. */
  lemma OnlyAdmittedIsVisited(cfg: Config, net: NetTransition.Net, bridge: BrowserHistory.Bridge, now: nat,
                              actions: seq<Action>, w: World, url: Url)
    returns (k: nat)
    requires Run(cfg, Boot(cfg, net, bridge, now), actions, w)
    requires url in w.back.pushed || w.sess.snapshot.url == Some(url)
             || (url in BrowserHistory.Pages(w.back.bridge.pages) && url !in BrowserHistory.Pages(bridge.pages))
    ensures k < |actions|
    ensures url in AdmittedHere(cfg, Play(cfg, Boot(cfg, net, bridge, now), actions[..k]), actions[k])
  {
    hide Run, Do, BrowserHistory.Pages, AdmittedHere;
    var start := Boot(cfg, net, bridge, now);
    var pages := BrowserHistory.Pages(bridge.pages);
    var there := set u | u in pages;
    RunsConfined(cfg, start, actions, w, {}, there);
    k := AdmittedWhere(cfg, start, actions, url);
  }

  lemma {:induction false} AdmittedWhere(cfg: Config, start: World, actions: seq<Action>, url: Url) returns (k: nat)
    requires url in Admitted(cfg, start, actions)
    ensures k < |actions| && url in AdmittedHere(cfg, Play(cfg, start, actions[..k]), actions[k])
    decreases |actions|
  {
    hide AdmittedHere, Play;
    var last := |actions| - 1;
    var front := actions[..last];
    if url in Admitted(cfg, start, front) {
      k := AdmittedWhere(cfg, start, front, url);
      assert front[..k] == actions[..k];
    } else {
      k := last;
    }
  }
}
