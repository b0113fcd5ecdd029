/** The browsing session's data and the critical sections that change it.

    Each function is one stretch of code that runs while the session's lock is held.  `blocked`
    says whether the URL is an http(s) URL whose host the blocklist matches. */
module Session {
  import opened Types
  import opened BlocklistTools

  const MAX_HISTORY := 128
  const MAX_AUTO_BURN := 86_400

  datatype SessionConfig = SessionConfig(egress: EgressMode, profile: StreamProfile, autoBurn: nat)

  datatype Snapshot = Snapshot(
    id: Option<nat>,
    phase: SessionPhase,
    url: Option<Url>,
    egress: EgressMode,
    profile: StreamProfile,
    blocklistEnabled: bool,
    autoBurn: nat,
    controllerAttached: bool,
    failure: bool)

  datatype SessionData = SessionData(
    snapshot: Snapshot,
    controller: Option<nat>,
    history: seq<Url>,
    lastActivity: nat)

  datatype Setting = Profile(profile: StreamProfile) | BlocklistEnabled(enabled: bool) | AutoBurn(seconds: nat)

  function Blank(cfg: SessionConfig): Snapshot {
    Snapshot(None, Idle, None, cfg.egress, cfg.profile, true, cfg.autoBurn, false, false)
  }

  function NewSession(cfg: SessionConfig, now: nat): SessionData {
    SessionData(Blank(cfg), None, [], now)
  }

  function PushHistory(history: seq<Url>, url: Url): seq<Url> {
    (if |history| == MAX_HISTORY then history[1..] else history) + [url]
  }

  /** The most recent entries of a log. */
  function LastEntries(log: seq<Url>): seq<Url> {
    if |log| <= MAX_HISTORY then log else log[|log| - MAX_HISTORY..]
  }

  lemma PushKeepsLastEntries(log: seq<Url>, url: Url)
    ensures PushHistory(LastEntries(log), url) == LastEntries(log + [url])
  {
  }

  // ----- leases

  function EnsureLease(d: SessionData, client: nat): Option<AppError> {
    if d.controller == Some(client) then None else Some(LeaseConflict)
  }

  function EnsureActiveLease(d: SessionData, client: nat): Option<AppError> {
    if EnsureLease(d, client).Some? then EnsureLease(d, client)
    else if !d.snapshot.phase.Active? then Some(SessionNotActive)
    else None
  }

  function AcquireLease(d: SessionData, client: nat): Result<SessionData, AppError> {
    if d.controller.Some? && d.controller.value != client then Err(LeaseConflict)
    else Ok(d.(controller := Some(client)))
  }

  // ----- start

  function BeginStart(d: SessionData, client: nat, url: Url, blocked: bool, id: nat, now: nat)
    : Result<SessionData, AppError>
  {
    if !d.snapshot.phase.Idle? && !d.snapshot.phase.Failed? then Err(InvalidTransition)
    else if d.snapshot.blocklistEnabled && blocked then Err(NavigationBlocked)
    else
      var leased := AcquireLease(d, client);
      if leased.Err? then leased
      else
        Ok(leased.value.(
          snapshot := d.snapshot.(id := Some(id), phase := Starting, url := Some(url), failure := false,
                                  controllerAttached := true),
          lastActivity := now))
  }

  function FinishStart(d: SessionData, url: Url): SessionData {
    d.(snapshot := d.snapshot.(phase := Active), history := PushHistory(d.history, url))
  }

  function Fail(d: SessionData): SessionData {
    d.(snapshot := d.snapshot.(phase := Failed, failure := true))
  }

  // ----- burn

  function BeginBurn(d: SessionData): SessionData {
    if d.snapshot.phase.Idle? then d else d.(snapshot := d.snapshot.(phase := Burning))
  }

  function FinishBurn(cfg: SessionConfig, clean: bool, now: nat): SessionData {
    var reset := NewSession(cfg, now);
    if clean then reset else reset.(snapshot := reset.snapshot.(phase := Failed, failure := true))
  }

  // ----- navigate

  function BeginNavigate(d: SessionData, client: nat, command: Navigation, blocked: bool, now: nat)
    : (SessionData, Option<AppError>)
  {
    if EnsureActiveLease(d, client).Some? then (d, EnsureActiveLease(d, client))
    else
      (d.(lastActivity := now),
       if command.Visit? && d.snapshot.blocklistEnabled && blocked then Some(NavigationBlocked) else None)
  }

  function FinishNavigate(d: SessionData, command: Navigation): SessionData {
    match command
    case Visit(url) => d.(snapshot := d.snapshot.(url := Some(url)), history := PushHistory(d.history, url))
    case _ => d
  }

  // ----- settings

  function ChangeSetting(d: SessionData, client: nat, setting: Setting, now: nat): Result<SessionData, AppError> {
    if setting.AutoBurn? && setting.seconds > MAX_AUTO_BURN then Err(InvalidRequest)
    else if EnsureActiveLease(d, client).Some? then Err(EnsureActiveLease(d, client).value)
    else
      var snapshot := match setting
        case Profile(profile) => d.snapshot.(profile := profile)
        case BlocklistEnabled(enabled) => d.snapshot.(blocklistEnabled := enabled)
        case AutoBurn(seconds) => d.snapshot.(autoBurn := seconds);
      Ok(d.(snapshot := snapshot, lastActivity := now))
  }

  // ----- switching the egress mode

  /** The phase is already Burning when a missing URL is noticed. */
  function BeginSwitch(d: SessionData, client: nat): (SessionData, Option<AppError>) {
    if EnsureActiveLease(d, client).Some? then (d, EnsureActiveLease(d, client))
    else
      (d.(snapshot := d.snapshot.(phase := Burning)),
       if d.snapshot.url.None? then Some(SessionNotActive) else None)
  }

  function FinishSwitch(d: SessionData, id: nat, mode: EgressMode, url: Url, now: nat): SessionData {
    d.(snapshot := d.snapshot.(id := Some(id), egress := mode, phase := Active),
       history := PushHistory([], url), lastActivity := now)
  }

  function FinishRollback(d: SessionData, id: nat, previous: EgressMode, url: Url, now: nat): SessionData {
    d.(snapshot := d.snapshot.(id := Some(id), phase := Active, egress := previous, failure := false),
       history := PushHistory([], url), lastActivity := now)
  }

  function FailSwitch(d: SessionData): SessionData {
    Fail(d.(history := []))
  }

  /** The session behind its lock; each method is one critical section of an operation. */
  class SessionManager {
    const cfg: SessionConfig
    const blocklist: Matcher
    var snapshot: Snapshot
    var controller: Option<nat>
    var history: seq<Url>
    var lastActivity: nat

    function Data(): SessionData
      reads this
    {
      SessionData(snapshot, controller, history, lastActivity)
    }

    ghost predicate Blocked(url: Url) {
      && (url.scheme == "http" || url.scheme == "https") && url.host.Some?
      && blocklist.list.Some? && Matches(blocklist.list.value, url.host.value)
    }

    constructor (cfg: SessionConfig, blocklist: Matcher, now: nat)
      ensures this.cfg == cfg && this.blocklist == blocklist && Data() == NewSession(cfg, now)
    {
      this.cfg := cfg;
      this.blocklist := blocklist;
      snapshot := Blank(cfg);
      controller := None;
      history := [];
      lastActivity := now;
    }

    method NavigationAllowed(url: Url) returns (allowed: bool)
      modifies blocklist
      ensures allowed <==> !(snapshot.blocklistEnabled && Blocked(url))
    {
      if !snapshot.blocklistEnabled || (url.scheme != "http" && url.scheme != "https") || url.host.None? {
        return true;
      }
      var listed := blocklist.Contains(url.host.value);
      return !listed;
    }

    method Push(url: Url)
      modifies this`history
      ensures history == PushHistory(old(history), url)
    {
      if |history| == MAX_HISTORY {
        history := history[1..];
      }
      history := history + [url];
    }

    method StartBegins(client: nat, url: Url, id: nat, now: nat) returns (error: Option<AppError>)
      modifies this, blocklist
      ensures match BeginStart(old(Data()), client, url, Blocked(url), id, now)
              case Ok(d) => error.None? && Data() == d
              case Err(e) => error == Some(e) && Data() == old(Data())
    {
      if !snapshot.phase.Idle? && !snapshot.phase.Failed? {
        return Some(InvalidTransition);
      }
      var allowed := NavigationAllowed(url);
      if !allowed {
        return Some(NavigationBlocked);
      }
      if controller.Some? && controller.value != client {
        return Some(LeaseConflict);
      }
      controller := Some(client);
      snapshot := snapshot.(id := Some(id));
      snapshot := snapshot.(phase := Starting);
      snapshot := snapshot.(url := Some(url));
      snapshot := snapshot.(failure := false);
      snapshot := snapshot.(controllerAttached := true);
      lastActivity := now;
      return None;
    }

    method StartFinishes(url: Url)
      modifies this
      ensures Data() == FinishStart(old(Data()), url)
    {
      snapshot := snapshot.(phase := Active);
      Push(url);
    }

    method Fails()
      modifies this
      ensures Data() == Fail(old(Data()))
    {
      snapshot := snapshot.(phase := Failed);
      snapshot := snapshot.(failure := true);
    }

    method BurnBegins() returns (alreadyIdle: bool)
      modifies this
      ensures Data() == BeginBurn(old(Data())) && alreadyIdle == old(snapshot.phase.Idle?)
    {
      if snapshot.phase.Idle? {
        return true;
      }
      snapshot := snapshot.(phase := Burning);
      return false;
    }

    method BurnFinishes(clean: bool, now: nat)
      modifies this
      ensures Data() == FinishBurn(cfg, clean, now)
    {
      snapshot := Blank(cfg);
      controller := None;
      history := [];
      lastActivity := now;
      if !clean {
        snapshot := snapshot.(phase := Failed);
        snapshot := snapshot.(failure := true);
      }
    }

    method NavigateBegins(client: nat, command: Navigation, now: nat) returns (error: Option<AppError>)
      modifies this, blocklist
      ensures (Data(), error)
           == BeginNavigate(old(Data()), client, command, command.Visit? && Blocked(command.url), now)
    {
      error := EnsureActiveLease(Data(), client);
      if error.Some? {
        return;
      }
      lastActivity := now;
      if command.Visit? {
        var allowed := NavigationAllowed(command.url);
        if !allowed {
          error := Some(NavigationBlocked);
        }
      }
    }

    method NavigateFinishes(command: Navigation)
      modifies this
      ensures Data() == FinishNavigate(old(Data()), command)
    {
      if command.Visit? {
        snapshot := snapshot.(url := Some(command.url));
        Push(command.url);
      }
    }

    method Set(client: nat, setting: Setting, now: nat) returns (error: Option<AppError>)
      modifies this
      ensures match ChangeSetting(old(Data()), client, setting, now)
              case Ok(d) => error.None? && Data() == d
              case Err(e) => error == Some(e) && Data() == old(Data())
    {
      if setting.AutoBurn? && setting.seconds > MAX_AUTO_BURN {
        return Some(InvalidRequest);
      }
      error := EnsureActiveLease(Data(), client);
      if error.Some? {
        return;
      }
      match setting {
        case Profile(profile) => snapshot := snapshot.(profile := profile);
        case BlocklistEnabled(enabled) => snapshot := snapshot.(blocklistEnabled := enabled);
        case AutoBurn(seconds) => snapshot := snapshot.(autoBurn := seconds);
      }
      lastActivity := now;
    }

    method SwitchBegins(client: nat) returns (error: Option<AppError>)
      modifies this
      ensures (Data(), error) == BeginSwitch(old(Data()), client)
    {
      error := EnsureActiveLease(Data(), client);
      if error.Some? {
        return;
      }
      snapshot := snapshot.(phase := Burning);
      if snapshot.url.None? {
        error := Some(SessionNotActive);
      }
    }

    method SwitchFinishes(id: nat, mode: EgressMode, url: Url, now: nat)
      modifies this
      ensures Data() == FinishSwitch(old(Data()), id, mode, url, now)
    {
      snapshot := snapshot.(id := Some(id));
      snapshot := snapshot.(egress := mode);
      snapshot := snapshot.(phase := Active);
      history := [];
      Push(url);
      lastActivity := now;
    }

    method RollbackFinishes(id: nat, previous: EgressMode, url: Url, now: nat)
      modifies this
      ensures Data() == FinishRollback(old(Data()), id, previous, url, now)
    {
      history := [];
      snapshot := snapshot.(id := Some(id));
      snapshot := snapshot.(phase := Active);
      snapshot := snapshot.(egress := previous);
      snapshot := snapshot.(failure := false);
      Push(url);
      lastActivity := now;
    }

    method SwitchFails()
      modifies this
      ensures Data() == FailSwitch(old(Data()))
    {
      history := [];
      Fails();
    }
  }
}
