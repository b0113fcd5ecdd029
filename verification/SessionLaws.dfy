/** What each decision of the session means: which request is refused, why, and what an accepted one
    changes and leaves alone. */
module SessionLaws {
  import opened Types
  import opened Session

  predicate Startable(d: SessionData) {
    d.snapshot.phase.Idle? || d.snapshot.phase.Failed?
  }

  /** A start is refused for its phase, then for its page, then for its lease; an accepted one takes the
      lease and keeps every setting. */
  lemma StartDecision(d: SessionData, client: nat, url: Url, blocked: bool, id: nat, now: nat)
    ensures var r := BeginStart(d, client, url, blocked, id, now);
            var barred := d.snapshot.blocklistEnabled && blocked;
            var taken := d.controller.Some? && d.controller.value != client;
            && (r == Err(InvalidTransition) <==> !Startable(d))
            && (r == Err(NavigationBlocked) <==> Startable(d) && barred)
            && (r == Err(LeaseConflict) <==> Startable(d) && !barred && taken)
            && (r.Err? ==> r.error in {InvalidTransition, NavigationBlocked, LeaseConflict})
            && (r.Ok? ==>
                  var s, t := d.snapshot, r.value.snapshot;
                  && t.id == Some(id) && t.url == Some(url) && t.phase.Starting? && t.controllerAttached && !t.failure
                  && t.egress == s.egress && t.profile == s.profile && t.autoBurn == s.autoBurn
                  && t.blocklistEnabled == s.blocklistEnabled
                  && r.value.controller == Some(client) && r.value.history == d.history && r.value.lastActivity == now)
  {
  }

  /** Whoever does not hold the lease is told so; the holder is told when the session is not active. */
  lemma LeaseDecision(d: SessionData, client: nat)
    ensures EnsureActiveLease(d, client) == Some(LeaseConflict) <==> d.controller != Some(client)
    ensures EnsureActiveLease(d, client) == Some(SessionNotActive)
       <==> d.controller == Some(client) && !d.snapshot.phase.Active?
    ensures EnsureActiveLease(d, client) == None <==> d.controller == Some(client) && d.snapshot.phase.Active?
  {
  }

  /** A navigation is refused for the lease, then for its page; a blocked one counts as activity, and
      nothing else about the session changes. */
  lemma NavigateDecision(d: SessionData, client: nat, command: Navigation, blocked: bool, now: nat)
    ensures var (after, error) := BeginNavigate(d, client, command, blocked, now);
            var holds := d.controller == Some(client) && d.snapshot.phase.Active?;
            && (error == Some(NavigationBlocked) <==> holds && command.Visit? && d.snapshot.blocklistEnabled && blocked)
            && (error.None? <==> holds && !(command.Visit? && d.snapshot.blocklistEnabled && blocked))
            && (!holds ==> error == EnsureActiveLease(d, client) && after == d)
            && after.snapshot == d.snapshot && after.controller == d.controller && after.history == d.history
            && (holds ==> after.lastActivity == now)
  {
  }

  /** Only a visit changes what the session shows. */
  lemma NavigationOutcome(d: SessionData, command: Navigation)
    ensures var after := FinishNavigate(d, command);
            && (command.Visit? ==>
                  after.snapshot.url == Some(command.url) && after.history != []
                  && after.history[|after.history| - 1] == command.url)
            && (!command.Visit? ==> after == d)
            && after.snapshot.phase == d.snapshot.phase && after.snapshot.id == d.snapshot.id
            && after.snapshot.egress == d.snapshot.egress && after.snapshot.profile == d.snapshot.profile
            && after.controller == d.controller && after.lastActivity == d.lastActivity
  {
  }

  /** An accepted setting has the value asked for afterwards and moves no other; thresholds over a day are
      refused before anything is looked at. */
  lemma SettingDecision(d: SessionData, client: nat, setting: Setting, now: nat)
    ensures var r := ChangeSetting(d, client, setting, now);
            var holds := d.controller == Some(client) && d.snapshot.phase.Active?;
            && (r == Err(InvalidRequest) <==> setting.AutoBurn? && setting.seconds > 86_400)
            && (r.Ok? <==> holds && !(setting.AutoBurn? && setting.seconds > 86_400))
            && (r.Err? && r.error != InvalidRequest ==> Some(r.error) == EnsureActiveLease(d, client))
            && (r.Ok? ==>
                  var s, t := d.snapshot, r.value.snapshot;
                  && t.profile == (if setting.Profile? then setting.profile else s.profile)
                  && t.blocklistEnabled == (if setting.BlocklistEnabled? then setting.enabled else s.blocklistEnabled)
                  && t.autoBurn == (if setting.AutoBurn? then setting.seconds else s.autoBurn)
                  && t.id == s.id && t.url == s.url && t.phase == s.phase && t.egress == s.egress
                  && t.failure == s.failure && t.controllerAttached == s.controllerAttached
                  && r.value.controller == d.controller && r.value.history == d.history && r.value.lastActivity == now)
  {
  }

  /** A switch is refused like a setting; an accepted one suspends the session and changes nothing else. */
  lemma SwitchDecision(d: SessionData, client: nat)
    ensures var (after, error) := BeginSwitch(d, client);
            var holds := d.controller == Some(client) && d.snapshot.phase.Active?;
            && (error.None? <==> holds && d.snapshot.url.Some?)
            && (!holds ==> error == EnsureActiveLease(d, client) && after == d)
            && (holds ==> after == d.(snapshot := d.snapshot.(phase := Burning)))
  {
  }

  /** A finished switch or rollback shows the same page in the same profile under the mode it got; only
      a rollback clears a failure. */
  lemma SwitchOutcome(d: SessionData, id: nat, mode: EgressMode, url: Url, now: nat)
    ensures var done, undone := FinishSwitch(d, id, mode, url, now), FinishRollback(d, id, mode, url, now);
            && done.snapshot.phase.Active? && done.snapshot.id == Some(id) && done.snapshot.egress == mode
            && done.snapshot.url == d.snapshot.url && done.snapshot.profile == d.snapshot.profile
            && done.snapshot.autoBurn == d.snapshot.autoBurn
            && done.snapshot.blocklistEnabled == d.snapshot.blocklistEnabled
            && done.snapshot.failure == d.snapshot.failure && !undone.snapshot.failure
            && done.controller == d.controller && done.history == [url] && done.lastActivity == now
            && undone == done.(snapshot := done.snapshot.(failure := false))
  {
    assert PushHistory([], url) == [url];
  }

  /** A failure keeps the page, the settings and the lease, and a failed switch forgets the history too; a
      burn leaves an idle session alone and suspends any other. */
  lemma FailureOutcome(d: SessionData)
    ensures var failed, switching, burning := Fail(d), FailSwitch(d), BeginBurn(d);
            && failed.snapshot.phase.Failed? && failed.snapshot.failure && failed.history == d.history
            && failed.controller == d.controller && failed.lastActivity == d.lastActivity
            && failed.snapshot.(phase := d.snapshot.phase, failure := d.snapshot.failure) == d.snapshot
            && switching == failed.(history := [])
            && (if d.snapshot.phase.Idle? then burning == d
                else burning.snapshot.phase.Burning?
                     && burning.(snapshot := burning.snapshot.(phase := d.snapshot.phase)) == d)
  {
  }
}
