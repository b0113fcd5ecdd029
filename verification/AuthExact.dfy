/** When pairing, contexts and tickets are granted, over all sequences of calls: exactly when. */
module AuthExact {
  import opened Types
  import opened Auth
  import opened AuthRuns

  // ----- pairing

  predicate Presents(op: Op, m: PairingMaterial) {
    op.Exchange? && (op.presented == m.secret || op.presented == m.manualCode)
  }

  /** The rotation `i` drew this material, and nothing has used it up or withdrawn it before `j`: an
      attempt with either of its secrets uses it up unless a lockout keeps it from being looked at. */
  ghost predicate Open(ttl: Ttl, ops: seq<Op>, i: nat, j: nat, m: PairingMaterial)
    requires i < j <= |ops|
  {
    && ops[i] == Rotate(Some(m))
    && forall k | i < k < j :: !Rotates(ops[k]) && !ops[k].Invalidate?
                               && !(Presents(ops[k], m) && !Locked(StateAt(ttl, ops, k), ops[k].now))
  }

  predicate Holds(s: AuthState, m: PairingMaterial) {
    s.pairing == Some(m.secret) && s.manual == Some(m.manualCode)
  }

  lemma StepMaterial(ttl: Ttl, s: AuthState, op: Op, m: PairingMaterial)
    requires AuthInv(s)
    ensures var next := Step(ttl, s, op).0;
            Holds(next, m) <==>
              op == Rotate(Some(m))
              || (Holds(s, m) && !Rotates(op) && !op.Invalidate? && !(Presents(op, m) && !Locked(s, op.now)))
  {
  }

  lemma {:induction false} MaterialOrigin(ttl: Ttl, ops: seq<Op>, j: nat, m: PairingMaterial) returns (i: nat)
    requires j <= |ops| && Holds(StateAt(ttl, ops, j), m)
    ensures i < j && Open(ttl, ops, i, j, m)
  {
    hide Step, Holds;
    assert j > 0 by { NewHoldsNothing(m); }
    ReachableAuthInv(ttl, ops, j - 1);
    StepMaterial(ttl, StateAt(ttl, ops, j - 1), ops[j - 1], m);
    if ops[j - 1] == Rotate(Some(m)) {
      i := j - 1;
    } else {
      i := MaterialOrigin(ttl, ops, j - 1, m);
    }
  }

  lemma NewHoldsNothing(m: PairingMaterial)
    ensures !Holds(NEW_AUTH, m)
  {
  }

  lemma {:induction false} MaterialKept(ttl: Ttl, ops: seq<Op>, i: nat, j: nat, m: PairingMaterial)
    requires i < j <= |ops| && Open(ttl, ops, i, j, m)
    ensures Holds(StateAt(ttl, ops, j), m)
  {
    hide Step, Holds;
    ReachableAuthInv(ttl, ops, j - 1);
    StepMaterial(ttl, StateAt(ttl, ops, j - 1), ops[j - 1], m);
    if i + 1 < j {
      MaterialKept(ttl, ops, i, j - 1, m);
    }
  }

  /** An attempt succeeds exactly when no lockout holds, it presents either secret of material that is
      still open, and the tokens can be drawn; it yields the tokens drawn. */
  lemma ExchangesExact(ttl: Ttl, ops: seq<Op>, j: nat, x: Exchanged)
    requires j < |ops| && ops[j].Exchange?
    ensures AnswerAt(ttl, ops, j) == Paired(x) <==>
            && !Locked(StateAt(ttl, ops, j), ops[j].now)
            && ops[j].draw.session == Some(x.session) && ops[j].draw.csrf == Some(x.csrf)
            && ops[j].draw.client == x.client
            && exists i, m :: 0 <= i < j && Open(ttl, ops, i, j, m) && Presents(ops[j], m)
  {
    hide Open;
    ReachableAuthInv(ttl, ops, j);
    var s := StateAt(ttl, ops, j);
    if AnswerAt(ttl, ops, j) == Paired(x) {
      var m := PairingMaterial(s.pairing.value, s.manual.value);
      var i := MaterialOrigin(ttl, ops, j, m);
      assert Open(ttl, ops, i, j, m) && Presents(ops[j], m);
    }
    if i, m :| 0 <= i < j && Open(ttl, ops, i, j, m) && Presents(ops[j], m) {
      MaterialKept(ttl, ops, i, j, m);
    }
  }

  // ----- the lockout

  function After(ttl: Ttl, s: AuthState, presented: nat, now: nat, draw: Draw): AuthState {
    ExchangePairing(s, ttl, presented, now, draw).0
  }

  /** Four wrong guesses after a fresh start set no lock; the fifth locks for thirty seconds from its
      own reading, and until then even the right secret is refused and changes nothing.  From that
      instant on the right secret is accepted. */
  lemma FifthGuessLocks(ttl: Ttl, s: AuthState, g: seq<nat>, t: seq<nat>, secret: nat, now: nat, draw: Draw)
    requires |g| == 5 && |t| == 5 && s.failed == 0 && !Locked(s, t[0])
    requires forall k | k in g :: !SecretMatches(s, k)
    requires SecretMatches(s, secret) && draw.session.Some? && draw.csrf.Some?
    ensures var s1 := After(ttl, s, g[0], t[0], draw);
            var s2 := After(ttl, s1, g[1], t[1], draw);
            var s3 := After(ttl, s2, g[2], t[2], draw);
            var s4 := After(ttl, s3, g[3], t[3], draw);
            var s5 := After(ttl, s4, g[4], t[4], draw);
            var (last, answer) := ExchangePairing(s5, ttl, secret, now, draw);
            && s1.lockedUntil.None? && s2.lockedUntil.None? && s3.lockedUntil.None? && s4.lockedUntil.None?
            && s5.lockedUntil == Some(t[4] + 30_000_000_000)
            && (now < t[4] + 30_000_000_000 ==> answer == Err(InvalidPairing) && last == s5)
            && (now >= t[4] + 30_000_000_000 ==>
                  answer == Ok(Exchanged(draw.session.value, draw.csrf.value, draw.client)))
  {
    assert g[0] in g && g[1] in g && g[2] in g && g[3] in g && g[4] in g;
    var s1 := After(ttl, s, g[0], t[0], draw);
    assert s1 == s.(failed := 1, lockedUntil := None);
    var s2 := After(ttl, s1, g[1], t[1], draw);
    assert s2 == s.(failed := 2, lockedUntil := None);
    var s3 := After(ttl, s2, g[2], t[2], draw);
    assert s3 == s.(failed := 3, lockedUntil := None);
    var s4 := After(ttl, s3, g[3], t[3], draw);
    assert s4 == s.(failed := 4, lockedUntil := None);
  }

  /** New material is accepted at once, by either of its secrets, whatever was locked or counted. */
  lemma RotationLiftsLockout(ttl: Ttl, s: AuthState, m: PairingMaterial, presented: nat, now: nat, draw: Draw)
    requires presented == m.secret || presented == m.manualCode
    requires draw.session.Some? && draw.csrf.Some?
    ensures var (after, answer) := ExchangePairing(RotatePairing(s, m), ttl, presented, now, draw);
            && answer == Ok(Exchanged(draw.session.value, draw.csrf.value, draw.client))
            && after.generation == s.generation + 1 && after.pairing.None? && after.manual.None?
  {
  }

  // ----- contexts and tickets

  /** The exchange `i` made the holder of `context` a controller, and nothing ended that before `j`. */
  ghost predicate Controls(ttl: Ttl, ops: seq<Op>, i: nat, j: nat, context: AuthContext)
    requires i < j <= |ops|
  {
    && ExchangeSucceeds(ttl, ops, i) && ops[i].draw.session.Some?
    && SessionAlive(ttl, ops, i, j, ops[i].draw.session.value)
    && context == AuthContext(ops[i].draw.client, StateAt(ttl, ops, i).generation)
    && Unpruned(ops, i, j, ops[i].now + ttl.auth)
  }

  lemma ControllerOrigin(ttl: Ttl, ops: seq<Op>, j: nat, context: AuthContext, now: nat) returns (i: nat)
    requires j < |ops| && Current(Prune(StateAt(ttl, ops, j), now), context, now)
    ensures i < j && Controls(ttl, ops, i, j, context) && now < ops[i].now + ttl.auth
  {
    hide Step;
    var s := StateAt(ttl, ops, j);
    var live := Prune(s, now);
    var t :| t in live.sessions && live.sessions[t].client == context.client
             && live.sessions[t].generation == context.generation && live.sessions[t].expiresAt > now;
    i := SessionOrigin(ttl, ops, j, t);
    PairingStores(ttl, StateAt(ttl, ops, i), ops[i]);
  }

  lemma ControllerIsCurrent(ttl: Ttl, ops: seq<Op>, i: nat, j: nat, context: AuthContext, now: nat)
    requires i < j < |ops| && Controls(ttl, ops, i, j, context) && now < ops[i].now + ttl.auth && FreshSessions(ops)
    ensures Current(Prune(StateAt(ttl, ops, j), now), context, now)
  {
    hide Step;
    var t := ops[i].draw.session.value;
    PairingStores(ttl, StateAt(ttl, ops, i), ops[i]);
    SessionKept(ttl, ops, i, j, t);
    var live := Prune(StateAt(ttl, ops, j), now);
    assert t in live.sessions;
  }

  /** A held context validates exactly when the exchange that made it is less than its lifetime ago and
      nothing revoked, rotated or pruned it since. */
  lemma ContextsExact(ttl: Ttl, ops: seq<Op>, j: nat)
    requires j < |ops| && ops[j].Validate? && FreshSessions(ops)
    ensures AnswerAt(ttl, ops, j) == Flag(true) <==>
            exists i :: 0 <= i < j && Controls(ttl, ops, i, j, ops[j].context) && ops[j].now < ops[i].now + ttl.auth
  {
    hide Prune, Current;
    if AnswerAt(ttl, ops, j) == Flag(true) {
      var i := ControllerOrigin(ttl, ops, j, ops[j].context, ops[j].now);
    }
    if i :| 0 <= i < j && Controls(ttl, ops, i, j, ops[j].context) && ops[j].now < ops[i].now + ttl.auth {
      ControllerIsCurrent(ttl, ops, i, j, ops[j].context, ops[j].now);
    }
  }

  /** A ticket is issued exactly to such a context, if a token can be drawn. */
  lemma GrantsExact(ttl: Ttl, ops: seq<Op>, j: nat, ticket: nat)
    requires j < |ops| && ops[j].Issue? && FreshSessions(ops)
    ensures AnswerAt(ttl, ops, j) == Granted(ticket) <==>
            && ops[j].drawn == Some(ticket)
            && exists i :: 0 <= i < j && Controls(ttl, ops, i, j, ops[j].context) && ops[j].now < ops[i].now + ttl.auth
  {
    hide Prune, Current;
    if AnswerAt(ttl, ops, j) == Granted(ticket) {
      var i := ControllerOrigin(ttl, ops, j, ops[j].context, ops[j].now);
    }
    if i :| 0 <= i < j && Controls(ttl, ops, i, j, ops[j].context) && ops[j].now < ops[i].now + ttl.auth {
      ControllerIsCurrent(ttl, ops, i, j, ops[j].context, ops[j].now);
    }
  }

  // ----- recovery

  lemma {:induction false} GenerationCounts(ttl: Ttl, ops: seq<Op>, j: nat)
    requires j <= |ops|
    ensures StateAt(ttl, ops, j).generation > 0 <==> exists i | 0 <= i < j :: Rotates(ops[i])
  {
    hide Step;
    if j > 0 {
      GenerationCounts(ttl, ops, j - 1);
      StepGeneration(ttl, StateAt(ttl, ops, j - 1), ops[j - 1]);
    }
  }

  lemma NewestHolds(ttl: Ttl, ops: seq<Op>, j: nat) returns (i: nat, m: PairingMaterial)
    requires j <= |ops| && (StateAt(ttl, ops, j).pairing.Some? || StateAt(ttl, ops, j).manual.Some?)
    ensures i < j && Open(ttl, ops, i, j, m)
  {
    hide Step;
    ReachableAuthInv(ttl, ops, j);
    var s := StateAt(ttl, ops, j);
    m := PairingMaterial(s.pairing.value, s.manual.value);
    i := MaterialOrigin(ttl, ops, j, m);
  }

  lemma LiveHasController(s: AuthState, now: nat) returns (context: AuthContext)
    requires Prune(s, now).sessions != map[]
    ensures Current(Prune(s, now), context, now)
  {
    var live := Prune(s, now);
    var t :| t in live.sessions;
    context := AuthContext(live.sessions[t].client, live.sessions[t].generation);
  }

  /** Recovery is due exactly when pairing has been offered at some time, none is open now, and nobody is
      a controller any more. */
  lemma RecoveryExact(ttl: Ttl, ops: seq<Op>, j: nat)
    requires j < |ops| && ops[j].RecoveryCheck? && FreshSessions(ops)
    ensures AnswerAt(ttl, ops, j) == Flag(true) <==>
            && (exists i | 0 <= i < j :: Rotates(ops[i]))
            && (forall i, m | 0 <= i < j :: !Open(ttl, ops, i, j, m))
            && (forall i, context | 0 <= i < j :: Controls(ttl, ops, i, j, context) ==>
                                                   ops[j].now >= ops[i].now + ttl.auth)
  {
    hide Prune, Current, Open, StateAt;
    GenerationCounts(ttl, ops, j);
    var s, now := StateAt(ttl, ops, j), ops[j].now;
    if s.pairing.Some? || s.manual.Some? {
      var i, m := NewestHolds(ttl, ops, j);
    } else if i, m :| 0 <= i < j && Open(ttl, ops, i, j, m) {
      MaterialKept(ttl, ops, i, j, m);
    }
    if Prune(s, now).sessions != map[] {
      var context := LiveHasController(s, now);
      var i := ControllerOrigin(ttl, ops, j, context, now);
    } else if i, context :| 0 <= i < j && Controls(ttl, ops, i, j, context) && now < ops[i].now + ttl.auth {
      ControllerIsCurrent(ttl, ops, i, j, context, now);
      NobodyIsCurrent(s, context, now);
    }
  }

  lemma NobodyIsCurrent(s: AuthState, context: AuthContext, now: nat)
    requires Prune(s, now).sessions == map[]
    ensures !Current(Prune(s, now), context, now)
  {
  }

  // ----- logging in

  /** A login without a live cookie is unauthorized; one with it fails exactly for a missing or wrong CSRF
      token, where one is required. */
  lemma LoginRefusals(s: AuthState, token: Option<nat>, csrf: Option<nat>, requireCsrf: bool, now: nat)
    ensures var r := Authenticate(s, token, csrf, requireCsrf, now).1;
            var live := token.Some? && token.value in s.sessions && s.sessions[token.value].expiresAt > now
                        && s.sessions[token.value].generation == s.generation;
            && (r == Err(Unauthorized) <==> !live)
            && (r == Err(InvalidCsrf) <==> live && requireCsrf && csrf != Some(s.sessions[token.value].csrf))
            && (r.Err? ==> r.error == Unauthorized || r.error == InvalidCsrf)
            && (r.Ok? ==> r.value.client == s.sessions[token.value].client && r.value.generation == s.generation)
  {
  }
}
