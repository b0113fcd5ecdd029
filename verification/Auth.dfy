/** One-time pairing, the controller session and purpose-bound tickets.

    Secrets, tokens and client identifiers are natural numbers standing for the random values the
    daemon draws (a keyed hash is taken to be injective, so the value itself is stored).  A draw
    that may fail is an option.  Instants count nanoseconds. */
module Auth {
  import opened Types

  const MAX_PAIR_FAILURES: nat := 5
  const PAIR_LOCKOUT: nat := 30_000_000_000
  const U32_MAX: nat := 0xFFFF_FFFF

  datatype TicketPurpose = Events | Signaling

  datatype AuthSession = AuthSession(client: nat, csrf: nat, expiresAt: nat, generation: nat)

  datatype Ticket = Ticket(client: nat, expiresAt: nat, generation: nat, purpose: TicketPurpose)

  datatype AuthContext = AuthContext(client: nat, generation: nat)

  datatype PairingMaterial = PairingMaterial(secret: nat, manualCode: nat)

  /** The random values an exchange draws after it has accepted the secret. */
  datatype Draw = Draw(session: Option<nat>, csrf: Option<nat>, client: nat)

  datatype Exchanged = Exchanged(session: nat, csrf: nat, client: nat)

  datatype Ttl = Ttl(auth: nat, ticket: nat)

  datatype AuthState = AuthState(
    pairing: Option<nat>,
    manual: Option<nat>,
    sessions: map<nat, AuthSession>,
    tickets: map<nat, Ticket>,
    failed: nat,
    lockedUntil: Option<nat>,
    generation: nat)

  const NEW_AUTH := AuthState(None, None, map[], map[], 0, None, 0)

  function Prune(s: AuthState, now: nat): AuthState {
    s.(sessions := map t | t in s.sessions && s.sessions[t].expiresAt > now && s.sessions[t].generation == s.generation
                     :: s.sessions[t],
       tickets := map t | t in s.tickets && s.tickets[t].expiresAt > now && s.tickets[t].generation == s.generation
                    :: s.tickets[t])
  }

  function RotatePairing(s: AuthState, m: PairingMaterial): AuthState {
    AuthState(Some(m.secret), Some(m.manualCode), map[], map[], 0, None, s.generation + 1)
  }

  predicate Locked(s: AuthState, now: nat) {
    s.lockedUntil.Some? && s.lockedUntil.value > now
  }

  predicate SecretMatches(s: AuthState, presented: nat) {
    s.pairing == Some(presented) || s.manual == Some(presented)
  }

  function RecordFailure(s: AuthState, now: nat): AuthState {
    var failed := if s.failed < U32_MAX then s.failed + 1 else s.failed;
    if failed >= MAX_PAIR_FAILURES then s.(failed := 0, lockedUntil := Some(now + PAIR_LOCKOUT))
    else s.(failed := failed, lockedUntil := None)
  }

  function ExchangePairing(s: AuthState, ttl: Ttl, presented: nat, now: nat, draw: Draw)
    : (AuthState, Result<Exchanged, AppError>)
  {
    if Locked(s, now) then (s, Err(InvalidPairing))
    else if !SecretMatches(s, presented) then (RecordFailure(s, now), Err(InvalidPairing))
    else
      var consumed := s.(pairing := None, manual := None, failed := 0, lockedUntil := None);
      if draw.session.None? || draw.csrf.None? then (consumed, Err(Internal))
      else
        var session := AuthSession(draw.client, draw.csrf.value, now + ttl.auth, s.generation);
        (consumed.(sessions := s.sessions[draw.session.value := session]),
         Ok(Exchanged(draw.session.value, draw.csrf.value, draw.client)))
  }

  function Authenticate(s: AuthState, token: Option<nat>, csrf: Option<nat>, requireCsrf: bool, now: nat)
    : (AuthState, Result<AuthContext, AppError>)
  {
    if token.None? then (s, Err(Unauthorized))
    else
      var live := Prune(s, now);
      if token.value !in live.sessions then (live, Err(Unauthorized))
      else
        var session := live.sessions[token.value];
        if requireCsrf && csrf != Some(session.csrf) then (live, Err(InvalidCsrf))
        else (live, Ok(AuthContext(session.client, session.generation)))
  }

  /** The context names the current generation and one of its unexpired sessions. */
  predicate Current(s: AuthState, context: AuthContext, now: nat) {
    && context.generation == s.generation
    && exists t | t in s.sessions ::
         && s.sessions[t].client == context.client
         && s.sessions[t].generation == context.generation
         && s.sessions[t].expiresAt > now
  }

  function ValidateContext(s: AuthState, context: AuthContext, now: nat): (AuthState, bool) {
    var live := Prune(s, now);
    (live, Current(live, context, now))
  }

  function IssueTicket(s: AuthState, ttl: Ttl, context: AuthContext, purpose: TicketPurpose, now: nat,
                       token: Option<nat>)
    : (AuthState, Result<nat, AppError>)
  {
    if token.None? then (s, Err(Internal))
    else
      var live := Prune(s, now);
      if !Current(live, context, now) then (live, Err(Unauthorized))
      else
        var ticket := Ticket(context.client, now + ttl.ticket, s.generation, purpose);
        (live.(tickets := live.tickets[token.value := ticket]), Ok(token.value))
  }

  function ConsumeTicket(s: AuthState, token: nat, purpose: TicketPurpose, now: nat)
    : (AuthState, Result<AuthContext, AppError>)
  {
    if token !in s.tickets then (s, Err(Unauthorized))
    else
      var ticket := s.tickets[token];
      var rest := s.(tickets := s.tickets - {token});
      if ticket.expiresAt <= now || ticket.generation != s.generation || ticket.purpose != purpose
      then (rest, Err(Unauthorized))
      else (rest, Ok(AuthContext(ticket.client, ticket.generation)))
  }

  function RevokeAll(s: AuthState): AuthState {
    s.(sessions := map[], tickets := map[])
  }

  function InvalidateUnpublished(s: AuthState): AuthState {
    RevokeAll(s).(pairing := None, manual := None)
  }

  predicate RecoveryRequired(s: AuthState, now: nat) {
    && s.generation > 0 && s.pairing.None? && s.manual.None?
    && Prune(s, now).sessions == map[]
  }

  /** What every sequence of operations keeps (see AuthRuns). */
  ghost predicate AuthInv(s: AuthState) {
    && (s.pairing.Some? <==> s.manual.Some?)
    && (s.pairing.Some? ==> s.sessions == map[] && s.tickets == map[])
    && (forall t | t in s.sessions :: s.sessions[t].generation == s.generation)
    && (forall t | t in s.tickets :: s.tickets[t].generation == s.generation)
    && (forall t, u | t in s.sessions && u in s.sessions :: t == u)
    && s.failed < MAX_PAIR_FAILURES
    && (s.lockedUntil.Some? ==> s.failed == 0)
    && (s.generation == 0 ==> s.pairing.None? && s.sessions == map[] && s.tickets == map[])
  }

  /** The shared state behind the lock; each method is one critical section. */
  class AuthManager {
    const ttl: Ttl
    var pairingHash: Option<nat>
    var manualPairingHash: Option<nat>
    var sessions: map<nat, AuthSession>
    var tickets: map<nat, Ticket>
    var failedPairings: nat
    var lockedUntil: Option<nat>
    var generation: nat

    function State(): AuthState
      reads this
    {
      AuthState(pairingHash, manualPairingHash, sessions, tickets, failedPairings, lockedUntil, generation)
    }

    constructor (ttl: Ttl)
      ensures this.ttl == ttl && State() == NEW_AUTH
    {
      this.ttl := ttl;
      pairingHash, manualPairingHash := None, None;
      sessions, tickets := map[], map[];
      failedPairings, lockedUntil, generation := 0, None, 0;
    }

    method PruneExpired(now: nat)
      modifies this`sessions, this`tickets
      ensures State() == Prune(old(State()), now)
    {
      sessions := map t | t in sessions && sessions[t].expiresAt > now
          && sessions[t].generation == generation :: sessions[t];
      tickets := map t | t in tickets && tickets[t].expiresAt > now
          && tickets[t].generation == generation :: tickets[t];
    }

    method Rotate(random: Option<PairingMaterial>) returns (r: Result<PairingMaterial, AppError>)
      modifies this
      ensures r == if random.Some? then Ok(random.value) else Err(Internal)
      ensures State() == if random.Some? then RotatePairing(old(State()), random.value) else old(State())
    {
      if random.None? {
        return Err(Internal);
      }
      generation := generation + 1;
      pairingHash := Some(random.value.secret);
      manualPairingHash := Some(random.value.manualCode);
      sessions := map[];
      tickets := map[];
      failedPairings := 0;
      lockedUntil := None;
      return Ok(random.value);
    }

    method Exchange(presented: nat, now: nat, draw: Draw) returns (r: Result<Exchanged, AppError>)
      modifies this
      ensures (State(), r) == ExchangePairing(old(State()), ttl, presented, now, draw)
    {
      if lockedUntil.Some? && lockedUntil.value > now {
        return Err(InvalidPairing);
      }
      lockedUntil := None;
      var secretValid := pairingHash == Some(presented);
      var manualValid := manualPairingHash == Some(presented);
      if !(secretValid || manualValid) {
        failedPairings := if failedPairings < U32_MAX then failedPairings + 1 else failedPairings;
        if failedPairings >= MAX_PAIR_FAILURES {
          failedPairings := 0;
          lockedUntil := Some(now + PAIR_LOCKOUT);
        }
        return Err(InvalidPairing);
      }
      pairingHash := None;
      manualPairingHash := None;
      failedPairings := 0;
      if draw.session.None? {
        return Err(Internal);
      }
      if draw.csrf.None? {
        return Err(Internal);
      }
      sessions := sessions[draw.session.value := AuthSession(draw.client, draw.csrf.value, now + ttl.auth, generation)];
      return Ok(Exchanged(draw.session.value, draw.csrf.value, draw.client));
    }

    method Login(token: Option<nat>, csrf: Option<nat>, requireCsrf: bool, now: nat)
      returns (r: Result<AuthContext, AppError>)
      modifies this
      ensures (State(), r) == Authenticate(old(State()), token, csrf, requireCsrf, now)
    {
      if token.None? {
        return Err(Unauthorized);
      }
      PruneExpired(now);
      if token.value !in sessions {
        return Err(Unauthorized);
      }
      var session := sessions[token.value];
      if requireCsrf && csrf != Some(session.csrf) {
        return Err(InvalidCsrf);
      }
      return Ok(AuthContext(session.client, session.generation));
    }

    method Validate(context: AuthContext, now: nat) returns (valid: bool)
      modifies this
      ensures (State(), valid) == ValidateContext(old(State()), context, now)
    {
      PruneExpired(now);
      valid := Current(State(), context, now);
    }

    method Issue(context: AuthContext, purpose: TicketPurpose, now: nat, token: Option<nat>)
      returns (r: Result<nat, AppError>)
      modifies this
      ensures (State(), r) == IssueTicket(old(State()), ttl, context, purpose, now, token)
    {
      if token.None? {
        return Err(Internal);
      }
      PruneExpired(now);
      if !Current(State(), context, now) {
        return Err(Unauthorized);
      }
      tickets := tickets[token.value := Ticket(context.client, now + ttl.ticket, generation, purpose)];
      return Ok(token.value);
    }

    method Consume(token: nat, purpose: TicketPurpose, now: nat) returns (r: Result<AuthContext, AppError>)
      modifies this
      ensures (State(), r) == ConsumeTicket(old(State()), token, purpose, now)
    {
      if token !in tickets {
        return Err(Unauthorized);
      }
      var ticket := tickets[token];
      tickets := tickets - {token};
      if ticket.expiresAt <= now || ticket.generation != generation || ticket.purpose != purpose {
        return Err(Unauthorized);
      }
      return Ok(AuthContext(ticket.client, ticket.generation));
    }

    method Revoke()
      modifies this
      ensures State() == RevokeAll(old(State()))
    {
      sessions := map[];
      tickets := map[];
    }

    method InvalidateUnpublishedPairing()
      modifies this
      ensures State() == InvalidateUnpublished(old(State()))
    {
      pairingHash := None;
      manualPairingHash := None;
      sessions := map[];
      tickets := map[];
    }

    method PairingRecoveryRequired(now: nat) returns (required: bool)
      modifies this
      ensures State() == Prune(old(State()), now)
      ensures required == RecoveryRequired(old(State()), now)
    {
      PruneExpired(now);
      required := generation > 0 && pairingHash.None? && manualPairingHash.None? && sessions == map[];
    }
  }
}
