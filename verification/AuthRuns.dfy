/** Whole runs of the authentication state: who may authenticate, which tickets are accepted, how
    often pairing can succeed and how many guesses are compared. */
module AuthRuns {
  import opened Types
  import opened Auth

  datatype Op =
    | Rotate(random: Option<PairingMaterial>)
    | Exchange(presented: nat, now: nat, draw: Draw)
    | Login(cookie: Option<nat>, csrf: Option<nat>, requireCsrf: bool, now: nat)
    | Validate(context: AuthContext, now: nat)
    | Issue(context: AuthContext, purpose: TicketPurpose, now: nat, drawn: Option<nat>)
    | Consume(ticket: nat, purpose: TicketPurpose, now: nat)
    | Revoke
    | Invalidate
    | RecoveryCheck(now: nat)

  datatype Answer =
    | Paired(result: Exchanged)
    | Context(context: AuthContext)
    | Granted(ticket: nat)
    | Flag(value: bool)
    | Done
    | Refused

  function Step(ttl: Ttl, s: AuthState, op: Op): (AuthState, Answer) {
    match op
    case Rotate(random) => if random.Some? then (RotatePairing(s, random.value), Done) else (s, Refused)
    case Exchange(presented, now, draw) =>
      var (next, r) := ExchangePairing(s, ttl, presented, now, draw);
      (next, if r.Ok? then Paired(r.value) else Refused)
    case Login(cookie, csrf, requireCsrf, now) =>
      var (next, r) := Authenticate(s, cookie, csrf, requireCsrf, now);
      (next, if r.Ok? then Context(r.value) else Refused)
    case Validate(context, now) =>
      var (next, valid) := ValidateContext(s, context, now);
      (next, Flag(valid))
    case Issue(context, purpose, now, drawn) =>
      var (next, r) := IssueTicket(s, ttl, context, purpose, now, drawn);
      (next, if r.Ok? then Granted(r.value) else Refused)
    case Consume(ticket, purpose, now) =>
      var (next, r) := ConsumeTicket(s, ticket, purpose, now);
      (next, if r.Ok? then Context(r.value) else Refused)
    case Revoke => (RevokeAll(s), Done)
    case Invalidate => (InvalidateUnpublished(s), Done)
    case RecoveryCheck(now) => (Prune(s, now), Flag(RecoveryRequired(s, now)))
  }

  function StateAt(ttl: Ttl, ops: seq<Op>, i: nat): AuthState
    requires i <= |ops|
  {
    if i == 0 then NEW_AUTH else Step(ttl, StateAt(ttl, ops, i - 1), ops[i - 1]).0
  }

  function AnswerAt(ttl: Ttl, ops: seq<Op>, i: nat): Answer
    requires i < |ops|
  {
    Step(ttl, StateAt(ttl, ops, i), ops[i]).1
  }

  /** The clock reading of an operation, if it takes one. */
  function Clock(op: Op): Option<nat> {
    if op.Exchange? || op.Login? || op.Validate? || op.Issue? || op.Consume? || op.RecoveryCheck? then Some(op.now)
    else None
  }

  ghost predicate Monotone(ops: seq<Op>) {
    forall i, j | 0 <= i < j < |ops| && Clock(ops[i]).Some? && Clock(ops[j]).Some? ::
      Clock(ops[i]).value <= Clock(ops[j]).value
  }

  /** Random draws never repeat. */
  ghost predicate FreshTickets(ops: seq<Op>) {
    forall i, j | 0 <= i < j < |ops| && ops[i].Issue? && ops[j].Issue? && ops[i].drawn.Some? ::
      ops[i].drawn != ops[j].drawn
  }

  ghost predicate FreshSessions(ops: seq<Op>) {
    forall i, j | 0 <= i < j < |ops| && ops[i].Exchange? && ops[j].Exchange? && ops[i].draw.session.Some? ::
      ops[i].draw.session != ops[j].draw.session
  }

  predicate Rotates(op: Op) {
    op.Rotate? && op.random.Some?
  }

  lemma PruneKeepsAuthInv(s: AuthState, now: nat)
    requires AuthInv(s)
    ensures AuthInv(Prune(s, now)) && Prune(s, now).generation == s.generation
    ensures Prune(s, now).sessions != map[] ==> s.pairing.None?
  {
  }

  lemma ExchangeKeepsAuthInv(s: AuthState, ttl: Ttl, presented: nat, now: nat, draw: Draw)
    requires AuthInv(s)
    ensures AuthInv(ExchangePairing(s, ttl, presented, now, draw).0)
  {
  }

  /** Consumed pairing material comes back only
      by rotation, which is also the only step that moves the generation. */
  lemma StepGeneration(ttl: Ttl, s: AuthState, op: Op)
    ensures var next := Step(ttl, s, op).0;
            && next.generation == (if Rotates(op) then s.generation + 1 else s.generation)
            && (!Rotates(op) && s.pairing.None? && s.manual.None? ==> next.pairing.None? && next.manual.None?)
            && (op.Exchange? && Step(ttl, s, op).1.Paired? ==>
                  (s.pairing.Some? || s.manual.Some?) && next.pairing.None? && next.manual.None?)
  {
    hide Current;
  }

  lemma {:induction false} StepKeepsAuthInv(ttl: Ttl, s: AuthState, op: Op)
    requires AuthInv(s)
    ensures AuthInv(Step(ttl, s, op).0)
  {
    if Clock(op).Some? { PruneKeepsAuthInv(s, op.now); }
    match op {
      case Exchange(presented, now, draw) => ExchangeKeepsAuthInv(s, ttl, presented, now, draw);
      case Issue(context, purpose, now, drawn) => hide Prune;
      case _ =>
    }
  }

  /** In every reachable state: an available pairing excludes sessions and tickets, at most one
      session exists, and all stored sessions and tickets carry the current generation. */
  lemma {:induction false} ReachableAuthInv(ttl: Ttl, ops: seq<Op>, i: nat)
    requires i <= |ops|
    ensures AuthInv(StateAt(ttl, ops, i))
  {
    if i > 0 {
      ReachableAuthInv(ttl, ops, i - 1);
      StepKeepsAuthInv(ttl, StateAt(ttl, ops, i - 1), ops[i - 1]);
    }
  }

  // ----- single exchange per generation

  predicate ExchangeSucceeds(ttl: Ttl, ops: seq<Op>, i: nat)
    requires i < |ops|
  {
    ops[i].Exchange? && AnswerAt(ttl, ops, i).Paired?
  }

  lemma {:induction false} PairingStaysConsumed(ttl: Ttl, ops: seq<Op>, i: nat, j: nat)
    requires i < j <= |ops|
    requires ExchangeSucceeds(ttl, ops, i)
    requires forall k | i < k < j :: !Rotates(ops[k])
    ensures StateAt(ttl, ops, j).pairing.None? && StateAt(ttl, ops, j).manual.None?
    ensures StateAt(ttl, ops, j).generation == StateAt(ttl, ops, i).generation
  {
    hide Step;
    StepGeneration(ttl, StateAt(ttl, ops, j - 1), ops[j - 1]);
    if i + 1 < j {
      PairingStaysConsumed(ttl, ops, i, j - 1);
    }
  }

  /** Two successful exchanges are separated by a rotation: at most one per generation. */
  lemma SingleExchangePerGeneration(ttl: Ttl, ops: seq<Op>, i: nat, j: nat)
    requires i < j < |ops|
    requires ExchangeSucceeds(ttl, ops, i) && ExchangeSucceeds(ttl, ops, j)
    ensures exists k :: i < k < j && Rotates(ops[k])
    ensures StateAt(ttl, ops, i).generation < StateAt(ttl, ops, j).generation
  {
    hide Step;
    StepGeneration(ttl, StateAt(ttl, ops, j), ops[j]);
    if forall k | i < k < j :: !Rotates(ops[k]) {
      PairingStaysConsumed(ttl, ops, i, j);
    }
    var k :| i < k < j && Rotates(ops[k]);
    GenerationGrows(ttl, ops, i, k);
    StepGeneration(ttl, StateAt(ttl, ops, k), ops[k]);
    GenerationGrows(ttl, ops, k + 1, j);
  }

  lemma {:induction false} GenerationGrows(ttl: Ttl, ops: seq<Op>, i: nat, j: nat)
    requires i <= j <= |ops|
    ensures StateAt(ttl, ops, i).generation <= StateAt(ttl, ops, j).generation
  {
    hide Step;
    if i < j {
      GenerationGrows(ttl, ops, i, j - 1);
      StepGeneration(ttl, StateAt(ttl, ops, j - 1), ops[j - 1]);
    }
  }

  // ----- what a pruning operation may have thrown away

  predicate Prunes(op: Op) {
    op.Validate? || op.RecoveryCheck? || (op.Login? && op.cookie.Some?) || (op.Issue? && op.drawn.Some?)
  }

  /** No pruning operation strictly between `i` and `j` read the clock at `expiry` or later. */
  ghost predicate Unpruned(ops: seq<Op>, i: nat, j: nat, expiry: nat)
    requires j <= |ops|
  {
    forall k | i < k < j && Prunes(ops[k]) :: ops[k].now < expiry
  }

  /** With readings in order, an expiry that has not come by `j` has not come before. */
  lemma OrderedIsUnpruned(ops: seq<Op>, i: nat, j: nat, expiry: nat)
    requires j < |ops| && Monotone(ops) && Clock(ops[j]).Some? && ops[j].now < expiry
    ensures Unpruned(ops, i, j, expiry)
  {
    forall k | i < k < j && Prunes(ops[k]) ensures ops[k].now < expiry {
      assert Clock(ops[k]).Some? && Clock(ops[k]).value <= Clock(ops[j]).value;
    }
  }

  // ----- tickets

  predicate Destroys(op: Op, ticket: nat) {
    Rotates(op) || op.Revoke? || op.Invalidate? || (op.Consume? && op.ticket == ticket)
  }

  predicate Issues(ttl: Ttl, ops: seq<Op>, i: nat, ticket: nat)
    requires i < |ops|
  {
    ops[i].Issue? && AnswerAt(ttl, ops, i) == Granted(ticket)
  }

  ghost predicate TicketAlive(ttl: Ttl, ops: seq<Op>, i: nat, j: nat, ticket: nat)
    requires i < j <= |ops|
  {
    && Issues(ttl, ops, i, ticket)
    && forall k | i < k < j :: !Destroys(ops[k], ticket)
  }

  function IssuedTicket(ttl: Ttl, op: Op): Ticket
    requires op.Issue?
  {
    Ticket(op.context.client, op.now + ttl.ticket, op.context.generation, op.purpose)
  }

  lemma StepTicket(ttl: Ttl, s: AuthState, op: Op, ticket: nat)
    requires ticket in Step(ttl, s, op).0.tickets
    ensures var (next, answer) := Step(ttl, s, op);
            || (op.Issue? && answer == Granted(ticket) && next.tickets[ticket] == IssuedTicket(ttl, op))
            || (ticket in s.tickets && next.tickets[ticket] == s.tickets[ticket] && !Destroys(op, ticket)
                && (Prunes(op) ==> op.now < s.tickets[ticket].expiresAt))
  {
  }

  lemma StepKeepsTicket(ttl: Ttl, s: AuthState, op: Op, ticket: nat)
    requires ticket in s.tickets && s.tickets[ticket].generation == s.generation
    requires !Destroys(op, ticket) && !(op.Issue? && op.drawn == Some(ticket))
    requires Prunes(op) ==> op.now < s.tickets[ticket].expiresAt
    ensures var next := Step(ttl, s, op).0;
            ticket in next.tickets && next.tickets[ticket] == s.tickets[ticket] && next.generation == s.generation
  {
  }

  lemma GrantStores(ttl: Ttl, s: AuthState, op: Op, ticket: nat)
    requires op.Issue? && Step(ttl, s, op).1 == Granted(ticket)
    ensures var next := Step(ttl, s, op).0;
            && op.drawn == Some(ticket) && op.context.generation == s.generation == next.generation
            && ticket in next.tickets && next.tickets[ticket] == IssuedTicket(ttl, op)
  {
  }

  lemma {:induction false} TicketOrigin(ttl: Ttl, ops: seq<Op>, j: nat, ticket: nat) returns (i: nat)
    requires j <= |ops| && ticket in StateAt(ttl, ops, j).tickets
    ensures i < j && TicketAlive(ttl, ops, i, j, ticket) && Unpruned(ops, i, j, ops[i].now + ttl.ticket)
    ensures StateAt(ttl, ops, j).tickets[ticket] == IssuedTicket(ttl, ops[i])
  {
    hide Step;
    StepTicket(ttl, StateAt(ttl, ops, j - 1), ops[j - 1], ticket);
    if Issues(ttl, ops, j - 1, ticket) {
      i := j - 1;
      GrantStores(ttl, StateAt(ttl, ops, i), ops[i], ticket);
    } else {
      i := TicketOrigin(ttl, ops, j - 1, ticket);
    }
  }

  lemma {:induction false} TicketKept(ttl: Ttl, ops: seq<Op>, i: nat, j: nat, ticket: nat)
    requires i < j <= |ops| && TicketAlive(ttl, ops, i, j, ticket) && FreshTickets(ops)
    requires Unpruned(ops, i, j, ops[i].now + ttl.ticket)
    ensures var s := StateAt(ttl, ops, j);
            ticket in s.tickets && s.tickets[ticket] == IssuedTicket(ttl, ops[i])
                && s.generation == ops[i].context.generation
  {
    hide Step;
    GrantStores(ttl, StateAt(ttl, ops, i), ops[i], ticket);
    if i + 1 < j {
      TicketKept(ttl, ops, i, j - 1, ticket);
      assert !Destroys(ops[j - 1], ticket);
      StepKeepsTicket(ttl, StateAt(ttl, ops, j - 1), ops[j - 1], ticket);
    }
  }

  /** A ticket is accepted exactly when it was issued, for this purpose and less than its lifetime
      ago, since then nothing revoked, rotated or presented it (a presentation for the wrong purpose
      counts), and nothing that prunes has read the clock past its expiry.  The context it yields is
      the one it was issued for.  Readings need not be in order. */
  lemma TicketsExact(ttl: Ttl, ops: seq<Op>, j: nat, context: AuthContext)
    requires j < |ops| && ops[j].Consume? && FreshTickets(ops)
    ensures AnswerAt(ttl, ops, j) == Context(context) <==>
            exists i :: 0 <= i < j && TicketAlive(ttl, ops, i, j, ops[j].ticket)
                        && ops[i].context == context && ops[i].purpose == ops[j].purpose
                        && ops[j].now < ops[i].now + ttl.ticket
                        && Unpruned(ops, i, j, ops[i].now + ttl.ticket)
  {
    var ticket := ops[j].ticket;
    if AnswerAt(ttl, ops, j) == Context(context) {
      var i := TicketOrigin(ttl, ops, j, ticket);
      assert i < j && TicketAlive(ttl, ops, i, j, ticket);
    }
    if i :| 0 <= i < j && TicketAlive(ttl, ops, i, j, ticket) && ops[i].context == context
            && ops[i].purpose == ops[j].purpose && ops[j].now < ops[i].now + ttl.ticket
            && Unpruned(ops, i, j, ops[i].now + ttl.ticket) {
      TicketKept(ttl, ops, i, j, ticket);
    }
  }

  /** With readings in order the last condition goes without saying. */
  lemma TicketsInOrder(ttl: Ttl, ops: seq<Op>, j: nat, context: AuthContext)
    requires j < |ops| && ops[j].Consume? && Monotone(ops) && FreshTickets(ops)
    ensures AnswerAt(ttl, ops, j) == Context(context) <==>
            exists i :: 0 <= i < j && TicketAlive(ttl, ops, i, j, ops[j].ticket)
                        && ops[i].context == context && ops[i].purpose == ops[j].purpose
                        && ops[j].now < ops[i].now + ttl.ticket
  {
    TicketsExact(ttl, ops, j, context);
    if i :| 0 <= i < j && TicketAlive(ttl, ops, i, j, ops[j].ticket) && ops[i].context == context
            && ops[i].purpose == ops[j].purpose && ops[j].now < ops[i].now + ttl.ticket {
      OrderedIsUnpruned(ops, i, j, ops[i].now + ttl.ticket);
    }
  }

  /** No ticket is accepted twice. */
  lemma TicketSingleUse(ttl: Ttl, ops: seq<Op>, i: nat, j: nat)
    requires i < j < |ops| && FreshTickets(ops)
    requires ops[i].Consume? && ops[j].Consume? && ops[i].ticket == ops[j].ticket
    requires AnswerAt(ttl, ops, i).Context?
    ensures AnswerAt(ttl, ops, j).Refused?
  {
    if AnswerAt(ttl, ops, j).Context? {
      var a := TicketOrigin(ttl, ops, i, ops[i].ticket);
      var b := TicketOrigin(ttl, ops, j, ops[i].ticket);
      assert Destroys(ops[i], ops[i].ticket);
    }
  }

  // ----- cookies

  predicate Revokes(op: Op) {
    Rotates(op) || op.Revoke? || op.Invalidate?
  }

  predicate Opens(ttl: Ttl, ops: seq<Op>, i: nat, token: nat)
    requires i < |ops|
  {
    ExchangeSucceeds(ttl, ops, i) && ops[i].draw.session == Some(token)
  }

  ghost predicate SessionAlive(ttl: Ttl, ops: seq<Op>, i: nat, j: nat, token: nat)
    requires i < j <= |ops|
  {
    && Opens(ttl, ops, i, token)
    && forall k | i < k < j :: !Revokes(ops[k])
  }

  function OpenedSession(ttl: Ttl, ops: seq<Op>, i: nat): AuthSession
    requires i < |ops| && ops[i].Exchange? && ops[i].draw.csrf.Some?
  {
    AuthSession(ops[i].draw.client, ops[i].draw.csrf.value, ops[i].now + ttl.auth, StateAt(ttl, ops, i).generation)
  }

  lemma StepSession(ttl: Ttl, s: AuthState, op: Op, token: nat)
    requires token in Step(ttl, s, op).0.sessions
    ensures var (next, answer) := Step(ttl, s, op);
            || (op.Exchange? && answer.Paired? && op.draw.session == Some(token) && op.draw.csrf.Some?
                && next.sessions[token]
                     == AuthSession(op.draw.client, op.draw.csrf.value, op.now + ttl.auth, s.generation))
            || (token in s.sessions && next.sessions[token] == s.sessions[token] && !Revokes(op)
                && (Prunes(op) ==> op.now < s.sessions[token].expiresAt))
  {
  }

  lemma StepKeepsSession(ttl: Ttl, s: AuthState, op: Op, token: nat)
    requires token in s.sessions && s.sessions[token].generation == s.generation
    requires !Revokes(op) && !(op.Exchange? && op.draw.session == Some(token))
    requires Prunes(op) ==> op.now < s.sessions[token].expiresAt
    ensures var next := Step(ttl, s, op).0;
            token in next.sessions && next.sessions[token] == s.sessions[token] && next.generation == s.generation
  {
  }

  lemma PairingStores(ttl: Ttl, s: AuthState, op: Op)
    requires op.Exchange? && Step(ttl, s, op).1.Paired?
    ensures var next := Step(ttl, s, op).0;
            && op.draw.session.Some? && op.draw.csrf.Some? && next.generation == s.generation
            && op.draw.session.value in next.sessions
            && next.sessions[op.draw.session.value]
               == AuthSession(op.draw.client, op.draw.csrf.value, op.now + ttl.auth, s.generation)
  {
  }

  lemma {:induction false} SessionOrigin(ttl: Ttl, ops: seq<Op>, j: nat, token: nat) returns (i: nat)
    requires j <= |ops| && token in StateAt(ttl, ops, j).sessions
    ensures i < j && SessionAlive(ttl, ops, i, j, token) && Unpruned(ops, i, j, ops[i].now + ttl.auth)
    ensures StateAt(ttl, ops, j).sessions[token] == OpenedSession(ttl, ops, i)
  {
    hide Step;
    StepSession(ttl, StateAt(ttl, ops, j - 1), ops[j - 1], token);
    if Opens(ttl, ops, j - 1, token) {
      i := j - 1;
      PairingStores(ttl, StateAt(ttl, ops, i), ops[i]);
    } else {
      i := SessionOrigin(ttl, ops, j - 1, token);
    }
  }

  lemma {:induction false} SessionKept(ttl: Ttl, ops: seq<Op>, i: nat, j: nat, token: nat)
    requires i < j <= |ops| && SessionAlive(ttl, ops, i, j, token) && FreshSessions(ops)
    requires Unpruned(ops, i, j, ops[i].now + ttl.auth)
    ensures var s := StateAt(ttl, ops, j);
            token in s.sessions && s.sessions[token] == OpenedSession(ttl, ops, i)
            && s.generation == StateAt(ttl, ops, i).generation
  {
    hide Step;
    PairingStores(ttl, StateAt(ttl, ops, i), ops[i]);
    if i + 1 < j {
      SessionKept(ttl, ops, i, j - 1, token);
      assert !Revokes(ops[j - 1]);
      StepKeepsSession(ttl, StateAt(ttl, ops, j - 1), ops[j - 1], token);
    }
  }

  /** The exchange `i` opened the session that the login `j` presents, and nothing ended it since. */
  ghost predicate Answers(ttl: Ttl, ops: seq<Op>, i: nat, j: nat, context: AuthContext)
    requires i < j < |ops| && ops[j].Login?
  {
    && ops[j].cookie.Some? && SessionAlive(ttl, ops, i, j, ops[j].cookie.value)
    && context == AuthContext(ops[i].draw.client, StateAt(ttl, ops, i).generation)
    && ops[j].now < ops[i].now + ttl.auth
    && (ops[j].requireCsrf ==> ops[j].csrf == ops[i].draw.csrf)
  }

  /** A cookie authenticates exactly when an exchange opened it less than its lifetime ago, nothing
      has revoked or rotated since, nothing that prunes has read the clock past its expiry, and the
      matching CSRF token comes along where one is required.  In particular nothing of an earlier
      generation authenticates after a rotation.  Readings need not be in order. */
  lemma CookiesExact(ttl: Ttl, ops: seq<Op>, j: nat, context: AuthContext)
    requires j < |ops| && ops[j].Login? && FreshSessions(ops)
    ensures AnswerAt(ttl, ops, j) == Context(context) <==>
            exists i :: 0 <= i < j && Answers(ttl, ops, i, j, context) && Unpruned(ops, i, j, ops[i].now + ttl.auth)
  {
    if AnswerAt(ttl, ops, j) == Context(context) {
      var i := CookieOrigin(ttl, ops, j, context);
    }
    if i :| 0 <= i < j && Answers(ttl, ops, i, j, context) && Unpruned(ops, i, j, ops[i].now + ttl.auth) {
      SessionKept(ttl, ops, i, j, ops[j].cookie.value);
    }
  }

  /** The only-if half needs neither order nor fresh draws. */
  lemma CookieOrigin(ttl: Ttl, ops: seq<Op>, j: nat, context: AuthContext) returns (i: nat)
    requires j < |ops| && ops[j].Login? && AnswerAt(ttl, ops, j) == Context(context)
    ensures i < j && Answers(ttl, ops, i, j, context) && Unpruned(ops, i, j, ops[i].now + ttl.auth)
  {
    i := SessionOrigin(ttl, ops, j, ops[j].cookie.value);
  }

  /** With readings in order the condition on pruning goes without saying. */
  lemma CookiesInOrder(ttl: Ttl, ops: seq<Op>, j: nat, context: AuthContext)
    requires j < |ops| && ops[j].Login? && Monotone(ops) && FreshSessions(ops)
    ensures AnswerAt(ttl, ops, j) == Context(context) <==> exists i :: 0 <= i < j && Answers(ttl, ops, i, j, context)
  {
    CookiesExact(ttl, ops, j, context);
    if i :| 0 <= i < j && Answers(ttl, ops, i, j, context) {
      OrderedIsUnpruned(ops, i, j, ops[i].now + ttl.auth);
    }
  }

  // ----- lockout

  /** A wrong secret that is actually compared. */
  predicate Compared(s: AuthState, op: Op) {
    op.Exchange? && !Locked(s, op.now) && !SecretMatches(s, op.presented)
  }

  function WrongGuesses(ttl: Ttl, s: AuthState, ops: seq<Op>): nat
    decreases |ops|
  {
    if ops == [] then 0
    else (if Compared(s, ops[0]) then 1 else 0) + WrongGuesses(ttl, Step(ttl, s, ops[0]).0, ops[1..])
  }

  /** No rotation and no accepted secret: one generation, before the exchange. */
  ghost predicate Unpaired(ttl: Ttl, s: AuthState, ops: seq<Op>)
    decreases |ops|
  {
    ops != [] ==>
      && !Rotates(ops[0])
      && !(ops[0].Exchange? && !Locked(s, ops[0].now) && SecretMatches(s, ops[0].presented))
      && Unpaired(ttl, Step(ttl, s, ops[0]).0, ops[1..])
  }

  ghost predicate Within(ops: seq<Op>, start: nat, end: nat) {
    forall i | 0 <= i < |ops| && ops[i].Exchange? :: start <= ops[i].now <= end
  }

  /** The reading of the first guess of the round under way, five wrong guesses making a round. */
  function Began(s: AuthState, op: Op, first: nat): nat {
    if Compared(s, op) && s.failed == 0 then op.now else first
  }

  /** The wrong guesses read the clock between `start` and `end`, and the one that completes a round and
      sets the lock does not read it before the first of its round.  Nothing else need be in order. */
  ghost predicate Timely(ttl: Ttl, s: AuthState, ops: seq<Op>, first: nat, start: nat, end: nat)
    decreases |ops|
  {
    ops != [] ==>
      var op := ops[0];
      var began := Began(s, op, first);
      && (Compared(s, op) ==> start <= op.now <= end && (s.failed + 1 == MAX_PAIR_FAILURES ==> began <= op.now))
      && Timely(ttl, Step(ttl, s, op).0, ops[1..], began, start, end)
  }

  /** The guesses that can still be compared: the rest of the round under way, and a full round for
      every lockout period after its first guess, or after the lock. */
  function Budget(s: AuthState, first: nat, start: nat, end: nat): nat
    requires s.failed < MAX_PAIR_FAILURES
    requires s.failed > 0 ==> first <= end
  {
    if s.failed > 0 then MAX_PAIR_FAILURES - s.failed + MAX_PAIR_FAILURES * ((end - first) / PAIR_LOCKOUT)
    else
      var open := if s.lockedUntil.Some? && s.lockedUntil.value > start then s.lockedUntil.value else start;
      if open > end then 0 else MAX_PAIR_FAILURES * ((end - open) / PAIR_LOCKOUT + 1)
  }

  /** Every operation of an unpaired run pays for the guess it compares. */
  lemma GuessSpendsBudget(ttl: Ttl, s: AuthState, op: Op, first: nat, start: nat, end: nat)
    requires AuthInv(s) && (s.failed > 0 ==> first <= end) && !Rotates(op)
    requires !(op.Exchange? && !Locked(s, op.now) && SecretMatches(s, op.presented))
    requires Compared(s, op) ==>
      start <= op.now <= end && (s.failed + 1 == MAX_PAIR_FAILURES ==> Began(s, op, first) <= op.now)
    ensures var next := Step(ttl, s, op).0;
            && next.failed < MAX_PAIR_FAILURES && (next.failed > 0 ==> Began(s, op, first) <= end)
            && (if Compared(s, op) then 1 else 0) + Budget(next, Began(s, op, first), start, end)
               <= Budget(s, first, start, end)
  {
    var next := Step(ttl, s, op).0;
    if Compared(s, op) {
      assert next == RecordFailure(s, op.now);
    } else {
      assert next.failed == s.failed && next.lockedUntil == s.lockedUntil;
    }
  }

  lemma {:induction false} GuessesWithinBudget(ttl: Ttl, s: AuthState, ops: seq<Op>, first: nat, start: nat, end: nat)
    requires AuthInv(s) && (s.failed > 0 ==> first <= end)
    requires Unpaired(ttl, s, ops) && Timely(ttl, s, ops, first, start, end)
    ensures WrongGuesses(ttl, s, ops) <= Budget(s, first, start, end)
    decreases |ops|
  {
    hide Step, Compared, Budget;
    if ops != [] {
      GuessSpendsBudget(ttl, s, ops[0], first, start, end);
      StepKeepsAuthInv(ttl, s, ops[0]);
      GuessesWithinBudget(ttl, Step(ttl, s, ops[0]).0, ops[1..], Began(s, ops[0], first), start, end);
    }
  }

  /** Lockout: within one generation and before the exchange, the wrong guesses of a run that read the
      clock within `end - start` number at most five per started 30 seconds, provided no guess that
      sets a lock reads the clock before the first guess of its round. */
  lemma LockoutBound(ttl: Ttl, ops: seq<Op>, i: nat, j: nat, start: nat, end: nat)
    requires i <= j <= |ops| && start <= end
    requires Unpaired(ttl, StateAt(ttl, ops, i), ops[i..j])
    requires Timely(ttl, StateAt(ttl, ops, i), ops[i..j], start, start, end)
    ensures WrongGuesses(ttl, StateAt(ttl, ops, i), ops[i..j]) <= 5 * ((end - start) / 30_000_000_000 + 1)
  {
    hide Step, WrongGuesses, Unpaired, Timely;
    ReachableAuthInv(ttl, ops, i);
    GuessesWithinBudget(ttl, StateAt(ttl, ops, i), ops[i..j], start, start, end);
  }

  /** Attempts at pairing, in order and from `first` on. */
  ghost predicate AttemptsInOrder(ops: seq<Op>, first: nat) {
    && (forall i | 0 <= i < |ops| && ops[i].Exchange? :: first <= ops[i].now)
    && (forall i, j | 0 <= i < j < |ops| && ops[i].Exchange? && ops[j].Exchange? :: ops[i].now <= ops[j].now)
  }

  lemma {:induction false} OrderedIsTimely(ttl: Ttl, s: AuthState, ops: seq<Op>, first: nat, start: nat, end: nat)
    requires AttemptsInOrder(ops, first) && Within(ops, start, end)
    ensures Timely(ttl, s, ops, first, start, end)
    decreases |ops|
  {
    hide Step;
    if ops != [] {
      var op, rest := ops[0], ops[1..];
      forall i | 0 <= i < |rest| ensures rest[i] == ops[i + 1] {
      }
      OrderedIsTimely(ttl, Step(ttl, s, op).0, rest, Began(s, op, first), start, end);
    }
  }

  /** In particular when the attempts read the clock in order, whatever other operations read. */
  lemma LockoutInOrder(ttl: Ttl, ops: seq<Op>, i: nat, j: nat, start: nat, end: nat)
    requires i <= j <= |ops| && start <= end
    requires Unpaired(ttl, StateAt(ttl, ops, i), ops[i..j])
    requires AttemptsInOrder(ops[i..j], start) && Within(ops[i..j], start, end)
    ensures WrongGuesses(ttl, StateAt(ttl, ops, i), ops[i..j]) <= 5 * ((end - start) / 30_000_000_000 + 1)
  {
    hide Step, WrongGuesses, Unpaired, Timely, StateAt, AttemptsInOrder, Within;
    OrderedIsTimely(ttl, StateAt(ttl, ops, i), ops[i..j], start, start, end);
    LockoutBound(ttl, ops, i, j, start, end);
  }

  /** Attempts with one guess, made at the given readings. */
  function Attempts(guess: nat, times: seq<nat>): (ops: seq<Op>)
    ensures |ops| == |times|
    ensures forall i | 0 <= i < |ops| :: ops[i] == Exchange(guess, times[i], Draw(None, None, 0))
  {
    if times == [] then [] else [Exchange(guess, times[0], Draw(None, None, 0))] + Attempts(guess, times[1..])
  }

  /** The clock is read before the lock is taken, so readings can be handed over out of order, and
      the bound does need that proviso.  After any first rotation, with one stale reading per round of
      five, eleven wrong guesses are compared within 30 seconds, where ten are allowed. */
  lemma LockoutNeedsOrderedReadings(ttl: Ttl, m: PairingMaterial, guess: nat)
    requires guess != m.secret && guess != m.manualCode
    ensures var t := 30_000_000_000;
            var attempts := StaleAttempts(guess);
            var ops := [Rotate(Some(m))] + attempts;
            var paired := StateAt(ttl, ops, 1);
            && ops[1..] == attempts && Within(attempts, 0, t) && Unpaired(ttl, paired, attempts)
            && WrongGuesses(ttl, paired, attempts) == 11 > 5 * ((t - 0) / 30_000_000_000 + 1)
  {
    var ops := [Rotate(Some(m))] + StaleAttempts(guess);
    assert ops[1..] == StaleAttempts(guess) && ops[0] == Rotate(Some(m));
    assert StateAt(ttl, ops, 1) == RotatePairing(NEW_AUTH, m) by { assert StateAt(ttl, ops, 0) == NEW_AUTH; }
    hide Attempts, StaleAttempts, WrongGuesses, Unpaired;
    ElevenGuesses(ttl, RotatePairing(NEW_AUTH, m), guess);
    StaleWithin(guess);
  }

  /** Two rounds of five with a stale reading each, and one more attempt. */
  function StaleAttempts(guess: nat): seq<Op> {
    var t := PAIR_LOCKOUT;
    Attempts(guess, [t, t, t, t, 0] + ([t, t, t, t, 0] + [t]))
  }

  lemma StaleWithin(guess: nat)
    ensures Within(StaleAttempts(guess), 0, PAIR_LOCKOUT)
  {
  }

  lemma ElevenGuesses(ttl: Ttl, s: AuthState, guess: nat)
    requires !SecretMatches(s, guess) && s.failed == 0 && s.lockedUntil.None?
    ensures Unpaired(ttl, s, StaleAttempts(guess)) && WrongGuesses(ttl, s, StaleAttempts(guess)) == 11
  {
    hide Attempts, WrongGuesses, Unpaired, Step;
    var t := PAIR_LOCKOUT;
    var locked := s.(lockedUntil := Some(t));
    StaleRound(ttl, s, guess, [t, t, t, t, 0] + [t]);
    StaleRound(ttl, locked, guess, [t]);
    AttemptCompared(ttl, locked, guess, t, []);
    NoAttempts(ttl, RecordFailure(locked, t), guess);
    assert [t] + [] == [t];
  }

  lemma NoAttempts(ttl: Ttl, s: AuthState, guess: nat)
    ensures WrongGuesses(ttl, s, Attempts(guess, [])) == 0 && Unpaired(ttl, s, Attempts(guess, []))
  {
  }

  lemma AttemptCompared(ttl: Ttl, s: AuthState, guess: nat, now: nat, rest: seq<nat>)
    requires !SecretMatches(s, guess) && !Locked(s, now)
    ensures WrongGuesses(ttl, s, Attempts(guess, [now] + rest))
        == 1 + WrongGuesses(ttl, RecordFailure(s, now), Attempts(guess, rest))
    ensures Unpaired(ttl, s, Attempts(guess, [now] + rest))
        == Unpaired(ttl, RecordFailure(s, now), Attempts(guess, rest))
  {
    assert ([now] + rest)[1..] == rest;
    var ops := Attempts(guess, [now] + rest);
    assert ops[1..] == Attempts(guess, rest);
  }

  lemma StaleRound(ttl: Ttl, s: AuthState, guess: nat, rest: seq<nat>)
    requires !SecretMatches(s, guess) && s.failed == 0
    requires s.lockedUntil == None || s.lockedUntil == Some(PAIR_LOCKOUT)
    ensures var t := 30_000_000_000;
            var after := s.(lockedUntil := Some(t));
            var ops := Attempts(guess, [t, t, t, t, 0] + rest);
            && WrongGuesses(ttl, s, ops) == 5 + WrongGuesses(ttl, after, Attempts(guess, rest))
            && Unpaired(ttl, s, ops) == Unpaired(ttl, after, Attempts(guess, rest))
  {
    var t := PAIR_LOCKOUT;
    var one := s.(failed := 1, lockedUntil := None);
    assert [t, t, t, t, 0] + rest == [t] + ([t] + ([t] + ([t] + ([0] + rest))));
    AttemptCompared(ttl, s, guess, t, [t] + ([t] + ([t] + ([0] + rest))));
    AttemptCompared(ttl, one, guess, t, [t] + ([t] + ([0] + rest)));
    AttemptCompared(ttl, one.(failed := 2), guess, t, [t] + ([0] + rest));
    AttemptCompared(ttl, one.(failed := 3), guess, t, [0] + rest);
    AttemptCompared(ttl, one.(failed := 4), guess, 0, rest);
  }
}
