/**
 * Desktop pairing: a pairing row and the credential row provisioned from it. Every operation is one transaction. A
 * digest stands for its preimage, a derived value for the secret, purpose and row it was derived from, and a random
 * id is a number never used before.
 */
module PairingProtocol {
  import opened Common

  const RETAIN_FINISHED_PAIRINGS_MS := 86_400_000

  /** The endpoint the user selected. */
  datatype Binding = Binding(instanceId: string, origin: string, scope: string, generation: string)

  datatype Purpose = Credential | ActivationTicket

  datatype Value = Derived(secret: nat, purpose: Purpose, pairing: nat, binding: Binding)

  datatype Status = Pending | Approved | Consumed

  datatype Pairing = Pairing(
    secret: nat,
    binding: Binding,
    status: Status,
    expiresAt: int,
    approver: Option<nat>,
    token: Option<nat>,
    ticket: Option<Value>,
    activationExpiresAt: Option<int>,
    receipt: Option<nat>,
    activatedAt: Option<int>,
    cancelledAt: Option<int>)

  datatype Token = Token(
    value: Value,
    pairing: nat,
    owner: nat,
    active: bool,
    expiresAt: Option<int>,
    revokedAt: Option<int>)

  datatype Error = NotFound | Expired | AlreadyConsumed | WasCancelled | InvalidState | Revoked

  datatype PollReply = StillPending | Provisional(token: Value, ticket: Value, expiresAt: int, binding: Binding)

  datatype Receipt = Receipt(receipt: nat, activatedAt: int, expiresAt: Option<int>)

  /** One credential ever provisioned, with the pairing's expiry at the time. */
  datatype Provision = Provision(token: nat, value: Value, ticket: Value, expiresAt: int, pairingExpiresAt: int)

  /** What the desktop presents to cancel or activate. */
  datatype Presented = Presented(secret: nat, binding: Binding, ticket: Value)

  /**
   * Everything that ever happened to one pairing, kept when its rows are deleted: the secret and the binding it was
   * started with, the secret presented by each answered poll, and what each receipt and cancellation was given for.
   */
  datatype Life = Life(
    secret: nat,
    binding: Binding,
    polled: seq<nat>,
    presented: seq<Presented>,
    approvals: seq<nat>,
    provisions: seq<Provision>,
    polls: seq<PollReply>,
    activations: seq<Receipt>,
    receipts: seq<Receipt>,
    cancels: seq<int>)

  /** `issued` remembers which pairing every credential row was made for. */
  datatype World = World(
    pairings: map<nat, Pairing>,
    tokens: map<nat, Token>,
    nextId: nat,
    lives: map<nat, Life>,
    issued: map<nat, nat>)

  /** The configured lifetimes. */
  datatype Config = Config(pairingTtlMs: int, tokenTtlMs: Option<int>, provisionalTtlMs: int)

  function Min(a: int, b: int): int { if a < b then a else b }

  function TokenValue(p: nat, row: Pairing): Value { Derived(row.secret, Credential, p, row.binding) }

  function TicketValue(p: nat, row: Pairing): Value { Derived(row.secret, ActivationTicket, p, row.binding) }

  function Reply(p: nat, row: Pairing, expiresAt: int): PollReply {
    Provisional(TokenValue(p, row), TicketValue(p, row), expiresAt, row.binding)
  }

  // ---------- start and approve ----------

  function Start(w: World, binding: Binding, now: int, config: Config): World {
    w.(pairings := w.pairings[w.nextId := Pairing(w.nextId + 1, binding, Pending, now + config.pairingTtlMs,
                                                  None, None, None, None, None, None, None)],
       lives := w.lives[w.nextId := Life(w.nextId + 1, binding, [], [], [], [], [], [], [], [])],
       nextId := w.nextId + 2)
  }

  predicate CanApprove(w: World, p: nat, now: int) {
    p in w.pairings && w.pairings[p].status == Pending && w.pairings[p].expiresAt > now
  }

  function Approve(w: World, p: nat, user: nat, now: int): World {
    if !CanApprove(w, p, now) || p !in w.lives then w
    else w.(pairings := w.pairings[p := w.pairings[p].(status := Approved, approver := Some(user))],
            lives := w.lives[p := w.lives[p].(approvals := w.lives[p].approvals + [user])])
  }

  /** A repeated approval succeeds for the user who approved, while the pairing is neither used nor expired. */
  function ApproveReply(w: World, p: nat, user: nat, now: int): Result<Status, Error> {
    if CanApprove(w, p, now) then Ok(Approved)
    else if p !in w.pairings then Err(NotFound)
    else if w.pairings[p].status == Approved && w.pairings[p].approver == Some(user) && w.pairings[p].expiresAt > now
    then Ok(Approved)
    else if w.pairings[p].status == Consumed then Err(AlreadyConsumed)
    else Err(NotFound)
  }

  // ---------- poll ----------

  predicate Owns(w: World, p: nat, secret: nat) { p in w.pairings && w.pairings[p].secret == secret }

  /** The credential provisioned earlier is still there and the poll repeats it. */
  predicate CanRepeat(w: World, p: nat, now: int)
    requires p in w.pairings && w.pairings[p].token.Some?
  {
    var row := w.pairings[p];
    row.token.value in w.tokens && w.tokens[row.token.value].value == TokenValue(p, row)
    && row.ticket == Some(TicketValue(p, row)) && row.activationExpiresAt.Some? && row.activationExpiresAt.value > now
  }

  function PollReplyFor(w: World, p: nat, secret: nat, now: int, config: Config): Result<PollReply, Error> {
    if !Owns(w, p, secret) then Err(NotFound)
    else
      var row := w.pairings[p];
      if row.expiresAt <= now then Err(Expired)
      else match row.status
        case Pending => Ok(StillPending)
        case Consumed => Err(if row.cancelledAt.Some? then WasCancelled else AlreadyConsumed)
        case Approved =>
          if row.approver.None? then Err(InvalidState)
          else if row.token.None? then Ok(Reply(p, row, Min(row.expiresAt, now + config.provisionalTtlMs)))
          else if CanRepeat(w, p, now) then Ok(Reply(p, row, row.activationExpiresAt.value))
          else Err(Expired)
  }

  function Provisioned(w: World, p: nat, expiresAt: int): World
    requires p in w.pairings && w.pairings[p].approver.Some? && p in w.lives
  {
    var row := w.pairings[p];
    w.(tokens := w.tokens[w.nextId := Token(TokenValue(p, row), p, row.approver.value, false, Some(expiresAt), None)],
       pairings := w.pairings[p := row.(token := Some(w.nextId), ticket := Some(TicketValue(p, row)),
                                        activationExpiresAt := Some(expiresAt))],
       lives := w.lives[p := w.lives[p].(provisions := w.lives[p].provisions
         + [Provision(w.nextId, TokenValue(p, row), TicketValue(p, row), expiresAt, row.expiresAt)])],
       issued := w.issued[w.nextId := p],
       nextId := w.nextId + 1)
  }

  function Polled(w: World, p: nat, secret: nat, reply: PollReply): World
    requires p in w.lives
  {
    w.(lives := w.lives[p := w.lives[p].(polled := w.lives[p].polled + [secret],
                                         polls := w.lives[p].polls + [reply])])
  }

  function Poll(w: World, p: nat, secret: nat, now: int, config: Config): World {
    var reply := PollReplyFor(w, p, secret, now, config);
    if p !in w.lives || !(reply.Ok? && reply.value.Provisional?) then w
    else
      Polled(if w.pairings[p].token.None? then Provisioned(w, p, reply.value.expiresAt) else w, p, secret, reply.value)
  }

  // ---------- cancel and activate ----------

  predicate Matches(w: World, p: nat, with: Presented) {
    Owns(w, p, with.secret) && w.pairings[p].binding == with.binding && w.pairings[p].ticket == Some(with.ticket)
  }

  function CancelReply(w: World, p: nat, with: Presented, now: int): Result<int, Error> {
    if !Matches(w, p, with) then Err(NotFound)
    else if w.pairings[p].cancelledAt.Some? then Ok(w.pairings[p].cancelledAt.value)
    else if w.pairings[p].token.None? then Err(InvalidState)
    else Ok(now)
  }

  function Revoke(w: World, t: nat, now: int): World {
    if t in w.tokens && w.tokens[t].revokedAt.None?
    then w.(tokens := w.tokens[t := w.tokens[t].(revokedAt := Some(now))]) else w
  }

  /** Cancelling is not bound by any expiry, and takes an activated credential back too. */
  function Cancel(w: World, p: nat, with: Presented, now: int): World {
    if !Matches(w, p, with) || w.pairings[p].cancelledAt.Some? || w.pairings[p].token.None? || p !in w.lives then w
    else
      var w' := Revoke(w, w.pairings[p].token.value, now);
      w'.(pairings := w.pairings[p := w.pairings[p].(status := Consumed, cancelledAt := Some(now))],
          lives := w.lives[p := w.lives[p].(presented := w.lives[p].presented + [with],
                                            cancels := w.lives[p].cancels + [now])])
  }

  predicate CanActivate(w: World, t: nat, now: int) {
    t in w.tokens && !w.tokens[t].active && w.tokens[t].revokedAt.None?
    && w.tokens[t].expiresAt.Some? && w.tokens[t].expiresAt.value > now
  }

  function FinalExpiry(now: int, config: Config): Option<int> {
    if config.tokenTtlMs.None? then None else Some(now + config.tokenTtlMs.value)
  }

  function ActivateReply(w: World, p: nat, with: Presented, now: int, config: Config): Result<Receipt, Error> {
    if !Matches(w, p, with) then Err(NotFound)
    else
      var row := w.pairings[p];
      if row.token.None? then Err(InvalidState)
      else if row.status == Consumed then
        if row.cancelledAt.Some? then Err(WasCancelled)
        else if row.receipt.None? || row.activatedAt.None?
                || row.token.value !in w.tokens || !w.tokens[row.token.value].active then Err(AlreadyConsumed)
        else Ok(Receipt(row.receipt.value, row.activatedAt.value, w.tokens[row.token.value].expiresAt))
      else if row.status != Approved || row.expiresAt <= now
              || row.activationExpiresAt.None? || row.activationExpiresAt.value <= now
              || !CanActivate(w, row.token.value, now) then Err(Expired)
      else Ok(Receipt(w.nextId, now, FinalExpiry(now, config)))
  }

  function Activated(w: World, p: nat, t: nat, receipt: Receipt): World
    requires p in w.pairings && p in w.lives && t in w.tokens
  {
    w.(tokens := w.tokens[t := w.tokens[t].(active := true, expiresAt := receipt.expiresAt)],
       pairings := w.pairings[p := w.pairings[p].(status := Consumed, activatedAt := Some(receipt.activatedAt),
                                                  receipt := Some(receipt.receipt))],
       lives := w.lives[p := w.lives[p].(activations := w.lives[p].activations + [receipt])],
       nextId := w.nextId + 1)
  }

  function Receipted(w: World, p: nat, with: Presented, receipt: Receipt): World
    requires p in w.lives
  {
    w.(lives := w.lives[p := w.lives[p].(presented := w.lives[p].presented + [with],
                                         receipts := w.lives[p].receipts + [receipt])])
  }

  function Activate(w: World, p: nat, with: Presented, now: int, config: Config): World {
    var reply := ActivateReply(w, p, with, now, config);
    if reply.Err? || p !in w.lives then w
    else
      Receipted(if w.pairings[p].status == Consumed then w else Activated(w, p, w.pairings[p].token.value, reply.value),
                p, with, reply.value)
  }

  // ---------- tokens ----------

  predicate Accepts(w: World, t: nat, value: Value, now: int) {
    t in w.tokens && w.tokens[t].value == value && w.tokens[t].active && w.tokens[t].revokedAt.None?
    && (w.tokens[t].expiresAt.None? || w.tokens[t].expiresAt.value > now)
  }

  function RevokeToken(w: World, t: nat, actor: nat, now: int): World {
    if t in w.tokens && w.tokens[t].owner == actor then Revoke(w, t, now) else w
  }

  predicate CanRevokePresented(w: World, t: nat, value: Value, now: int) {
    t in w.tokens && w.tokens[t].value == value && w.tokens[t].revokedAt.None?
    && (w.tokens[t].expiresAt.None? || w.tokens[t].expiresAt.value > now)
  }

  function RevokePresented(w: World, t: nat, value: Value, now: int): World {
    if CanRevokePresented(w, t, value, now) then Revoke(w, t, now) else w
  }

  function Lapsed(w: World, now: int): set<nat> {
    set t | t in w.tokens && !w.tokens[t].active && w.tokens[t].expiresAt.Some? && w.tokens[t].expiresAt.value <= now
  }

  function Finished(w: World, now: int): set<nat> {
    set p | p in w.pairings && w.pairings[p].expiresAt < now - RETAIN_FINISHED_PAIRINGS_MS
  }

  function Cleanup(w: World, now: int): World {
    w.(tokens := w.tokens - Lapsed(w, now), pairings := w.pairings - Finished(w, now))
  }

  // ---------- everything that can happen ----------

  /** Every request carries its own clock reading. */
  datatype Event =
    | Starts(binding: Binding, now: int)
    | Approves(p: nat, user: nat, now: int)
    | Polls(p: nat, secret: nat, now: int)
    | Cancels(p: nat, with: Presented, now: int)
    | Activates(p: nat, with: Presented, now: int)
    | Revokes(t: nat, actor: nat, now: int)
    | RevokesPresented(t: nat, value: Value, now: int)
    | CleansUp(now: int)

  function Step(w: World, e: Event, config: Config): World {
    match e
    case Starts(binding, now) => Start(w, binding, now, config)
    case Approves(p, user, now) => Approve(w, p, user, now)
    case Polls(p, secret, now) => Poll(w, p, secret, now, config)
    case Cancels(p, with, now) => Cancel(w, p, with, now)
    case Activates(p, with, now) => Activate(w, p, with, now, config)
    case Revokes(t, actor, now) => RevokeToken(w, t, actor, now)
    case RevokesPresented(t, value, now) => RevokePresented(w, t, value, now)
    case CleansUp(now) => Cleanup(w, now)
  }

  function Run(w: World, es: seq<Event>, config: Config): World {
    if es == [] then w else Step(Run(w, es[..|es| - 1], config), es[|es| - 1], config)
  }

  const Empty := World(map[], map[], 0, map[], map[])
}
