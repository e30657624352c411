/**
 * The desktop authentication service as it runs, over the pairing and credential tables. Each method is proved to make
 * exactly the protocol's step and to give its answer; that those steps keep the invariant is proved of the protocol.
 */
module PairingService {
  import opened Common
  import opened PairingProtocol
  import opened PairingTheorems

  /** The approved and unexpired pairing of whoever knows its secret. */
  predicate Provisions(pairings: map<nat, Pairing>, p: nat, secret: nat, now: int) {
    p in pairings && pairings[p].secret == secret && pairings[p].expiresAt > now
    && pairings[p].status == Approved && pairings[p].approver.Some?
  }

  class DesktopAuthService {
    const config: Config
    var pairings: map<nat, Pairing>
    var tokens: map<nat, Token>
    var nextId: nat
    ghost var lives: map<nat, Life>
    ghost var issued: map<nat, nat>

    constructor (config: Config)
      ensures AsWorld() == Empty && this.config == config && Recorded()
    {
      this.config := config;
      pairings, tokens, nextId, lives, issued := map[], map[], 0, map[], map[];
    }

    ghost function AsWorld(): World
      reads this
    {
      World(pairings, tokens, nextId, lives, issued)
    }

    ghost predicate Valid()
      reads this
    {
      Inv(AsWorld())
    }

    /** Every row has a recorded past. */
    ghost predicate Recorded()
      reads this
    {
      pairings.Keys <= lives.Keys
    }

    method Opaque() returns (value: nat)
      modifies this`nextId
      ensures value == old(nextId) && nextId == value + 1
    {
      value := nextId;
      nextId := nextId + 1;
    }

    method StartPairing(binding: Binding, now: int) returns (pairingId: nat, secret: nat, expiresAt: int)
      requires Recorded()
      modifies this
      ensures Recorded() && AsWorld() == Start(old(AsWorld()), binding, now, config)
      ensures pairingId == old(nextId) && old(nextId) < secret < nextId && expiresAt == now + config.pairingTtlMs
      ensures pairings == old(pairings)[pairingId := Pairing(secret, binding, Pending, expiresAt,
                                                             None, None, None, None, None, None, None)]
      ensures tokens == old(tokens)
    {
      pairingId := Opaque();
      secret := Opaque();
      expiresAt := now + config.pairingTtlMs;
      pairings := pairings[pairingId := Pairing(secret, binding, Pending, expiresAt,
                                                None, None, None, None, None, None, None)];
      lives := lives[pairingId := Life(secret, binding, [], [], [], [], [], [], [], [])];
    }

    method ApprovePairing(p: nat, user: nat, now: int) returns (r: Result<Status, Error>)
      requires Recorded()
      modifies this
      ensures Recorded() && AsWorld() == Approve(old(AsWorld()), p, user, now)
      ensures r == ApproveReply(old(AsWorld()), p, user, now)
      ensures var open := p in old(pairings) && old(pairings)[p].expiresAt > now;
        if open && old(pairings)[p].status == Pending then
          && r == Ok(Approved)
          && pairings == old(pairings)[p := old(pairings)[p].(status := Approved, approver := Some(user))]
        else
          && pairings == old(pairings)
          && r == if open && old(pairings)[p].status == Approved && old(pairings)[p].approver == Some(user)
                  then Ok(Approved)
                  else Err(if p in old(pairings) && old(pairings)[p].status == Consumed
                           then AlreadyConsumed else NotFound)
      ensures tokens == old(tokens)
    {
      if p in pairings && pairings[p].status == Pending && pairings[p].expiresAt > now {
        pairings := pairings[p := pairings[p].(status := Approved, approver := Some(user))];
        lives := lives[p := lives[p].(approvals := lives[p].approvals + [user])];
        return Ok(Approved);
      }
      if p !in pairings {
        return Err(NotFound);
      }
      var current := pairings[p];
      if current.status == Approved && current.approver == Some(user) && current.expiresAt > now {
        return Ok(current.status);
      }
      return Err(if current.status == Consumed then AlreadyConsumed else NotFound);
    }

    /** Inserts the credential row and names it, its ticket and its activation expiry in the pairing row. */
    method Provision(p: nat, now: int) returns (expiresAt: int)
      requires p in pairings && p in lives && pairings[p].approver.Some?
      modifies this
      ensures expiresAt == Min(old(pairings)[p].expiresAt, now + config.provisionalTtlMs)
      ensures AsWorld() == Provisioned(old(AsWorld()), p, expiresAt)
    {
      var row := pairings[p];
      expiresAt := Min(row.expiresAt, now + config.provisionalTtlMs);
      var tokenId := Opaque();
      tokens := tokens[tokenId := Token(TokenValue(p, row), p, row.approver.value, false, Some(expiresAt), None)];
      pairings := pairings[p := row.(token := Some(tokenId), ticket := Some(TicketValue(p, row)),
                                     activationExpiresAt := Some(expiresAt))];
      issued := issued[tokenId := p];
      lives := lives[p := lives[p].(provisions := lives[p].provisions
        + [PairingProtocol.Provision(tokenId, TokenValue(p, row), TicketValue(p, row), expiresAt, row.expiresAt)])];
    }

    method PollPairing(p: nat, secret: nat, now: int) returns (r: Result<PollReply, Error>)
      requires Recorded()
      modifies this
      ensures Recorded() && AsWorld() == Poll(old(AsWorld()), p, secret, now, config)
      ensures p !in old(pairings) || old(pairings)[p].secret != secret ==>
        r == Err(NotFound) && AsWorld() == old(AsWorld())
      ensures p in old(pairings) && old(pairings)[p].secret == secret ==>
        var row := old(pairings)[p];
        && (row.expiresAt <= now ==> r == Err(Expired))
        && (row.expiresAt > now && row.status == Pending ==> r == Ok(StillPending))
        && (row.expiresAt > now && row.status == Consumed ==>
              r == Err(if row.cancelledAt.Some? then WasCancelled else AlreadyConsumed))
        && (row.expiresAt > now && row.status == Approved && row.approver.None? ==> r == Err(InvalidState))
        && (row.expiresAt <= now || row.status != Approved || row.approver.None? || row.token.Some? ==>
              pairings == old(pairings) && tokens == old(tokens))
      ensures Provisions(old(pairings), p, secret, now) && old(pairings)[p].token.None? ==>
        var row := old(pairings)[p];
        var value := Derived(secret, Credential, p, row.binding);
        var ticket := Derived(secret, ActivationTicket, p, row.binding);
        var expiresAt := if row.expiresAt < now + config.provisionalTtlMs then row.expiresAt
                         else now + config.provisionalTtlMs;
        && r == Ok(Provisional(value, ticket, expiresAt, row.binding)) && nextId == old(nextId) + 1
        && tokens == old(tokens)[old(nextId) := Token(value, p, row.approver.value, false, Some(expiresAt), None)]
        && pairings == old(pairings)[p := row.(token := Some(old(nextId)), ticket := Some(ticket),
                                               activationExpiresAt := Some(expiresAt))]
      ensures Provisions(old(pairings), p, secret, now) && old(pairings)[p].token.Some? ==>
        var row := old(pairings)[p];
        var value := Derived(secret, Credential, p, row.binding);
        var ticket := Derived(secret, ActivationTicket, p, row.binding);
        if row.token.value in old(tokens) && old(tokens)[row.token.value].value == value && row.ticket == Some(ticket)
           && row.activationExpiresAt.Some? && row.activationExpiresAt.value > now
        then r == Ok(Provisional(value, ticket, row.activationExpiresAt.value, row.binding))
        else r == Err(Expired)
    {
      if p !in pairings || pairings[p].secret != secret {
        return Err(NotFound);
      }
      var row := pairings[p];
      if row.expiresAt <= now {
        return Err(Expired);
      }
      if row.status == Pending {
        return Ok(StillPending);
      }
      if row.status == Consumed {
        return Err(if row.cancelledAt.Some? then WasCancelled else AlreadyConsumed);
      }
      if row.approver.None? {
        return Err(InvalidState);
      }
      var expiresAt;
      if row.token.None? {
        expiresAt := Provision(p, now);
      } else {
        var tokenId := row.token.value;
        if tokenId !in tokens || tokens[tokenId].value != TokenValue(p, row) || row.ticket != Some(TicketValue(p, row))
           || row.activationExpiresAt.None? || row.activationExpiresAt.value <= now
        {
          return Err(Expired);
        }
        expiresAt := row.activationExpiresAt.value;
      }
      var reply := Provisional(TokenValue(p, row), TicketValue(p, row), expiresAt, row.binding);
      lives := lives[p := lives[p].(polled := lives[p].polled + [secret], polls := lives[p].polls + [reply])];
      return Ok(reply);
    }

    method CancelPairing(p: nat, with: Presented, now: int) returns (r: Result<int, Error>)
      requires Recorded()
      modifies this
      ensures Recorded() && AsWorld() == Cancel(old(AsWorld()), p, with, now)
      ensures p !in old(pairings) || old(pairings)[p].secret != with.secret || old(pairings)[p].binding != with.binding
              || old(pairings)[p].ticket != Some(with.ticket) ==>
        r == Err(NotFound) && AsWorld() == old(AsWorld())
      ensures p in old(pairings) && old(pairings)[p].secret == with.secret && old(pairings)[p].binding == with.binding
              && old(pairings)[p].ticket == Some(with.ticket) ==>
        var row := old(pairings)[p];
        if row.cancelledAt.Some? || row.token.None? then
          && r == (if row.cancelledAt.Some? then Ok(row.cancelledAt.value) else Err(InvalidState))
          && pairings == old(pairings) && tokens == old(tokens)
        else
          && r == Ok(now)
          && pairings == old(pairings)[p := row.(status := Consumed, cancelledAt := Some(now))]
          && tokens ==
             if row.token.value in old(tokens) && old(tokens)[row.token.value].revokedAt.None?
             then old(tokens)[row.token.value := old(tokens)[row.token.value].(revokedAt := Some(now))]
             else old(tokens)
    {
      if p !in pairings || pairings[p].secret != with.secret || pairings[p].binding != with.binding
         || pairings[p].ticket != Some(with.ticket)
      {
        return Err(NotFound);
      }
      var row := pairings[p];
      if row.cancelledAt.Some? {
        return Ok(row.cancelledAt.value);
      }
      if row.token.None? {
        return Err(InvalidState);
      }
      var tokenId := row.token.value;
      if tokenId in tokens && tokens[tokenId].revokedAt.None? {
        tokens := tokens[tokenId := tokens[tokenId].(revokedAt := Some(now))];
      }
      pairings := pairings[p := row.(status := Consumed, cancelledAt := Some(now))];
      lives := lives[p := lives[p].(presented := lives[p].presented + [with], cancels := lives[p].cancels + [now])];
      return Ok(now);
    }

    method ActivatePairing(p: nat, with: Presented, now: int) returns (r: Result<Receipt, Error>)
      requires Recorded()
      modifies this
      ensures Recorded() && AsWorld() == Activate(old(AsWorld()), p, with, now, config)
      ensures p !in old(pairings) || old(pairings)[p].secret != with.secret || old(pairings)[p].binding != with.binding
              || old(pairings)[p].ticket != Some(with.ticket) ==>
        r == Err(NotFound) && AsWorld() == old(AsWorld())
      ensures p in old(pairings) && old(pairings)[p].secret == with.secret && old(pairings)[p].binding == with.binding
              && old(pairings)[p].ticket == Some(with.ticket) ==>
        var row := old(pairings)[p];
        && (r.Err? || row.status == Consumed ==> pairings == old(pairings) && tokens == old(tokens))
        && (row.token.None? ==> r == Err(InvalidState))
        && (row.token.Some? && row.status == Consumed ==>
              r == if row.cancelledAt.Some? then Err(WasCancelled)
                   else if row.receipt.Some? && row.activatedAt.Some?
                           && row.token.value in old(tokens) && old(tokens)[row.token.value].active
                   then Ok(Receipt.Receipt(row.receipt.value, row.activatedAt.value,
                                           old(tokens)[row.token.value].expiresAt))
                   else Err(AlreadyConsumed))
        && (row.token.Some? && row.status != Consumed ==>
              if row.status == Approved && row.expiresAt > now
                 && row.activationExpiresAt.Some? && row.activationExpiresAt.value > now
                 && row.token.value in old(tokens) && !old(tokens)[row.token.value].active
                 && old(tokens)[row.token.value].revokedAt.None? && old(tokens)[row.token.value].expiresAt.Some?
                 && old(tokens)[row.token.value].expiresAt.value > now
              then
                var expiresAt := if config.tokenTtlMs.None? then None else Some(now + config.tokenTtlMs.value);
                && r == Ok(Receipt.Receipt(old(nextId), now, expiresAt)) && nextId == old(nextId) + 1
                && tokens == old(tokens)[row.token.value := old(tokens)[row.token.value].(active := true,
                                                                                          expiresAt := expiresAt)]
                && pairings == old(pairings)[p := row.(status := Consumed, activatedAt := Some(now),
                                                       receipt := Some(old(nextId)))]
              else r == Err(Expired))
    {
      if p !in pairings || pairings[p].secret != with.secret || pairings[p].binding != with.binding
         || pairings[p].ticket != Some(with.ticket)
      {
        return Err(NotFound);
      }
      var row := pairings[p];
      if row.token.None? {
        return Err(InvalidState);
      }
      var tokenId := row.token.value;
      var receipt: Receipt;
      if row.status == Consumed {
        if row.cancelledAt.Some? {
          return Err(WasCancelled);
        }
        if row.receipt.None? || row.activatedAt.None? || tokenId !in tokens || !tokens[tokenId].active {
          return Err(AlreadyConsumed);
        }
        receipt := Receipt.Receipt(row.receipt.value, row.activatedAt.value, tokens[tokenId].expiresAt);
      } else {
        if row.status != Approved || row.expiresAt <= now
           || row.activationExpiresAt.None? || row.activationExpiresAt.value <= now
        {
          return Err(Expired);
        }
        if tokenId !in tokens || tokens[tokenId].active || tokens[tokenId].revokedAt.Some?
           || tokens[tokenId].expiresAt.None? || tokens[tokenId].expiresAt.value <= now
        {
          return Err(Expired);
        }
        var expiresAt := if config.tokenTtlMs.None? then None else Some(now + config.tokenTtlMs.value);
        tokens := tokens[tokenId := tokens[tokenId].(active := true, expiresAt := expiresAt)];
        var value := Opaque();
        receipt := Receipt.Receipt(value, now, expiresAt);
        pairings := pairings[p := row.(status := Consumed, activatedAt := Some(now), receipt := Some(value))];
        lives := lives[p := lives[p].(activations := lives[p].activations + [receipt])];
      }
      lives := lives[p := lives[p].(presented := lives[p].presented + [with],
                                    receipts := lives[p].receipts + [receipt])];
      return Ok(receipt);
    }

    /** The identity behind a bearer token, and the only credential row that could have it. */
    method ValidateToken(value: Value, now: int) returns (owner: Option<nat>)
      requires Valid()
      ensures owner.Some? <==> exists t :: Accepts(AsWorld(), t, value, now)
      ensures forall t :: Accepts(AsWorld(), t, value, now) ==> owner == Some(tokens[t].owner)
      ensures forall t :: t in tokens && tokens[t].value == value ==>
        owner == if tokens[t].active && tokens[t].revokedAt.None?
                    && (tokens[t].expiresAt.Some? ==> tokens[t].expiresAt.value > now)
                 then Some(tokens[t].owner) else None
      ensures owner.Some? ==> exists t :: t in tokens && tokens[t].value == value
    {
      if t :| t in tokens && tokens[t].value == value && tokens[t].active && tokens[t].revokedAt.None?
              && (tokens[t].expiresAt.None? || tokens[t].expiresAt.value > now)
      {
        assert Accepts(AsWorld(), t, value, now);
        forall u | Accepts(AsWorld(), u, value, now) ensures u == t {
          ValueIsUnique(AsWorld(), t, u);
        }
        return Some(tokens[t].owner);
      }
      assert forall t :: !Accepts(AsWorld(), t, value, now);
      return None;
    }

    method RevokeToken(t: nat, actor: nat, now: int) returns (r: Result<(), Error>)
      requires Recorded()
      modifies this`tokens
      ensures Recorded() && AsWorld() == PairingProtocol.RevokeToken(old(AsWorld()), t, actor, now)
      ensures r.Ok? <==> t in old(tokens) && old(tokens)[t].owner == actor && old(tokens)[t].revokedAt.None?
      ensures r.Ok? ==> forall value, later :: !Accepts(AsWorld(), t, value, later)
      ensures tokens == if r.Ok? then old(tokens)[t := old(tokens)[t].(revokedAt := Some(now))] else old(tokens)
    {
      if t !in tokens || tokens[t].owner != actor || tokens[t].revokedAt.Some? {
        return Err(NotFound);
      }
      tokens := tokens[t := tokens[t].(revokedAt := Some(now))];
      return Ok(());
    }

    method RevokePresentedToken(value: Value, now: int) returns (r: Result<(), Error>)
      requires Valid()
      modifies this`tokens
      ensures Valid()
      ensures r.Ok? <==> exists t :: CanRevokePresented(old(AsWorld()), t, value, now)
      ensures forall t, later :: r.Ok? ==> !Accepts(AsWorld(), t, value, later)
      ensures forall t :: t in old(tokens) && old(tokens)[t].value == value ==>
        if old(tokens)[t].revokedAt.Some? then r == Err(Revoked)
        else if old(tokens)[t].expiresAt.Some? && old(tokens)[t].expiresAt.value <= now then r == Err(Expired)
        else r.Ok? && tokens == old(tokens)[t := old(tokens)[t].(revokedAt := Some(now))]
      ensures r.Err? ==> tokens == old(tokens)
      ensures forall t :: t in old(tokens) && old(tokens)[t].value != value ==>
        t in tokens && tokens[t] == old(tokens)[t]
    {
      if t :| t in tokens && tokens[t].value == value {
        forall u | u in tokens && tokens[u].value == value ensures u == t {
          ValueIsUnique(AsWorld(), t, u);
        }
        if tokens[t].revokedAt.Some? {
          return Err(Revoked);
        }
        if tokens[t].expiresAt.Some? && tokens[t].expiresAt.value <= now {
          return Err(Expired);
        }
        RevokeInv(AsWorld(), t, now);
        assert CanRevokePresented(AsWorld(), t, value, now);
        tokens := tokens[t := tokens[t].(revokedAt := Some(now))];
        return Ok(());
      }
      return Err(NotFound);
    }

    method CleanupPairings(now: int) returns (deleted: nat)
      requires Recorded()
      modifies this`tokens, this`pairings
      ensures Recorded() && AsWorld() == Cleanup(old(AsWorld()), now)
      ensures deleted == |old(pairings).Keys - pairings.Keys|
      ensures forall t :: t in tokens <==>
        t in old(tokens) && (old(tokens)[t].active || old(tokens)[t].expiresAt.None?
                             || old(tokens)[t].expiresAt.value > now)
      ensures forall t :: t in tokens ==> tokens[t] == old(tokens)[t]
      ensures forall p :: p in pairings <==>
        p in old(pairings) && old(pairings)[p].expiresAt >= now - 86_400_000
      ensures forall p :: p in pairings ==> pairings[p] == old(pairings)[p]
    {
      tokens := tokens - (set t | t in tokens && !tokens[t].active
                                  && tokens[t].expiresAt.Some? && tokens[t].expiresAt.value <= now);
      var finished := set p | p in pairings && pairings[p].expiresAt < now - RETAIN_FINISHED_PAIRINGS_MS;
      deleted := |finished|;
      pairings := pairings - finished;
      assert finished == old(pairings).Keys - pairings.Keys;
    }
  }

  /** A derived value names the pairing it was derived for, so no two credential rows share one. */
  lemma ValueIsUnique(w: World, t: nat, u: nat)
    requires Inv(w) && t in w.tokens && u in w.tokens && w.tokens[t].value == w.tokens[u].value
    ensures t == u
  {
    PairingIsOk(w, w.tokens[t].pairing);
    PairingIsOk(w, w.tokens[u].pairing);
    assert TokenOk(t, w.tokens[t], w.lives[w.tokens[t].pairing]);
    assert TokenOk(u, w.tokens[u], w.lives[w.tokens[u].pairing]);
  }

  /** A successful poll gives the answer recorded with the pairing's only credential. */
  lemma PollAnswers(w: World, p: nat, secret: nat, now: int, config: Config)
    requires Inv(w)
    ensures var r := PollReplyFor(w, p, secret, now, config); var w' := Poll(w, p, secret, now, config);
      r.Ok? && r.value.Provisional? ==>
        p in w'.lives && |w'.lives[p].provisions| == 1 && r.value == Answer(w'.lives[p].provisions[0])
  {
    if p in w.pairings { PairingIsOk(w, p); }
  }

  /** After a successful cancellation, first or repeated, every credential row of the pairing is revoked. */
  lemma CancelRecords(w: World, p: nat, with: Presented, now: int)
    requires Inv(w)
    ensures var r := CancelReply(w, p, with, now); var w' := Cancel(w, p, with, now);
      r.Ok? ==> p in w'.lives && w'.lives[p].cancels == [r.value]
                && forall t :: t in w'.tokens && w'.tokens[t].pairing == p ==> w'.tokens[t].revokedAt.Some?
  {
    var w' := Cancel(w, p, with, now);
    if CancelReply(w, p, with, now).Ok? {
      CancelInv(w, p, with, now);
      PairingIsOk(w, p);
      PairingIsOk(w', p);
    }
  }

  /** A successful activation, first or repeated, gives the receipt of the pairing's only activation. */
  lemma ActivateRecords(w: World, p: nat, with: Presented, now: int, config: Config)
    requires Inv(w)
    ensures var r := ActivateReply(w, p, with, now, config); var w' := Activate(w, p, with, now, config);
      r.Ok? ==> p in w'.lives && w'.lives[p].activations == [r.value]
  {
    var r := ActivateReply(w, p, with, now, config);
    if r.Ok? {
      PairingIsOk(w, p);
      if w.pairings[p].status == Consumed { RepeatsReceipt(w, p, with, now, config); }
    }
  }
}
