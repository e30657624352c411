/** What desktop pairing keeps over every run: where accepted credentials come from, cancellation, idempotence. */
module PairingTheorems {
  import opened Common
  import opened PairingProtocol

  // ---------- the invariant ----------

  /** The answer to every poll of a pairing with this credential. */
  function Answer(provision: Provision): PollReply {
    Provisional(provision.value, provision.ticket, provision.expiresAt, provision.value.binding)
  }

  /** Each stage happened at most once and only after the one before; every reply repeats the first. */
  predicate LifeOk(p: nat, l: Life) {
    && |l.approvals| <= 1 && |l.provisions| <= |l.approvals|
    && |l.activations| <= |l.provisions| && |l.cancels| <= |l.provisions|
    && (|l.provisions| == 0 ==> l.polls == [])
    && (|l.provisions| == 1 ==> forall k :: 0 <= k < |l.polls| ==> l.polls[k] == Answer(l.provisions[0]))
    && (|l.activations| == 0 ==> l.receipts == [])
    && (|l.activations| == 1 ==> forall k :: 0 <= k < |l.receipts| ==> l.receipts[k] == l.activations[0])
    && (|l.provisions| == 1 ==>
          && l.provisions[0].value.pairing == p && l.provisions[0].expiresAt <= l.provisions[0].pairingExpiresAt)
    && (|l.activations| == 1 ==> l.activations[0].activatedAt < l.provisions[0].expiresAt)
  }

  /** What a pairing row says about its past. */
  predicate RowOk(p: nat, row: Pairing, l: Life) {
    && (row.approver == if |l.approvals| == 0 then None else Some(l.approvals[0]))
    && (row.status == Pending <==> |l.approvals| == 0)
    && (row.status == Consumed <==> |l.activations| + |l.cancels| > 0)
    && (row.cancelledAt == if |l.cancels| == 0 then None else Some(l.cancels[0]))
    && (row.token.Some? <==> |l.provisions| == 1)
    && (|l.provisions| == 1 ==>
          && row.token == Some(l.provisions[0].token) && l.provisions[0].value == TokenValue(p, row)
          && row.ticket == Some(l.provisions[0].ticket) && l.provisions[0].ticket == TicketValue(p, row)
          && row.activationExpiresAt == Some(l.provisions[0].expiresAt)
          && row.expiresAt == l.provisions[0].pairingExpiresAt)
    && (|l.activations| == 1 ==>
          row.receipt == Some(l.activations[0].receipt) && row.activatedAt == Some(l.activations[0].activatedAt))
    && (|l.activations| == 0 ==> row.receipt.None? && row.activatedAt.None?)
  }

  /** What a credential row says about its pairing's past. */
  predicate TokenOk(t: nat, token: Token, l: Life) {
    && |l.provisions| == 1 && |l.approvals| == 1
    && l.provisions[0].token == t && l.provisions[0].value == token.value && token.owner == l.approvals[0]
    && (token.active <==> |l.activations| == 1)
    && (token.active ==> token.expiresAt == l.activations[0].expiresAt)
    && (!token.active ==> token.expiresAt == Some(l.provisions[0].expiresAt))
    && (|l.cancels| == 1 ==> token.revokedAt.Some?)
  }

  /** The credential of a pairing, as far as one was ever issued, was issued for it alone. */
  predicate IssuedOk(p: nat, l: Life, issued: map<nat, nat>) {
    |l.provisions| == 1 ==> l.provisions[0].token in issued && issued[l.provisions[0].token] == p
  }

  ghost predicate LivesOk(w: World) {
    && (forall p :: p in w.lives ==> p < w.nextId && LifeOk(p, w.lives[p]) && IssuedOk(p, w.lives[p], w.issued))
    && (forall t :: t in w.issued ==> t < w.nextId)
  }

  ghost predicate RowsOk(w: World) {
    forall p :: p in w.pairings ==> p in w.lives && RowOk(p, w.pairings[p], w.lives[p])
  }

  ghost predicate TokensOk(w: World) {
    forall t :: t in w.tokens ==>
      w.tokens[t].pairing in w.lives && TokenOk(t, w.tokens[t], w.lives[w.tokens[t].pairing])
  }

  ghost predicate Inv(w: World) { LivesOk(w) && RowsOk(w) && TokensOk(w) }

  // ---------- one step at a time ----------

  /** A step that concerns one pairing: nothing recorded about another one changes. */
  ghost predicate LocalTo(w: World, w': World, p: nat) {
    && w.nextId <= w'.nextId && p in w'.lives && p < w'.nextId
    && (forall q :: q != p ==> (q in w'.lives <==> q in w.lives) && (q in w.lives ==> w'.lives[q] == w.lives[q]))
    && (forall q :: q != p && q in w'.pairings ==> q in w.pairings && w'.pairings[q] == w.pairings[q])
    && (forall t :: t in w.issued ==> t in w'.issued && w'.issued[t] == w.issued[t])
    && (forall t :: t in w'.issued ==> t < w'.nextId)
    && (forall t :: t in w'.tokens && w'.tokens[t].pairing != p ==> t in w.tokens && w'.tokens[t] == w.tokens[t])
  }

  lemma LocalLives(w: World, w': World, p: nat)
    requires LivesOk(w) && LocalTo(w, w', p)
    requires LifeOk(p, w'.lives[p]) && IssuedOk(p, w'.lives[p], w'.issued)
    ensures LivesOk(w')
  {
    forall q | q in w'.lives
      ensures q < w'.nextId && LifeOk(q, w'.lives[q]) && IssuedOk(q, w'.lives[q], w'.issued)
    {
      if q != p { assert LifeOk(q, w.lives[q]) && IssuedOk(q, w.lives[q], w.issued); }
    }
  }

  lemma LocalRows(w: World, w': World, p: nat)
    requires RowsOk(w) && LocalTo(w, w', p)
    requires p in w'.pairings ==> RowOk(p, w'.pairings[p], w'.lives[p])
    ensures RowsOk(w')
  {
    forall q | q in w'.pairings ensures q in w'.lives && RowOk(q, w'.pairings[q], w'.lives[q]) {
      if q != p { assert RowOk(q, w.pairings[q], w.lives[q]); }
    }
  }

  lemma LocalTokens(w: World, w': World, p: nat)
    requires TokensOk(w) && LocalTo(w, w', p)
    requires forall t :: t in w'.tokens && w'.tokens[t].pairing == p ==> TokenOk(t, w'.tokens[t], w'.lives[p])
    ensures TokensOk(w')
  {
    forall t | t in w'.tokens
      ensures w'.tokens[t].pairing in w'.lives && TokenOk(t, w'.tokens[t], w'.lives[w'.tokens[t].pairing])
    {
      if w'.tokens[t].pairing != p { assert TokenOk(t, w.tokens[t], w.lives[w.tokens[t].pairing]); }
    }
  }

  /** The new parts of a local step are right. */
  ghost predicate PairingOk(w: World, p: nat) {
    && p in w.lives && LifeOk(p, w.lives[p]) && IssuedOk(p, w.lives[p], w.issued)
    && (p in w.pairings ==> RowOk(p, w.pairings[p], w.lives[p]))
    && (forall t :: t in w.tokens && w.tokens[t].pairing == p ==> TokenOk(t, w.tokens[t], w.lives[p]))
  }

  lemma LocalInv(w: World, w': World, p: nat)
    requires Inv(w) && LocalTo(w, w', p) && PairingOk(w', p)
    ensures Inv(w')
  {
    LocalLives(w, w', p);
    LocalRows(w, w', p);
    LocalTokens(w, w', p);
  }

  lemma PairingIsOk(w: World, p: nat)
    requires Inv(w) && p in w.lives
    ensures PairingOk(w, p)
  {
    assert LifeOk(p, w.lives[p]);
    if p in w.pairings { assert RowOk(p, w.pairings[p], w.lives[p]); }
    forall t | t in w.tokens && w.tokens[t].pairing == p ensures TokenOk(t, w.tokens[t], w.lives[p]) {
    }
  }

  lemma StartInv(w: World, binding: Binding, now: int, config: Config)
    requires Inv(w)
    ensures Inv(Start(w, binding, now, config))
  {
    var w' := Start(w, binding, now, config);
    assert w.nextId !in w.lives;
    assert forall t :: t in w'.tokens ==> w'.tokens[t].pairing != w.nextId;
    LocalInv(w, w', w.nextId);
  }

  lemma ApprovedIsOk(p: nat, row: Pairing, l: Life, user: nat)
    requires LifeOk(p, l) && RowOk(p, row, l) && row.status == Pending
    ensures var l' := l.(approvals := l.approvals + [user]);
            LifeOk(p, l') && RowOk(p, row.(status := Approved, approver := Some(user)), l') && l.provisions == []
  {
  }

  lemma ApproveInv(w: World, p: nat, user: nat, now: int)
    requires Inv(w)
    ensures Inv(Approve(w, p, user, now))
  {
    if CanApprove(w, p, now) && p in w.lives {
      PairingIsOk(w, p);
      ApprovedIsOk(p, w.pairings[p], w.lives[p], user);
      NoTokenYet(w, p);
      assert PairingOk(Approve(w, p, user, now), p);
      LocalInv(w, Approve(w, p, user, now), p);
    }
  }

  lemma ProvisionedIsOk(p: nat, row: Pairing, l: Life, t: nat, expiresAt: int)
    requires LifeOk(p, l) && RowOk(p, row, l) && row.token.None? && row.status == Approved && expiresAt <= row.expiresAt
    ensures row.approver.Some?
    ensures var provision := Provision(t, TokenValue(p, row), TicketValue(p, row), expiresAt, row.expiresAt);
            var l' := l.(provisions := l.provisions + [provision]);
            var row' := row.(token := Some(t), ticket := Some(TicketValue(p, row)),
                             activationExpiresAt := Some(expiresAt));
            && LifeOk(p, l') && RowOk(p, row', l') && |l'.provisions| == 1 && l'.provisions[0].token == t
            && TokenOk(t, Token(TokenValue(p, row), p, row.approver.value, false, Some(expiresAt), None), l')
  {
    assert l.approvals == [row.approver.value] && l.provisions == [];
  }

  ghost predicate Provisionable(w: World, p: nat, expiresAt: int) {
    Inv(w) && p in w.pairings && w.pairings[p].token.None? && w.pairings[p].status == Approved
    && p in w.lives && w.pairings[p].approver.Some? && expiresAt <= w.pairings[p].expiresAt
  }

  lemma ProvisionedLocal(w: World, p: nat, expiresAt: int)
    requires Provisionable(w, p, expiresAt)
    ensures LocalTo(w, Provisioned(w, p, expiresAt), p)
  {
  }

  lemma ProvisionedPairing(w: World, p: nat, expiresAt: int)
    requires Provisionable(w, p, expiresAt)
    ensures PairingOk(Provisioned(w, p, expiresAt), p)
  {
    PairingIsOk(w, p);
    NoTokenYet(w, p);
    ProvisionedIsOk(p, w.pairings[p], w.lives[p], w.nextId, expiresAt);
  }

  lemma ProvisionedInv(w: World, p: nat, expiresAt: int)
    requires Provisionable(w, p, expiresAt)
    ensures Inv(Provisioned(w, p, expiresAt))
  {
    ProvisionedLocal(w, p, expiresAt);
    ProvisionedPairing(w, p, expiresAt);
    LocalInv(w, Provisioned(w, p, expiresAt), p);
  }

  /** No credential row points to a pairing that has not provisioned. */
  lemma NoTokenYet(w: World, p: nat)
    requires Inv(w) && p in w.pairings && w.pairings[p].token.None?
    ensures forall t :: t in w.tokens ==> w.tokens[t].pairing != p
  {
    forall t | t in w.tokens ensures w.tokens[t].pairing != p {
      TokenOfPairing(w, p, t);
    }
  }

  lemma PolledIsOk(p: nat, row: Pairing, l: Life)
    requires LifeOk(p, l) && RowOk(p, row, l) && row.token.Some? && row.activationExpiresAt.Some?
    ensures LifeOk(p, l.(polled := l.polled + [row.secret],
                         polls := l.polls + [Reply(p, row, row.activationExpiresAt.value)]))
  {
  }

  lemma PolledInv(w: World, p: nat)
    requires Inv(w) && p in w.pairings && w.pairings[p].activationExpiresAt.Some? && w.pairings[p].token.Some?
    requires p in w.lives
    ensures Inv(Polled(w, p, w.pairings[p].secret, Reply(p, w.pairings[p], w.pairings[p].activationExpiresAt.value)))
  {
    var w' := Polled(w, p, w.pairings[p].secret, Reply(p, w.pairings[p], w.pairings[p].activationExpiresAt.value));
    PairingIsOk(w, p);
    PolledIsOk(p, w.pairings[p], w.lives[p]);
    assert PairingOk(w', p);
    LocalInv(w, w', p);
  }

  lemma PollInv(w: World, p: nat, secret: nat, now: int, config: Config)
    requires Inv(w)
    ensures Inv(Poll(w, p, secret, now, config))
  {
    var reply := PollReplyFor(w, p, secret, now, config);
    if p in w.lives && reply.Ok? && reply.value.Provisional? {
      if w.pairings[p].token.None? {
        var w1 := Provisioned(w, p, reply.value.expiresAt);
        ProvisionedInv(w, p, reply.value.expiresAt);
        assert Reply(p, w1.pairings[p], reply.value.expiresAt) == reply.value;
        PolledInv(w1, p);
      } else {
        PolledInv(w, p);
      }
    }
  }

  /** The pairing row and the credential row it names belong together. */
  lemma TokenOfPairing(w: World, p: nat, t: nat)
    requires Inv(w) && p in w.pairings && t in w.tokens
    ensures w.pairings[p].token == Some(t) <==> w.tokens[t].pairing == p
  {
    var q := w.tokens[t].pairing;
    PairingIsOk(w, p);
    PairingIsOk(w, q);
    assert TokenOk(t, w.tokens[t], w.lives[q]);
  }

  lemma CancelledIsOk(p: nat, row: Pairing, l: Life, with: Presented, now: int)
    requires LifeOk(p, l) && RowOk(p, row, l) && row.token.Some? && row.cancelledAt.None?
    ensures var l' := l.(presented := l.presented + [with], cancels := l.cancels + [now]);
            LifeOk(p, l') && RowOk(p, row.(status := Consumed, cancelledAt := Some(now)), l')
  {
    assert l.cancels == [];
  }

  lemma CancelLocal(w: World, p: nat, with: Presented, now: int)
    requires Inv(w) && Cancel(w, p, with, now) != w
    ensures LocalTo(w, Cancel(w, p, with, now), p)
  {
    var t := w.pairings[p].token.value;
    if t in w.tokens { TokenOfPairing(w, p, t); }
    RevokeTouches(w, t, now);
  }

  lemma RevokeTouches(w: World, t: nat, now: int)
    ensures var w' := Revoke(w, t, now);
      && w' == w.(tokens := w'.tokens) && w'.tokens.Keys == w.tokens.Keys
      && forall u :: u in w.tokens && u != t ==> w'.tokens[u] == w.tokens[u]
    ensures t in w.tokens ==> Revoke(w, t, now).tokens[t].pairing == w.tokens[t].pairing
  {
  }

  lemma CancelPairing(w: World, p: nat, with: Presented, now: int)
    requires Inv(w) && Cancel(w, p, with, now) != w
    ensures PairingOk(Cancel(w, p, with, now), p)
  {
    var w' := Cancel(w, p, with, now);
    PairingIsOk(w, p);
    CancelledIsOk(p, w.pairings[p], w.lives[p], with, now);
    forall t | t in w'.tokens && w'.tokens[t].pairing == p ensures TokenOk(t, w'.tokens[t], w'.lives[p]) {
      TokenOfPairing(w, p, t);
      CancelledTokenIsOk(t, w.tokens[t], w'.tokens[t], w.lives[p], w'.lives[p]);
    }
  }

  lemma CancelledTokenIsOk(t: nat, token: Token, token': Token, l: Life, l': Life)
    requires TokenOk(t, token, l) && token'.revokedAt.Some? && token' == token.(revokedAt := token'.revokedAt)
    requires l' == l.(presented := l'.presented, cancels := l'.cancels)
    ensures TokenOk(t, token', l')
  {
  }

  lemma CancelInv(w: World, p: nat, with: Presented, now: int)
    requires Inv(w)
    ensures Inv(Cancel(w, p, with, now))
  {
    if Cancel(w, p, with, now) != w {
      CancelLocal(w, p, with, now);
      CancelPairing(w, p, with, now);
      LocalInv(w, Cancel(w, p, with, now), p);
    }
  }

  lemma ActivatedIsOk(p: nat, row: Pairing, l: Life, t: nat, token: Token, receipt: Receipt)
    requires LifeOk(p, l) && RowOk(p, row, l) && TokenOk(t, token, l) && !token.active && row.status == Approved
    requires row.activationExpiresAt.Some? && receipt.activatedAt < row.activationExpiresAt.value
    ensures var l' := l.(activations := l.activations + [receipt]);
      && LifeOk(p, l') && l'.activations == [receipt]
      && RowOk(p, row.(status := Consumed, activatedAt := Some(receipt.activatedAt),
                       receipt := Some(receipt.receipt)), l')
      && TokenOk(t, token.(active := true, expiresAt := receipt.expiresAt), l')
  {
    assert l.activations == [] && l.receipts == [];
  }

  lemma ReceiptedInv(w: World, p: nat, with: Presented)
    requires Inv(w) && p in w.lives && |w.lives[p].activations| == 1
    ensures Inv(Receipted(w, p, with, w.lives[p].activations[0]))
  {
    PairingIsOk(w, p);
    LocalInv(w, Receipted(w, p, with, w.lives[p].activations[0]), p);
  }

  lemma ActivatedInv(w: World, p: nat, t: nat, receipt: Receipt)
    requires Inv(w) && p in w.pairings && p in w.lives && w.pairings[p].token == Some(t) && t in w.tokens
    requires w.pairings[p].status == Approved && w.pairings[p].activationExpiresAt.Some?
    requires receipt.activatedAt < w.pairings[p].activationExpiresAt.value && !w.tokens[t].active
    ensures Inv(Activated(w, p, t, receipt)) && Activated(w, p, t, receipt).lives[p].activations == [receipt]
  {
    PairingIsOk(w, p);
    forall u | u in w.tokens ensures w.pairings[p].token == Some(u) <==> w.tokens[u].pairing == p {
      TokenOfPairing(w, p, u);
    }
    ActivatedIsOk(p, w.pairings[p], w.lives[p], t, w.tokens[t], receipt);
    assert PairingOk(Activated(w, p, t, receipt), p);
    LocalInv(w, Activated(w, p, t, receipt), p);
  }

  lemma RepeatsReceipt(w: World, p: nat, with: Presented, now: int, config: Config)
    requires Inv(w) && ActivateReply(w, p, with, now, config).Ok? && w.pairings[p].status == Consumed
    ensures p in w.lives && w.lives[p].activations == [ActivateReply(w, p, with, now, config).value]
  {
    var t := w.pairings[p].token.value;
    TokenOfPairing(w, p, t);
    PairingIsOk(w, p);
    assert TokenOk(t, w.tokens[t], w.lives[p]);
  }

  lemma ActivateInv(w: World, p: nat, with: Presented, now: int, config: Config)
    requires Inv(w)
    ensures Inv(Activate(w, p, with, now, config))
  {
    var reply := ActivateReply(w, p, with, now, config);
    if reply.Ok? && p in w.lives {
      if w.pairings[p].status == Consumed {
        RepeatsReceipt(w, p, with, now, config);
        ReceiptedInv(w, p, with);
      } else {
        var t := w.pairings[p].token.value;
        ActivatedInv(w, p, t, reply.value);
        ReceiptedInv(Activated(w, p, t, reply.value), p, with);
      }
    }
  }

  lemma RevokeInv(w: World, t: nat, now: int)
    requires Inv(w)
    ensures Inv(Revoke(w, t, now))
  {
    var w' := Revoke(w, t, now);
    forall u | u in w'.tokens
      ensures w'.tokens[u].pairing in w'.lives && TokenOk(u, w'.tokens[u], w'.lives[w'.tokens[u].pairing])
    {
      assert TokenOk(u, w.tokens[u], w.lives[w.tokens[u].pairing]);
    }
  }

  lemma CleanupInv(w: World, now: int)
    requires Inv(w)
    ensures Inv(Cleanup(w, now))
  {
    var w' := Cleanup(w, now);
    assert forall t :: t in w'.tokens ==> t in w.tokens && w'.tokens[t] == w.tokens[t];
    assert forall p :: p in w'.pairings ==> p in w.pairings && w'.pairings[p] == w.pairings[p];
  }

  lemma {:induction false} StepInv(w: World, e: Event, config: Config)
    requires Inv(w)
    ensures Inv(Step(w, e, config))
  {
    match e
    case Starts(binding, now) => StartInv(w, binding, now, config);
    case Approves(p, user, now) => ApproveInv(w, p, user, now);
    case Polls(p, secret, now) => PollInv(w, p, secret, now, config);
    case Cancels(p, with, now) => CancelInv(w, p, with, now);
    case Activates(p, with, now) => ActivateInv(w, p, with, now, config);
    case Revokes(t, actor, now) => RevokeInv(w, t, now);
    case RevokesPresented(t, value, now) => RevokeInv(w, t, now);
    case CleansUp(now) => CleanupInv(w, now);
  }

  lemma {:induction false} RunInv(w: World, es: seq<Event>, config: Config)
    requires Inv(w)
    ensures Inv(Run(w, es, config))
  {
    if es == [] {
    } else {
      RunInv(w, es[..|es| - 1], config);
      StepInv(Run(w, es[..|es| - 1], config), es[|es| - 1], config);
    }
  }

  // ---------- what was presented ----------

  /** Every answer was given for the secret and the binding of the start, and for what is derived from them. */
  predicate Presents(p: nat, l: Life) {
    && |l.polled| == |l.polls| && |l.presented| == |l.receipts| + |l.cancels|
    && (forall k :: 0 <= k < |l.polled| ==> l.polled[k] == l.secret)
    && (forall k :: 0 <= k < |l.presented| ==>
          l.presented[k] == Presented(l.secret, l.binding, Derived(l.secret, ActivationTicket, p, l.binding)))
    && (forall k :: 0 <= k < |l.provisions| ==> l.provisions[k].value == Derived(l.secret, Credential, p, l.binding))
  }

  predicate Bound(p: nat, row: Pairing, l: Life) {
    row.secret == l.secret && row.binding == l.binding
    && (row.ticket.Some? ==> row.ticket.value == Derived(l.secret, ActivationTicket, p, l.binding))
  }

  ghost predicate Answered(w: World) {
    && (forall p :: p in w.lives ==> p < w.nextId && Presents(p, w.lives[p]))
    && (forall p :: p in w.pairings ==> p in w.lives && Bound(p, w.pairings[p], w.lives[p]))
  }

  /** A step that concerns one pairing only. */
  lemma LocalAnswered(w: World, w': World, p: nat)
    requires Answered(w) && w.nextId <= w'.nextId
    requires w'.lives.Keys == w.lives.Keys + {p} && p < w'.nextId
    requires w'.pairings.Keys <= w.pairings.Keys + {p}
    requires forall q :: q in w.lives && q != p ==> w'.lives[q] == w.lives[q]
    requires forall q :: q in w'.pairings && q != p ==> w'.pairings[q] == w.pairings[q]
    requires Presents(p, w'.lives[p]) && (p in w'.pairings ==> Bound(p, w'.pairings[p], w'.lives[p]))
    ensures Answered(w')
  {
    forall q | q in w'.lives ensures q < w'.nextId && Presents(q, w'.lives[q]) {
      if q != p { assert Presents(q, w.lives[q]); }
    }
    forall q | q in w'.pairings ensures q in w'.lives && Bound(q, w'.pairings[q], w'.lives[q]) {
      if q != p { assert Bound(q, w.pairings[q], w.lives[q]); }
    }
  }

  lemma ApproveAnswered(w: World, p: nat, user: nat, now: int)
    requires Answered(w)
    ensures Answered(Approve(w, p, user, now))
  {
    if CanApprove(w, p, now) {
      assert Presents(p, w.lives[p]) && Bound(p, w.pairings[p], w.lives[p]);
      LocalAnswered(w, Approve(w, p, user, now), p);
    }
  }

  /** An answer to what the desktop presents adds to nothing but the record of it. */
  lemma MorePresents(p: nat, l: Life, with: Presented, receipts: seq<Receipt>, cancels: seq<int>)
    requires Presents(p, l) && |receipts| + |cancels| == |l.receipts| + |l.cancels| + 1
    requires with == Presented(l.secret, l.binding, Derived(l.secret, ActivationTicket, p, l.binding))
    ensures Presents(p, l.(presented := l.presented + [with], receipts := receipts, cancels := cancels))
  {
  }

  lemma ProvisionedAnswered(w: World, p: nat, expiresAt: int)
    requires Answered(w) && p in w.pairings && w.pairings[p].approver.Some? && p in w.lives
    ensures Answered(Provisioned(w, p, expiresAt))
  {
    assert Presents(p, w.lives[p]) && Bound(p, w.pairings[p], w.lives[p]);
    LocalAnswered(w, Provisioned(w, p, expiresAt), p);
  }

  lemma PolledAnswered(w: World, p: nat, secret: nat, reply: PollReply)
    requires Answered(w) && p in w.lives && w.lives[p].secret == secret
    ensures Answered(Polled(w, p, secret, reply))
  {
    assert Presents(p, w.lives[p]) && (p in w.pairings ==> Bound(p, w.pairings[p], w.lives[p]));
    LocalAnswered(w, Polled(w, p, secret, reply), p);
  }

  lemma PollAnswered(w: World, p: nat, secret: nat, now: int, config: Config)
    requires Answered(w)
    ensures Answered(Poll(w, p, secret, now, config))
  {
    var reply := PollReplyFor(w, p, secret, now, config);
    if p in w.lives && reply.Ok? && reply.value.Provisional? {
      assert Bound(p, w.pairings[p], w.lives[p]);
      if w.pairings[p].token.None? {
        ProvisionedAnswered(w, p, reply.value.expiresAt);
        PolledAnswered(Provisioned(w, p, reply.value.expiresAt), p, secret, reply.value);
      } else {
        PolledAnswered(w, p, secret, reply.value);
      }
    }
  }

  lemma CancelAnswered(w: World, p: nat, with: Presented, now: int)
    requires Answered(w)
    ensures Answered(Cancel(w, p, with, now))
  {
    var w' := Cancel(w, p, with, now);
    if w' != w {
      assert Presents(p, w.lives[p]) && Bound(p, w.pairings[p], w.lives[p]);
      MorePresents(p, w.lives[p], with, w.lives[p].receipts, w.lives[p].cancels + [now]);
      LocalAnswered(w, w', p);
    }
  }

  lemma ActivatedAnswered(w: World, p: nat, t: nat, receipt: Receipt)
    requires Answered(w) && p in w.pairings && p in w.lives && t in w.tokens
    ensures Answered(Activated(w, p, t, receipt))
  {
    assert Presents(p, w.lives[p]) && Bound(p, w.pairings[p], w.lives[p]);
    LocalAnswered(w, Activated(w, p, t, receipt), p);
  }

  lemma ReceiptedAnswered(w: World, p: nat, with: Presented, receipt: Receipt)
    requires Answered(w) && Matches(w, p, with) && p in w.lives
    ensures Answered(Receipted(w, p, with, receipt))
  {
    assert Presents(p, w.lives[p]) && Bound(p, w.pairings[p], w.lives[p]);
    MorePresents(p, w.lives[p], with, w.lives[p].receipts + [receipt], w.lives[p].cancels);
    LocalAnswered(w, Receipted(w, p, with, receipt), p);
  }

  lemma ActivateAnswered(w: World, p: nat, with: Presented, now: int, config: Config)
    requires Answered(w)
    ensures Answered(Activate(w, p, with, now, config))
  {
    var reply := ActivateReply(w, p, with, now, config);
    if reply.Ok? && p in w.lives {
      if w.pairings[p].status == Consumed {
        ReceiptedAnswered(w, p, with, reply.value);
      } else {
        ActivatedAnswered(w, p, w.pairings[p].token.value, reply.value);
        ReceiptedAnswered(Activated(w, p, w.pairings[p].token.value, reply.value), p, with, reply.value);
      }
    }
  }

  lemma {:induction false} AnsweredStep(w: World, e: Event, config: Config)
    requires Answered(w)
    ensures Answered(Step(w, e, config))
  {
    match e
    case Starts(binding, now) => LocalAnswered(w, Start(w, binding, now, config), w.nextId);
    case Approves(p, user, now) => ApproveAnswered(w, p, user, now);
    case Polls(p, secret, now) => PollAnswered(w, p, secret, now, config);
    case Cancels(p, with, now) => CancelAnswered(w, p, with, now);
    case Activates(p, with, now) => ActivateAnswered(w, p, with, now, config);
    case _ =>
      var w' := Step(w, e, config);
      assert w'.lives == w.lives && w'.nextId == w.nextId && w'.pairings.Keys <= w.pairings.Keys;
      assert forall p :: p in w'.pairings ==> w'.pairings[p] == w.pairings[p];
  }

  lemma {:induction false} AnsweredRun(w: World, es: seq<Event>, config: Config)
    requires Answered(w)
    ensures Answered(Run(w, es, config))
  {
    if es == [] {
    } else {
      AnsweredRun(w, es[..|es| - 1], config);
      AnsweredStep(Run(w, es[..|es| - 1], config), es[|es| - 1], config);
    }
  }

  // ---------- what holds of every run ----------

  /**
   * An accepted credential belongs to one pairing: that pairing was approved, by the credential's owner, provisioned
   * this very credential, and was activated strictly before its activation expiry, which is no later than its own
   * expiry; it was never cancelled.
   */
  lemma {:induction false} AcceptedTokensArePaired(es: seq<Event>, config: Config, t: nat, value: Value, now: int)
    requires Accepts(Run(Empty, es, config), t, value, now)
    ensures var w := Run(Empty, es, config); var p := value.pairing;
      && p in w.lives
      && w.lives[p].approvals == [w.tokens[t].owner]
      && |w.lives[p].provisions| == 1 && w.lives[p].provisions[0].token == t && w.lives[p].provisions[0].value == value
      && |w.lives[p].activations| == 1
      && w.lives[p].activations[0].activatedAt < w.lives[p].provisions[0].expiresAt
      && w.lives[p].provisions[0].expiresAt <= w.lives[p].provisions[0].pairingExpiresAt
      && w.lives[p].cancels == []
  {
    RunInv(Empty, es, config);
    var w := Run(Empty, es, config);
    var p := w.tokens[t].pairing;
    assert TokenOk(t, w.tokens[t], w.lives[p]) && LifeOk(p, w.lives[p]);
  }

  /** Histories only grow. */
  predicate Grows(l: Life, l': Life) {
    l'.secret == l.secret && l'.binding == l.binding && l.polled <= l'.polled && l.presented <= l'.presented
    && l.approvals <= l'.approvals && l.provisions <= l'.provisions && l.polls <= l'.polls
    && l.activations <= l'.activations && l.receipts <= l'.receipts && l.cancels <= l'.cancels
  }

  lemma {:induction false} LivesGrow(w: World, es: seq<Event>, config: Config, p: nat)
    requires Inv(w) && p in w.lives
    ensures var w' := Run(w, es, config); p in w'.lives && Grows(w.lives[p], w'.lives[p])
  {
    if es == [] {
    } else {
      LivesGrow(w, es[..|es| - 1], config, p);
      RunInv(w, es[..|es| - 1], config);
      LivesGrowStep(Run(w, es[..|es| - 1], config), es[|es| - 1], config, p);
    }
  }

  lemma LivesGrowStep(w: World, e: Event, config: Config, p: nat)
    requires Inv(w) && p in w.lives
    ensures var w' := Step(w, e, config); p in w'.lives && Grows(w.lives[p], w'.lives[p])
  {
    match e
    case Approves(q, user, now) => ApproveGrows(w, q, user, now, p);
    case Polls(q, secret, now) => PollGrows(w, q, secret, now, config, p);
    case Cancels(q, with, now) => CancelGrows(w, q, with, now, p);
    case Activates(q, with, now) => ActivateGrows(w, q, with, now, config, p);
    case Starts(_, _) => assert w.nextId != p;
    case _ => assert Step(w, e, config).lives == w.lives;
  }

  lemma ApproveGrows(w: World, q: nat, user: nat, now: int, p: nat)
    requires p in w.lives
    ensures var w' := Approve(w, q, user, now); p in w'.lives && Grows(w.lives[p], w'.lives[p])
  {
    if q != p { assert Approve(w, q, user, now).lives[p] == w.lives[p]; }
  }

  lemma CancelGrows(w: World, q: nat, with: Presented, now: int, p: nat)
    requires p in w.lives
    ensures var w' := Cancel(w, q, with, now); p in w'.lives && Grows(w.lives[p], w'.lives[p])
  {
    if q != p { assert Cancel(w, q, with, now).lives[p] == w.lives[p]; }
  }

  lemma PollGrows(w: World, q: nat, secret: nat, now: int, config: Config, p: nat)
    requires Inv(w) && p in w.lives
    ensures var w' := Poll(w, q, secret, now, config); p in w'.lives && Grows(w.lives[p], w'.lives[p])
  {
    var w' := Poll(w, q, secret, now, config);
    var reply := PollReplyFor(w, q, secret, now, config);
    if q != p {
      assert w'.lives[p] == w.lives[p];
    } else if reply.Ok? && reply.value.Provisional? && w.pairings[p].token.None? {
      assert w' == Polled(Provisioned(w, p, reply.value.expiresAt), p, secret, reply.value);
    }
  }

  lemma ActivateGrows(w: World, q: nat, with: Presented, now: int, config: Config, p: nat)
    requires Inv(w) && p in w.lives
    ensures var w' := Activate(w, q, with, now, config); p in w'.lives && Grows(w.lives[p], w'.lives[p])
  {
    var w' := Activate(w, q, with, now, config);
    if q != p { assert w'.lives[p] == w.lives[p]; }
  }

  /** Once a pairing is cancelled, no credential of it is ever accepted again, whatever happens afterwards. */
  lemma {:induction false} CancelledIsFinal(w: World, es: seq<Event>, config: Config, p: nat, t: nat, value: Value,
                                            now: int)
    requires Inv(w) && p in w.lives && w.lives[p].cancels != [] && value.pairing == p
    ensures !Accepts(Run(w, es, config), t, value, now)
  {
    LivesGrow(w, es, config, p);
    RunInv(w, es, config);
    var w' := Run(w, es, config);
    if t in w'.tokens && w'.tokens[t].value == value {
      var q := w'.tokens[t].pairing;
      PairingIsOk(w', q);
      PairingIsOk(w', p);
      assert q == p && w'.tokens[t].revokedAt.Some?;
    }
  }

  /** A successful cancellation does record itself, and a repeated one changes nothing. */
  lemma CancelCancels(w: World, p: nat, with: Presented, now: int)
    requires Inv(w) && CancelReply(w, p, with, now).Ok?
    ensures p in Cancel(w, p, with, now).lives && Cancel(w, p, with, now).lives[p].cancels != []
    ensures forall later :: Cancel(Cancel(w, p, with, now), p, with, later) == Cancel(w, p, with, now)
    ensures forall later :: CancelReply(Cancel(w, p, with, now), p, with, later) == CancelReply(w, p, with, now)
  {
    assert RowOk(p, w.pairings[p], w.lives[p]);
  }

  /**
   * However often and however late a pairing is polled and activated: one approver, at most one credential, the same
   * answer to every successful poll, and the same answer to every successful activation.
   */
  lemma {:induction false} PairingIsIdempotent(es: seq<Event>, config: Config, p: nat)
    requires p in Run(Empty, es, config).lives
    ensures var l := Run(Empty, es, config).lives[p];
      && |l.approvals| <= 1 && |l.provisions| <= 1 && |l.activations| <= 1
      && (forall i, j :: 0 <= i < j < |l.polls| ==> l.polls[i] == l.polls[j])
      && (forall i, j :: 0 <= i < j < |l.receipts| ==> l.receipts[i] == l.receipts[j])
  {
    RunInv(Empty, es, config);
    assert LifeOk(p, Run(Empty, es, config).lives[p]);
  }

  /**
   * Whatever happens to a pairing once it is started: every answered poll presented the secret given out at the start,
   * every receipt and every cancellation was given for that secret, the binding of the start and the ticket derived
   * from both, and so are all credentials.
   */
  lemma {:induction false} OnlyTheDeviceIsAnswered(before: seq<Event>, binding: Binding, now: int, es: seq<Event>,
                                                   config: Config)
    ensures var w := Run(Empty, before, config); var p := w.nextId;
      var started := Step(w, Starts(binding, now), config); var w' := Run(started, es, config);
      && p in started.pairings && p in w'.lives
      && var secret := started.pairings[p].secret; var l := w'.lives[p];
         && |l.polled| == |l.polls| && |l.presented| == |l.receipts| + |l.cancels|
         && (forall k :: 0 <= k < |l.polled| ==> l.polled[k] == secret)
         && (forall k :: 0 <= k < |l.presented| ==>
               l.presented[k] == Presented(secret, binding, Derived(secret, ActivationTicket, p, binding)))
         && (forall k :: 0 <= k < |l.provisions| ==>
               l.provisions[k].value == Derived(secret, Credential, p, binding))
  {
    RunInv(Empty, before, config);
    var w := Run(Empty, before, config);
    var started := Step(w, Starts(binding, now), config);
    StartInv(w, binding, now, config);
    LivesGrow(started, es, config, w.nextId);
    AnsweredRun(Empty, before, config);
    AnsweredStep(w, Starts(binding, now), config);
    AnsweredRun(started, es, config);
    assert Presents(w.nextId, Run(started, es, config).lives[w.nextId]);
  }

  /** An approval is never taken over by somebody else. */
  lemma {:induction false} ApproverIsFixed(w: World, es: seq<Event>, config: Config, p: nat)
    requires Inv(w) && p in w.pairings && w.pairings[p].approver.Some?
    ensures var w' := Run(w, es, config); p in w'.pairings ==> w'.pairings[p].approver == w.pairings[p].approver
  {
    RunInv(w, es, config);
    LivesGrow(w, es, config, p);
    var w' := Run(w, es, config);
    assert RowOk(p, w.pairings[p], w.lives[p]);
    if p in w'.pairings { assert RowOk(p, w'.pairings[p], w'.lives[p]) && LifeOk(p, w'.lives[p]); }
  }
}
