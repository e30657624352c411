/** What the grant protocol keeps over every run: lease safety, lost-update freedom, backoff and revisions. */
module GrantTheorems {
  import opened Common
  import opened GrantProtocol

  // ---------- the invariant ----------

  /** A ciphertext pins everything stored with it. */
  predicate SnapOk(w: World, snap: Row) {
    snap.cipher < w.nextCipher
    && (snap.cipher == w.row.cipher ==> snap.login == w.row.login && snap.grant == w.row.grant)
  }

  predicate Silent(w: World, owner: nat) { forall i :: 0 <= i < |w.log| ==> w.log[i].owner != owner }

  predicate LeaseHeld(w: World, snap: Row, owner: nat, at: real) {
    SnapOk(w, snap) && owner in w.leases && w.leases[owner].cipher == snap.cipher && w.leases[owner].at == at
    && Silent(w, owner)
    && (w.row.owner == Some(owner) ==> w.row.leaseUntil == Some(at + 25_000.0))
    && (w.row.cipher == snap.cipher && w.row.owner == Some(owner) ==>
          w.row.retryAfter.None? || w.row.retryAfter.value <= at)
  }

  predicate PcOk(w: World, pc: Pc) {
    match pc
    case Holding(snap, _) => SnapOk(w, snap)
    case Leased(snap, _, owner, at) => LeaseHeld(w, snap, owner, at)
    case Calling(snap, _, owner, at, failures) =>
      LeaseHeld(w, snap, owner, at) && (Holds(w.row, pc) ==> failures == w.row.failures)
    case Releasing(owner) => owner in w.leases
  }

  ghost predicate ProcsOk(w: World) {
    && (forall p :: p in w.procs ==> PcOk(w, w.procs[p]))
    && (forall p, q :: p in w.procs && q in w.procs && p != q && !w.procs[p].Holding? && !w.procs[q].Holding?
          ==> w.procs[p].owner != w.procs[q].owner)
  }

  /** What a logged outcome still means for the row while its credential is the stored one. */
  predicate EntryOk(w: World, o: Outcome) {
    && o.owner in w.leases && o.cipher == w.leases[o.owner].cipher && o.cipher < w.nextCipher
    && (o.cipher == w.row.cipher && o.Final() ==>
          w.row.status == ReauthRequired && (w.row.owner.None? || w.row.owner == Some(o.owner)))
    && (o.cipher == w.row.cipher && o.kind.WasTransient? ==>
          w.row.retryAfter.Some? && o.kind.retryAt <= w.row.retryAfter.value)
  }

  ghost predicate LogOk(w: World) {
    && (forall i :: 0 <= i < |w.log| ==> EntryOk(w, w.log[i]))
    && (forall i, j :: 0 <= i < j < |w.log| ==> w.log[i].owner != w.log[j].owner)
    && (forall i, j :: 0 <= i < j < |w.log| && w.log[i].Final() && w.log[j].Final() ==>
          w.log[i].cipher != w.log[j].cipher)
  }

  /** A lease was acquired no earlier than any retry deadline stored for its credential by then. */
  predicate LeaseOk(w: World, l: Lease) {
    l.cipher < w.nextCipher && l.seen <= |w.log|
    && forall i :: 0 <= i < l.seen && w.log[i].kind.WasTransient? && w.log[i].cipher == l.cipher
         ==> w.log[i].kind.retryAt <= l.at
  }

  ghost predicate LeasesOk(w: World) {
    && (forall o :: o in w.leases ==> o < w.nextOwner && LeaseOk(w, w.leases[o]))
    && (w.row.owner.Some? ==> w.row.owner.value in w.leases)
    && w.row.cipher < w.nextCipher
  }

  ghost predicate Inv(w: World) { ProcsOk(w) && LogOk(w) && LeasesOk(w) }

  lemma StartInv(row: Row)
    requires row.owner.None? && row.retryAfter.None? && row.failures == 0
    ensures Inv(Start(row))
  {
  }

  // ---------- one step at a time ----------

  /** A process moves on without touching the row or the log. */
  lemma MoveInv(w: World, p: nat, pc: Pc)
    requires Inv(w) && PcOk(w, pc)
    requires !pc.Holding? ==> p in w.procs && !w.procs[p].Holding? && w.procs[p].owner == pc.owner
    ensures Inv(At(w, p, pc))
  {
    assert forall c :: PcOk(At(w, p, pc), c) == PcOk(w, c);
    assert forall o :: EntryOk(At(w, p, pc), o) == EntryOk(w, o);
    assert forall l :: LeaseOk(At(w, p, pc), l) == LeaseOk(w, l);
  }

  lemma FinishedInv(w: World, p: nat)
    requires Inv(w)
    ensures Inv(Finished(w, p))
  {
    assert forall c :: PcOk(Finished(w, p), c) == PcOk(w, c);
    assert forall o :: EntryOk(Finished(w, p), o) == EntryOk(w, o);
    assert forall l :: LeaseOk(Finished(w, p), l) == LeaseOk(w, l);
  }

  /** A new ciphertext: nothing in flight matches the row any more. */
  lemma NewCipherInv(w: World, w': World)
    requires Inv(w)
    requires w'.procs == w.procs && w'.leases == w.leases && w'.log == w.log && w'.nextOwner == w.nextOwner
    requires w.nextCipher <= w'.row.cipher < w'.nextCipher
    requires w'.row.owner.None? || (w'.row.owner == w.row.owner && w'.row.leaseUntil == w.row.leaseUntil)
    ensures Inv(w')
  {
    forall p | p in w'.procs ensures PcOk(w', w'.procs[p]) {
      assert PcOk(w, w.procs[p]);
    }
    forall i | 0 <= i < |w'.log| ensures EntryOk(w', w'.log[i]) {
      assert EntryOk(w, w.log[i]);
    }
    forall o | o in w'.leases ensures o < w'.nextOwner && LeaseOk(w', w'.leases[o]) {
      assert LeaseOk(w, w.leases[o]);
    }
  }

  /** A write that leaves credential, revisions and counters alone and neither grants a lease nor reactivates. */
  lemma SameCipherInv(w: World, row: Row)
    requires Inv(w)
    requires row.cipher == w.row.cipher && row.login == w.row.login && row.grant == w.row.grant
    requires row.failures == w.row.failures && row.retryAfter == w.row.retryAfter
    requires row.status in {w.row.status, ReauthRequired}
    requires row.owner.None? || (row.owner == w.row.owner && row.leaseUntil == w.row.leaseUntil)
    ensures Inv(w.(row := row))
  {
    var w' := w.(row := row);
    forall p | p in w'.procs ensures PcOk(w', w'.procs[p]) {
      assert PcOk(w, w.procs[p]);
    }
    forall i | 0 <= i < |w'.log| ensures EntryOk(w', w'.log[i]) {
      assert EntryOk(w, w.log[i]);
    }
    assert forall l :: LeaseOk(w', l) == LeaseOk(w, l);
  }

  lemma AcquiredInv(w: World, p: nat, now: real)
    requires Inv(w) && Holder(w, p) && CanAcquire(w.row, w.procs[p].snap, now)
    ensures Inv(Acquired(w, p, w.procs[p], now))
  {
    var w' := Acquired(w, p, w.procs[p], now);
    assert PcOk(w, w.procs[p]);
    forall q | q in w'.procs ensures PcOk(w', w'.procs[q]) {
      if q != p { assert PcOk(w, w.procs[q]); }
    }
    forall i | 0 <= i < |w'.log| ensures EntryOk(w', w'.log[i]) {
      assert EntryOk(w, w.log[i]);
    }
    forall o | o in w'.leases ensures o < w'.nextOwner && LeaseOk(w', w'.leases[o]) {
      if o in w.leases && o != w.nextOwner { assert LeaseOk(w, w.leases[o]); }
    }
  }

  /** The row after an outcome of kind `kind`: either the credential is new, or its deadline has not moved back. */
  predicate Settles(w: World, row: Row, kind: Kind, nextCipher: nat) {
    && row.owner == w.row.owner && row.leaseUntil == w.row.leaseUntil && w.nextCipher <= nextCipher
    && if row.cipher != w.row.cipher then w.nextCipher <= row.cipher < nextCipher
       else
         && row.login == w.row.login && row.grant == w.row.grant && row.status in {w.row.status, ReauthRequired}
         && match kind
            case WasReauth => row.status == ReauthRequired && row.retryAfter == w.row.retryAfter
            case WasUnavailable => row.retryAfter == w.row.retryAfter
            case WasTransient(at) =>
              row.retryAfter == Some(at) && (w.row.retryAfter.None? || w.row.retryAfter.value <= at)
            case WasRenewed => false
  }

  /** A lease that still holds its row and has logged nothing yet. */
  ghost predicate MaySettle(w: World, p: nat) {
    Inv(w) && p in w.procs && w.procs[p].Calling? && Holds(w.row, w.procs[p])
  }

  lemma LoggedProcs(w: World, p: nat, row: Row, kind: Kind, nextCipher: nat, since: nat)
    requires MaySettle(w, p) && Settles(w, row, kind, nextCipher)
    ensures ProcsOk(Logged(w.(row := row, nextCipher := nextCipher, since := since), p, w.procs[p], kind))
  {
    var w' := Logged(w.(row := row, nextCipher := nextCipher, since := since), p, w.procs[p], kind);
    assert PcOk(w, w.procs[p]);
    forall q | q in w'.procs ensures PcOk(w', w'.procs[q]) {
      if q != p { assert PcOk(w, w.procs[q]); }
    }
  }

  lemma LoggedLog(w: World, p: nat, row: Row, kind: Kind, nextCipher: nat, since: nat)
    requires MaySettle(w, p) && Settles(w, row, kind, nextCipher)
    ensures LogOk(Logged(w.(row := row, nextCipher := nextCipher, since := since), p, w.procs[p], kind))
  {
    var w' := Logged(w.(row := row, nextCipher := nextCipher, since := since), p, w.procs[p], kind);
    assert PcOk(w, w.procs[p]);
    forall i | 0 <= i < |w'.log| ensures EntryOk(w', w'.log[i]) {
      if i < |w.log| { assert EntryOk(w, w.log[i]) && w'.log[i] == w.log[i]; }
    }
  }

  lemma LoggedLeases(w: World, p: nat, row: Row, kind: Kind, nextCipher: nat, since: nat)
    requires MaySettle(w, p) && Settles(w, row, kind, nextCipher)
    ensures LeasesOk(Logged(w.(row := row, nextCipher := nextCipher, since := since), p, w.procs[p], kind))
  {
    var w' := Logged(w.(row := row, nextCipher := nextCipher, since := since), p, w.procs[p], kind);
    assert PcOk(w, w.procs[p]);
    forall o | o in w'.leases ensures o < w'.nextOwner && LeaseOk(w', w'.leases[o]) {
      assert LeaseOk(w, w.leases[o]);
    }
  }

  lemma LoggedInv(w: World, p: nat, row: Row, kind: Kind, nextCipher: nat, since: nat)
    requires MaySettle(w, p) && Settles(w, row, kind, nextCipher)
    ensures Inv(Logged(w.(row := row, nextCipher := nextCipher, since := since), p, w.procs[p], kind))
  {
    LoggedProcs(w, p, row, kind, nextCipher, since);
    LoggedLog(w, p, row, kind, nextCipher, since);
    LoggedLeases(w, p, row, kind, nextCipher, since);
  }

  lemma ApplyRenewedInv(w: World, p: nat, expiresAt: Option<real>, revision: int)
    requires MaySettle(w, p)
    ensures Inv(ApplyRenewed(w, p, w.procs[p], expiresAt, revision))
  {
    LoggedInv(w, p, ApplyRenewed(w, p, w.procs[p], expiresAt, revision).row, WasRenewed, w.nextCipher + 1, 0);
  }

  lemma ApplyUnavailableInv(w: World, p: nat, now: real)
    requires MaySettle(w, p)
    ensures Inv(ApplyUnavailable(w, p, w.procs[p], now))
  {
    LoggedInv(w, p, w.row.(relay := false), WasUnavailable, w.nextCipher, w.since);
    LoggedInv(w, p, w.row.(relay := false, status := ReauthRequired), WasReauth, w.nextCipher, w.since);
  }

  lemma ApplyTransientInv(w: World, p: nat, retryAt: real)
    requires MaySettle(w, p) && w.procs[p].at <= retryAt
    ensures Inv(ApplyTransient(w, p, w.procs[p], retryAt))
  {
    assert PcOk(w, w.procs[p]);
    LoggedInv(w, p, ApplyTransient(w, p, w.procs[p], retryAt).row, WasTransient(retryAt), w.nextCipher, w.since + 1);
  }

  lemma RetryAtLater(pc: Pc, a: Answer)
    requires pc.Calling? && pc.at <= a.now && 0.0 <= a.random
    ensures pc.at <= RetryAt(pc, a)
  {
    BackoffBounds(pc.failures + 1, if a.result.Transient? then a.result.retryAfter else None, a.random);
  }

  lemma ApplyInv(w: World, p: nat, a: Answer)
    requires Inv(w) && p in w.procs && w.procs[p].Calling? && w.procs[p].at <= a.now && 0.0 <= a.random
    ensures Inv(Apply(w, p, w.procs[p], a))
  {
    var pc := w.procs[p];
    assert PcOk(w, pc);
    if !Holds(w.row, pc) {
      MoveInv(w, p, Releasing(pc.owner));
    } else if a.result.Renewed? && a.result.usable {
      ApplyRenewedInv(w, p, a.result.expiresAt, IssueRevision(a.revisionClock, a.lastIssued, pc.snap.grant));
    } else if a.result.Reauth? {
      LoggedInv(w, p, w.row.(status := ReauthRequired), WasReauth, w.nextCipher, w.since);
    } else if a.result.Unavailable? {
      ApplyUnavailableInv(w, p, a.now);
    } else {
      RetryAtLater(pc, a);
      ApplyTransientInv(w, p, RetryAt(pc, a));
    }
  }

  lemma StoreInv(w: World, login: int, grant: int, refresh: bool, expiresAt: Option<real>)
    requires Inv(w)
    ensures Inv(Stored(w, login, grant, refresh, expiresAt))
  {
    NewCipherInv(w, Stored(w, login, grant, refresh, expiresAt));
  }

  lemma MarkInv(w: World, p: nat, snap: Row)
    requires Inv(w)
    ensures Inv(MarkStep(w, p, snap))
  {
    SameCipherInv(w, w.row.(status := ReauthRequired));
    FinishedInv(w.(row := w.row.(status := ReauthRequired)), p);
    FinishedInv(w, p);
  }

  lemma ReleaseInv(w: World, p: nat, owner: nat)
    requires Inv(w)
    ensures Inv(Release(w, p, owner))
  {
    var released := w.row.(owner := None, leaseUntil := None);
    SameCipherInv(w, released);
    FinishedInv(w.(row := released), p);
    FinishedInv(w, p);
  }

  /** A ciphertext that is thrown away. */
  lemma WasteInv(w: World)
    requires Inv(w)
    ensures Inv(w.(nextCipher := w.nextCipher + 2))
  {
    var w' := w.(nextCipher := w.nextCipher + 2);
    forall p | p in w'.procs ensures PcOk(w', w'.procs[p]) {
      assert PcOk(w, w.procs[p]);
    }
    forall i | 0 <= i < |w'.log| ensures EntryOk(w', w'.log[i]) {
      assert EntryOk(w, w.log[i]);
    }
    forall o | o in w'.leases ensures o < w'.nextOwner && LeaseOk(w', w'.leases[o]) {
      assert LeaseOk(w, w.leases[o]);
    }
  }

  lemma StoreStepInv(w: World, p: nat, snap: Row, login: int, grant: int, refresh: bool, expiresAt: Option<real>)
    requires Inv(w)
    ensures Inv(Finished(TryStore(w, snap, login, grant, refresh, expiresAt), p)) && Inv(Finished(w, p))
  {
    StoreInv(w, login, grant, refresh, expiresAt);
    WasteInv(w);
    FinishedInv(TryStore(w, snap, login, grant, refresh, expiresAt), p);
    FinishedInv(w, p);
  }

  lemma AcquireInv(w: World, p: nat, now: real)
    requires Inv(w) && Holder(w, p)
    ensures Inv(TryAcquire(w, p, w.procs[p], now))
  {
    FinishedInv(w, p);
    if CanAcquire(w.row, w.procs[p].snap, now) { AcquiredInv(w, p, now); }
  }

  lemma CountInv(w: World, p: nat)
    requires Inv(w) && p in w.procs && w.procs[p].Leased?
    ensures Inv(Count(w, p, w.procs[p]))
  {
    assert PcOk(w, w.procs[p]);
    MoveInv(w, p, Count(w, p, w.procs[p]).procs[p]);
  }

  lemma {:induction false} StepInv(w: World, e: Event)
    requires Inv(w)
    ensures Inv(Step(w, e))
  {
    match e
    case Read(p, forced) => if p !in w.procs { MoveInv(w, p, Holding(w.row, forced)); }
    case Acquire(p, now) => if Holder(w, p) { AcquireInv(w, p, now); }
    case CountFailures(p) => if p in w.procs && w.procs[p].Leased? { CountInv(w, p); }
    case Answered(p, a) => if Step(w, e) != w { ApplyInv(w, p, a); }
    case FreeLease(p) => if p in w.procs && !w.procs[p].Holding? { ReleaseInv(w, p, w.procs[p].owner); }
    case Refresh(p, revisionClock, lastIssued, refresh, expiresAt) =>
      if Holder(w, p) {
        var snap := w.procs[p].snap;
        StoreStepInv(w, p, snap, snap.login, IssueRevision(revisionClock, lastIssued, snap.grant), refresh, expiresAt);
      }
    case Adopt(p, login, grant, refresh, expiresAt) =>
      if Holder(w, p) { StoreStepInv(w, p, w.procs[p].snap, login, grant, refresh, expiresAt); }
    case Mark(p) => if Holder(w, p) { MarkInv(w, p, w.procs[p].snap); }
    case SignIn(columns, relay, revision, refresh, expiresAt) =>
      NewCipherInv(w, SignedIn(w, columns, relay, revision, refresh, expiresAt));
    case Crash(p) => FinishedInv(w, p);
  }

  lemma {:induction false} RunInv(w: World, es: seq<Event>)
    requires Inv(w)
    ensures Inv(Run(w, es))
  {
    if es == [] {
    } else {
      RunInv(w, es[..|es| - 1]);
      StepInv(Run(w, es[..|es| - 1]), es[|es| - 1]);
    }
  }

  // ---------- backoff ----------

  lemma {:induction false} TwoToGrows(m: nat, n: nat)
    requires m <= n
    ensures 1.0 <= TwoTo(m) <= TwoTo(n)
    decreases n
  {
    if m == n {
      if m > 0 { TwoToGrows(m - 1, m - 1); }
    } else {
      TwoToGrows(m, n - 1);
    }
  }

  lemma ExponentialBounds(failures: nat)
    ensures BACKOFF_BASE_MS <= Exponential(failures) <= BACKOFF_MAX_MS
  {
    TwoToGrows(0, if failures == 0 then 0 else if failures > 11 then 10 else failures - 1);
  }

  lemma Shrinks(random: real, half: real)
    requires 0.0 <= random && 0.0 < half
    ensures 0.0 <= random * half && (random < 1.0 ==> random * half < half)
  {
    if random < 1.0 {
      var gap := (1.0 - random) * half;
      assert 0.0 < gap == half - random * half;
    }
  }

  lemma SpreadBounds(exponential: real, retryAfter: Option<real>, random: real)
    requires 0.0 <= random && 0.0 < exponential
    ensures var delay := Spread(exponential, retryAfter, random);
            && exponential / 2.0 <= delay
            && (retryAfter.Some? ==> retryAfter.value <= delay)
            && (random < 1.0 ==> delay < exponential || (retryAfter.Some? && delay == retryAfter.value))
            && (retryAfter.None? ==> 2.0 * delay == exponential + random * exponential)
  {
    var half := exponential / 2.0;
    var share := random * half;
    Shrinks(random, half);
    assert random < 1.0 ==> half + share < exponential;
    assert 2.0 * share == random * exponential;
    assert Spread(exponential, retryAfter, random) ==
      if retryAfter.Some? && retryAfter.value > half + share then retryAfter.value else half + share;
  }

  /** At least half the capped exponential, at least what the relay asked for, and no more than either needs. */
  lemma BackoffBounds(failures: nat, retryAfter: Option<real>, random: real)
    requires 0.0 <= random
    ensures var delay := Backoff(failures, retryAfter, random);
            && BACKOFF_BASE_MS / 2.0 <= Exponential(failures) / 2.0 <= delay
            && (retryAfter.Some? ==> retryAfter.value <= delay)
            && (random < 1.0 ==> delay < Exponential(failures) || (retryAfter.Some? && delay == retryAfter.value))
            && (retryAfter.None? ==> 2.0 * delay == Exponential(failures) + random * Exponential(failures))
  {
    ExponentialBounds(failures);
    SpreadBounds(Exponential(failures), retryAfter, random);
  }

  lemma Powers()
    ensures TwoTo(1) == 2.0 && TwoTo(2) == 4.0 && TwoTo(3) == 8.0 && TwoTo(4) == 16.0 && TwoTo(5) == 32.0
  {
    assert TwoTo(1) == 2.0;
    assert TwoTo(2) == 2.0 * TwoTo(1);
    assert TwoTo(3) == 2.0 * TwoTo(2);
    assert TwoTo(4) == 2.0 * TwoTo(3);
    assert TwoTo(5) == 2.0 * TwoTo(4);
  }

  /** The exponential doubles with every failure until the fifth, and is the cap exactly from the sixth on. */
  lemma ExponentialDoubles(failures: nat)
    requires failures >= 1
    ensures failures < 5 ==> Exponential(failures + 1) == 2.0 * Exponential(failures)
    ensures failures >= 6 <==> Exponential(failures) == 600_000.0
    ensures Exponential(0) == 30_000.0 == Exponential(1)
  {
    Powers();
    if failures >= 6 {
      TwoToGrows(5, if failures > 11 then 10 else failures - 1);
    } else if failures < 5 {
      assert TwoTo(failures) == 2.0 * TwoTo(failures - 1);
      TwoToGrows(failures, 4);
    } else {
      assert TwoTo(failures - 1) == 16.0;
    }
  }

  /** A date or a number of seconds in `Retry-After`, read at `seen`, is never undercut. */
  lemma RetryAfterHonoured(pc: Pc, a: Answer, header: RetryHeader, seen: real)
    requires pc.Calling? && 0.0 <= a.random && seen <= a.now
    requires a.result == Transient(RetryAfterMs(header, seen))
    ensures header.HttpDate? ==> header.date <= RetryAt(pc, a)
    ensures header.Seconds? ==> seen + header.seconds * 1000.0 <= RetryAt(pc, a)
    ensures a.now + Exponential(pc.failures + 1) / 2.0 <= RetryAt(pc, a)
  {
    BackoffBounds(pc.failures + 1, RetryAfterMs(header, seen), a.random);
  }

  // ---------- lease safety ----------

  predicate Fresh(row: Row) { row.owner.None? && row.retryAfter.None? && row.failures == 0 }

  ghost predicate Reachable(w: World) {
    exists row: Row, es: seq<Event> :: Fresh(row) && w == Run(Start(row), es)
  }

  lemma ReachableInv(w: World)
    requires Reachable(w)
    ensures Inv(w)
  {
    var row: Row, es: seq<Event> :| Fresh(row) && w == Run(Start(row), es);
    StartInv(row);
    RunInv(Start(row), es);
  }

  /** At most one outcome per lease, and at most one that ends any given credential. */
  lemma OneFinalOutcome(w: World)
    requires Reachable(w)
    ensures forall i, j :: 0 <= i < j < |w.log| ==>
      w.log[i].owner != w.log[j].owner
      && (w.log[i].Final() && w.log[j].Final() ==> w.log[i].cipher != w.log[j].cipher)
  {
    ReachableInv(w);
  }

  /** A lease that was taken over or released, or whose credential was replaced. */
  predicate Dead(w: World, owner: nat) {
    owner in w.leases && (w.row.owner != Some(owner) || w.row.cipher != w.leases[owner].cipher)
  }

  /** Over a step a dead lease stays dead and stores nothing. */
  predicate StaysDead(w: World, w': World, owner: nat) {
    Dead(w', owner) && w.log <= w'.log && forall i :: |w.log| <= i < |w'.log| ==> w'.log[i].owner != owner
  }

  lemma DeadStep(w: World, e: Event, owner: nat)
    requires Inv(w) && Dead(w, owner)
    ensures StaysDead(w, Step(w, e), owner)
  {
    if e.Answered? && Step(w, e) != w {
      assert PcOk(w, w.procs[e.p]);
    }
  }

  lemma {:induction false} DeadRun(w: World, es: seq<Event>, owner: nat)
    requires Inv(w) && Dead(w, owner)
    ensures StaysDead(w, Run(w, es), owner)
  {
    if es == [] {
    } else {
      DeadRun(w, es[..|es| - 1], owner);
      RunInv(w, es[..|es| - 1]);
      DeadStep(Run(w, es[..|es| - 1]), es[|es| - 1], owner);
    }
  }

  /** While a holder's lease is the row's, nobody acquires another one until 25 seconds after it was taken. */
  lemma LiveLeaseExcludes(w: World, p: nat, q: nat, now: real)
    requires Reachable(w) && p in w.procs && (w.procs[p].Leased? || w.procs[p].Calling?)
    requires w.row.owner == Some(w.procs[p].owner) && now <= w.procs[p].at + 25_000.0
    ensures var w' := Step(w, Acquire(q, now)); w'.row == w.row && w'.leases == w.leases && w'.log == w.log
  {
    ReachableInv(w);
    assert PcOk(w, w.procs[p]);
  }

  /** Nothing in the run lets go of the row's lease: no holder releases it and no sign-in resets it. */
  predicate Undisturbed(w: World, es: seq<Event>) {
    es == []
    || (Undisturbed(w, es[..|es| - 1])
        && match es[|es| - 1]
           case FreeLease(p) =>
             var was := Run(w, es[..|es| - 1]);
             p in was.procs && !was.procs[p].Holding? ==> was.row.owner != Some(was.procs[p].owner)
           case SignIn(columns, _, _, _, _) => !columns
           case _ => true)
  }

  predicate LeasedUntil(w: World, until: real) { w.row.leaseUntil.Some? && w.row.leaseUntil.value >= until }

  lemma {:induction false} StaysLeased(w: World, es: seq<Event>, until: real)
    requires LeasedUntil(w, until) && Undisturbed(w, es)
    ensures LeasedUntil(Run(w, es), until)
  {
    if es == [] {
    } else {
      StaysLeased(w, es[..|es| - 1], until);
    }
  }

  /**
   * Any two leases acquired over a run in which no lease is released and no sign-in resets the renewal columns are
   * more than 25 seconds apart, whatever else happens to the credential in between.
   */
  lemma LeasesAreApart(w: World, p: nat, at: real, es: seq<Event>, q: nat, now: real)
    requires Step(w, Acquire(p, at)).leases != w.leases && Undisturbed(Step(w, Acquire(p, at)), es)
    ensures var w' := Run(Step(w, Acquire(p, at)), es);
      Step(w', Acquire(q, now)).leases != w'.leases ==> now > at + 25_000.0
  {
    StaysLeased(Step(w, Acquire(p, at)), es, at + 25_000.0);
  }

  /**
   * A lease is granted to whoever read the stored credential if and only if it is active, no lease of it is unexpired
   * and no retry deadline lies ahead.
   */
  lemma LeaseGrantedIff(w: World, p: nat, now: real)
    requires Reachable(w) && Holder(w, p)
    ensures var w' := Step(w, Acquire(p, now));
      && (w'.leases != w.leases <==>
            && w.row.cipher == w.procs[p].snap.cipher && w.row.status == Active
            && (w.row.leaseUntil.Some? ==> w.row.leaseUntil.value < now)
            && (w.row.retryAfter.Some? ==> w.row.retryAfter.value <= now))
      && (w'.leases != w.leases ==>
            && w'.row == w.row.(owner := Some(w.nextOwner), leaseUntil := Some(now + 25_000.0))
            && w.nextOwner !in w.leases && p in w'.procs && w'.procs[p].Leased?
            && w'.procs[p].owner == w.nextOwner && w'.procs[p].at == now)
      && (w'.leases == w.leases ==> w'.row == w.row && p !in w'.procs)
  {
    ReachableInv(w);
    if CanAcquire(w.row, w.procs[p].snap, now) {
      assert w.nextOwner in Step(w, Acquire(p, now)).leases;
    }
  }

  /** A newer sign-in, or a lease taken over, ends every lease acquired before it. */
  predicate Overtakes(w: World, e: Event) {
    e.SignIn? || (e.Acquire? && Holder(w, e.p) && CanAcquire(w.row, w.procs[e.p].snap, e.now))
  }

  /** No lease acquired before a newer sign-in or a takeover ever stores an outcome afterwards. */
  lemma {:induction false} OvertakenLeasesAreSilent(w: World, e: Event, es: seq<Event>, owner: nat)
    requires Reachable(w) && owner in w.leases && Overtakes(w, e)
    ensures var w' := Run(Step(w, e), es);
      w.log <= w'.log && forall i :: |w.log| <= i < |w'.log| ==> w'.log[i].owner != owner
  {
    ReachableInv(w);
    StepInv(w, e);
    assert Dead(Step(w, e), owner) && Step(w, e).log == w.log;
    DeadRun(Step(w, e), es, owner);
  }

  /** Whatever a taken-over holder still does, the row does not change. */
  lemma TakenOverWritesNothing(w: World, p: nat, e: Event)
    requires p in w.procs && !w.procs[p].Holding? && w.row.owner != Some(w.procs[p].owner)
    requires e.CountFailures? || e.Answered? || e.FreeLease?
    requires e.p == p
    ensures Step(w, e).row == w.row && Step(w, e).log == w.log
  {
  }

  // ---------- failures and backoff ----------

  /** Every sign-in wrote the renewal columns, or had nothing to reset. */
  predicate Resets(w: World, es: seq<Event>) {
    es == [] || (Resets(w, es[..|es| - 1])
                 && (es[|es| - 1].SignIn? ==> es[|es| - 1].columns || Run(w, es[..|es| - 1]).row.failures == 0))
  }

  /** The stored count was right after every step. */
  predicate Exact(w: World, es: seq<Event>) {
    Run(w, es).row.failures == Run(w, es).since && (es == [] || Exact(w, es[..|es| - 1]))
  }

  lemma CountStep(w: World, e: Event)
    requires Inv(w) && w.row.failures == w.since
    ensures var w' := Step(w, e);
      w'.row.failures == w'.since <==> (e.SignIn? ==> e.columns || w.row.failures == 0)
  {
    if e.Answered? && e.p in w.procs { assert PcOk(w, w.procs[e.p]); }
  }

  /**
   * The stored failures are the transient outcomes stored since the last renewal or sign-in, over the whole run,
   * if and only if no sign-in that took the renewal columns to be absent found failures to reset.
   */
  lemma {:induction false} FailuresAreCounted(w: World, es: seq<Event>)
    requires Inv(w) && w.row.failures == w.since
    ensures Exact(w, es) <==> Resets(w, es)
  {
    if es == [] {
    } else {
      FailuresAreCounted(w, es[..|es| - 1]);
      RunInv(w, es[..|es| - 1]);
      if Exact(w, es[..|es| - 1]) {
        CountStep(Run(w, es[..|es| - 1]), es[|es| - 1]);
      }
    }
  }

  /** A sign-in that took the columns to be absent leaves a failure count of the credential before it. */
  lemma SkippedColumnsKeepFailures(row: Row, a: Answer, relay: bool)
    requires Fresh(row) && row.leaseUntil.None? && row.status == Active
    requires a.result == Transient(None) && 0.0 <= a.now && 0.0 <= a.random < 1.0
    ensures var called := Step(Step(Step(Start(row), Read(0, false)), Acquire(0, 0.0)), CountFailures(0));
            var w := Step(called, Answered(0, a));
            var w' := Step(w, SignIn(false, relay, 0, false, None));
            w'.row.failures == 1 && w'.since == 0 && w'.row.retryAfter == w.row.retryAfter && w.row.retryAfter.Some?
  {
    var held := Step(Start(row), Read(0, false));
    assert held.procs[0] == Holding(row, false) && CanAcquire(row, row, 0.0);
    var leased := Step(held, Acquire(0, 0.0));
    assert leased.procs[0] == Leased(row, false, 0, 0.0);
    var calling := Step(leased, CountFailures(0));
    assert calling.procs[0] == Calling(row, false, 0, 0.0, 0) && Holds(calling.row, calling.procs[0]);
    assert Step(calling, Answered(0, a)) == Apply(calling, 0, calling.procs[0], a);
  }

  /** While a relay call runs, its lease is no older than any retry deadline stored before the lease was taken. */
  lemma CallsRespectBackoff(w: World, p: nat)
    requires Reachable(w) && p in w.procs && w.procs[p].Calling?
    ensures var pc := w.procs[p];
      && pc.owner in w.leases && w.leases[pc.owner].seen <= |w.log|
      && forall i :: 0 <= i < w.leases[pc.owner].seen ==>
           w.log[i].cipher == pc.snap.cipher && w.log[i].kind.WasTransient? ==> w.log[i].kind.retryAt <= pc.at
  {
    ReachableInv(w);
    assert PcOk(w, w.procs[p]);
    assert LeaseOk(w, w.leases[w.procs[p].owner]);
  }

  // ---------- revisions ----------

  /** What makes the next issued revision exceed the current one. */
  predicate Raisable(now: int, last: int, current: int) {
    IsSafe(current) || now * GRANT_REVISION_PRECISION > current || last + 1 > current || current < 0
  }

  /** An issued revision exceeds the current one unless the current one cannot be represented exactly. */
  lemma IssueRaises(now: int, last: int, current: int)
    ensures IssueRevision(now, last, current) > current <==> Raisable(now, last, current)
    ensures var issued := IssueRevision(now, last, current);
      && issued > last && issued >= now * 1_000
      && (-9_007_199_254_740_991 <= current <= 9_007_199_254_740_991 ==> issued > current)
      && issued in {now * 1_000, last + 1, current + 1, 0}
  {
  }

  /** A shared grant is newer if its pair of revisions is, and all four can be represented exactly. */
  lemma NewerIff(row: Row, login: int, grant: int)
    ensures IsSharedGrantNewer(row, login, grant) <==>
      && (row.login < login || (row.login == login && row.grant < grant))
      && -9_007_199_254_740_991 <= row.login && login <= 9_007_199_254_740_991
      && -9_007_199_254_740_991 <= row.grant <= 9_007_199_254_740_991
      && -9_007_199_254_740_991 <= grant <= 9_007_199_254_740_991
  {
  }

  /** Past the safe integers every clock and counter within them issues a revision that falls back. */
  lemma UnsafeRevisionFalls(now: int, last: int, current: int)
    requires now * GRANT_REVISION_PRECISION <= MAX_SAFE_INTEGER && last < MAX_SAFE_INTEGER && current > MAX_SAFE_INTEGER
    ensures IssueRevision(now, last, current) < current
  {
  }

  /** Either nothing about the credential changed, or the pair of revisions rose. */
  predicate Rises(row: Row, row': Row) {
    (row'.cipher == row.cipher && row'.login == row.login && row'.grant == row.grant)
    || (row'.cipher > row.cipher && Below(row.login, row.grant, row'.login, row'.grant))
  }

  /** A write of a credential under an issued revision is one whose current revision can be raised. */
  predicate MayRaise(w: World, e: Event) {
    match e
    case Refresh(_, clock, last, _, _) => Raisable(clock, last, w.row.grant)
    case Answered(_, a) => Raisable(a.revisionClock, a.lastIssued, w.row.grant)
    case _ => true
  }

  lemma RiseStepIff(w: World, e: Event)
    requires Inv(w) && !e.SignIn?
    ensures Rises(w.row, Step(w, e).row) <==> (Step(w, e).row.cipher == w.row.cipher || MayRaise(w, e))
  {
    match e
    case Refresh(p, clock, last, _, _) =>
      if Holder(w, p) && IsCurrent(w.row, w.procs[p].snap) {
        assert PcOk(w, w.procs[p]);
        IssueRaises(clock, last, w.row.grant);
      }
    case Adopt(p, _, _, _, _) =>
      if Holder(w, p) && IsCurrent(w.row, w.procs[p].snap) { assert PcOk(w, w.procs[p]); }
    case Answered(p, a) =>
      if p in w.procs && w.procs[p].Calling? && Holds(w.row, w.procs[p]) {
        assert PcOk(w, w.procs[p]);
        IssueRaises(a.revisionClock, a.lastIssued, w.row.grant);
      }
    case _ =>
  }

  predicate NoSignIn(es: seq<Event>) { es == [] || (!es[|es| - 1].SignIn? && NoSignIn(es[..|es| - 1])) }

  /** Every step left the credential alone or raised its revisions. */
  predicate AlwaysRises(w: World, es: seq<Event>) {
    es == [] || (AlwaysRises(w, es[..|es| - 1]) && Rises(Run(w, es[..|es| - 1]).row, Run(w, es).row))
  }

  /** Every step that stored a credential under an issued revision found one it could raise. */
  predicate Raises(w: World, es: seq<Event>) {
    es == []
    || (Raises(w, es[..|es| - 1])
        && (Run(w, es).row.cipher == Run(w, es[..|es| - 1]).row.cipher
            || MayRaise(Run(w, es[..|es| - 1]), es[|es| - 1])))
  }

  /**
   * Between sign-ins, whoever writes, every stored credential carries a strictly greater pair of revisions than the one
   * before, if and only if no revision was issued on top of one beyond both the safe integers and the clock.
   */
  lemma {:induction false} RevisionsRiseIff(w: World, es: seq<Event>)
    requires Inv(w) && NoSignIn(es)
    ensures AlwaysRises(w, es) <==> Raises(w, es)
  {
    if es == [] {
    } else {
      RevisionsRiseIff(w, es[..|es| - 1]);
      RunInv(w, es[..|es| - 1]);
      RiseStepIff(Run(w, es[..|es| - 1]), es[|es| - 1]);
    }
  }

  /** Then the last pair is also greater than the first one, if the credential changed at all. */
  lemma {:induction false} RevisionsRise(w: World, es: seq<Event>)
    requires Inv(w) && NoSignIn(es) && Raises(w, es)
    ensures Rises(w.row, Run(w, es).row)
  {
    if es == [] {
    } else {
      RevisionsRise(w, es[..|es| - 1]);
      RevisionsRiseIff(w, es);
    }
  }
}
