/**
 * The grant service and its relay renewer as they run, over the columns of one grant row. Each method is proved to
 * do what an undisturbed process of the protocol does.
 */
module GrantRenewal {
  import opened Common
  import opened GrantProtocol
  import opened GrantTheorems

  /** A whole renewal with nobody in between: lease, count, call, store, release. */
  function Renewal(w: World, snap: Row, forced: bool, now: real, a: Answer): World {
    Step(Step(Step(Step(At(w, 0, Holding(snap, forced)), Acquire(0, now)), CountFailures(0)), Answered(0, a)),
         FreeLease(0))
  }

  datatype Resolution = Usable(row: Row) | TemporarilyUnavailable

  /** The shared grant; `matches` is whether its tokens and expiries are those the row decrypts to. */
  datatype SharedGrant = SharedGrant(
    active: bool,
    hasToken: bool,
    login: int,
    grant: int,
    matches: bool,
    refresh: bool,
    expiresAt: Option<real>)

  /** An older shared grant that differs from a readable row is not even asked to refresh. */
  predicate Ignores(snap: Row, decrypts: bool, shared: Option<SharedGrant>) {
    decrypts && shared.Some? && shared.value.active && shared.value.hasToken && !shared.value.matches
    && !IsSharedGrantNewer(snap, shared.value.login, shared.value.grant)
  }

  class GrantService {
    var row: Row
    var nextCipher: nat
    var nextOwner: nat
    /** Whether the renewal columns exist, asked once. */
    var renewalColumns: Option<bool>
    ghost var leases: map<nat, Lease>
    ghost var log: seq<Outcome>
    ghost var since: nat

    constructor (row: Row)
      requires Fresh(row)
      ensures AsWorld(map[]) == Start(row) && renewalColumns.None?
    {
      this.row := row;
      nextCipher, nextOwner, renewalColumns := row.cipher + 1, 0, None;
      leases, log, since := map[], [], 0;
    }

    ghost function AsWorld(procs: map<nat, Pc>): World
      reads this
    {
      World(row, procs, nextCipher, nextOwner, leases, log, since)
    }

    method EncryptToken() returns (cipher: nat)
      modifies this`nextCipher
      ensures cipher == old(nextCipher) && nextCipher == cipher + 1
    {
      cipher := nextCipher;
      nextCipher := nextCipher + 1;
    }

    /** A failed look at the schema is taken, for good, to mean that the columns do not exist. */
    method CaptureColumns(hasColumn: Result<bool, string>) returns (columns: bool)
      modifies this`renewalColumns
      ensures renewalColumns == Some(columns)
      ensures old(renewalColumns).Some? ==> renewalColumns == old(renewalColumns)
      ensures old(renewalColumns).None? ==> columns == (hasColumn == Ok(true))
    {
      if renewalColumns.None? {
        renewalColumns := Some(hasColumn.Ok? && hasColumn.value);
      }
      columns := renewalColumns.value;
    }

    /** A sign-in, which always wins. */
    method Capture(relay: bool, revision: int, refresh: bool, expiresAt: Option<real>, hasColumn: Result<bool, string>)
      returns (columns: bool)
      modifies this
      ensures old(renewalColumns).Some? ==> columns == old(renewalColumns).value
      ensures renewalColumns == Some(columns)
      ensures AsWorld(map[]) == SignedIn(old(AsWorld(map[])), columns, relay, revision, refresh, expiresAt)
      ensures row == old(row).(
          cipher := old(nextCipher), refresh := if refresh then Some(old(nextCipher) + 1) else None,
          expiresAt := expiresAt, status := Active, login := revision, grant := revision,
          relay := if columns then relay else old(row).relay, owner := if columns then None else old(row).owner,
          leaseUntil := if columns then None else old(row).leaseUntil,
          retryAfter := if columns then None else old(row).retryAfter,
          failures := if columns then 0 else old(row).failures)
    {
      columns := CaptureColumns(hasColumn);
      var cipher := EncryptToken();
      var second := EncryptToken();
      row := row.(cipher := cipher, refresh := if refresh then Some(second) else None, expiresAt := expiresAt,
                  status := Active, login := revision, grant := revision);
      if columns {
        row := row.(relay := relay, owner := None, leaseUntil := None, retryAfter := None, failures := 0);
      }
      since := 0;
    }

    method StoreIfCurrent(snap: Row, login: int, grant: int, refresh: bool, expiresAt: Option<real>)
      returns (stored: bool)
      modifies this`row, this`nextCipher
      ensures stored <==>
        old(row).cipher == snap.cipher && old(row).status == snap.status && old(row).refresh == snap.refresh
      ensures row == if !stored then old(row) else old(row).(
          cipher := old(nextCipher), refresh := if refresh then Some(old(nextCipher) + 1) else None,
          expiresAt := expiresAt, status := Active, login := login, grant := grant)
      ensures AsWorld(map[]) == TryStore(old(AsWorld(map[])), snap, login, grant, refresh, expiresAt)
    {
      var cipher := EncryptToken();
      var second := EncryptToken();
      stored := row.cipher == snap.cipher && row.status == snap.status && row.refresh == snap.refresh;
      if stored {
        row := row.(cipher := cipher, refresh := if refresh then Some(second) else None, expiresAt := expiresAt,
                    status := Active, login := login, grant := grant);
      }
    }

    method MarkReauthRequiredIfCurrent(snap: Row) returns (marked: bool)
      modifies this`row
      ensures marked <==>
        old(row).cipher == snap.cipher && old(row).status == snap.status && old(row).refresh == snap.refresh
      ensures row == if marked then old(row).(status := ReauthRequired) else old(row)
      ensures AsWorld(map[]) == MarkStep(old(AsWorld(map[0 := Holding(snap, false)])), 0, snap)
    {
      marked := row.cipher == snap.cipher && row.status == snap.status && row.refresh == snap.refresh;
      if marked {
        row := row.(status := ReauthRequired);
      }
    }

    /** A refreshed credential keeps its login and takes a later grant revision than the row it was read from. */
    method Refresh(snap: Row, clock: int, last: int, refresh: bool, expiresAt: Option<real>) returns (stored: bool)
      modifies this`row, this`nextCipher
      ensures stored <==>
        old(row).cipher == snap.cipher && old(row).status == snap.status && old(row).refresh == snap.refresh
      ensures AsWorld(map[])
              == RefreshStep(old(AsWorld(map[0 := Holding(snap, false)])), 0, snap,
                             Event.Refresh(0, clock, last, refresh, expiresAt))
      ensures stored ==>
        row.login == snap.login && row.grant > last && (row.grant > snap.grant <==> Raisable(clock, last, snap.grant))
    {
      var grant := IssueRevision(clock, last, snap.grant);
      IssueRaises(clock, last, snap.grant);
      stored := StoreIfCurrent(snap, snap.login, grant, refresh, expiresAt);
    }

    /** What the row decrypts to; a row that cannot be decrypted needs a new sign-in. */
    method ResolutionFromRow(snap: Row, decrypts: bool)
      modifies this`row
      ensures row == if !decrypts && IsCurrent(old(row), snap) then old(row).(status := ReauthRequired) else old(row)
    {
      if !decrypts {
        var marked := MarkReauthRequiredIfCurrent(snap);
      }
    }

    /**
     * The shared grant is adopted if and only if it is usable, does not match what the row already holds, is newer than
     * the row it was compared with, and that row is still the stored one.
     */
    method ResolveSharedGrant(snap: Row, decrypts: bool, before: Option<SharedGrant>, shared: Option<SharedGrant>)
      returns (stored: bool)
      modifies this`row, this`nextCipher
      ensures stored <==>
        && !Ignores(snap, decrypts, before) && shared.Some? && shared.value.active && shared.value.hasToken
        && !(snap.status == Active && decrypts && shared.value.matches)
        && IsSharedGrantNewer(snap, shared.value.login, shared.value.grant)
        && old(row).cipher == snap.cipher && old(row).status == snap.status && old(row).refresh == snap.refresh
        && (decrypts || snap.status == ReauthRequired)
      ensures stored ==>
        && row.cipher == old(nextCipher) && row.status == Active
        && row.login == shared.value.login && row.grant == shared.value.grant
        && row.expiresAt == shared.value.expiresAt
      ensures stored ==>
        && Below(snap.login, snap.grant, shared.value.login, shared.value.grant)
        && AsWorld(map[])
           == AdoptStep(old(AsWorld(map[0 := Holding(snap, false)])), 0, snap,
                        Adopt(0, shared.value.login, shared.value.grant, shared.value.refresh, shared.value.expiresAt))
      ensures !stored ==>
        row == if !decrypts && IsCurrent(old(row), snap) then old(row).(status := ReauthRequired) else old(row)
    {
      ResolutionFromRow(snap, decrypts);
      if decrypts && before.Some? && before.value.active && before.value.hasToken
         && !before.value.matches && !IsSharedGrantNewer(snap, before.value.login, before.value.grant)
      {
        return false;
      }
      if shared.None? || !shared.value.active || !shared.value.hasToken {
        return false;
      }
      if snap.status == Active && decrypts && shared.value.matches {
        return false;
      }
      if !IsSharedGrantNewer(snap, shared.value.login, shared.value.grant) {
        return false;
      }
      var grant := shared.value;
      stored := StoreIfCurrent(snap, grant.login, grant.grant, grant.refresh, grant.expiresAt);
    }

    method AcquireLease(snap: Row, now: real) returns (owner: Option<nat>)
      modifies this
      ensures renewalColumns == old(renewalColumns)
      ensures owner.Some? <==>
        && old(row).cipher == snap.cipher && old(row).status == Active
        && (old(row).leaseUntil.None? || old(row).leaseUntil.value < now)
        && (old(row).retryAfter.None? || old(row).retryAfter.value <= now)
      ensures owner.Some? ==>
        && owner.value == old(nextOwner) == nextOwner - 1
        && row == old(row).(owner := owner, leaseUntil := Some(now + 25_000.0))
      ensures owner.None? ==> row == old(row) && nextOwner == old(nextOwner)
      ensures AsWorld(map[]) == TryAcquire(old(AsWorld(map[])), 0, Holding(snap, false), now).(procs := map[])
    {
      var acquired := row.cipher == snap.cipher && row.status == Active
                      && (row.leaseUntil.None? || row.leaseUntil.value < now)
                      && (row.retryAfter.None? || row.retryAfter.value <= now);
      if !acquired {
        return None;
      }
      owner := Some(nextOwner);
      leases := leases[nextOwner := Lease(snap.cipher, now, |log|)];
      row := row.(owner := owner, leaseUntil := Some(now + RENEWAL_LEASE_MS));
      nextOwner := nextOwner + 1;
    }

    /** Stores the relay's answer, if the lease and the credential it was asked for are still the row's. */
    method ApplyAnswer(snap: Row, forced: bool, owner: nat, at: real, failures: nat, a: Answer)
      returns (ghost held: bool)
      modifies this
      ensures renewalColumns == old(renewalColumns)
      ensures held <==> old(row).cipher == snap.cipher && old(row).owner == Some(owner)
      ensures |log| == |old(log)| + if held then 1 else 0
      ensures !held ==> AsWorld(map[]) == old(AsWorld(map[]))
      ensures held && a.result.Renewed? && a.result.usable ==>
        && row == old(row).(cipher := old(nextCipher), expiresAt := a.result.expiresAt, status := Active,
                            grant := row.grant, retryAfter := None, failures := 0)
        && row.grant > a.lastIssued && row.grant >= a.revisionClock * 1_000
        && (-9_007_199_254_740_991 <= snap.grant <= 9_007_199_254_740_991 ==> row.grant > snap.grant)
      ensures held && a.result.Reauth? ==> row == old(row).(status := ReauthRequired)
      ensures held && a.result.Unavailable? ==>
        row == old(row).(relay := false,
                         status := if forced || (snap.expiresAt.Some? && snap.expiresAt.value <= a.now)
                                   then ReauthRequired else old(row).status)
      ensures held && (a.result.Transient? || (a.result.Renewed? && !a.result.usable)) ==>
        && row == old(row).(failures := failures + 1, retryAfter := row.retryAfter)
        && row.retryAfter.Some? && (a.random >= 0.0 ==> row.retryAfter.value >= a.now + 15_000.0)
        && (a.result.Transient? && a.result.retryAfter.Some? ==>
              row.retryAfter.value >= a.now + a.result.retryAfter.value)
      ensures var pc := Calling(snap, forced, owner, at, failures);
        AsWorld(map[0 := Releasing(owner)]) == Apply(old(AsWorld(map[0 := pc])), 0, pc, a)
    {
      held := row.cipher == snap.cipher && row.owner == Some(owner);
      if row.cipher != snap.cipher || row.owner != Some(owner) {
        return;
      }
      var kind;
      if a.result.Renewed? && a.result.usable {
        IssueRaises(a.revisionClock, a.lastIssued, snap.grant);
        var cipher := EncryptToken();
        row := row.(cipher := cipher, expiresAt := a.result.expiresAt, status := Active,
                    grant := IssueRevision(a.revisionClock, a.lastIssued, snap.grant),
                    retryAfter := None, failures := 0);
        since, kind := 0, WasRenewed;
      } else if a.result.Reauth? {
        row := row.(status := ReauthRequired);
        kind := WasReauth;
      } else if a.result.Unavailable? {
        var unusable := forced || (snap.expiresAt.Some? && snap.expiresAt.value <= a.now);
        row := if unusable then row.(relay := false, status := ReauthRequired) else row.(relay := false);
        kind := if unusable then WasReauth else WasUnavailable;
      } else {
        var asked := if a.result.Transient? then a.result.retryAfter else None;
        BackoffIsLater(failures + 1, asked, a.random);
        var retryAt := a.now + Backoff(failures + 1, asked, a.random);
        row := row.(failures := failures + 1, retryAfter := Some(retryAt));
        since, kind := since + 1, WasTransient(retryAt);
      }
      log := log + [Outcome(owner, snap.cipher, kind)];
    }

    method ReleaseLease(owner: nat)
      modifies this`row
      ensures row == if old(row).owner == Some(owner) then old(row).(owner := None, leaseUntil := None) else old(row)
    {
      if row.owner == Some(owner) {
        row := row.(owner := None, leaseUntil := None);
      }
    }

    method RenewWithLease(snap: Row, forced: bool, now: real, a: Answer) returns (acquired: bool)
      requires now <= a.now && 0.0 <= a.random < 1.0
      modifies this
      ensures renewalColumns == old(renewalColumns)
      ensures acquired <==>
        && old(row).cipher == snap.cipher && old(row).status == Active
        && (old(row).leaseUntil.None? || old(row).leaseUntil.value < now)
        && (old(row).retryAfter.None? || old(row).retryAfter.value <= now)
      ensures AsWorld(map[]) == Renewal(old(AsWorld(map[])), snap, forced, now, a)
      ensures !acquired ==> AsWorld(map[]) == old(AsWorld(map[]))
      ensures acquired ==> row.owner.None? && row.leaseUntil.None? && |log| == |old(log)| + 1
      ensures acquired && a.result.Renewed? && a.result.usable ==>
        && row == old(row).(cipher := old(nextCipher), expiresAt := a.result.expiresAt, status := Active,
                            grant := row.grant, retryAfter := None, failures := 0, owner := None, leaseUntil := None)
        && row.grant > a.lastIssued && row.grant >= a.revisionClock * 1_000
        && (-9_007_199_254_740_991 <= snap.grant <= 9_007_199_254_740_991 ==> row.grant > snap.grant)
      ensures acquired && a.result.Reauth? ==>
        row == old(row).(status := ReauthRequired, owner := None, leaseUntil := None)
      ensures acquired && a.result.Unavailable? ==>
        row == old(row).(relay := false, owner := None, leaseUntil := None,
                         status := if forced || (snap.expiresAt.Some? && snap.expiresAt.value <= a.now)
                                   then ReauthRequired else old(row).status)
      ensures acquired && (a.result.Transient? || (a.result.Renewed? && !a.result.usable)) ==>
        && row == old(row).(failures := old(row).failures + 1, retryAfter := row.retryAfter,
                            owner := None, leaseUntil := None)
        && row.retryAfter.Some? && row.retryAfter.value >= a.now + 15_000.0
        && (a.result.Transient? && a.result.retryAfter.Some? ==>
              row.retryAfter.value >= a.now + a.result.retryAfter.value)
    {
      ghost var w := AsWorld(map[]);
      var owner := AcquireLease(snap, now);
      if owner.None? {
        RenewalDenied(w, snap, forced, now, a);
        return false;
      }
      var failures := if row.owner == owner then row.failures else snap.failures;
      ghost var held := ApplyAnswer(snap, forced, owner.value, now, failures, a);
      ReleaseLease(owner.value);
      RenewalGranted(w, snap, forced, now, a);
      return true;
    }

    /**
     * The row to resolve a renewable grant from. Nothing happens more than twelve minutes before expiry; from ten
     * minutes before it on, a renewal is tried unless it backs off; until expiry the token stays usable.
     */
    method RenewIfDue(snap: Row, forced: bool, hash: nat, now: real, a: Answer, later: real) returns (r: Resolution)
      requires now <= a.now <= later && 0.0 <= a.random < 1.0
      modifies this
      ensures r.Usable? ==> r.row == snap || r.row == row
      ensures !forced && (snap.expiresAt.Some? ==>
                            now < snap.expiresAt.value - 600_000.0 - (hash % 120_000) as real) ==>
        r == Usable(snap) && AsWorld(map[]) == old(AsWorld(map[]))
      ensures forced || (snap.expiresAt.Some? && now >= snap.expiresAt.value - 600_000.0 - (hash % 120_000) as real) ==>
        && AsWorld(map[]) == (if snap.retryAfter.None? || snap.retryAfter.value <= now
                              then Renewal(old(AsWorld(map[])), snap, forced, now, a) else old(AsWorld(map[])))
        && (r.Usable? ==> r.row == row)
        && (r.Usable? <==>
              || row.status != Active || row.cipher != snap.cipher
              || (!forced && (row.expiresAt.None? || row.expiresAt.value > later)))
      ensures r.TemporarilyUnavailable? ==>
        row.status == Active && row.cipher == snap.cipher && (forced || Expired(row, later))
      ensures forced && r.Usable? ==> r.row == row && (row.status != Active || row.cipher != snap.cipher)
    {
      var due := forced || (snap.expiresAt.Some? && now >= RenewalDueAt(hash, snap.expiresAt.value));
      if !due {
        return Usable(snap);
      }
      if snap.retryAfter.None? || snap.retryAfter.value <= now {
        var acquired := RenewWithLease(snap, forced, now, a);
      }
      if row.status != Active || row.cipher != snap.cipher {
        return Usable(row);
      }
      if !forced && (row.expiresAt.None? || row.expiresAt.value > later) {
        return Usable(row);
      }
      return TemporarilyUnavailable;
    }
  }

  lemma BackoffIsLater(failures: nat, asked: Option<real>, random: real)
    ensures random >= 0.0 ==> Backoff(failures, asked, random) >= 15_000.0
    ensures asked.Some? ==> Backoff(failures, asked, random) >= asked.value
  {
    if random >= 0.0 {
      BackoffBounds(failures, asked, random);
    }
  }

  lemma RenewalDenied(w: World, snap: Row, forced: bool, now: real, a: Answer)
    requires w.procs == map[] && !CanAcquire(w.row, snap, now)
    ensures Renewal(w, snap, forced, now, a) == w
  {
    assert Step(At(w, 0, Holding(snap, forced)), Acquire(0, now)) == w;
  }

  /** The lease is acquired and the failures counted: the relay call is about to be made. */
  function Called(w: World, snap: Row, forced: bool, now: real): World {
    Step(Step(At(w, 0, Holding(snap, forced)), Acquire(0, now)), CountFailures(0))
  }

  lemma CalledIs(w: World, snap: Row, forced: bool, now: real)
    requires w.procs == map[] && CanAcquire(w.row, snap, now)
    ensures Called(w, snap, forced, now)
            == Acquired(w, 0, Holding(snap, forced), now)
               .(procs := map[0 := Calling(snap, forced, w.nextOwner, now, w.row.failures)])
  {
    var leased := Step(At(w, 0, Holding(snap, forced)), Acquire(0, now));
    assert leased.procs == map[0 := Leased(snap, forced, w.nextOwner, now)];
  }

  /** Storing the outcome and releasing the lease. */
  lemma AnsweredAndFreed(w: World, pc: Pc, a: Answer)
    requires w.procs == map[0 := pc] && pc.Calling? && Holds(w.row, pc) && pc.at <= a.now && 0.0 <= a.random < 1.0
    ensures var applied := Apply(w, 0, pc, a);
      && Step(Step(w, Answered(0, a)), FreeLease(0))
         == applied.(procs := map[], row := applied.row.(owner := None, leaseUntil := None))
      && applied.row.owner == Some(pc.owner) && |applied.log| == |w.log| + 1
  {
    var answered := Step(w, Answered(0, a));
    assert answered == Apply(w, 0, pc, a) && answered.row.owner == Some(pc.owner);
    assert answered.procs == map[0 := Releasing(pc.owner)];
    assert Finished(answered, 0).procs == map[];
  }

  lemma RenewalGranted(w: World, snap: Row, forced: bool, now: real, a: Answer)
    requires w.procs == map[] && CanAcquire(w.row, snap, now) && now <= a.now && 0.0 <= a.random < 1.0
    ensures var pc := Calling(snap, forced, w.nextOwner, now, w.row.failures);
      var called := Acquired(w, 0, Holding(snap, forced), now).(procs := map[0 := pc]);
      var applied := Apply(called, 0, pc, a);
      && Renewal(w, snap, forced, now, a)
         == applied.(procs := map[], row := applied.row.(owner := None, leaseUntil := None))
      && applied.row.owner == Some(w.nextOwner) && |applied.log| == |w.log| + 1
  {
    CalledIs(w, snap, forced, now);
    AnsweredAndFreed(Called(w, snap, forced, now), Calling(snap, forced, w.nextOwner, now, w.row.failures), a);
  }
}
