/**
 * One user's stored GitHub grant and everyone who may write it: relay renewers behind a row lease, refreshers,
 * adopters of a shared grant, and sign-ins. A ciphertext is a number never used before, since every encryption
 * draws a new IV. Times are milliseconds and each process reads its own clock.
 */
module GrantProtocol {
  import opened Common

  const RENEWAL_LEAD_MS := 600_000.0
  const RENEWAL_JITTER_MS := 120_000
  const BACKOFF_BASE_MS := 30_000.0
  const BACKOFF_MAX_MS := 600_000.0
  const RENEWAL_LEASE_MS := 25_000.0
  const GRANT_REVISION_PRECISION := 1_000
  const MAX_SAFE_INTEGER := 9_007_199_254_740_991

  datatype Status = Active | ReauthRequired

  /** The columns of the grant row; `relay` is whether the credential is renewed over the relay. */
  datatype Row = Row(
    cipher: nat,
    refresh: Option<nat>,
    expiresAt: Option<real>,
    status: Status,
    login: int,
    grant: int,
    relay: bool,
    owner: Option<nat>,
    leaseUntil: Option<real>,
    retryAfter: Option<real>,
    failures: nat)

  /** The relay's answer; `usable` is whether a renewed token looks like a GitHub user token. */
  datatype RelayResult =
    | Renewed(expiresAt: Option<real>, usable: bool)
    | Reauth
    | Unavailable
    | Transient(retryAfter: Option<real>)

  /** What a renewer wrote to the row. */
  datatype Kind = WasRenewed | WasReauth | WasUnavailable | WasTransient(retryAt: real)

  datatype Outcome = Outcome(owner: nat, cipher: nat, kind: Kind) {
    /** Ends the credential: it was replaced, or needs a new sign-in. */
    predicate Final() { kind == WasRenewed || kind == WasReauth }
  }

  /** A lease once acquired: the credential it is for, the holder's clock, and how much was logged by then. */
  datatype Lease = Lease(cipher: nat, at: real, seen: nat)

  datatype Pc =
    | Holding(snap: Row, forced: bool)
    | Leased(snap: Row, forced: bool, owner: nat, at: real)
    | Calling(snap: Row, forced: bool, owner: nat, at: real, failures: nat)
    | Releasing(owner: nat)

  /** `since` counts the transient outcomes stored since the last applied renewal or sign-in. */
  datatype World = World(
    row: Row,
    procs: map<nat, Pc>,
    nextCipher: nat,
    nextOwner: nat,
    leases: map<nat, Lease>,
    log: seq<Outcome>,
    since: nat)

  function At(w: World, p: nat, pc: Pc): World { w.(procs := w.procs[p := pc]) }

  function Finished(w: World, p: nat): World { w.(procs := w.procs - {p}) }

  // ---------- arithmetic ----------

  /** A revision above the current one and above every one this process issued before. */
  function IssueRevision(now: int, last: int, current: int): int {
    var clock := now * GRANT_REVISION_PRECISION;
    var issued := if clock >= last + 1 then clock else last + 1;
    var raised := if IsSafe(current) then current + 1 else 0;
    if issued >= raised then issued else raised
  }

  predicate IsSafe(revision: int) { -MAX_SAFE_INTEGER <= revision <= MAX_SAFE_INTEGER }

  /** `login` first, then `grant`. */
  predicate Below(login: int, grant: int, login': int, grant': int) {
    login < login' || (login == login' && grant < grant')
  }

  predicate IsSharedGrantNewer(row: Row, login: int, grant: int) {
    IsSafe(row.grant) && IsSafe(grant) && IsSafe(row.login) && IsSafe(login)
    && if login == row.login then grant > row.grant else login > row.login
  }

  function TwoTo(n: nat): real { if n == 0 then 1.0 else 2.0 * TwoTo(n - 1) }

  function Exponential(failures: nat): real {
    var exponent := if failures == 0 then 0 else if failures > 11 then 10 else failures - 1;
    var doubled := BACKOFF_BASE_MS * TwoTo(exponent);
    if doubled < BACKOFF_MAX_MS then doubled else BACKOFF_MAX_MS
  }

  /** Half the exponential, jittered up to all of it by a draw `random` in [0, 1), or what the relay asked for. */
  function Spread(exponential: real, retryAfter: Option<real>, random: real): real {
    var jittered := exponential / 2.0 + random * (exponential / 2.0);
    var asked := if retryAfter.Some? then retryAfter.value else 0.0;
    if jittered >= asked then jittered else asked
  }

  function Backoff(failures: nat, retryAfter: Option<real>, random: real): real {
    Spread(Exponential(failures), retryAfter, random)
  }

  /** A `Retry-After` header: a number of seconds, a date, or neither. */
  datatype RetryHeader = Absent | Seconds(seconds: real) | HttpDate(date: real)

  function RetryAfterMs(header: RetryHeader, now: real): Option<real> {
    match header
    case Absent => None
    case Seconds(seconds) => Some(if seconds > 0.0 then seconds * 1000.0 else 0.0)
    case HttpDate(date) => Some(if date > now then date - now else 0.0)
  }

  /** When proactive renewal of a credential starts; `hash` is a hash of the credential. */
  function RenewalDueAt(hash: nat, expiresAt: real): real {
    expiresAt - RENEWAL_LEAD_MS - (hash % RENEWAL_JITTER_MS) as real
  }

  // ---------- the renewer ----------

  /** The lease is free, the credential unchanged and active, and no retry deadline lies ahead. */
  predicate CanAcquire(row: Row, snap: Row, now: real) {
    row.cipher == snap.cipher && row.status == Active
    && (row.leaseUntil.None? || row.leaseUntil.value < now)
    && (row.retryAfter.None? || row.retryAfter.value <= now)
  }

  function TryAcquire(w: World, p: nat, pc: Pc, now: real): World
    requires pc.Holding?
  {
    if CanAcquire(w.row, pc.snap, now) then Acquired(w, p, pc, now) else Finished(w, p)
  }

  function Acquired(w: World, p: nat, pc: Pc, now: real): World
    requires pc.Holding?
  {
    At(w.(row := w.row.(owner := Some(w.nextOwner), leaseUntil := Some(now + RENEWAL_LEASE_MS)),
          nextOwner := w.nextOwner + 1, leases := w.leases[w.nextOwner := Lease(pc.snap.cipher, now, |w.log|)]),
       p, Leased(pc.snap, pc.forced, w.nextOwner, now))
  }

  /** Failures are counted from the leased row, or from the caller's read once the lease is lost. */
  function Count(w: World, p: nat, pc: Pc): World
    requires pc.Leased?
  {
    At(w, p, Calling(pc.snap, pc.forced, pc.owner, pc.at,
                     if w.row.owner == Some(pc.owner) then w.row.failures else pc.snap.failures))
  }

  /** The condition every outcome is stored under. */
  predicate Holds(row: Row, pc: Pc)
    requires pc.Calling?
  {
    row.cipher == pc.snap.cipher && row.owner == Some(pc.owner)
  }

  predicate Expired(row: Row, now: real) { row.expiresAt.Some? && row.expiresAt.value <= now }

  function Logged(w: World, p: nat, pc: Pc, kind: Kind): World
    requires pc.Calling?
  {
    At(w.(log := w.log + [Outcome(pc.owner, pc.snap.cipher, kind)]), p, Releasing(pc.owner))
  }

  function ApplyRenewed(w: World, p: nat, pc: Pc, expiresAt: Option<real>, revision: int): World
    requires pc.Calling?
  {
    Logged(w.(row := w.row.(cipher := w.nextCipher, expiresAt := expiresAt, status := Active, grant := revision,
                            retryAfter := None, failures := 0),
              nextCipher := w.nextCipher + 1, since := 0), p, pc, WasRenewed)
  }

  function ApplyReauth(w: World, p: nat, pc: Pc): World
    requires pc.Calling?
  {
    Logged(w.(row := w.row.(status := ReauthRequired)), p, pc, WasReauth)
  }

  /** The relay cannot renew this grant: keep a token that is still usable, or ask for a sign-in. */
  function ApplyUnavailable(w: World, p: nat, pc: Pc, now: real): World
    requires pc.Calling?
  {
    if pc.forced || Expired(pc.snap, now)
    then Logged(w.(row := w.row.(relay := false, status := ReauthRequired)), p, pc, WasReauth)
    else Logged(w.(row := w.row.(relay := false)), p, pc, WasUnavailable)
  }

  function ApplyTransient(w: World, p: nat, pc: Pc, retryAt: real): World
    requires pc.Calling?
  {
    Logged(w.(row := w.row.(failures := pc.failures + 1, retryAfter := Some(retryAt)), since := w.since + 1),
           p, pc, WasTransient(retryAt))
  }

  /** What one renewer is told between acquiring its lease and storing the outcome. */
  datatype Answer = Answer(result: RelayResult, now: real, revisionClock: int, lastIssued: int, random: real)

  function RetryAt(pc: Pc, a: Answer): real
    requires pc.Calling?
  {
    a.now + Backoff(pc.failures + 1, if a.result.Transient? then a.result.retryAfter else None, a.random)
  }

  function Apply(w: World, p: nat, pc: Pc, a: Answer): World
    requires pc.Calling?
  {
    if !Holds(w.row, pc) then At(w, p, Releasing(pc.owner))
    else if a.result.Renewed? && a.result.usable then
      ApplyRenewed(w, p, pc, a.result.expiresAt, IssueRevision(a.revisionClock, a.lastIssued, pc.snap.grant))
    else if a.result.Reauth? then ApplyReauth(w, p, pc)
    else if a.result.Unavailable? then ApplyUnavailable(w, p, pc, a.now)
    else ApplyTransient(w, p, pc, RetryAt(pc, a))
  }

  function Release(w: World, p: nat, owner: nat): World {
    Finished(if w.row.owner == Some(owner) then w.(row := w.row.(owner := None, leaseUntil := None)) else w, p)
  }

  // ---------- everyone else ----------

  /** The row a process read is still the stored one, as far as its credential and status go. */
  predicate IsCurrent(row: Row, snap: Row) {
    row.cipher == snap.cipher && row.status == snap.status && row.refresh == snap.refresh
  }

  /** Stores a new credential under the given revisions. */
  function Stored(w: World, login: int, grant: int, refresh: bool, expiresAt: Option<real>): World {
    w.(row := w.row.(cipher := w.nextCipher, refresh := if refresh then Some(w.nextCipher + 1) else None,
                     expiresAt := expiresAt, status := Active, login := login, grant := grant),
       nextCipher := w.nextCipher + 2)
  }

  /** A sign-in replaces the credential, and the renewal columns too if it found them to exist. */
  function SignedIn(w: World, columns: bool, relay: bool, revision: int, refresh: bool, expiresAt: Option<real>): World
  {
    var s := Stored(w, revision, revision, refresh, expiresAt).(since := 0);
    if !columns then s
    else s.(row := s.row.(relay := relay, owner := None, leaseUntil := None, retryAfter := None, failures := 0))
  }

  // ---------- everything that can happen ----------

  /**
   * `Read` takes a snapshot, on which a process may sit for any time. A renewer then runs `Acquire`, `CountFailures`,
   * `Answered` and `FreeLease`, the last also after an error; a refresher ends with `Refresh` or `Mark`, an adopter of
   * the shared grant with `Adopt`. A clock may differ from every other one, but a renewer's own clock does not run
   * backwards.
   */
  datatype Event =
    | Read(p: nat, forced: bool)
    | Acquire(p: nat, now: real)
    | CountFailures(p: nat)
    | Answered(p: nat, a: Answer)
    | FreeLease(p: nat)
    | Refresh(p: nat, revisionClock: int, lastIssued: int, refresh: bool, expiresAt: Option<real>)
    | Adopt(p: nat, login: int, grant: int, refresh: bool, expiresAt: Option<real>)
    | Mark(p: nat)
    | SignIn(columns: bool, relay: bool, revision: int, refresh: bool, expiresAt: Option<real>)
    | Crash(p: nat)

  /** Encrypts a credential and stores it if the row is still the one that was read. */
  function TryStore(w: World, snap: Row, login: int, grant: int, refresh: bool, expiresAt: Option<real>): World {
    if IsCurrent(w.row, snap) then Stored(w, login, grant, refresh, expiresAt) else w.(nextCipher := w.nextCipher + 2)
  }

  function RefreshStep(w: World, p: nat, snap: Row, e: Event): World
    requires e.Refresh?
  {
    var grant := IssueRevision(e.revisionClock, e.lastIssued, snap.grant);
    Finished(TryStore(w, snap, snap.login, grant, e.refresh, e.expiresAt), p)
  }

  function AdoptStep(w: World, p: nat, snap: Row, e: Event): World
    requires e.Adopt?
  {
    Finished(if !IsSharedGrantNewer(snap, e.login, e.grant) then w
             else TryStore(w, snap, e.login, e.grant, e.refresh, e.expiresAt), p)
  }

  function MarkStep(w: World, p: nat, snap: Row): World {
    Finished(if IsCurrent(w.row, snap) then w.(row := w.row.(status := ReauthRequired)) else w, p)
  }

  predicate Holder(w: World, p: nat) { p in w.procs && w.procs[p].Holding? }

  function Step(w: World, e: Event): World {
    match e
    case Read(p, forced) => if p in w.procs then w else At(w, p, Holding(w.row, forced))
    case Acquire(p, now) => if Holder(w, p) then TryAcquire(w, p, w.procs[p], now) else w
    case CountFailures(p) => if p in w.procs && w.procs[p].Leased? then Count(w, p, w.procs[p]) else w
    case Answered(p, a) =>
      if p in w.procs && w.procs[p].Calling? && w.procs[p].at <= a.now && 0.0 <= a.random < 1.0
      then Apply(w, p, w.procs[p], a) else w
    case FreeLease(p) => if p in w.procs && !w.procs[p].Holding? then Release(w, p, w.procs[p].owner) else w
    case Refresh(p, _, _, _, _) => if Holder(w, p) then RefreshStep(w, p, w.procs[p].snap, e) else w
    case Adopt(p, _, _, _, _) => if Holder(w, p) then AdoptStep(w, p, w.procs[p].snap, e) else w
    case Mark(p) => if Holder(w, p) then MarkStep(w, p, w.procs[p].snap) else w
    case SignIn(columns, relay, revision, refresh, expiresAt) =>
      SignedIn(w, columns, relay, revision, refresh, expiresAt)
    case Crash(p) => Finished(w, p)
  }

  function Run(w: World, es: seq<Event>): World {
    if es == [] then w else Step(Run(w, es[..|es| - 1]), es[|es| - 1])
  }

  /** A row nobody has tried to renew yet. */
  function Start(row: Row): World
    requires row.owner.None? && row.retryAfter.None? && row.failures == 0
  {
    World(row, map[], row.cipher + 1, 0, map[], [], 0)
  }
}
