/**
 * The recovery pass of every worker process under one Redis lease, and the guard that keeps a slow recovery step from
 * being started twice. Time is in milliseconds; timers fire on time.
 */
module RecoveryLease {
  import opened Common

  datatype Lease = Lease(token: nat, until: int)

  /** `budget` is the time budget of a pass. */
  datatype Config = Config(budget: int, ttl: int)

  function Max(a: int, b: int): int { if a > b then a else b }

  function Min(a: int, b: int): int { if a < b then a else b }

  function ReleaseBudget(c: Config): int { Min(1_000, Max(1, c.budget / 10)) }

  /** The release gets a tenth of the budget, between one millisecond and one second. */
  lemma ReleaseBudgetBounds(c: Config)
    ensures var b := ReleaseBudget(c);
      && 1 <= b <= 1_000
      && (10 <= c.budget <= 10_000 ==> 10 * b <= c.budget < 10 * b + 10)
      && (c.budget > 10_000 ==> b == 1_000)
    ensures DefaultTtl(c.budget) == if c.budget <= 100_000 then 300_000 else 3 * c.budget
  {
  }

  function DefaultTtl(budget: int): int { Max(300_000, budget * 3) }

  /**
   * A pass: waiting for the answer to its `SET NX`, which may have been executed at `granted`; working under the
   * lease; or waiting for the release script, which may have been executed already.
   */
  datatype Pass =
    | Acquiring(token: nat, limit: int, granted: Option<int>)
    | Working(token: nat, limit: int, at: int)
    | Releasing(token: nat, limit: int, at: int, freed: bool)

  datatype World = World(now: int, key: Option<Lease>, procs: map<nat, Pass>, nextToken: nat)

  const Start := World(0, None, map[], 0)

  function At(w: World, p: nat, pass: Pass): World { w.(procs := w.procs[p := pass]) }

  function Ended(w: World, p: nat): World { w.(procs := w.procs - {p}) }

  predicate Free(w: World) { w.key.None? || w.key.value.until <= w.now }

  /** The pass was given the lease and has not given it back. */
  predicate Holds(pass: Pass) {
    match pass
    case Acquiring(_, _, granted) => granted.Some?
    case Working(_, _, _) => true
    case Releasing(_, _, _, freed) => !freed
  }

  function GrantedAt(pass: Pass): int
    requires Holds(pass)
  {
    if pass.Acquiring? then pass.granted.value else pass.at
  }

  function SetNx(w: World, p: nat, pass: Pass, c: Config): World
    requires pass.Acquiring?
  {
    if pass.granted.Some? then w
    else if !Free(w) then Ended(w, p)
    else At(w.(key := Some(Lease(pass.token, w.now + c.ttl))), p, pass.(granted := Some(w.now)))
  }

  /** The answer arrived: work within what the budget leaves, or give the lease back at once. */
  function Answered(w: World, p: nat, pass: Pass, c: Config): World
    requires pass.Acquiring? && pass.granted.Some?
  {
    At(w, p, if pass.limit - w.now - ReleaseBudget(c) > 0
             then Working(pass.token, pass.limit - ReleaseBudget(c), pass.granted.value)
             else Releasing(pass.token, w.now + ReleaseBudget(c), pass.granted.value, false))
  }

  /** The release script deletes the key only under the given token. */
  function Delete(w: World, token: nat): World {
    if w.key.Some? && w.key.value.token == token then w.(key := None) else w
  }

  predicate InUse(w: World, token: nat) { exists p :: p in w.procs && w.procs[p].token == token }

  /**
   * `LateSet` and `LateDelete` are commands of a pass that has given up on them. `Tick` lets a millisecond pass, if no
   * timer of a pass is due before.
   */
  datatype Event =
    | Begin(p: nat)
    | Set(p: nat)
    | Answer(p: nat)
    | EndWork(p: nat)
    | Script(p: nat)
    | End(p: nat)
    | LateSet(token: nat)
    | LateDelete(token: nat)
    | Tick

  predicate CanTick(w: World) { forall p :: p in w.procs ==> w.now + 1 <= w.procs[p].limit }

  ghost function Step(w: World, e: Event, c: Config): World {
    match e
    case Begin(p) =>
      if p in w.procs then w
      else At(w.(nextToken := w.nextToken + 1), p, Acquiring(w.nextToken, w.now + c.budget, None))
    case Set(p) => if p in w.procs && w.procs[p].Acquiring? then SetNx(w, p, w.procs[p], c) else w
    case Answer(p) =>
      if p in w.procs && w.procs[p].Acquiring? && w.procs[p].granted.Some? then Answered(w, p, w.procs[p], c) else w
    case EndWork(p) =>
      if p in w.procs && w.procs[p].Working?
      then At(w, p, Releasing(w.procs[p].token, w.now + ReleaseBudget(c), w.procs[p].at, false)) else w
    case Script(p) =>
      if p in w.procs && w.procs[p].Releasing?
      then At(Delete(w, w.procs[p].token), p, w.procs[p].(freed := true)) else w
    case End(p) => Ended(w, p)
    case LateSet(token) =>
      if token < w.nextToken && !InUse(w, token) && Free(w) then w.(key := Some(Lease(token, w.now + c.ttl))) else w
    case LateDelete(token) => if InUse(w, token) then w else Delete(w, token)
    case Tick => if CanTick(w) then w.(now := w.now + 1) else w
  }

  ghost function Run(w: World, es: seq<Event>, c: Config): World {
    if es == [] then w else Step(Run(w, es[..|es| - 1], c), es[|es| - 1], c)
  }

  // ---------- exclusion ----------

  /** The time limits of a pass, and where it stands towards the lease it holds. */
  predicate PassOk(w: World, pass: Pass, c: Config) {
    && pass.token < w.nextToken && w.now <= pass.limit
    && (Holds(pass) ==>
          && GrantedAt(pass) <= w.now
          && pass.limit <= GrantedAt(pass) + c.budget + (if pass.Releasing? then ReleaseBudget(c) else 0)
          && (pass.Working? ==> pass.limit <= GrantedAt(pass) + c.budget - ReleaseBudget(c))
          && w.key == Some(Lease(pass.token, GrantedAt(pass) + c.ttl)))
    && (pass.Acquiring? && pass.granted.None? ==> pass.limit <= w.now + c.budget)
  }

  ghost predicate Inv(w: World, c: Config) {
    && (forall p :: p in w.procs ==> PassOk(w, w.procs[p], c))
    && (forall p, q :: p in w.procs && q in w.procs && p != q ==> w.procs[p].token != w.procs[q].token)
  }

  /** At most one process holds the lease. */
  ghost predicate Exclusive(w: World) {
    forall p, q :: p in w.procs && q in w.procs && Holds(w.procs[p]) && Holds(w.procs[q]) ==> p == q
  }

  predicate LongEnough(c: Config) { c.ttl > c.budget + ReleaseBudget(c) }

  /** A pass moves on, keeping its token. */
  lemma MoveInv(w: World, p: nat, pass: Pass, c: Config)
    requires Inv(w, c) && p in w.procs && pass.token == w.procs[p].token && PassOk(w, pass, c)
    ensures Inv(At(w, p, pass), c)
  {
    var w' := At(w, p, pass);
    forall q | q in w'.procs ensures PassOk(w', w'.procs[q], c) {
      if q != p { assert PassOk(w, w.procs[q], c); }
    }
  }

  lemma BeginInv(w: World, p: nat, c: Config)
    requires Inv(w, c) && p !in w.procs && c.budget >= 1
    ensures Inv(Step(w, Begin(p), c), c)
  {
    var w' := Step(w, Begin(p), c);
    forall q | q in w'.procs ensures PassOk(w', w'.procs[q], c) && (q != p ==> w'.procs[q].token < w.nextToken) {
      if q != p { assert PassOk(w, w.procs[q], c); }
    }
  }

  lemma ScriptInv(w: World, p: nat, c: Config)
    requires Inv(w, c) && p in w.procs && w.procs[p].Releasing?
    ensures Inv(Step(w, Script(p), c), c)
  {
    var w' := Step(w, Script(p), c);
    forall q | q in w'.procs ensures PassOk(w', w'.procs[q], c) {
      assert PassOk(w, w.procs[q], c);
    }
  }

  lemma TickInv(w: World, c: Config)
    requires Inv(w, c) && CanTick(w)
    ensures Inv(Step(w, Tick, c), c)
  {
    var w' := Step(w, Tick, c);
    forall q | q in w'.procs ensures PassOk(w', w'.procs[q], c) {
      assert PassOk(w, w.procs[q], c);
    }
  }

  lemma EndedInv(w: World, p: nat, c: Config)
    requires Inv(w, c)
    ensures Inv(Ended(w, p), c)
  {
    forall q | q in Ended(w, p).procs ensures PassOk(Ended(w, p), w.procs[q], c) {
      assert PassOk(w, w.procs[q], c);
    }
  }

  lemma LateSetInv(w: World, token: nat, c: Config)
    requires Inv(w, c) && LongEnough(c) && Free(w)
    ensures Inv(w.(key := Some(Lease(token, w.now + c.ttl))), c)
  {
    FreeMeansNobody(w, c);
    var w' := w.(key := Some(Lease(token, w.now + c.ttl)));
    forall q | q in w'.procs ensures PassOk(w', w'.procs[q], c) {
      assert PassOk(w, w.procs[q], c);
    }
  }

  lemma StepInv(w: World, e: Event, c: Config)
    requires Inv(w, c) && LongEnough(c) && c.budget >= 1
    ensures Inv(Step(w, e, c), c)
  {
    match e
    case Begin(p) => if p !in w.procs { BeginInv(w, p, c); }
    case Set(p) => if p in w.procs && w.procs[p].Acquiring? { SetInv(w, p, c); }
    case Answer(p) =>
      if p in w.procs && w.procs[p].Acquiring? && w.procs[p].granted.Some? {
        assert PassOk(w, w.procs[p], c);
        MoveInv(w, p, Answered(w, p, w.procs[p], c).procs[p], c);
      }
    case EndWork(p) =>
      if p in w.procs && w.procs[p].Working? {
        assert PassOk(w, w.procs[p], c);
        MoveInv(w, p, Releasing(w.procs[p].token, w.now + ReleaseBudget(c), w.procs[p].at, false), c);
      }
    case Script(p) => if p in w.procs && w.procs[p].Releasing? { ScriptInv(w, p, c); }
    case End(p) => EndedInv(w, p, c);
    case LateSet(token) => if Free(w) { LateSetInv(w, token, c); }
    case LateDelete(token) => if !InUse(w, token) { LateDeleteInv(w, token, c); }
    case Tick => if CanTick(w) { TickInv(w, c); }
  }

  /** While somebody holds the lease its key has not expired. */
  lemma FreeMeansNobody(w: World, c: Config)
    requires Inv(w, c) && LongEnough(c) && Free(w)
    ensures forall p :: p in w.procs ==> !Holds(w.procs[p])
  {
    forall p | p in w.procs ensures !Holds(w.procs[p]) {
      assert PassOk(w, w.procs[p], c);
    }
  }

  lemma SetInv(w: World, p: nat, c: Config)
    requires Inv(w, c) && LongEnough(c) && p in w.procs && w.procs[p].Acquiring?
    ensures Inv(SetNx(w, p, w.procs[p], c), c)
  {
    if Free(w) { FreeMeansNobody(w, c); }
    var w' := SetNx(w, p, w.procs[p], c);
    forall q | q in w'.procs ensures PassOk(w', w'.procs[q], c) {
      assert PassOk(w, w.procs[q], c);
    }
  }

  lemma LateDeleteInv(w: World, token: nat, c: Config)
    requires Inv(w, c) && !InUse(w, token)
    ensures Inv(Delete(w, token), c)
  {
    forall q | q in w.procs ensures PassOk(Delete(w, token), w.procs[q], c) {
      assert PassOk(w, w.procs[q], c);
    }
  }

  lemma {:induction false} RunInv(w: World, es: seq<Event>, c: Config)
    requires Inv(w, c) && LongEnough(c) && c.budget >= 1
    ensures Inv(Run(w, es, c), c)
  {
    if es == [] {
    } else {
      RunInv(w, es[..|es| - 1], c);
      StepInv(Run(w, es[..|es| - 1], c), es[|es| - 1], c);
    }
  }

  /** Under a long enough lease every pass is over before its own lease expires, and the key is still its own. */
  lemma {:induction false} PassEndsBeforeItsLease(es: seq<Event>, c: Config, p: nat)
    requires LongEnough(c) && c.budget >= 1
    requires p in Run(Start, es, c).procs && Holds(Run(Start, es, c).procs[p])
    ensures var w := Run(Start, es, c); var pass := w.procs[p];
      w.now <= pass.limit < GrantedAt(pass) + c.ttl && w.key == Some(Lease(pass.token, GrantedAt(pass) + c.ttl))
  {
    RunInv(Start, es, c);
    assert PassOk(Run(Start, es, c), Run(Start, es, c).procs[p], c);
  }

  lemma HoldersAreOne(w: World, c: Config)
    requires Inv(w, c)
    ensures Exclusive(w)
  {
    forall p, q | p in w.procs && q in w.procs && Holds(w.procs[p]) && Holds(w.procs[q]) ensures p == q {
      assert PassOk(w, w.procs[p], c) && PassOk(w, w.procs[q], c);
    }
  }

  lemma DefaultIsLongEnough(budget: int)
    requires budget >= 1
    ensures LongEnough(Config(budget, DefaultTtl(budget)))
  {
  }

  // ---------- and only then ----------

  function Ticks(k: nat): seq<Event> { if k == 0 then [] else Ticks(k - 1) + [Tick] }

  lemma RunOne(w: World, es: seq<Event>, e: Event, c: Config)
    ensures Run(w, es + [e], c) == Step(Run(w, es, c), e, c)
  {
    assert (es + [e])[..|es + [e]| - 1] == es;
  }

  lemma {:induction false} RunTicks(w: World, es: seq<Event>, k: nat, c: Config)
    requires forall p :: p in Run(w, es, c).procs ==> Run(w, es, c).now + k <= Run(w, es, c).procs[p].limit
    ensures Run(w, es + Ticks(k), c) == Run(w, es, c).(now := Run(w, es, c).now + k)
  {
    if k == 0 {
      assert es + Ticks(0) == es;
    } else {
      RunTicks(w, es, k - 1, c);
      assert es + Ticks(k) == (es + Ticks(k - 1)) + [Tick];
      RunOne(w, es + Ticks(k - 1), Tick, c);
      TickTicks(Run(w, es + Ticks(k - 1), c), c);
    }
  }

  lemma TickTicks(w: World, c: Config)
    requires CanTick(w)
    ensures Step(w, Tick, c) == w.(now := w.now + 1)
  {
  }

  /** Process 0 holds a lease granted at time 0 until it is about to expire; process 1 then takes it too. */
  lemma {:induction false} Overlap(es: seq<Event>, c: Config)
    requires c.budget >= 1 && c.ttl >= 1
    requires var w := Run(Start, es, c);
      w.procs.Keys == {0} && Holds(w.procs[0]) && w.now == c.ttl && w.key == Some(Lease(0, c.ttl))
    ensures exists more :: !Exclusive(Run(Start, more, c))
  {
    var w := Run(Start, es, c);
    RunOne(Start, es, Begin(1), c);
    RunOne(Start, es + [Begin(1)], Set(1), c);
    var w' := Run(Start, es + [Begin(1)] + [Set(1)], c);
    assert 1 in w'.procs && 0 in w'.procs && Holds(w'.procs[0]) && Holds(w'.procs[1]);
  }

  lemma TooShortOverlaps(c: Config)
    requires c.budget >= 1 && c.ttl >= 1 && !LongEnough(c)
    ensures exists es :: !Exclusive(Run(Start, es, c))
  {
    var granted := [] + [Begin(0)] + [Set(0)];
    RunOne(Start, [], Begin(0), c);
    RunOne(Start, [] + [Begin(0)], Set(0), c);
    assert Run(Start, granted, c) == World(0, Some(Lease(0, c.ttl)), map[0 := Acquiring(0, c.budget, Some(0))], 1);
    if c.ttl <= c.budget {
      RunTicks(Start, granted, c.ttl, c);
      Overlap(granted + Ticks(c.ttl), c);
    } else {
      var late := granted + Ticks(c.budget);
      RunTicks(Start, granted, c.budget, c);
      RunOne(Start, late, Answer(0), c);
      var releasing := Run(Start, late + [Answer(0)], c);
      assert releasing.procs == map[0 := Releasing(0, c.budget + ReleaseBudget(c), 0, false)];
      RunTicks(Start, late + [Answer(0)], c.ttl - c.budget, c);
      Overlap(late + [Answer(0)] + Ticks(c.ttl - c.budget), c);
    }
  }

  /**
   * Passes of different processes never hold the lease together, in any run, if and only if the lease outlives the
   * time budget and the release budget together.
   */
  lemma ExclusionIff(c: Config)
    requires c.budget >= 1 && c.ttl >= 1
    ensures (forall es :: Exclusive(Run(Start, es, c))) <==> LongEnough(c)
  {
    if LongEnough(c) {
      forall es ensures Exclusive(Run(Start, es, c)) {
        RunInv(Start, es, c);
        HoldersAreOne(Run(Start, es, c), c);
      }
    } else {
      TooShortOverlaps(c);
    }
  }
}
