/**
 * One process's recovery pass as it runs: lease, reconciliation, guarded steps, release; and the guard over all the
 * passes of a process.
 */
module RecoveryPass {
  import opened Common
  import opened RecoveryLease

  // ---------- the step guard over all passes ----------

  /** `inFlight` names the last run of a step until that run is forgotten; `unsettled` are the runs still going. */
  datatype Steps = Steps(inFlight: map<string, nat>, unsettled: map<nat, string>, nextRun: nat)

  /** A pass asks for a step, a run settles, its settlement handler runs. */
  datatype StepEvent = Asked(name: string, inBudget: bool) | Settled(run: nat) | Forgotten(run: nat, name: string)

  /** A step whose last run is in flight is skipped, and one out of budget never starts. */
  function Ask(s: Steps, name: string, inBudget: bool): Steps {
    if name in s.inFlight || !inBudget then s
    else Steps(s.inFlight[name := s.nextRun], s.unsettled[s.nextRun := name], s.nextRun + 1)
  }

  function Settle(s: Steps, run: nat): Steps { s.(unsettled := s.unsettled - {run}) }

  function Forget(s: Steps, run: nat, name: string): Steps {
    if run !in s.unsettled && name in s.inFlight && s.inFlight[name] == run
    then s.(inFlight := s.inFlight - {name}) else s
  }

  function StepOnce(s: Steps, e: StepEvent): Steps {
    match e
    case Asked(name, inBudget) => Ask(s, name, inBudget)
    case Settled(run) => Settle(s, run)
    case Forgotten(run, name) => Forget(s, run, name)
  }

  function RunSteps(es: seq<StepEvent>): Steps {
    if es == [] then Steps(map[], map[], 0) else StepOnce(RunSteps(es[..|es| - 1]), es[|es| - 1])
  }

  /** Every run still going is the one its step's name is blocked by. */
  ghost predicate Guarded(s: Steps) {
    && (forall r :: r in s.unsettled ==>
          r < s.nextRun && s.unsettled[r] in s.inFlight && s.inFlight[s.unsettled[r]] == r)
    && (forall n :: n in s.inFlight ==> s.inFlight[n] < s.nextRun)
  }

  lemma {:induction false} StepsAreGuarded(es: seq<StepEvent>)
    ensures Guarded(RunSteps(es))
  {
    if es == [] {
    } else {
      StepsAreGuarded(es[..|es| - 1]);
    }
  }

  /** Across all passes of a process, at most one run of each step is ever going. */
  lemma OneRunPerStep(es: seq<StepEvent>, r: nat, q: nat)
    requires r in RunSteps(es).unsettled && q in RunSteps(es).unsettled
    requires RunSteps(es).unsettled[r] == RunSteps(es).unsettled[q]
    ensures r == q
  {
    StepsAreGuarded(es);
  }

  // ---------- one pass ----------

  class LeaseRedis {
    var key: Option<Lease>

    constructor ()
      ensures key.None?
    {
      key := None;
    }

    method SetNx(token: nat, ttl: int, now: int) returns (ok: bool)
      modifies this
      ensures ok <==> old(key).None? || old(key).value.until <= now
      ensures key == if ok then Some(Lease(token, now + ttl)) else old(key)
    {
      ok := key.None? || key.value.until <= now;
      if ok {
        key := Some(Lease(token, now + ttl));
      }
    }

    method DeleteIfOwn(token: nat)
      modifies this
      ensures key == if old(key).Some? && old(key).value.token == token then None else old(key)
    {
      if key.Some? && key.value.token == token {
        key := None;
      }
    }
  }

  /** One guarded step of a pass: when it is asked for, and whether its await rejects. */
  datatype AskedStep = AskedStep(name: string, at: int, rejects: bool)

  /** The steps of a pass in order, until one is out of time or rejects; one still in flight is passed over. */
  function AskAll(s: Steps, asked: seq<AskedStep>, limit: int): Steps
    decreases |asked|
  {
    if asked == [] then s
    else
      var first := asked[0];
      var s' := Ask(s, first.name, first.at < limit);
      if first.name !in s.inFlight && (first.at >= limit || first.rejects) then s' else AskAll(s', asked[1..], limit)
  }

  /** Asking for the steps of a pass keeps at most one run of each step going. */
  lemma {:induction false} AskAllIsGuarded(s: Steps, asked: seq<AskedStep>, limit: int)
    requires Guarded(s)
    ensures Guarded(AskAll(s, asked, limit))
    decreases |asked|
  {
    if asked == [] {
    } else {
      AskAllIsGuarded(Ask(s, asked[0].name, asked[0].at < limit), asked[1..], limit);
    }
  }

  /** When the awaits of one pass end, and how: the answer to the lease, reconciliation, the steps, and the release. */
  datatype Turn<Cursor, Backlog> = Turn(
    setAt: int,
    answeredAt: int,
    lost: bool,
    reconciled: Option<(Cursor, Backlog)>,
    asked: seq<AskedStep>,
    workedUntil: int,
    released: bool,
    endedAt: int)

  /** Every await ends no later than its timer. */
  predicate OnTime<Cursor, Backlog>(t: Turn<Cursor, Backlog>, start: int, c: Config) {
    && start <= t.setAt <= t.answeredAt <= start + c.budget
    && t.answeredAt <= t.workedUntil <= t.endedAt <= t.workedUntil + ReleaseBudget(c)
    && (if start + c.budget - t.answeredAt - ReleaseBudget(c) > 0
        then t.workedUntil <= start + c.budget - ReleaseBudget(c)
        else t.workedUntil == t.answeredAt && t.reconciled.None?)
  }

  /** The protocol's world before a pass of process 0, and after it. */
  function Before(start: int, key: Option<Lease>, token: nat): World { World(start, key, map[], token) }

  function After(end: int, key: Option<Lease>, token: nat): World { World(end, key, map[], token + 1) }

  lemma StepTo(w: World, es: seq<Event>, e: Event, c: Config, w': World)
    requires Step(Run(w, es, c), e, c) == w'
    ensures Run(w, es + [e], c) == w'
  {
    RunOne(w, es, e, c);
  }

  /** Time passes while process 0 stands where it is. */
  lemma WaitUntil(w: World, es: seq<Event>, until: int, c: Config) returns (es': seq<Event>)
    requires Run(w, es, c).now <= until
    requires forall p :: p in Run(w, es, c).procs ==> until <= Run(w, es, c).procs[p].limit
    ensures Run(w, es', c) == Run(w, es, c).(now := until)
  {
    es' := es + Ticks(until - Run(w, es, c).now);
    RunTicks(w, es, until - Run(w, es, c).now, c);
  }

  /** Up to the execution of `SET NX`. */
  lemma Opens(start: int, key: Option<Lease>, token: nat, setAt: int, c: Config) returns (es: seq<Event>)
    requires start <= setAt <= start + c.budget
    ensures var w := World(setAt, key, map[0 := Acquiring(token, start + c.budget, None)], token + 1);
      Run(Before(start, key, token), es, c) == SetNx(w, 0, w.procs[0], c)
  {
    var w := Before(start, key, token);
    es := [] + [Begin(0)];
    StepTo(w, [], Begin(0), c, World(start, key, map[0 := Acquiring(token, start + c.budget, None)], token + 1));
    es := WaitUntil(w, es, setAt, c);
    RunOne(w, es, Set(0), c);
    es := es + [Set(0)];
  }

  /** A pass whose lease was denied, or whose grant it never learned of, is a run of the protocol. */
  lemma DeniedIsRun(start: int, key: Option<Lease>, token: nat, setAt: int, answeredAt: int, c: Config)
    returns (es: seq<Event>)
    requires start <= setAt <= answeredAt && setAt <= start + c.budget
    ensures var free := key.None? || key.value.until <= setAt;
      Run(Before(start, key, token), es, c)
      == After(answeredAt, if free then Some(Lease(token, setAt + c.ttl)) else key, token)
  {
    var w := Before(start, key, token);
    var taken := if key.None? || key.value.until <= setAt then Some(Lease(token, setAt + c.ttl)) else key;
    es := Opens(start, key, token, setAt, c);
    StepTo(w, es, End(0), c, After(setAt, taken, token));
    es := WaitUntil(w, es + [End(0)], answeredAt, c);
  }

  /** A pass that was granted its lease is a run of the protocol. */
  lemma GrantedIsRun<Cursor, Backlog>(start: int, key: Option<Lease>, token: nat, t: Turn<Cursor, Backlog>, c: Config)
    returns (es: seq<Event>)
    requires OnTime(t, start, c) && (key.None? || key.value.until <= t.setAt)
    ensures Run(Before(start, key, token), es, c)
            == After(t.endedAt, if t.released then None else Some(Lease(token, t.setAt + c.ttl)), token)
  {
    var w := Before(start, key, token);
    var lease := Some(Lease(token, t.setAt + c.ttl));
    es := Opens(start, key, token, t.setAt, c);
    assert Run(w, es, c).procs == map[0 := Acquiring(token, start + c.budget, Some(t.setAt))];
    es := WaitUntil(w, es, t.answeredAt, c);
    es := Works(w, es, start, token, t, c);
    var limit := t.workedUntil + ReleaseBudget(c);
    if t.released {
      StepTo(w, es, Script(0), c,
             World(t.workedUntil, None, map[0 := Releasing(token, limit, t.setAt, true)], token + 1));
      es := es + [Script(0)];
    }
    es := WaitUntil(w, es, t.endedAt, c);
    StepTo(w, es, End(0), c, After(t.endedAt, if t.released then None else lease, token));
    es := es + [End(0)];
  }

  /** From the answer to the end of the work. */
  lemma Works<Cursor, Backlog>(w: World, es0: seq<Event>, start: int, token: nat, t: Turn<Cursor, Backlog>, c: Config)
    returns (es: seq<Event>)
    requires OnTime(t, start, c)
    requires Run(w, es0, c) == World(t.answeredAt, Some(Lease(token, t.setAt + c.ttl)),
                                         map[0 := Acquiring(token, start + c.budget, Some(t.setAt))], token + 1)
    ensures Run(w, es, c) == World(t.workedUntil, Some(Lease(token, t.setAt + c.ttl)),
                                   map[0 := Releasing(token, t.workedUntil + ReleaseBudget(c), t.setAt, false)],
                                   token + 1)
  {
    var lease := Some(Lease(token, t.setAt + c.ttl));
    es := es0 + [Answer(0)];
    RunOne(w, es0, Answer(0), c);
    if start + c.budget - t.answeredAt - ReleaseBudget(c) > 0 {
      assert Run(w, es, c).procs == map[0 := Working(token, start + c.budget - ReleaseBudget(c), t.setAt)];
      es := WaitUntil(w, es, t.workedUntil, c);
      StepTo(w, es, EndWork(0), c,
             World(t.workedUntil, lease,
                   map[0 := Releasing(token, t.workedUntil + ReleaseBudget(c), t.setAt, false)], token + 1));
      es := es + [EndWork(0)];
    } else {
      assert Run(w, es, c).procs == map[0 := Releasing(token, t.answeredAt + ReleaseBudget(c), t.setAt, false)];
    }
  }

  class TaskStateRecovery<Cursor, Backlog> {
    const config: Config
    const redis: LeaseRedis
    var cursor: Cursor
    var backlog: Backlog
    var closed: bool
    var steps: Steps

    constructor (config: Config, redis: LeaseRedis, cursor: Cursor, backlog: Backlog)
      ensures this.config == config && this.redis == redis && this.cursor == cursor && this.backlog == backlog
      ensures !closed && steps == RunSteps([])
    {
      this.config, this.redis, this.cursor, this.backlog := config, redis, cursor, backlog;
      closed, steps := false, Steps(map[], map[], 0);
    }

    /** Starts a step unless its last run is in flight or the pass is out of time; the run may outlive the pass. */
    method RunStep(name: string, now: int, deadline: int, aborted: bool) returns (run: Option<nat>)
      modifies this`steps
      ensures steps == Ask(old(steps), name, now < deadline && !aborted)
      ensures run.Some? <==> name !in old(steps).inFlight && now < deadline && !aborted
      ensures run.Some? ==>
        && run.value == old(steps).nextRun
        && steps == Steps(old(steps).inFlight[name := run.value], old(steps).unsettled[run.value := name],
                          run.value + 1)
      ensures run.None? ==> steps == old(steps)
    {
      if name in steps.inFlight {
        return None;
      }
      if deadline - now <= 0 || aborted {
        return None;
      }
      run := Some(steps.nextRun);
      steps := Steps(steps.inFlight[name := steps.nextRun], steps.unsettled[steps.nextRun := name], steps.nextRun + 1);
    }

    method OnSettled(run: nat)
      modifies this`steps
      ensures steps == Settle(old(steps), run)
    {
      steps := steps.(unsettled := steps.unsettled - {run});
    }

    /** The settlement handler drops the name only if the name still stands for its own run. */
    method ForgetRun(run: nat, name: string)
      requires run !in steps.unsettled
      modifies this`steps
      ensures steps == Forget(old(steps), run, name)
      ensures steps.unsettled == old(steps).unsettled && steps.nextRun == old(steps).nextRun
      ensures steps.inFlight == old(steps).inFlight
              - if name in old(steps).inFlight && old(steps).inFlight[name] == run then {name} else {}
    {
      if name in steps.inFlight && steps.inFlight[name] == run {
        steps := steps.(inFlight := steps.inFlight - {name});
      }
    }

    /** The steps of a pass, each started unless it is in flight, until one is out of time or rejects. */
    method RunAllSteps(asked: seq<AskedStep>, limit: int)
      modifies this`steps
      ensures steps == AskAll(old(steps), asked, limit)
    {
      var index := 0;
      var stopped := false;
      while index < |asked| && !stopped
        invariant index <= |asked|
        invariant AskAll(old(steps), asked, limit) == if stopped then steps else AskAll(steps, asked[index..], limit)
        decreases |asked| - index, !stopped
      {
        var step := asked[index];
        ghost var was := steps;
        assert asked[index..][0] == step && asked[index..][1..] == asked[index + 1..];
        if step.name in steps.inFlight {
          index := index + 1;
        } else {
          var run := RunStep(step.name, step.at, limit, false);
          stopped := run.None? || step.rejects;
          index := index + 1;
        }
      }
    }

    /**
     * One pass. With nobody else in between it is a run `es` of the protocol from its start to its end; it ends before
     * the lease it took expires if that outlives both budgets, never deletes a key under another token, and moves the
     * scan on only by what reconciliation returned.
     */
    method Execute(start: int, token: nat, t: Turn<Cursor, Backlog>)
      returns (acquired: bool, ghost until: int, ghost es: seq<Event>)
      requires OnTime(t, start, config)
      modifies this, redis
      ensures acquired <==>
        !old(closed) && !t.lost && (old(redis.key).None? || old(redis.key).value.until <= t.setAt)
      ensures !acquired ==> cursor == old(cursor) && backlog == old(backlog) && steps == old(steps)
      ensures !old(closed) ==>
        Run(Before(start, old(redis.key), token), es, config)
        == After(if acquired then t.endedAt else t.answeredAt, redis.key, token)
      ensures acquired ==>
        && until == t.setAt + config.ttl && (LongEnough(config) ==> t.endedAt < until)
        && redis.key == (if t.released then None else Some(Lease(token, until)))
        && (if t.reconciled.Some? then (cursor, backlog) == t.reconciled.value
            else cursor == old(cursor) && backlog == old(backlog))
        && steps == (if t.reconciled.Some?
                     then AskAll(old(steps), t.asked, start + config.budget - ReleaseBudget(config)) else old(steps))
      ensures old(redis.key).Some? && old(redis.key).value.until > t.setAt ==> redis.key == old(redis.key)
      ensures old(closed) ==> !acquired && redis.key == old(redis.key)
      ensures closed == old(closed)
    {
      acquired, until, es := false, t.setAt + config.ttl, [];
      if closed {
        return;
      }
      var deadline := start + config.budget;
      ghost var key := redis.key;
      var ok := redis.SetNx(token, config.ttl, t.setAt);
      if t.lost || !ok {
        es := DeniedIsRun(start, key, token, t.setAt, t.answeredAt, config);
        return;
      }
      acquired := true;
      es := GrantedIsRun(start, key, token, t, config);
      var reconciliationBudget := deadline - t.answeredAt - ReleaseBudget(config);
      if reconciliationBudget > 0 && t.reconciled.Some? {
        cursor, backlog := t.reconciled.value.0, t.reconciled.value.1;
        RunAllSteps(t.asked, deadline - ReleaseBudget(config));
      }
      if t.released {
        redis.DeleteIfOwn(token);
      }
    }
  }
}
