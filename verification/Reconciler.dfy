/**
 * The stale-task reconciler as it runs: the store's transactions over history, assignment and observation rows, the
 * decision for one candidate with every await that may fail, and the loop over one page with its summary.
 */
module Reconciler {
  import opened Common
  import opened TaskHistory
  import opened TaskReasons
  import opened ScanCycle
  import opened TaskPass

  /** The candidate's row is still its task's last one in the scanned state, and its job assignment has not moved. */
  predicate StandsAsScanned(history: seq<Entry>, jobs: map<int, Option<nat>>, c: Candidate) {
    && c.history < |history| && history[c.history].task == c.task && history[c.history].state == c.state
    && (forall k :: c.history < k < |history| ==> history[k].task != c.task)
    && c.task in jobs && jobs[c.task] == c.job
  }

  function Row(c: Candidate, s: TaskState, pass: nat, orphan: bool): Entry {
    Entry(c.task, s, Writer.Reconciler(c.history, pass, orphan))
  }

  /** One more observation of the same row, or the first one. */
  function NextObservation(observations: map<int, Observation>, c: Candidate, now: int): Observation {
    if c.task in observations && observations[c.task].expected == c.history
    then Observation(c.history, observations[c.task].first, observations[c.task].observations + 1)
    else Observation(c.history, now, 1)
  }

  class TaskStore {
    var history: seq<Entry>
    var jobs: map<int, Option<nat>>
    var observations: map<int, Observation>
    ghost var log: seq<Fact>
    ghost var told: map<nat, Told>
    /** Numbers the passes. */
    var nextPass: nat

    constructor ()
      ensures AsWorld() == Start
    {
      history, jobs, observations, log, nextPass, told := [], map[], map[], [], 0, map[];
    }

    ghost function AsWorld(): World
      reads this
    {
      World(history, jobs, observations, map[], nextPass, log, told)
    }

    method RecordMissing(c: Candidate, observedAt: int, ghost pass: nat, ghost a: Answers) returns (o: Observation)
      modifies this`observations, this`log
      ensures AsWorld() == Record(old(AsWorld()), c, observedAt, pass, a)
      ensures observations == old(observations)[c.task := o] && o == NextObservation(old(observations), c, observedAt)
    {
      if c.task in observations && observations[c.task].expected == c.history {
        o := observations[c.task].(observations := observations[c.task].observations + 1);
      } else {
        o := Observation(c.history, observedAt, 1);
      }
      observations := observations[c.task := o];
      log := log + [Missing(c.task, c.history, observedAt, pass, a)];
    }

    method ClearMissing(task: int)
      modifies this`observations, this`log
      ensures AsWorld() == Clear(old(AsWorld()), task) && observations == old(observations) - {task}
    {
      observations := observations - {task};
      log := log + [Cleared(task)];
    }

    method OwnsJobAssignment(c: Candidate) returns (owns: bool)
      ensures owns <==> c.task in jobs && jobs[c.task] == c.job
    {
      owns := c.task in jobs && jobs[c.task] == c.job;
    }

    method FinalizeIfCurrent(c: Candidate, terminal: Terminal, pass: nat, orphan: bool) returns (changed: bool)
      modifies this`history, this`observations
      ensures AsWorld() == Finalize(old(AsWorld()), c, terminal, pass, orphan)
      ensures changed <==> StandsAsScanned(old(history), old(jobs), c)
      ensures history == if changed then old(history) + [Row(c, terminal, pass, orphan)] else old(history)
      ensures observations == if changed then old(observations) - {c.task} else old(observations)
    {
      FinalizesIff(AsWorld(), c, terminal, pass, orphan);
      var latest := Latest(history, c.task);
      changed := latest == Some(c.history) && history[c.history].state == c.state
                 && c.task in jobs && jobs[c.task] == c.job;
      if changed {
        history := history + [Entry(c.task, terminal, Writer.Reconciler(c.history, pass, orphan))];
        observations := observations - {c.task};
      }
    }
  }

  // ---------- awaits ----------

  /** Why an await rejected: the time budget, an abort from outside, or the operation's own error. */
  datatype Problem = DeadlineExceeded | Aborted | Failure

  /** A rejected operation may still have been committed. */
  datatype Await = Returns | Rejects(problem: Problem, committed: bool)

  predicate Happens(a: Await) { a.Returns? || a.committed }

  datatype Update = NotUpdated | Updated(historyPersisted: bool, eventPublished: bool)

  datatype Replacement = Replacement(
    awaiting: Await,
    awaitingDelivery: bool,
    prepare: Await,
    eligible: bool,
    reasoned: bool,
    handle: Await)

  /** What every await of one candidate comes to. */
  datatype Replies = Replies(
    answers: Answers,
    getTaskState: Await,
    getJob: Await,
    getState: Await,
    inspect: Await,
    clear: Await,
    record: Await,
    owns: Await,
    update: Await,
    updated: Update,
    persist: Await,
    eventPublished: bool,
    replacement: Option<Replacement>)

  datatype Summary = Summary(
    scanned: nat,
    stale: nat,
    live: nat,
    suspected: nat,
    recovered: nat,
    skipped: nat,
    errors: nat)
  {
    /** The candidates counted as handled one way or another. */
    function Settled(): nat { live + suspected + recovered + skipped }
  }

  /** The terminal state goes through the state manager, which persists it, and nothing is left but to clear. */
  predicate PersistsInRedis(r: Replies, current: Option<RedisState>) {
    current.Some? && Reconcilable(current.value.state)
    && r.update.Returns? && r.updated.Updated? && r.updated.historyPersisted
  }

  /** No await rejects, nothing is persisted through Redis alone, and no replacement defers the failure. */
  predicate Smooth(r: Replies) {
    && r.getTaskState.Returns? && r.getJob.Returns? && r.getState.Returns? && r.inspect.Returns? && r.clear.Returns?
    && r.record.Returns? && r.owns.Returns? && r.persist.Returns?
    && (r.answers.redis.Some? && Reconcilable(r.answers.redis.value.state) ==>
          r.update.Returns? && r.updated.Updated? && !r.updated.historyPersisted)
    && (r.replacement.Some? ==>
          && r.replacement.value.awaiting.Returns? && !r.replacement.value.awaitingDelivery
          && (r.replacement.value.prepare.Rejects? ==> r.replacement.value.prepare.problem == Failure))
  }

  /** Some await that can end the candidate rejects with this problem. */
  predicate RejectsWith(r: Replies, p: Problem) {
    || RejectsAs(r.getTaskState, p) || RejectsAs(r.getJob, p) || RejectsAs(r.getState, p) || RejectsAs(r.inspect, p)
    || RejectsAs(r.clear, p) || RejectsAs(r.record, p) || RejectsAs(r.owns, p) || RejectsAs(r.persist, p)
    || (r.answers.redis.Some? && Reconcilable(r.answers.redis.value.state) && RejectsAs(r.update, p))
    || (r.replacement.Some?
        && (RejectsAs(r.replacement.value.awaiting, p)
            || (p != Failure && RejectsAs(r.replacement.value.prepare, p))
            || (p == Aborted && RejectsAs(r.replacement.value.handle, p))))
  }

  predicate RejectsAs(a: Await, p: Problem) { a.Rejects? && a.problem == p }

  // ---------- what a pass does to the rows and to the summary ----------

  datatype View = View(
    history: seq<Entry>,
    jobs: map<int, Option<nat>>,
    observations: map<int, Observation>,
    summary: Summary)

  /** No row is written, and once everything was `answered` the evidence is forgotten and the task counted as live. */
  predicate LeavesLive(c: Candidate, answered: bool, v: View, v': View, done: Result<(), Problem>) {
    && v'.history == v.history
    && (answered ==>
          && done.Ok?
          && v' == v.(observations := v.observations - {c.task}, summary := v.summary.(live := v.summary.live + 1)))
  }

  /** Nothing is written, and once everything was `answered` the summary is `counted`. */
  predicate LeavesAlone(answered: bool, counted: Summary, v: View, v': View, done: Result<(), Problem>) {
    v' == v.(summary := v'.summary) && (answered ==> done.Ok? && v'.summary == counted)
  }

  /**
   * At most this one row is written, and only onto a row that stands as scanned; nothing standing in the way, it is
   * written then, the evidence is gone and the task counted as recovered.
   */
  predicate Ends(c: Candidate, s: TaskState, pass: nat, orphan: bool, smooth: bool, v: View, v': View) {
    var stands := StandsAsScanned(v.history, v.jobs, c);
    && (v'.history == v.history || (stands && v'.history == v.history + [Row(c, s, pass, orphan)]))
    && (smooth ==>
          && v'.summary.recovered == v.summary.recovered + (if stands then 1 else 0)
          && (stands ==> v'.history != v.history && c.task !in v'.observations))
  }

  /** The task is recorded as missing, and failed once it was so twice and for the grace period. */
  predicate Misses(c: Candidate, now: int, pass: nat, graceMs: int, smooth: bool, v: View, v': View) {
    var o := NextObservation(v.observations, c, now);
    if o.observations >= 2 && o.first <= now && now - o.first >= graceMs then Ends(c, Failed, pass, true, smooth, v, v')
    else
      && v'.history == v.history
      && (smooth ==> v' == v.(observations := v.observations[c.task := o],
                              summary := v.summary.(suspected := v.summary.suspected + 1)))
  }

  /** What a pass over a candidate without a job may do, by what the container inspection and Redis say. */
  predicate FollowsContainer(t: Told, r: Replies, pass: nat, limits: Limits, answered: bool, v: View, v': View,
                             done: Result<(), Problem>)
  {
    var inspected := answered && r.inspect.Returns?;
    match t.answers.container
    case Running => LeavesLive(t.c, inspected && r.clear.Returns?, v, v', done)
    case LivenessUnavailable => LeavesAlone(inspected, v.summary.(errors := v.summary.errors + 1), v, v', done)
    case NotFound =>
      if t.c.job.Some? || t.c.linked || (t.answers.redis.None? && t.now - t.c.updatedAt >= 604_800_000)
      then Misses(t.c, t.now, pass, limits.graceMs, Smooth(r), v, v')
      else LeavesAlone(inspected, v.summary.(skipped := v.summary.skipped + 1), v, v', done)
  }

  /** What it may do by what the queue says. */
  predicate FollowsQueue(t: Told, r: Replies, pass: nat, limits: Limits, answered: bool, v: View, v': View,
                         done: Result<(), Problem>)
  {
    var asked := answered && r.getState.Returns?;
    match t.answers.job
    case NoJob => FollowsContainer(t, r, pass, limits, answered, v, v', done)
    case LiveJob => LeavesLive(t.c, asked && r.clear.Returns?, v, v', done)
    case CompletedJob(outcome) => Ends(t.c, outcome, pass, false, Smooth(r), v, v')
    case FailedJob => Ends(t.c, Failed, pass, false, Smooth(r), v, v')
    case UnknownJob => LeavesAlone(asked, v.summary.(skipped := v.summary.skipped + 1), v, v', done)
  }

  /** What it may do once it is old enough: Redis decides first, then the queue. */
  predicate FollowsRedis(t: Told, r: Replies, pass: nat, limits: Limits, v: View, v': View, done: Result<(), Problem>)
  {
    var read := r.getTaskState.Returns?;
    if AliveInRedis(t.answers.redis, t.now, limits) then LeavesLive(t.c, read && r.clear.Returns?, v, v', done)
    else if t.answers.redis.Some? && t.answers.redis.value.state in {Completed, Failed, Cancelled} then
      Ends(t.c, t.answers.redis.value.state, pass, false, Smooth(r), v, v')
    else FollowsQueue(t, r, pass, limits, read && r.getJob.Returns?, v, v', done)
  }

  /** What one candidate comes to: its age decides first. */
  predicate Follows(t: Told, r: Replies, pass: nat, limits: Limits, v: View, v': View, done: Result<(), Problem>) {
    if t.c.updatedAt > t.now || t.now - t.c.updatedAt < limits.staleMs then
      LeavesAlone(true, v.summary.(skipped := v.summary.skipped + 1), v, v', done)
    else
      FollowsRedis(t, r, pass, limits, v.(summary := v.summary.(stale := v.summary.stale + 1)), v', done)
  }

  /** The calls around the failure of an orphan, in the order they are made. */
  datatype OrphanCall = AwaitingDelivery | Prepare | FinalizeCall | Complete | Withdraw

  class ReconciliationRun {
    const store: TaskStore
    const now: int
    const limits: Limits
    var summary: Summary

    constructor (store: TaskStore, now: int, limits: Limits)
      ensures this.store == store && this.now == now && this.limits == limits
      ensures summary == Summary(0, 0, 0, 0, 0, 0, 0)
    {
      this.store, this.now, this.limits := store, now, limits;
      summary := Summary(0, 0, 0, 0, 0, 0, 0);
    }

    ghost function Seen(): View
      reads this, store
    {
      View(store.history, store.jobs, store.observations, summary)
    }

    /** Forgets what was recorded about the task; the caller counts. */
    method ClearMissing(c: Candidate, clear: Await) returns (r: Result<(), Problem>)
      modifies store`observations, store`log
      ensures store.AsWorld() == if Happens(clear) then Clear(old(store.AsWorld()), c.task) else old(store.AsWorld())
      ensures store.observations == old(store.observations) - if Happens(clear) then {c.task} else {}
      ensures r == if clear.Returns? then Ok(()) else Err(clear.problem)
    {
      if Happens(clear) {
        store.ClearMissing(c.task);
      }
      return if clear.Returns? then Ok(()) else Err(clear.problem);
    }

    /**
     * Settles the candidate through Redis or by compare-and-set. Counts recovered or skipped exactly once, and nothing
     * at all when an await rejects; `g` is how far it got.
     */
    method FinalizeCandidate(c: Candidate, terminal: Terminal, current: Option<RedisState>, pass: nat, orphan: bool,
                             r: Replies)
      returns (moved: Result<bool, Problem>, ghost g: Progress)
      modifies this`summary, store`history, store`observations, store`log
      ensures store.AsWorld() == Settled(old(store.AsWorld()), c, terminal, pass, orphan, g) && g != Recorded
      ensures g == ViaRedis ==> PersistsInRedis(r, current)
      ensures moved.Err? ==> summary == old(summary) && (current == r.answers.redis ==> RejectsWith(r, moved.error))
      ensures moved.Ok? && !moved.value ==>
        summary == old(summary).(skipped := old(summary).skipped + 1) && store.AsWorld() == old(store.AsWorld())
      ensures moved.Ok? && moved.value ==>
        && summary.(errors := 0) == old(summary).(recovered := old(summary).recovered + 1, errors := 0)
        && summary.errors >= old(summary).errors && c.task !in store.observations
        && (g == ViaRedis || (g == Done && StandsAsScanned(old(store.history), store.jobs, c)))
      ensures current == r.answers.redis && Smooth(r) ==> g == Done && moved.Ok?
      ensures moved == Ok(true) ==>
        summary.errors == old(summary).errors
                          + if if g == ViaRedis then r.updated.eventPublished else r.eventPublished then 0 else 1
      ensures r.owns.Returns? && !(c.task in store.jobs && store.jobs[c.task] == c.job) ==> moved == Ok(false)
      ensures r.owns.Returns? && c.task in store.jobs && store.jobs[c.task] == c.job
              && current.Some? && Reconcilable(current.value.state) && r.update.Returns? ==>
        && (r.updated.NotUpdated? ==> moved == Ok(false))
        && (r.updated.Updated? && r.updated.historyPersisted && r.clear.Returns? ==> g == ViaRedis && moved == Ok(true))
    {
      g := Stopped;
      if r.owns.Rejects? {
        return Err(r.owns.problem), g;
      }
      var owns := store.OwnsJobAssignment(c);
      if !owns {
        summary := summary.(skipped := summary.skipped + 1);
        return Ok(false), Done;
      }
      if current.Some? && Reconcilable(current.value.state) {
        if r.update.Rejects? {
          return Err(r.update.problem), g;
        }
        if r.updated.NotUpdated? {
          summary := summary.(skipped := summary.skipped + 1);
          return Ok(false), g;
        }
        if r.updated.historyPersisted {
          var cleared := ClearMissing(c, r.clear);
          g := if Happens(r.clear) then ViaRedis else Stopped;
          if cleared.Err? {
            return Err(cleared.error), g;
          }
          summary := summary.(recovered := summary.recovered + 1);
          if !r.updated.eventPublished {
            summary := summary.(errors := summary.errors + 1);
          }
          return Ok(true), g;
        }
      }
      moved, g := PersistCandidate(c, terminal, pass, orphan, r);
    }

    /** The compare-and-set on the history, and its count. */
    method PersistCandidate(c: Candidate, terminal: Terminal, pass: nat, orphan: bool, r: Replies)
      returns (moved: Result<bool, Problem>, ghost g: Progress)
      modifies this`summary, store`history, store`observations
      ensures store.AsWorld() == Settled(old(store.AsWorld()), c, terminal, pass, orphan, g) && g in {Stopped, Done}
      ensures moved.Err? ==> summary == old(summary) && RejectsAs(r.persist, moved.error)
      ensures moved.Ok? && !moved.value ==>
        summary == old(summary).(skipped := old(summary).skipped + 1) && store.AsWorld() == old(store.AsWorld())
      ensures moved.Ok? && moved.value ==>
        && summary.(errors := 0) == old(summary).(recovered := old(summary).recovered + 1, errors := 0)
        && summary.errors == old(summary).errors + (if r.eventPublished then 0 else 1)
        && c.task !in store.observations && StandsAsScanned(old(store.history), store.jobs, c)
      ensures moved.Ok? ==> g == Done
      ensures r.persist.Returns? ==> moved.Ok?
    {
      if r.persist.Rejects? && !r.persist.committed {
        return Err(r.persist.problem), Stopped;
      }
      var changed := store.FinalizeIfCurrent(c, terminal, pass, orphan);
      g := Done;
      if r.persist.Rejects? {
        return Err(r.persist.problem), g;
      }
      if changed {
        summary := summary.(recovered := summary.recovered + 1);
        if !r.eventPublished {
          summary := summary.(errors := summary.errors + 1);
        }
        return Ok(true), g;
      }
      summary := summary.(skipped := summary.skipped + 1);
      return Ok(false), g;
    }

    /** A replacement that waits for its delivery defers the failure; one that cannot be prepared does not. */
    method PrepareReplacement(handler: Replacement)
      returns (prepared: Result<bool, Problem>, deferred: bool, ghost calls: seq<OrphanCall>)
      ensures deferred <==> handler.awaiting.Returns? && handler.awaitingDelivery
      ensures handler.awaiting.Rejects? ==> prepared == Err(handler.awaiting.problem)
      ensures handler.awaiting.Returns? && !deferred ==>
        prepared == if handler.prepare.Rejects? && handler.prepare.problem != Failure
                    then Err(handler.prepare.problem) else Ok(handler.prepare.Returns?)
      ensures deferred ==> prepared.Ok?
      ensures calls == [AwaitingDelivery] + if handler.awaiting.Rejects? || deferred then [] else [Prepare]
    {
      calls := [AwaitingDelivery];
      if handler.awaiting.Rejects? {
        return Err(handler.awaiting.problem), false, calls;
      }
      if handler.awaitingDelivery {
        return Ok(false), true, calls;
      }
      calls := [AwaitingDelivery, Prepare];
      if handler.prepare.Rejects? && handler.prepare.problem != Failure {
        return Err(handler.prepare.problem), false, calls;
      }
      return Ok(handler.prepare.Returns?), false, calls;
    }

    /**
     * Fails the orphan between preparing its replacement and completing or withdrawing it. `calls` are the handler
     * calls made: the failure is written only after the decision was prepared, completed only after this run moved the
     * task, and withdrawn only when it did not.
     */
    method FinalizeOrphan(c: Candidate, current: Option<RedisState>, pass: nat, r: Replies)
      returns (done: Result<(), Problem>, ghost g: Progress, ghost calls: seq<OrphanCall>)
      modifies this`summary, store`history, store`observations, store`log
      ensures store.AsWorld() == Settled(old(store.AsWorld()), c, Failed, pass, true, g) && g != Recorded
      ensures done.Ok? ==> Handled(old(summary), summary)
      ensures done.Err? && done.error != Aborted ==> Untouched(old(summary), summary)
      ensures done.Err? && current == r.answers.redis ==> RejectsWith(r, done.error)
      ensures r.replacement.None? ==> calls == [FinalizeCall]
      ensures r.replacement.Some? ==>
        || calls == [AwaitingDelivery] || calls == [AwaitingDelivery, Prepare]
        || calls == [AwaitingDelivery, Prepare, FinalizeCall]
        || (calls == [AwaitingDelivery, Prepare, FinalizeCall, Complete] && store.AsWorld() != old(store.AsWorld()))
        || (calls == [AwaitingDelivery, Prepare, FinalizeCall, Withdraw] && store.AsWorld() == old(store.AsWorld()))
      ensures FinalizeCall !in calls ==> store.AsWorld() == old(store.AsWorld())
      ensures r.replacement.Some? && summary.recovered > old(summary).recovered ==> Complete in calls
      ensures r.replacement.Some? && r.replacement.value.awaiting.Returns? && r.replacement.value.awaitingDelivery ==>
        done == Ok(()) && summary == old(summary).(skipped := old(summary).skipped + 1) && calls == [AwaitingDelivery]
      ensures r.replacement.Some? && r.replacement.value.awaiting.Returns? && !r.replacement.value.awaitingDelivery ==>
        && (r.replacement.value.prepare.Returns? || r.replacement.value.prepare.problem == Failure ==>
              FinalizeCall in calls)
        && (summary.skipped > old(summary).skipped ==>
              (Withdraw in calls <==> r.replacement.value.prepare.Returns?
                                      && (r.replacement.value.eligible || r.replacement.value.reasoned)))
      ensures current == r.answers.redis && Smooth(r) ==> g == Done
      ensures Ends(c, Failed, pass, true, current == r.answers.redis && Smooth(r), old(Seen()), Seen())
      ensures summary.stale == old(summary).stale
    {
      g, calls := Stopped, [];
      var prepared := false;
      if r.replacement.Some? {
        var ready, deferred;
        ready, deferred, calls := PrepareReplacement(r.replacement.value);
        if ready.Err? {
          return Err(ready.error), g, calls;
        }
        if deferred {
          summary := summary.(skipped := summary.skipped + 1);
          return Ok(()), g, calls;
        }
        prepared := ready.value;
      }
      ghost var last;
      done, g, last := FailOrphan(c, current, pass, prepared, r);
      calls := calls + [FinalizeCall] + last;
    }

    /** The failure itself and the `last` handler call, if one is made after it. */
    method FailOrphan(c: Candidate, current: Option<RedisState>, pass: nat, prepared: bool, r: Replies)
      returns (done: Result<(), Problem>, ghost g: Progress, ghost last: seq<OrphanCall>)
      modifies this`summary, store`history, store`observations, store`log
      ensures store.AsWorld() == Settled(old(store.AsWorld()), c, Failed, pass, true, g) && g != Recorded
      ensures done.Ok? ==> Handled(old(summary), summary)
      ensures done.Err? && done.error != Aborted ==> Untouched(old(summary), summary)
      ensures done.Err? && current == r.answers.redis ==> RejectsWith(r, done.error)
      ensures last in {[], [Complete], [Withdraw]} && (r.replacement.None? ==> last == [])
      ensures last == [Complete] ==> store.AsWorld() != old(store.AsWorld())
      ensures last == [Withdraw] ==> store.AsWorld() == old(store.AsWorld())
      ensures r.replacement.Some? && summary.skipped > old(summary).skipped ==>
        (last == [Withdraw] <==> prepared && (r.replacement.value.eligible || r.replacement.value.reasoned))
      ensures r.replacement.Some? && summary.recovered > old(summary).recovered ==> last == [Complete]
      ensures current == r.answers.redis && Smooth(r) ==> g == Done
      ensures Ends(c, Failed, pass, true, current == r.answers.redis && Smooth(r), old(Seen()), Seen())
      ensures summary.stale == old(summary).stale
    {
      last := [];
      var finalized;
      ghost var w, v := store.AsWorld(), Seen();
      finalized, g := FinalizeCandidate(c, Failed, current, pass, true, r);
      SettledEnds(w, c, Failed, pass, true, g, finalized, current == r.answers.redis && Smooth(r), v, Seen());
      if finalized.Err? {
        return Err(finalized.error), g, last;
      }
      if r.replacement.None? {
        return Ok(()), g, last;
      }
      var handler := r.replacement.value;
      var pending := !finalized.value && prepared && (handler.eligible || handler.reasoned);
      if !finalized.value && !pending {
        return Ok(()), g, last;
      }
      last := [if pending then Withdraw else Complete];
      done := HandleReplacement(handler);
    }

    /** The handler fails the candidate only if it was aborted; any other failure is counted. */
    method HandleReplacement(handler: Replacement) returns (done: Result<(), Problem>)
      modifies this`summary
      ensures done == if RejectsAs(handler.handle, Aborted) then Err(Aborted) else Ok(())
      ensures summary == old(summary).(errors := summary.errors)
      ensures summary.errors ==
        old(summary).errors + if handler.handle.Rejects? && handler.handle.problem != Aborted then 1 else 0
    {
      if handler.handle.Rejects? {
        if handler.handle.problem == Aborted {
          return Err(Aborted);
        }
        summary := summary.(errors := summary.errors + 1);
      }
      return Ok(());
    }

    /** Redis or the queue knows how the task ended. */
    method FinalizeEnded(c: Candidate, s: Terminal, r: Replies) returns (done: Result<(), Problem>, ghost g: Progress)
      requires Decide(c, now, r.answers, limits) == Settle(s)
      modifies this`summary, store`history, store`observations, store`log
      ensures store.AsWorld() == AfterPass(old(store.AsWorld()), c, now, r.answers, limits, g)
      ensures Smooth(r) ==> g == Done
      ensures done.Ok? ==> Handled(old(summary), summary)
      ensures done.Err? && done.error != Aborted ==> Untouched(old(summary), summary)
      ensures done.Err? ==> RejectsWith(r, done.error)
      ensures Ends(c, s, store.nextPass, false, Smooth(r), old(Seen()), Seen())
    {
      ghost var w, v := store.AsWorld(), Seen();
      var moved;
      moved, g := FinalizeCandidate(c, s, r.answers.redis, store.nextPass, false, r);
      SettledEnds(w, c, s, store.nextPass, false, g, moved, Smooth(r), v, Seen());
      done := if moved.Ok? then Ok(()) else Err(moved.error);
    }

    /** No job was found: ask for a container, then record the task as missing, and fail it on repeated evidence. */
    method ReconcileMissingJob(c: Candidate, r: Replies) returns (done: Result<(), Problem>, ghost g: Progress)
      requires Overdue(c, now, limits) && SilentInRedis(r.answers.redis, now, limits) && r.answers.job.NoJob?
      modifies this`summary, store`history, store`observations, store`log
      ensures store.AsWorld() == AfterPass(old(store.AsWorld()), c, now, r.answers, limits, g)
      ensures Smooth(r) ==> g == Done
      ensures done.Ok? ==> Handled(old(summary), summary)
      ensures done.Err? && done.error != Aborted ==> Untouched(old(summary), summary)
      ensures done.Err? ==> RejectsWith(r, done.error)
      ensures FollowsContainer(Told(c, now, r.answers), r, store.nextPass, limits, true, old(Seen()), Seen(), done)
    {
      g := Stopped;
      DecidedByJob(c, now, r.answers, limits);
      if r.inspect.Rejects? {
        return Err(r.inspect.problem), g;
      }
      if r.answers.container.Running? {
        done := ClearMissing(c, r.clear);
        if done.Ok? {
          summary := summary.(live := summary.live + 1);
        }
        return done, if Happens(r.clear) then Done else Stopped;
      }
      if r.answers.container.LivenessUnavailable? {
        summary := summary.(errors := summary.errors + 1);
        return Ok(()), Done;
      }
      if r.answers.redis.Some? && c.job.None? && !c.linked {
        summary := summary.(skipped := summary.skipped + 1);
        return Ok(()), Done;
      }
      var age := AgeMs(c.updatedAt, now);
      if c.job.None? && !c.linked && (age.None? || age.value < LEGACY_UNLINKED_TASK_MIN_AGE_MS) {
        summary := summary.(skipped := summary.skipped + 1);
        return Ok(()), Done;
      }
      done, g := ReconcileVanished(c, r);
    }

    /** Nothing is left of the task: record it as missing, and fail it on repeated evidence. */
    method ReconcileVanished(c: Candidate, r: Replies) returns (done: Result<(), Problem>, ghost g: Progress)
      requires Vanished(Told(c, now, r.answers), limits)
      modifies this`summary, store`history, store`observations, store`log
      ensures store.AsWorld() == AfterPass(old(store.AsWorld()), c, now, r.answers, limits, g)
      ensures Smooth(r) ==> g == Done
      ensures done.Ok? ==> Handled(old(summary), summary)
      ensures done.Err? && done.error != Aborted ==> Untouched(old(summary), summary)
      ensures done.Err? ==> RejectsWith(r, done.error)
      ensures Misses(c, now, store.nextPass, limits.graceMs, Smooth(r), old(Seen()), Seen())
    {
      g := Stopped;
      DecidedByJob(c, now, r.answers, limits);
      if r.record.Rejects? && !r.record.committed {
        return Err(r.record.problem), g;
      }
      var observation := store.RecordMissing(c, now, store.nextPass, r.answers);
      g := Recorded;
      if r.record.Rejects? {
        return Err(r.record.problem), g;
      }
      var observationAge := AgeMs(observation.first, now);
      if observation.observations < 2 || observationAge.None? || observationAge.value < limits.graceMs {
        summary := summary.(suspected := summary.suspected + 1);
        return Ok(()), Done;
      }
      ghost var how, calls;
      done, how, calls := FinalizeOrphan(c, r.answers.redis, store.nextPass, r);
      g := if how == Stopped then Recorded else how;
    }

    /** The queue still knows the job: live jobs clear the evidence, finished ones settle the candidate. */
    method ReconcileQueueJob(c: Candidate, r: Replies) returns (done: Result<(), Problem>, ghost g: Progress)
      requires Overdue(c, now, limits) && SilentInRedis(r.answers.redis, now, limits) && !r.answers.job.NoJob?
      modifies this`summary, store`history, store`observations, store`log
      ensures store.AsWorld() == AfterPass(old(store.AsWorld()), c, now, r.answers, limits, g)
      ensures Smooth(r) ==> g == Done
      ensures done.Ok? ==> Handled(old(summary), summary)
      ensures done.Err? && done.error != Aborted ==> Untouched(old(summary), summary)
      ensures done.Err? ==> RejectsWith(r, done.error)
      ensures FollowsQueue(Told(c, now, r.answers), r, store.nextPass, limits, true, old(Seen()), Seen(), done)
    {
      g := Stopped;
      DecidedByJob(c, now, r.answers, limits);
      if r.getState.Rejects? {
        return Err(r.getState.problem), g;
      }
      if r.answers.job.LiveJob? {
        done := ClearMissing(c, r.clear);
        if done.Ok? {
          summary := summary.(live := summary.live + 1);
        }
        return done, if Happens(r.clear) then Done else Stopped;
      }
      if r.answers.job.CompletedJob? {
        done, g := FinalizeEnded(c, r.answers.job.outcome, r);
        return;
      }
      if r.answers.job.FailedJob? {
        done, g := FinalizeEnded(c, Failed, r);
        return;
      }
      summary := summary.(skipped := summary.skipped + 1);
      return Ok(()), Done;
    }

    /** The branches of one candidate, without the number of its pass. */
    method ReconcileBranches(c: Candidate, r: Replies) returns (done: Result<(), Problem>, ghost g: Progress)
      modifies this`summary, store`history, store`observations, store`log
      ensures store.AsWorld() == AfterPass(old(store.AsWorld()), c, now, r.answers, limits, g)
      ensures Smooth(r) ==> g == Done
      ensures done.Ok? ==> Handled(old(summary), summary)
      ensures done.Err? && done.error != Aborted ==> Untouched(old(summary), summary)
      ensures done.Err? ==> RejectsWith(r, done.error)
      ensures Follows(Told(c, now, r.answers), r, store.nextPass, limits, old(Seen()), Seen(), done)
    {
      g := Stopped;
      var age := AgeMs(c.updatedAt, now);
      if age.None? || age.value < limits.staleMs {
        summary := summary.(skipped := summary.skipped + 1);
        return Ok(()), Done;
      }
      summary := summary.(stale := summary.stale + 1);
      done, g := ReconcileOverdue(c, r);
    }

    /** A candidate that is old enough: Redis first, then the queue. */
    method ReconcileOverdue(c: Candidate, r: Replies) returns (done: Result<(), Problem>, ghost g: Progress)
      requires Overdue(c, now, limits)
      modifies this`summary, store`history, store`observations, store`log
      ensures store.AsWorld() == AfterPass(old(store.AsWorld()), c, now, r.answers, limits, g)
      ensures Smooth(r) ==> g == Done
      ensures done.Ok? ==> Handled(old(summary), summary)
      ensures done.Err? && done.error != Aborted ==> Untouched(old(summary), summary)
      ensures done.Err? ==> RejectsWith(r, done.error)
      ensures FollowsRedis(Told(c, now, r.answers), r, store.nextPass, limits, old(Seen()), Seen(), done)
    {
      g := Stopped;
      if r.getTaskState.Rejects? {
        return Err(r.getTaskState.problem), g;
      }
      var current := r.answers.redis;
      if current.Some? && !Reconcilable(current.value.state) {
        assert Decide(c, now, r.answers, limits).Settle?;
        done, g := FinalizeEnded(c, current.value.state, r);
        return;
      }
      var redisAge := if current.Some? then AgeMs(current.value.updatedAt, now) else None;
      if redisAge.Some? && redisAge.value < limits.staleMs {
        assert Decide(c, now, r.answers, limits).SeenLive?;
        done := ClearMissing(c, r.clear);
        if done.Ok? {
          summary := summary.(live := summary.live + 1);
        }
        return done, if Happens(r.clear) then Done else Stopped;
      }
      if r.getJob.Rejects? {
        return Err(r.getJob.problem), g;
      }
      DecidedByJob(c, now, r.answers, limits);
      if !r.answers.job.NoJob? {
        done, g := ReconcileQueueJob(c, r);
      } else {
        done, g := ReconcileMissingJob(c, r);
      }
    }

    /**
     * One candidate. Whatever its awaits come to, what it commits is a run `es` of the protocol; if none stands in its
     * way it is the whole undisturbed pass. At most one of the four outcomes is counted, and at least that or an error
     * unless an await rejects.
     */
    method ReconcileCandidate(c: Candidate, r: Replies) returns (done: Result<(), Problem>, ghost es: seq<Event>)
      modifies this`summary, store
      ensures store.AsWorld() == Run(old(store.AsWorld()), es, limits)
      ensures Smooth(r) ==> es == PassOf(c, r, now, old(store.nextPass))
      ensures done.Ok? ==> Handled(old(summary), summary)
      ensures done.Err? && done.error != Aborted ==> Untouched(old(summary), summary)
      ensures done.Err? ==> RejectsWith(r, done.error)
      ensures Smooth(r) && done.Err? ==> done.error == Aborted
      ensures store.nextPass == old(store.nextPass) + 1
      ensures Follows(Told(c, now, r.answers), r, old(store.nextPass), limits, old(Seen()), Seen(), done)
    {
      ghost var w := store.AsWorld();
      ghost var g;
      done, g := ReconcileBranches(c, r);
      es := ResultIsRun(w, c, now, r.answers, limits, g);
      store.told := store.told[store.nextPass := Told(c, now, r.answers)];
      store.nextPass := store.nextPass + 1;
    }

    /**
     * One candidate of a page, with what it throws: an ordinary failure is counted, while the deadline and an abort
     * from outside end the page.
     */
    method TryCandidate(c: Candidate, r: Replies) returns (thrown: Option<Problem>, ghost es: seq<Event>)
      modifies this`summary, store
      ensures store.AsWorld() == Run(old(store.AsWorld()), es, limits) && store.nextPass == old(store.nextPass) + 1
      ensures Smooth(r) ==> es == PassOf(c, r, now, old(store.nextPass)) && thrown != Some(DeadlineExceeded)
      ensures thrown.Some? ==> RejectsWith(r, thrown.value) && thrown.value in {DeadlineExceeded, Aborted}
      ensures thrown.None? ==> Handled(old(summary), summary)
      ensures thrown == Some(DeadlineExceeded) ==> Untouched(old(summary), summary)
    {
      var done;
      done, es := ReconcileCandidate(c, r);
      if done.Err? && done.error != Failure {
        return Some(done.error), es;
      }
      if done.Err? {
        summary := summary.(errors := summary.errors + 1);
      }
      thrown := None;
    }

    /** The candidates of one page up to the deadline, or up to an abort, which is `thrown`. */
    method ReconcilePage(tasks: seq<Candidate>, replies: nat -> Replies, late: nat -> bool)
      returns (thrown: bool, backlogStart: nat, ghost es: seq<Event>)
      requires summary == Summary(|tasks|, 0, 0, 0, 0, 0, 0)
      modifies this`summary, store
      ensures store.AsWorld() == Run(old(store.AsWorld()), es, limits)
      ensures backlogStart <= |tasks| && forall i :: 0 <= i < backlogStart ==> !late(i)
      ensures !thrown ==> summary.scanned == |tasks|
      ensures !thrown ==> summary.Settled() <= backlogStart <= summary.Settled() + summary.errors
      ensures !thrown && backlogStart < |tasks| ==>
        late(backlogStart) || RejectsWith(replies(backlogStart), DeadlineExceeded)
      ensures !thrown && AllSmooth(|tasks|, replies) ==>
        es == Passes(tasks[..backlogStart], replies, now, old(store.nextPass))
      ensures thrown ==>
        backlogStart < |tasks| && !late(backlogStart) && RejectsWith(replies(backlogStart), Aborted)
    {
      es := [];
      backlogStart := 0;
      while backlogStart < |tasks| && !late(backlogStart)
        invariant backlogStart <= |tasks| && forall i :: 0 <= i < backlogStart ==> !late(i)
        invariant summary.scanned == |tasks|
        invariant summary.Settled() <= backlogStart <= summary.Settled() + summary.errors
        invariant store.AsWorld() == Run(old(store.AsWorld()), es, limits)
        invariant store.nextPass == old(store.nextPass) + backlogStart
        invariant AllSmooth(|tasks|, replies) ==>
          es == Passes(tasks[..backlogStart], replies, now, old(store.nextPass))
      {
        ghost var more;
        var problem;
        problem, more := TryCandidate(tasks[backlogStart], replies(backlogStart));
        RunAppend(old(store.AsWorld()), es, more, limits);
        OneMorePass(tasks, backlogStart, replies, now, old(store.nextPass), es, more);
        es := es + more;
        if problem.Some? {
          return problem == Some(Aborted), backlogStart, es;
        }
        backlogStart := backlogStart + 1;
      }
      thrown := false;
    }

    /**
     * One call over a page: it stops at the deadline and hands back the rest. What it commits is a run `es` of the
     * protocol, so every theorem about runs holds of the store; with nothing in its way it is one whole pass after the
     * other. Every candidate before the cut is counted as settled at most once, and as settled or in error at least
     * once. The page is cut only where it is late or an await meets the deadline, and fails only with the scan or an
     * abort.
     */
    method ReconcileStaleTaskStates(ts: seq<Candidate>, cursor: int, count: nat, backlog: seq<Candidate>, scan: Await,
                                    replies: nat -> Replies, late: nat -> bool)
      returns (result: Result<(int, seq<Candidate>), Problem>, cut: nat, ghost es: seq<Event>)
      modifies this`summary, store
      ensures store.AsWorld() == Run(old(store.AsWorld()), es, limits)
      ensures var page := PageFor(ts, count, cursor, backlog);
        result.Ok? ==>
          && cut <= |page.tasks| && result.value == (page.nextCursor, page.tasks[cut..])
          && summary.scanned == |page.tasks|
          && summary.Settled() <= summary.scanned - |result.value.1| <= summary.Settled() + summary.errors
      ensures result.Ok? ==> forall current, cycles ::
        var s := Call(ts, count, Scan(cursor, backlog, current, cycles), cut);
        s.cursor == result.value.0 && s.backlog == result.value.1
      ensures var page := PageFor(ts, count, cursor, backlog);
        result.Ok? ==>
          && (forall i :: 0 <= i < cut ==> !late(i))
          && (cut < |page.tasks| ==> late(cut) || RejectsWith(replies(cut), DeadlineExceeded))
          && (AllSmooth(|page.tasks|, replies) ==>
                es == Passes(page.tasks[..cut], replies, now, old(store.nextPass)))
      ensures result.Err? ==>
        if backlog == [] && scan.Rejects? then result.error == scan.problem && es == []
        else result.error == Aborted && cut < |PageFor(ts, count, cursor, backlog).tasks|
             && !late(cut) && RejectsWith(replies(cut), Aborted)
    {
      cut, es := 0, [];
      if backlog == [] && scan.Rejects? {
        return Err(scan.problem), cut, es;
      }
      var page := if backlog != [] then Page(backlog, cursor) else ScanPage(ts, cursor, count);
      summary := Summary(|page.tasks|, 0, 0, 0, 0, 0, 0);
      var thrown;
      thrown, cut, es := ReconcilePage(page.tasks, replies, late);
      if thrown {
        return Err(Aborted), cut, es;
      }
      return Ok((page.nextCursor, page.tasks[cut..])), cut, es;
    }
  }

  /** Nothing stands in the way of the first `n` candidates. */
  ghost predicate AllSmooth(n: nat, replies: nat -> Replies) { forall i: nat :: i < n ==> Smooth(replies(i)) }

  /** One undisturbed pass. */
  function PassOf(c: Candidate, r: Replies, now: int, p: nat): seq<Event> {
    [Begin(c, now), Probe(p, r.answers), Proceed(p), Proceed(p)]
  }

  /** One undisturbed pass after the other over these candidates, numbered from `first` on. */
  function Passes(cs: seq<Candidate>, replies: nat -> Replies, now: int, first: nat): seq<Event> {
    if cs == [] then []
    else
      var i := |cs| - 1;
      Passes(cs[..i], replies, now, first) + PassOf(cs[i], replies(i), now, first + i)
  }

  lemma OneMorePass(cs: seq<Candidate>, i: nat, replies: nat -> Replies, now: int, first: nat, es: seq<Event>,
                    more: seq<Event>)
    requires i < |cs|
    requires AllSmooth(|cs|, replies) ==> es == Passes(cs[..i], replies, now, first)
    requires Smooth(replies(i)) ==> more == PassOf(cs[i], replies(i), now, first + i)
    ensures AllSmooth(|cs|, replies) ==> es + more == Passes(cs[..i + 1], replies, now, first)
  {
    assert cs[..i + 1][..i] == cs[..i];
  }

  /** What a settled candidate looks like from outside. */
  lemma SettledEnds(w: World, c: Candidate, s: Terminal, pass: nat, orphan: bool, g: Progress,
                    moved: Result<bool, Problem>, smooth: bool, v: View, v': View)
    requires v == View(w.history, w.jobs, w.observations, v.summary) && g != Recorded
    requires var w' := Settled(w, c, s, pass, orphan, g);
      && v'.history == w'.history && v'.observations == w'.observations
      && (moved.Ok? && !moved.value ==> w' == w)
    requires moved.Ok? && moved.value ==> g == ViaRedis || StandsAsScanned(w.history, w.jobs, c)
    requires moved.Ok? ==> v'.summary.recovered == v.summary.recovered + if moved.value then 1 else 0
    requires smooth ==> g == Done && moved.Ok?
    ensures Ends(c, s, pass, orphan, smooth, v, v')
  {
    FinalizesIff(w, c, s, pass, orphan);
  }

  /** Where neither age nor Redis decides, the job does, and without one the container. */
  lemma DecidedByJob(c: Candidate, now: int, a: Answers, limits: Limits)
    requires Overdue(c, now, limits) && SilentInRedis(a.redis, now, limits)
    ensures Decide(c, now, a, limits) ==
      match a.job
      case LiveJob => SeenLive
      case CompletedJob(outcome) => Settle(outcome)
      case FailedJob => Settle(Failed)
      case UnknownJob => Unclear
      case NoJob =>
        if a.container.Running? then SeenLive
        else if a.container.LivenessUnavailable? then Broken
        else if c.job.Some? || c.linked
                || (a.redis.None? && AtLeast(AgeMs(c.updatedAt, now), LEGACY_UNLINKED_TASK_MIN_AGE_MS)) then SeenMissing
        else Unclear
  {
  }

  /** A candidate whose job assignment moved is never settled by the compare-and-set, whatever the job came to. */
  lemma MovedJobIsNeverFinalized(w: World, c: Candidate, terminal: Terminal, pass: nat, orphan: bool, es: seq<Event>,
                                 limits: Limits)
    requires !(c.task in w.jobs && w.jobs[c.task] == c.job)
    requires forall k :: 0 <= k < |es| ==> !(es[k].Assign? && es[k].task == c.task)
    ensures var w' := Run(w, es, limits); Finalize(w', c, terminal, pass, orphan) == w'
  {
    JobStaysMoved(w, c, es, limits);
  }

  lemma {:induction false} JobStaysMoved(w: World, c: Candidate, es: seq<Event>, limits: Limits)
    requires !(c.task in w.jobs && w.jobs[c.task] == c.job)
    requires forall k :: 0 <= k < |es| ==> !(es[k].Assign? && es[k].task == c.task)
    ensures var w' := Run(w, es, limits); !(c.task in w'.jobs && w'.jobs[c.task] == c.job)
  {
    if es == [] {
    } else {
      var before := Run(w, es[..|es| - 1], limits);
      JobStaysMoved(w, c, es[..|es| - 1], limits);
      JobStaysMovedStep(before, c, es[|es| - 1], limits);
    }
  }

  lemma JobStaysMovedStep(w: World, c: Candidate, e: Event, limits: Limits)
    requires !(c.task in w.jobs && w.jobs[c.task] == c.job) && !(e.Assign? && e.task == c.task)
    ensures var w' := Step(w, e, limits); !(c.task in w'.jobs && w'.jobs[c.task] == c.job)
  {
    if e.Assign? || e.Drop? {
    } else {
      assert Step(w, e, limits).jobs == w.jobs;
    }
  }

  /** At most one outcome was counted, and that or an error at least once. */
  predicate Handled(s: Summary, s': Summary) {
    s'.scanned == s.scanned && s.errors <= s'.errors
    && s.Settled() <= s'.Settled() <= s.Settled() + 1 <= s'.Settled() + (s'.errors - s.errors)
  }

  /** Nothing was counted except that the candidate is stale. */
  predicate Untouched(s: Summary, s': Summary) { s'.(stale := 0) == s.(stale := 0) }
}
