/** Why a reconciler wrote a row: what the pass that wrote it was told. Ages are spelled out in milliseconds. */
module TaskReasons {
  import opened Common
  import opened TaskHistory

  /** The scanned row is old enough to be reconciled. */
  predicate Overdue(c: Candidate, now: int, limits: Limits) {
    c.updatedAt <= now && now - c.updatedAt >= limits.staleMs
  }

  /** Redis holds the task in state `s`, which is terminal. */
  predicate EndedInRedis(redis: Option<RedisState>, s: TaskState) {
    redis.Some? && redis.value.state == s && s in {Completed, Failed, Cancelled}
  }

  /** Redis saw the task alive less than `staleMs` ago. */
  predicate AliveInRedis(redis: Option<RedisState>, now: int, limits: Limits) {
    redis.Some? && redis.value.state !in {Completed, Failed, Cancelled}
    && redis.value.updatedAt <= now && now - redis.value.updatedAt < limits.staleMs
  }

  /** Redis knows no terminal state and no recent one. */
  predicate SilentInRedis(redis: Option<RedisState>, now: int, limits: Limits) {
    redis.Some? ==>
      && redis.value.state !in {Completed, Failed, Cancelled}
      && (redis.value.updatedAt > now || now - redis.value.updatedAt >= limits.staleMs)
  }

  /** The job ended in state `s`. */
  predicate EndedInQueue(job: JobAnswer, s: TaskState) {
    (job.CompletedJob? && job.outcome == s) || (job.FailedJob? && s == Failed)
  }

  /** Why a pass may give its candidate the terminal state `s`. */
  predicate Ended(t: Told, s: TaskState, limits: Limits) {
    && Overdue(t.c, t.now, limits)
    && (EndedInRedis(t.answers.redis, s)
        || (SilentInRedis(t.answers.redis, t.now, limits) && EndedInQueue(t.answers.job, s)))
  }

  /** Why a pass may record its candidate as missing: a task without a queue link must be a week old. */
  predicate Vanished(t: Told, limits: Limits) {
    && Overdue(t.c, t.now, limits) && SilentInRedis(t.answers.redis, t.now, limits)
    && t.answers.job.NoJob? && t.answers.container.NotFound?
    && (t.c.job.Some? || t.c.linked || (t.answers.redis.None? && t.now - t.c.updatedAt >= 604_800_000))
  }

  /** Every branch of a decision, by what was told: each is taken if and only if its reason holds. */
  lemma DecidesIff(t: Told, limits: Limits)
    ensures var v := Decide(t.c, t.now, t.answers, limits); var a := t.answers;
      && (v == NotStale <==> !Overdue(t.c, t.now, limits))
      && (forall s: Terminal :: v == Settle(s) <==> Ended(t, s, limits))
      && (v == SeenMissing <==> Vanished(t, limits))
      && (v == SeenLive <==>
            && Overdue(t.c, t.now, limits)
            && (AliveInRedis(a.redis, t.now, limits)
                || (SilentInRedis(a.redis, t.now, limits)
                    && (a.job.LiveJob? || (a.job.NoJob? && a.container.Running?)))))
      && (v == Broken <==>
            && Overdue(t.c, t.now, limits) && SilentInRedis(a.redis, t.now, limits)
            && a.job.NoJob? && a.container.LivenessUnavailable?)
  {
  }

  // ---------- over every run ----------

  /** Pass `p` was told about this task and this row, with this reason. */
  predicate Reasoned(told: map<nat, Told>, p: nat, task: int, history: nat, s: TaskState, orphan: bool, limits: Limits)
  {
    p in told && told[p].c.task == task && told[p].c.history == history
    && if orphan then s == Failed && Vanished(told[p], limits) else Ended(told[p], s, limits)
  }

  predicate PcReasoned(told: map<nat, Told>, p: nat, pc: Pc, limits: Limits) {
    match pc
    case Probing(_, _) => p !in told
    case Clearing(_) => true
    case Recording(c, now, a) => p in told && told[p] == Told(c, now, a) && Vanished(told[p], limits)
    case Settling(c, terminal, orphan) => Reasoned(told, p, c.task, c.history, terminal, orphan, limits)
  }

  predicate RowReasoned(told: map<nat, Told>, e: Entry, limits: Limits) {
    e.writer.Reconciler? ==>
      Reasoned(told, e.writer.pass, e.task, e.writer.expected, e.state, e.writer.orphan, limits)
  }

  ghost predicate AllReasoned(w: World, limits: Limits) {
    && (forall p :: p in w.told ==> p < w.nextPass)
    && (forall p :: p in w.procs ==> p < w.nextPass && PcReasoned(w.told, p, w.procs[p], limits))
    && (forall i :: 0 <= i < |w.history| ==> RowReasoned(w.told, w.history[i], limits))
  }

  /** A step that leaves alone what was told, or tells the probing pass `p`. */
  lemma KeepsReasons(w: World, w': World, p: nat, limits: Limits)
    requires AllReasoned(w, limits) && w.nextPass <= w'.nextPass
    requires p in w'.procs || p in w'.told ==> p < w'.nextPass
    requires w'.told == w.told || (p !in w.told && p in w'.told && w'.told == w.told[p := w'.told[p]])
    requires w'.procs.Keys <= w.procs.Keys + {p}
    requires forall q :: q in w'.procs && q != p ==> w'.procs[q] == w.procs[q]
    requires p in w'.procs ==> PcReasoned(w'.told, p, w'.procs[p], limits)
    requires w.history <= w'.history
    requires forall i :: |w.history| <= i < |w'.history| ==> RowReasoned(w'.told, w'.history[i], limits)
    ensures AllReasoned(w', limits)
  {
    forall q | q in w'.procs ensures q < w'.nextPass && PcReasoned(w'.told, q, w'.procs[q], limits) {
      if q != p { assert PcReasoned(w.told, q, w.procs[q], limits); }
    }
    forall i | 0 <= i < |w'.history| ensures RowReasoned(w'.told, w'.history[i], limits) {
      if i < |w.history| { assert RowReasoned(w.told, w.history[i], limits); }
    }
  }

  lemma ProbeReasoned(w: World, p: nat, a: Answers, limits: Limits)
    requires AllReasoned(w, limits) && p in w.procs && w.procs[p].Probing?
    ensures AllReasoned(ProbeStep(w, p, w.procs[p], a, limits), limits)
  {
    var pc := w.procs[p];
    assert PcReasoned(w.told, p, pc, limits);
    DecidesIff(Told(pc.c, pc.now, a), limits);
    KeepsReasons(w, ProbeStep(w, p, pc, a, limits), p, limits);
  }

  lemma AdvanceReasoned(w: World, p: nat, limits: Limits)
    requires AllReasoned(w, limits) && p in w.procs
    ensures AllReasoned(Advance(w, p, limits), limits)
  {
    assert PcReasoned(w.told, p, w.procs[p], limits);
    KeepsReasons(w, Advance(w, p, limits), p, limits);
  }

  lemma {:induction false} StepReasoned(w: World, e: Event, limits: Limits)
    requires AllReasoned(w, limits)
    ensures AllReasoned(Step(w, e, limits), limits)
  {
    var w' := Step(w, e, limits);
    match e
    case Begin(c, now) => KeepsReasons(w, w', w.nextPass, limits);
    case Probe(p, a) => if p in w.procs && w.procs[p].Probing? { ProbeReasoned(w, p, a, limits); }
    case Proceed(p) => if p in w.procs { AdvanceReasoned(w, p, limits); }
    case Persisted(p) => if p in w.procs { KeepsReasons(w, w', p, limits); }
    case Quit(p) => if p in w.procs { KeepsReasons(w, w', p, limits); }
    case _ => KeepsReasons(w, w', w.nextPass, limits);
  }

  lemma {:induction false} RunReasoned(w: World, es: seq<Event>, limits: Limits)
    requires AllReasoned(w, limits)
    ensures AllReasoned(Run(w, es, limits), limits)
  {
    if es == [] {
    } else {
      RunReasoned(w, es[..|es| - 1], limits);
      StepReasoned(Run(w, es[..|es| - 1], limits), es[|es| - 1], limits);
    }
  }

  /**
   * Every reconciled row has its reason in what its own pass was told about this task and the row it expected: the row
   * was old enough, and Redis held this very terminal state, or knew nothing terminal or recent while the job had
   * ended in this state; an orphan's pass found neither job nor container for a task whose job it could have found.
   */
  lemma {:induction false} ReconciledRowsHaveReasons(es: seq<Event>, limits: Limits, i: nat)
    requires i < |Run(Start, es, limits).history| && Run(Start, es, limits).history[i].writer.Reconciler?
    ensures var w := Run(Start, es, limits); var row := w.history[i];
      && row.writer.pass in w.told
      && var t := w.told[row.writer.pass];
         && t.c.task == row.task && t.c.history == row.writer.expected
         && (if row.writer.orphan then row.state == Failed && Vanished(t, limits) else Ended(t, row.state, limits))
  {
    RunReasoned(Start, es, limits);
    assert RowReasoned(Run(Start, es, limits).told, Run(Start, es, limits).history[i], limits);
  }

  /** What a pass was told stays what it was. */
  lemma {:induction false} ToldIsKept(w: World, es: seq<Event>, limits: Limits, p: nat)
    requires AllReasoned(w, limits) && p in w.told
    ensures var w' := Run(w, es, limits); p in w'.told && w'.told[p] == w.told[p]
  {
    if es == [] {
    } else {
      ToldIsKept(w, es[..|es| - 1], limits, p);
      RunReasoned(w, es[..|es| - 1], limits);
      var before := Run(w, es[..|es| - 1], limits);
      var e := es[|es| - 1];
      if e.Probe? && e.p in before.procs { assert PcReasoned(before.told, e.p, before.procs[e.p], limits); }
    }
  }
}
