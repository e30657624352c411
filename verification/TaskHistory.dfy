/**
 * The persisted task history and its reconcilers: history rows are only appended, a reconciler appends a terminal
 * row by compare-and-set on the latest row it saw, and a task is failed as orphaned only on repeated evidence.
 * A history id is the row's position. A pass is one reconciler's handling of one candidate.
 */
module TaskHistory {
  import opened Common

  datatype TaskState = Pending | Processing | ClaudeExecution | PostProcessing | Completed | Failed | Cancelled

  predicate Reconcilable(s: TaskState) { s.Pending? || s.Processing? || s.ClaudeExecution? || s.PostProcessing? }

  type Terminal = s: TaskState | !Reconcilable(s) witness Completed

  type OpenState = s: TaskState | Reconcilable(s) witness Pending

  /** Who appended a row: a reconciler names the row it expected to be the latest, and its pass. */
  datatype Writer = Task | Reconciler(expected: nat, pass: nat, orphan: bool)

  datatype Entry = Entry(task: int, state: TaskState, writer: Writer)

  /** What a scan returned for a task; it may be arbitrarily old when it is used. */
  datatype Candidate = Candidate(
    task: int,
    job: Option<nat>,
    state: OpenState,
    history: nat,
    linked: bool,
    updatedAt: int)

  datatype Observation = Observation(expected: nat, first: int, observations: nat)

  const LEGACY_UNLINKED_TASK_MIN_AGE_MS := 604_800_000

  datatype RedisState = RedisState(state: TaskState, updatedAt: int)

  datatype JobAnswer = NoJob | LiveJob | CompletedJob(outcome: Terminal) | FailedJob | UnknownJob

  datatype Liveness = Running | NotFound | LivenessUnavailable

  /** What one pass is told about its candidate. */
  datatype Answers = Answers(redis: Option<RedisState>, job: JobAnswer, container: Liveness)

  /** `staleMs` and `graceMs` are the configured thresholds. */
  datatype Limits = Limits(staleMs: int, graceMs: int)

  function AgeMs(updatedAt: int, now: int): Option<int> { if updatedAt > now then None else Some(now - updatedAt) }

  predicate AtLeast(age: Option<int>, ms: int) { age.Some? && age.value >= ms }

  datatype Verdict = NotStale | Settle(terminal: Terminal) | SeenLive | Unclear | Broken | SeenMissing

  /** The branches of one reconciliation decision. */
  function Decide(c: Candidate, now: int, a: Answers, limits: Limits): Verdict {
    if !AtLeast(AgeMs(c.updatedAt, now), limits.staleMs) then NotStale
    else if a.redis.Some? && !Reconcilable(a.redis.value.state) then Settle(a.redis.value.state)
    else if a.redis.Some? && AgeMs(a.redis.value.updatedAt, now).Some?
            && !AtLeast(AgeMs(a.redis.value.updatedAt, now), limits.staleMs) then SeenLive
    else match a.job
      case LiveJob => SeenLive
      case CompletedJob(outcome) => Settle(outcome)
      case FailedJob => Settle(Failed)
      case UnknownJob => Unclear
      case NoJob =>
        match a.container
        case Running => SeenLive
        case LivenessUnavailable => Broken
        case NotFound =>
          if c.job.Some? || c.linked then SeenMissing
          else if a.redis.Some? then Unclear
          else if AtLeast(AgeMs(c.updatedAt, now), LEGACY_UNLINKED_TASK_MIN_AGE_MS) then SeenMissing
          else Unclear
  }

  /** What was committed about a task: a pass recorded it missing, or cleared what was recorded. */
  datatype Fact =
    | Missing(task: int, history: nat, at: int, pass: nat, answers: Answers)
    | Cleared(task: int)

  datatype Pc =
    | Probing(c: Candidate, now: int)
    | Clearing(c: Candidate)
    | Recording(c: Candidate, now: int, answers: Answers)
    | Settling(c: Candidate, terminal: Terminal, orphan: bool)

  /** What a pass decided on. */
  datatype Told = Told(c: Candidate, now: int, answers: Answers)

  /** `told` keeps what every pass was told, for good. */
  datatype World = World(
    history: seq<Entry>,
    jobs: map<int, Option<nat>>,
    observations: map<int, Observation>,
    procs: map<nat, Pc>,
    nextPass: nat,
    log: seq<Fact>,
    told: map<nat, Told>)

  function At(w: World, p: nat, pc: Pc): World { w.(procs := w.procs[p := pc]) }

  function Finished(w: World, p: nat): World { w.(procs := w.procs - {p}) }

  /** The latest row of a task. */
  function Latest(history: seq<Entry>, task: int): (id: Option<nat>)
    ensures id.Some? ==> id.value < |history| && history[id.value].task == task
    ensures forall k :: 0 <= k < |history| && history[k].task == task ==> id.Some? && k <= id.value
  {
    if history == [] then None
    else if history[|history| - 1].task == task then Some(|history| - 1)
    else Latest(history[..|history| - 1], task)
  }

  /** The expected row is still the latest and in the scanned state, and the job assignment has not moved. */
  predicate CanFinalize(w: World, c: Candidate) {
    Latest(w.history, c.task) == Some(c.history) && w.history[c.history].state == c.state
    && c.task in w.jobs && w.jobs[c.task] == c.job
  }

  function Finalize(w: World, c: Candidate, terminal: Terminal, pass: nat, orphan: bool): World {
    if !CanFinalize(w, c) then w
    else w.(history := w.history + [Entry(c.task, terminal, Reconciler(c.history, pass, orphan))],
            observations := w.observations - {c.task})
  }

  /** The observation row after one more pass found the task missing. */
  function Observed(w: World, c: Candidate, now: int): Observation {
    if c.task in w.observations && w.observations[c.task].expected == c.history
    then w.observations[c.task].(observations := w.observations[c.task].observations + 1)
    else Observation(c.history, now, 1)
  }

  function Record(w: World, c: Candidate, now: int, pass: nat, a: Answers): World {
    w.(observations := w.observations[c.task := Observed(w, c, now)],
       log := w.log + [Missing(c.task, c.history, now, pass, a)])
  }

  function Clear(w: World, task: int): World {
    w.(observations := w.observations - {task}, log := w.log + [Cleared(task)])
  }

  predicate IsOrphan(o: Observation, now: int, graceMs: int) {
    o.observations >= 2 && AtLeast(AgeMs(o.first, now), graceMs)
  }

  function RecordStep(w: World, p: nat, pc: Pc, limits: Limits): World
    requires pc.Recording?
  {
    var w' := Record(w, pc.c, pc.now, p, pc.answers);
    if IsOrphan(Observed(w, pc.c, pc.now), pc.now, limits.graceMs)
    then At(w', p, Settling(pc.c, Failed, true)) else Finished(w', p)
  }

  function ProbeStep(w: World, p: nat, pc: Pc, a: Answers, limits: Limits): World
    requires pc.Probing?
  {
    var w' := w.(told := w.told[p := Told(pc.c, pc.now, a)]);
    match Decide(pc.c, pc.now, a, limits)
    case Settle(terminal) => At(w', p, Settling(pc.c, terminal, false))
    case SeenLive => At(w', p, Clearing(pc.c))
    case SeenMissing => At(w', p, Recording(pc.c, pc.now, a))
    case _ => Finished(w', p)
  }

  /** The pass's next step once it has probed: clear, record, or append the terminal row. */
  function Advance(w: World, p: nat, limits: Limits): World {
    if p !in w.procs then w
    else match w.procs[p]
      case Probing(_, _) => w
      case Clearing(c) => Finished(Clear(w, c.task), p)
      case Recording(_, _, _) => RecordStep(w, p, w.procs[p], limits)
      case Settling(c, terminal, orphan) => Finished(Finalize(w, c, terminal, p, orphan), p)
  }

  /**
   * `Begin` starts a pass with any candidate a scan may ever have returned. `Persisted` is a pass whose terminal state
   * went through Redis instead, so that it only has to clear. `Write` is anyone else appending to a task's history,
   * `Assign` a job assignment moving, `Drop` a task being deleted, `Quit` a pass that stops anywhere.
   */
  datatype Event =
    | Begin(c: Candidate, now: int)
    | Probe(p: nat, a: Answers)
    | Proceed(p: nat)
    | Persisted(p: nat)
    | Quit(p: nat)
    | Write(task: int, state: TaskState)
    | Assign(task: int, job: Option<nat>)
    | Drop(task: int)

  function Step(w: World, e: Event, limits: Limits): World {
    match e
    case Begin(c, now) =>
      At(w, w.nextPass, Probing(c, now)).(nextPass := w.nextPass + 1)
    case Probe(p, a) =>
      if p in w.procs && w.procs[p].Probing? then ProbeStep(w, p, w.procs[p], a, limits) else w
    case Proceed(p) => Advance(w, p, limits)
    case Persisted(p) =>
      if p in w.procs && w.procs[p].Settling? then At(w, p, Clearing(w.procs[p].c)) else w
    case Quit(p) => Finished(w, p)
    case Write(task, state) => w.(history := w.history + [Entry(task, state, Task)])
    case Assign(task, job) => w.(jobs := w.jobs[task := job])
    case Drop(task) => w.(jobs := w.jobs - {task})
  }

  function Run(w: World, es: seq<Event>, limits: Limits): World {
    if es == [] then w else Step(Run(w, es[..|es| - 1], limits), es[|es| - 1], limits)
  }

  const Start := World([], map[], map[], map[], 0, [], map[])

  // ---------- the invariant ----------

  /** A reconciled row is terminal and directly follows, among its task's rows, the non-terminal row it expected. */
  predicate RowOk(history: seq<Entry>, i: nat)
    requires i < |history|
  {
    var e := history[i];
    e.writer.Reconciler? ==>
      && !Reconcilable(e.state) && e.writer.expected < i
      && history[e.writer.expected].task == e.task && Reconcilable(history[e.writer.expected].state)
      && forall k :: e.writer.expected < k < i ==> history[k].task != e.task
  }

  ghost predicate HistoryOk(w: World) { forall i :: 0 <= i < |w.history| ==> RowOk(w.history, i) }

  /** The pass found neither a job nor a container, and no sign of life in Redis. */
  predicate NothingFound(f: Fact, limits: Limits)
    requires f.Missing?
  {
    f.answers.job.NoJob? && f.answers.container.NotFound?
    && (f.answers.redis.Some? ==>
          Reconcilable(f.answers.redis.value.state)
          && (f.answers.redis.value.updatedAt > f.at || f.at - f.answers.redis.value.updatedAt >= limits.staleMs))
  }

  predicate FoundMissing(f: Fact, task: int, history: nat, limits: Limits) {
    f.Missing? && f.task == task && f.history == history && NothingFound(f, limits)
  }

  /** The observation row goes back to a recorded pass, with nothing cleared and no other row recorded since. */
  predicate Backed(log: seq<Fact>, task: int, o: Observation, a: nat, limits: Limits) {
    && a < |log| && FoundMissing(log[a], task, o.expected, limits) && log[a].at == o.first
    && forall k :: a < k < |log| && log[k].task == task ==> FoundMissing(log[k], task, o.expected, limits)
  }

  ghost predicate ObservationsOk(w: World, limits: Limits) {
    forall t :: t in w.observations ==> exists a: nat :: Backed(w.log, t, w.observations[t], a, limits)
  }

  /** Positions `a` and `b` of the log hold the evidence on which pass `pass` fails the task as orphaned. */
  predicate EvidenceAt(log: seq<Fact>, task: int, history: nat, pass: nat, a: nat, b: nat, limits: Limits) {
    && a < b < |log| && FoundMissing(log[a], task, history, limits) && FoundMissing(log[b], task, history, limits)
    && log[b].pass == pass && log[a].pass != pass && log[b].at - log[a].at >= limits.graceMs
    && forall k :: a < k < b ==> log[k] != Cleared(task)
  }

  ghost predicate Evidence(log: seq<Fact>, task: int, history: nat, pass: nat, limits: Limits) {
    exists a: nat, b: nat :: EvidenceAt(log, task, history, pass, a, b, limits)
  }

  ghost predicate Unrecorded(w: World, pass: nat) {
    forall k :: 0 <= k < |w.log| && w.log[k].Missing? ==> w.log[k].pass != pass
  }

  ghost predicate PcOk(w: World, p: nat, pc: Pc, limits: Limits) {
    p < w.nextPass &&
    match pc
    case Probing(_, _) => Unrecorded(w, p)
    case Clearing(_) => true
    case Recording(c, now, a) => Unrecorded(w, p) && NothingFound(Missing(c.task, c.history, now, p, a), limits)
    case Settling(c, terminal, orphan) =>
      (orphan ==> terminal == Failed && Evidence(w.log, c.task, c.history, p, limits))
  }

  ghost predicate ProcsOk(w: World, limits: Limits) {
    forall p :: p in w.procs ==> PcOk(w, p, w.procs[p], limits)
  }

  ghost predicate OrphansOk(w: World, limits: Limits) {
    && (forall i :: 0 <= i < |w.history| && w.history[i].writer.Reconciler? && w.history[i].writer.orphan ==>
          w.history[i].state == Failed
          && Evidence(w.log, w.history[i].task, w.history[i].writer.expected, w.history[i].writer.pass, limits))
    && (forall k :: 0 <= k < |w.log| && w.log[k].Missing? ==> w.log[k].pass < w.nextPass)
  }

  ghost predicate Inv(w: World, limits: Limits) {
    HistoryOk(w) && ObservationsOk(w, limits) && ProcsOk(w, limits) && OrphansOk(w, limits)
  }

  // ---------- one step at a time ----------

  lemma EvidenceGrows(log: seq<Fact>, f: Fact, task: int, history: nat, pass: nat, limits: Limits)
    requires Evidence(log, task, history, pass, limits)
    ensures Evidence(log + [f], task, history, pass, limits)
  {
    var a: nat, b: nat :| EvidenceAt(log, task, history, pass, a, b, limits);
    assert EvidenceAt(log + [f], task, history, pass, a, b, limits);
  }

  lemma BackedGrows(log: seq<Fact>, f: Fact, task: int, o: Observation, limits: Limits)
    requires exists a: nat :: Backed(log, task, o, a, limits)
    requires f.task == task ==> FoundMissing(f, task, o.expected, limits)
    ensures exists a: nat :: Backed(log + [f], task, o, a, limits)
  {
    var a: nat :| Backed(log, task, o, a, limits);
    assert Backed(log + [f], task, o, a, limits);
  }

  /** A pass moves on and nothing is committed. */
  lemma MoveInv(w: World, p: nat, pc: Pc, limits: Limits)
    requires Inv(w, limits) && PcOk(w, p, pc, limits)
    ensures Inv(At(w, p, pc), limits)
  {
    var w' := At(w, p, pc);
    forall q | q in w'.procs ensures PcOk(w', q, w'.procs[q], limits) {
      assert PcOk(w, q, w'.procs[q], limits);
    }
  }

  lemma FinishedInv(w: World, p: nat, limits: Limits)
    requires Inv(w, limits)
    ensures Inv(Finished(w, p), limits)
  {
    var w' := Finished(w, p);
    forall q | q in w'.procs ensures PcOk(w', q, w'.procs[q], limits) {
      assert PcOk(w, q, w.procs[q], limits);
    }
  }

  /** One row is appended, and observations are at most removed. */
  lemma AppendInv(w: World, w': World, e: Entry, limits: Limits)
    requires Inv(w, limits)
    requires w' == w.(history := w.history + [e], observations := w'.observations)
    requires forall t :: t in w'.observations ==> t in w.observations && w'.observations[t] == w.observations[t]
    requires RowOk(w'.history, |w.history|)
    requires e.writer.Reconciler? && e.writer.orphan ==>
      e.state == Failed && Evidence(w.log, e.task, e.writer.expected, e.writer.pass, limits)
    ensures Inv(w', limits)
  {
    forall i | 0 <= i < |w'.history| ensures RowOk(w'.history, i) {
      if i < |w.history| { assert RowOk(w.history, i); }
    }
    forall q | q in w'.procs ensures PcOk(w', q, w'.procs[q], limits) {
      assert PcOk(w, q, w.procs[q], limits);
    }
  }

  lemma FinalizeInv(w: World, p: nat, limits: Limits)
    requires Inv(w, limits) && p in w.procs && w.procs[p].Settling?
    ensures var pc := w.procs[p]; Inv(Finalize(w, pc.c, pc.terminal, p, pc.orphan), limits)
  {
    var pc := w.procs[p];
    assert PcOk(w, p, pc, limits);
    if CanFinalize(w, pc.c) {
      AppendInv(w, Finalize(w, pc.c, pc.terminal, p, pc.orphan),
                Entry(pc.c.task, pc.terminal, Reconciler(pc.c.history, p, pc.orphan)), limits);
    }
  }

  /** A fact joins the log: passes that have not recorded yet still have not, and evidence stays. */
  lemma FactInv(w: World, w': World, f: Fact, p: nat, limits: Limits)
    requires Inv(w, limits)
    requires w' == w.(log := w.log + [f], observations := w'.observations, procs := w'.procs)
    requires ObservationsOk(w', limits)
    requires f.Missing? ==> f.pass == p && p < w.nextPass
    requires forall q :: q in w'.procs && q != p ==> q in w.procs && w'.procs[q] == w.procs[q]
    requires p in w'.procs ==> PcOk(w', p, w'.procs[p], limits)
    ensures Inv(w', limits)
  {
    forall q | q in w'.procs ensures PcOk(w', q, w'.procs[q], limits) {
      if q != p {
        var pc := w.procs[q];
        assert PcOk(w, q, pc, limits);
        if pc.Settling? && pc.orphan { EvidenceGrows(w.log, f, pc.c.task, pc.c.history, q, limits); }
      }
    }
    forall i | 0 <= i < |w'.history| && w'.history[i].writer.Reconciler? && w'.history[i].writer.orphan
      ensures Evidence(w'.log, w'.history[i].task, w'.history[i].writer.expected, w'.history[i].writer.pass, limits)
    {
      EvidenceGrows(w.log, f, w.history[i].task, w.history[i].writer.expected, w.history[i].writer.pass, limits);
    }
  }

  lemma ClearInv(w: World, p: nat, task: int, limits: Limits)
    requires Inv(w, limits)
    ensures Inv(Finished(Clear(w, task), p), limits)
  {
    var w' := Finished(Clear(w, task), p);
    forall t | t in w'.observations ensures exists a: nat :: Backed(w'.log, t, w'.observations[t], a, limits) {
      BackedGrows(w.log, Cleared(task), t, w.observations[t], limits);
    }
    FactInv(w, w', Cleared(task), p, limits);
  }

  lemma RecordedObservations(w: World, p: nat, limits: Limits)
    requires Inv(w, limits) && p in w.procs && w.procs[p].Recording?
    ensures var pc := w.procs[p]; ObservationsOk(Record(w, pc.c, pc.now, p, pc.answers), limits)
  {
    var pc := w.procs[p];
    assert PcOk(w, p, pc, limits);
    var f := Missing(pc.c.task, pc.c.history, pc.now, p, pc.answers);
    var w' := Record(w, pc.c, pc.now, p, pc.answers);
    forall t | t in w'.observations ensures exists a: nat :: Backed(w'.log, t, w'.observations[t], a, limits) {
      if t != pc.c.task {
        BackedGrows(w.log, f, t, w.observations[t], limits);
      } else if t in w.observations && w.observations[t].expected == pc.c.history {
        BackedGrows(w.log, f, t, w.observations[t], limits);
        var a: nat :| Backed(w'.log, t, w.observations[t], a, limits);
        assert Backed(w'.log, t, w'.observations[t], a, limits);
      } else {
        assert Backed(w'.log, t, w'.observations[t], |w.log|, limits);
      }
    }
  }

  /** The second record of a row is the evidence, together with the first. */
  lemma RecordGivesEvidence(w: World, p: nat, limits: Limits)
    requires Inv(w, limits) && p in w.procs && w.procs[p].Recording?
    requires IsOrphan(Observed(w, w.procs[p].c, w.procs[p].now), w.procs[p].now, limits.graceMs)
    ensures var pc := w.procs[p];
      Evidence(Record(w, pc.c, pc.now, p, pc.answers).log, pc.c.task, pc.c.history, p, limits)
  {
    var pc := w.procs[p];
    assert PcOk(w, p, pc, limits);
    var o := w.observations[pc.c.task];
    var a: nat :| Backed(w.log, pc.c.task, o, a, limits);
    assert EvidenceAt(Record(w, pc.c, pc.now, p, pc.answers).log, pc.c.task, pc.c.history, p, a, |w.log|, limits);
  }

  lemma RecordInv(w: World, p: nat, limits: Limits)
    requires Inv(w, limits) && p in w.procs && w.procs[p].Recording?
    ensures Inv(RecordStep(w, p, w.procs[p], limits), limits)
  {
    var pc := w.procs[p];
    assert PcOk(w, p, pc, limits);
    RecordedObservations(w, p, limits);
    if IsOrphan(Observed(w, pc.c, pc.now), pc.now, limits.graceMs) { RecordGivesEvidence(w, p, limits); }
    FactInv(w, RecordStep(w, p, pc, limits), Missing(pc.c.task, pc.c.history, pc.now, p, pc.answers), p, limits);
  }

  lemma ProbeInv(w: World, p: nat, a: Answers, limits: Limits)
    requires Inv(w, limits) && p in w.procs && w.procs[p].Probing?
    ensures Inv(ProbeStep(w, p, w.procs[p], a, limits), limits)
  {
    var pc := w.procs[p];
    assert PcOk(w, p, pc, limits);
    var w' := w.(told := w.told[p := Told(pc.c, pc.now, a)]);
    forall q | q in w'.procs ensures PcOk(w', q, w'.procs[q], limits) {
      assert PcOk(w, q, w.procs[q], limits);
    }
    match Decide(pc.c, pc.now, a, limits)
    case Settle(terminal) => MoveInv(w', p, Settling(pc.c, terminal, false), limits);
    case SeenLive => MoveInv(w', p, Clearing(pc.c), limits);
    case SeenMissing => MoveInv(w', p, Recording(pc.c, pc.now, a), limits);
    case _ => FinishedInv(w', p, limits);
  }

  lemma {:induction false} StepInv(w: World, e: Event, limits: Limits)
    requires Inv(w, limits)
    ensures Inv(Step(w, e, limits), limits)
  {
    match e
    case Begin(c, now) =>
      var begun := w.(nextPass := w.nextPass + 1);
      forall q | q in begun.procs ensures PcOk(begun, q, begun.procs[q], limits) {
        assert PcOk(w, q, w.procs[q], limits);
      }
      MoveInv(begun, w.nextPass, Probing(c, now), limits);
    case Probe(p, a) =>
      if p in w.procs && w.procs[p].Probing? { ProbeInv(w, p, a, limits); }
    case Proceed(p) =>
      if p in w.procs { ProceedInv(w, p, limits); }
    case Persisted(p) =>
      if p in w.procs && w.procs[p].Settling? {
        assert PcOk(w, p, w.procs[p], limits);
        MoveInv(w, p, Clearing(w.procs[p].c), limits);
      }
    case Quit(p) =>
      FinishedInv(w, p, limits);
    case Write(task, state) =>
      AppendInv(w, Step(w, e, limits), Entry(task, state, Task), limits);
    case Assign(task, job) =>
      forall q | q in w.procs ensures PcOk(Step(w, e, limits), q, w.procs[q], limits) {
        assert PcOk(w, q, w.procs[q], limits);
      }
    case Drop(task) =>
      forall q | q in w.procs ensures PcOk(Step(w, e, limits), q, w.procs[q], limits) {
        assert PcOk(w, q, w.procs[q], limits);
      }
  }

  lemma ProceedInv(w: World, p: nat, limits: Limits)
    requires Inv(w, limits) && p in w.procs
    ensures Inv(Advance(w, p, limits), limits)
  {
    match w.procs[p]
    case Probing(_, _) =>
    case Clearing(c) => ClearInv(w, p, c.task, limits);
    case Recording(_, _, _) => RecordInv(w, p, limits);
    case Settling(c, terminal, orphan) =>
      FinalizeInv(w, p, limits);
      FinishedInv(Finalize(w, c, terminal, p, orphan), p, limits);
  }

  lemma {:induction false} RunInv(w: World, es: seq<Event>, limits: Limits)
    requires Inv(w, limits)
    ensures Inv(Run(w, es, limits), limits)
  {
    if es == [] {
    } else {
      RunInv(w, es[..|es| - 1], limits);
      StepInv(Run(w, es[..|es| - 1], limits), es[|es| - 1], limits);
    }
  }

  lemma {:induction false} RunAppend(w: World, es: seq<Event>, fs: seq<Event>, limits: Limits)
    ensures Run(w, es + fs, limits) == Run(Run(w, es, limits), fs, limits)
  {
    if fs == [] {
      assert es + fs == es;
    } else {
      assert (es + fs)[..|es + fs| - 1] == es + fs[..|fs| - 1];
      RunAppend(w, es, fs[..|fs| - 1], limits);
    }
  }

  // ---------- what holds of every run ----------

  /** History is only ever appended to. */
  lemma {:induction false} HistoryIsAppendOnly(w: World, es: seq<Event>, limits: Limits)
    ensures w.history <= Run(w, es, limits).history
  {
    if es == [] {
    } else {
      HistoryIsAppendOnly(w, es[..|es| - 1], limits);
      StepAppends(Run(w, es[..|es| - 1], limits), es[|es| - 1], limits);
    }
  }

  lemma StepAppends(w: World, e: Event, limits: Limits)
    ensures w.history <= Step(w, e, limits).history
  {
  }

  /**
   * A reconciled row is terminal and is its task's very next row after the non-terminal row it expected, so no row
   * is the expectation of two.
   */
  lemma {:induction false} ReconciledRowIsNext(es: seq<Event>, limits: Limits)
    ensures var history := Run(Start, es, limits).history;
      && (forall i :: 0 <= i < |history| ==> RowOk(history, i))
      && (forall i, j :: 0 <= i < j < |history| && history[i].writer.Reconciler? && history[j].writer.Reconciler?
            ==> history[i].writer.expected != history[j].writer.expected)
  {
    RunInv(Start, es, limits);
    var history := Run(Start, es, limits).history;
    forall i, j | 0 <= i < j < |history| && history[i].writer.Reconciler? && history[j].writer.Reconciler?
      ensures history[i].writer.expected != history[j].writer.expected
    {
      assert RowOk(history, i) && RowOk(history, j);
    }
  }

  /**
   * However old the candidate is, the write succeeds if and only if the row it names is still the task's last one and
   * still in the scanned state, and the task exists with the scanned job assignment.
   */
  lemma FinalizesIff(w: World, c: Candidate, terminal: Terminal, pass: nat, orphan: bool)
    ensures Finalize(w, c, terminal, pass, orphan).history != w.history <==>
      && c.history < |w.history| && w.history[c.history].task == c.task && w.history[c.history].state == c.state
      && (forall k :: c.history < k < |w.history| ==> w.history[k].task != c.task)
      && c.task in w.jobs && w.jobs[c.task] == c.job
  {
  }

  /** A terminal task stays as it is, whatever reconcilers do, until it writes a new row itself. */
  lemma {:induction false} TerminalTasksAreLeftAlone(w: World, es: seq<Event>, task: int, limits: Limits)
    requires Inv(w, limits)
    requires Latest(w.history, task).Some? && !Reconcilable(w.history[Latest(w.history, task).value].state)
    requires forall k :: 0 <= k < |es| ==> !(es[k].Write? && es[k].task == task)
    ensures Latest(Run(w, es, limits).history, task) == Latest(w.history, task)
  {
    if es == [] {
    } else {
      var w1 := Run(w, es[..|es| - 1], limits);
      TerminalTasksAreLeftAlone(w, es[..|es| - 1], task, limits);
      HistoryIsAppendOnly(w, es[..|es| - 1], limits);
      RunInv(w, es[..|es| - 1], limits);
      KeepsTerminal(w1, es[|es| - 1], task, limits);
    }
  }

  lemma KeepsTerminal(w: World, e: Event, task: int, limits: Limits)
    requires Inv(w, limits)
    requires Latest(w.history, task).Some? && !Reconcilable(w.history[Latest(w.history, task).value].state)
    requires !(e.Write? && e.task == task)
    ensures Latest(Step(w, e, limits).history, task) == Latest(w.history, task)
  {
    var w' := Step(w, e, limits);
    if e.Proceed? && e.p in w.procs { assert PcOk(w, e.p, w.procs[e.p], limits); }
    if w'.history != w.history {
      assert w'.history[..|w'.history| - 1] == w.history && w'.history[|w.history|].task != task;
    }
  }

  /**
   * A task is failed as orphaned only if two different passes recorded it missing under the very row that the failure
   * follows, the first at least the grace period before the second, with no committed clear in between, and both
   * having found no job, no running container and no fresh or terminal Redis state.
   */
  lemma {:induction false} OrphansHaveEvidence(es: seq<Event>, limits: Limits, i: nat)
    requires i < |Run(Start, es, limits).history|
    requires Run(Start, es, limits).history[i].writer.Reconciler? && Run(Start, es, limits).history[i].writer.orphan
    ensures var w := Run(Start, es, limits); var row := w.history[i];
      && row.state == Failed && RowOk(w.history, i)
      && exists a: nat, b: nat :: EvidenceAt(w.log, row.task, row.writer.expected, row.writer.pass, a, b, limits)
  {
    RunInv(Start, es, limits);
  }
}
