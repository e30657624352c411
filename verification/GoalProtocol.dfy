/**
 * Goal recovery as a protocol over one goal: its database row, the job queue, and any number of
 * processes that act on snapshots of the row they may have read long ago.
 *
 * Every process works the same way: read the row, do something slow, write under a compare-and-set,
 * then send a job. A crash can fall between any two of these steps.
 */
module GoalProtocol {
  import opened Common

  /** A `run_claim`; a fresh number stands for a fresh UUID. */
  type Claim = nat

  datatype Desired = Running | Paused | Cancelled
  datatype Terminal = Completed | Failed | WasCancelled

  datatype Row = Row(
    generation: nat,
    claim: Option<Claim>,
    claimedAt: Option<int>,
    heartbeatAt: Option<int>,
    desired: Desired,
    result: Option<Terminal>,
    pauseConfirmed: bool,
    resumeRequested: bool,
    hasSession: bool,
    hasWorktree: bool,
    taskReconciled: bool)

  /** A queue entry; BullMQ keeps terminal jobs under their id until they are evicted. */
  datatype Job = Job(claim: Claim, recovery: bool, live: bool)

  /** Where a process stands; the value it holds is its local state. */
  datatype Pc =
    | Holding(snap: Row)
    | Adopting(snap: Row, claim: Claim)
    | Replacing(snap: Row, claim: Claim)
    | Resuming(snap: Row)
    | Sending(generation: nat, claim: Claim, recovery: bool)
    | Marking(terminal: Terminal)

  /** What a sweep is told by the clock and by Docker while it handles one goal. */
  datatype Answers = Answers(now: int, staleMs: int, containerLive: bool, stopped: bool)

  /**
   * `bound`, `sent`, `runs` and `results` are histories: the claim each generation ever had, every
   * `(generation, claim)` handed to the queue, the generations a worker started, and the result
   * each generation ended with.
   */
  datatype World = World(
    row: Row,
    jobs: map<nat, Job>,
    procs: map<nat, Pc>,
    nextClaim: Claim,
    bound: map<nat, Claim>,
    sent: seq<(nat, Claim)>,
    runs: seq<nat>,
    results: map<nat, Terminal>)

  // ---------- the row, one conditional update at a time ----------

  /** `where run_generation = ? and run_claim = ?`, the fence every recovery write carries. */
  predicate Fenced(row: Row, snap: Row) {
    row.generation == snap.generation && row.claim == snap.claim && row.result.None?
  }

  predicate Stale(goal: Row, a: Answers) {
    goal.claimedAt.None?
    || a.now - (if goal.heartbeatAt.Some? then goal.heartbeatAt.value else goal.claimedAt.value) >= a.staleMs
  }

  predicate CanFail(row: Row, snap: Row) { Fenced(row, snap) && row.desired == Running }

  predicate CanRotateClaimed(row: Row, snap: Row) { Fenced(row, snap) && row.desired == snap.desired }

  function RotateClaimed(row: Row, snap: Row, uuid: Claim): Row {
    row.(desired := Running, generation := snap.generation + 1, claim := Some(uuid), claimedAt := None,
    heartbeatAt := None, pauseConfirmed := false, resumeRequested := false)
  }

  predicate CanBind(row: Row, snap: Row) {
    row.generation == snap.generation && row.result.None? && row.claim.None?
  }

  predicate CanReplace(row: Row, snap: Row, claim: Claim) {
    row.generation == snap.generation && row.claim == Some(claim) && row.result.None? && row.claimedAt.None?
  }

  function Replace(row: Row, snap: Row, uuid: Claim): Row {
    row.(generation := snap.generation + 1, claim := Some(uuid))
  }

  predicate CanConfirm(row: Row, snap: Row) { Fenced(row, snap) && row.desired == Paused }

  predicate CanCancel(row: Row, snap: Row) { Fenced(row, snap) && row.desired == Cancelled }

  predicate CanMark(row: Row, terminal: Terminal) { row.result == Some(terminal) && !row.taskReconciled }

  /** A worker takes the attempt: only the row's own generation and claim, only once, only while it should run. */
  predicate CanClaim(row: Row, generation: nat, claim: Claim) {
    row.generation == generation && row.claim == Some(claim) && row.result.None?
    && row.desired == Running && row.claimedAt.None?
  }

  // ---------- what a sweep does with its snapshot ----------

  datatype Action = Leave | SkipLive | Reconcile | Cancel | Confirm | Rotate | Adopt | FailClosed

  /** The branches of one recovery decision. */
  function Decide(goal: Row, a: Answers): Action {
    if goal.result.Some? then Reconcile
    else match goal.desired
      case Cancelled => if goal.claim.Some? && !a.stopped then Leave else Cancel
      case Paused =>
        if goal.resumeRequested && goal.pauseConfirmed then Rotate
        else if goal.pauseConfirmed || !Stale(goal, a) then Leave
        else if goal.claim.Some? && goal.claimedAt.Some? && a.containerLive && !a.stopped then Leave
        else Confirm
      case Running =>
        if !Stale(goal, a) then Leave
        else if goal.claimedAt.None? then Adopt
        else if goal.claim.None? then FailClosed
        else if a.containerLive then SkipLive
        else if !goal.hasSession || !goal.hasWorktree then FailClosed
        else Rotate
  }

  function Finished(w: World, p: nat): World { w.(procs := w.procs - {p}) }

  function At(w: World, p: nat, pc: Pc): World { w.(procs := w.procs[p := pc]) }

  /** Ends the current generation with a result. */
  function End(w: World, terminal: Terminal): World {
    w.(row := w.row.(result := Some(terminal)), results := w.results[w.row.generation := terminal])
  }

  /** Commits a rotation: a new generation with a claim nobody has seen before, still to be sent. */
  function Rotated(w: World, p: nat, row: Row, recovery: bool): World {
    At(w.(row := row, nextClaim := w.nextClaim + 1, bound := w.bound[row.generation := w.nextClaim]),
       p, Sending(row.generation, w.nextClaim, recovery))
  }

  /** `queue.add` under a fixed job id: an existing job, live or retained, is returned instead. */
  function Send(w: World, generation: nat, claim: Claim, recovery: bool): World {
    w.(sent := w.sent + [(generation, claim)],
       jobs := if generation in w.jobs then w.jobs else w.jobs[generation := Job(claim, recovery, true)])
  }

  function TryRotateClaimed(w: World, p: nat, snap: Row): World {
    if CanRotateClaimed(w.row, snap)
    then Rotated(w, p, RotateClaimed(w.row, snap, w.nextClaim), true)
    else Finished(w.(nextClaim := w.nextClaim + 1), p)
  }

  function TryCancel(w: World, p: nat, snap: Row): World {
    if CanCancel(w.row, snap) then At(End(w, WasCancelled), p, Marking(WasCancelled)) else Finished(w, p)
  }

  function TryConfirm(w: World, p: nat, snap: Row): World {
    if !CanConfirm(w.row, snap) then Finished(w, p)
    else
      var w' := w.(row := w.row.(pauseConfirmed := true));
      if snap.resumeRequested then At(w', p, Resuming(snap)) else Finished(w', p)
  }

  function TryAdopt(w: World, p: nat, snap: Row): World {
    if snap.claim.Some? then At(w, p, Adopting(snap, snap.claim.value))
    else if !CanBind(w.row, snap) then Finished(w.(nextClaim := w.nextClaim + 1), p)
    else
      At(w.(row := w.row.(claim := Some(w.nextClaim)), nextClaim := w.nextClaim + 1,
            bound := w.bound[w.row.generation := w.nextClaim]),
         p, Adopting(snap, w.nextClaim))
  }

  function TryFail(w: World, p: nat, snap: Row): World {
    Finished(if CanFail(w.row, snap) then End(w, Failed) else w, p)
  }

  /** The sweep's first write after its decision. */
  function Act(w: World, p: nat, snap: Row, a: Answers): World {
    match Decide(snap, a)
    case Leave => Finished(w, p)
    case SkipLive => Finished(w, p)
    case Reconcile => At(w, p, Marking(snap.result.value))
    case Cancel => TryCancel(w, p, snap)
    case Confirm => TryConfirm(w, p, snap)
    case Rotate => TryRotateClaimed(w, p, snap)
    case Adopt => TryAdopt(w, p, snap)
    case FailClosed => TryFail(w, p, snap)
  }

  /** The process's next step once it has left its snapshot behind. */
  function Advance(w: World, p: nat): World {
    if p !in w.procs then w
    else match w.procs[p]
      case Holding(_) => w
      case Adopting(snap, claim) =>
        if snap.generation in w.jobs then
          if w.jobs[snap.generation].live then Finished(w, p) else At(w, p, Replacing(snap, claim))
        else At(w, p, Sending(snap.generation, claim, snap.hasSession))
      case Replacing(snap, claim) =>
        if CanReplace(w.row, snap, claim)
        then Rotated(w, p, Replace(w.row, snap, w.nextClaim), snap.hasSession)
        else Finished(w.(nextClaim := w.nextClaim + 1), p)
      case Resuming(snap) => TryRotateClaimed(w, p, snap)
      case Sending(generation, claim, recovery) => Finished(Send(w, generation, claim, recovery), p)
      case Marking(terminal) =>
        Finished(if CanMark(w.row, terminal) then w.(row := w.row.(taskReconciled := true)) else w, p)
  }

  // ---------- everything that can happen ----------

  /**
   * Steps of sweeps: `Read`, `Decided`, `Proceed`, `Crash`. Steps of the queue: `Deliver` (a worker
   * that was ever handed this job tries to claim the attempt), `Retire`, `Evict`. Steps of workers and users:
   * `Write` is any write that keeps generation, claim and start time and does not touch a result once
   * set (heartbeat, session, worktree, pause, resume, cancel, finish); `Reopen` is any other rotation
   * (a worker's next attempt, a resume, or a continue of a finished goal).
   */
  datatype Event =
    | Read(p: nat)
    | Decided(p: nat, a: Answers)
    | Proceed(p: nat)
    | Crash(p: nat)
    | Deliver(job: (nat, Claim), now: int)
    | Retire(generation: nat)
    | Evict(generation: nat)
    | Write(row: Row)
    | Reopen(p: nat, row: Row)

  predicate WriteAllowed(row: Row, row': Row) {
    row'.generation == row.generation && row'.claim == row.claim && row'.claimedAt == row.claimedAt
    && (row.result.Some? ==> row'.result == row.result)
  }

  predicate ReopenAllowed(row: Row, snap: Row, row': Row, uuid: Claim) {
    row.generation == snap.generation
    && row'.generation == row.generation + 1 && row'.claim == Some(uuid)
    && row'.claimedAt.None? && row'.result.None?
  }

  function Step(w: World, e: Event): World {
    match e
    case Read(p) => if p in w.procs then w else At(w, p, Holding(w.row))
    case Decided(p, a) => if p in w.procs && w.procs[p].Holding? then Act(w, p, w.procs[p].snap, a) else w
    case Proceed(p) => Advance(w, p)
    case Crash(p) => Finished(w, p)
    case Deliver(job, now) =>
      if job in w.sent && CanClaim(w.row, job.0, job.1)
      then w.(row := w.row.(claimedAt := Some(now), heartbeatAt := Some(now), pauseConfirmed := false),
              runs := w.runs + [job.0])
      else w
    case Retire(generation) =>
      if generation in w.jobs then w.(jobs := w.jobs[generation := w.jobs[generation].(live := false)]) else w
    case Evict(generation) => w.(jobs := w.jobs - {generation})
    case Write(row) =>
      if !WriteAllowed(w.row, row) then w
      else w.(row := row,
              results := if row.result.Some? then w.results[row.generation := row.result.value] else w.results)
    case Reopen(p, row) =>
      if p in w.procs && w.procs[p].Holding? && ReopenAllowed(w.row, w.procs[p].snap, row, w.nextClaim)
      then Rotated(w, p, row, false)
      else w
  }

  function Run(w: World, es: seq<Event>): World {
    if es == [] then w else Step(Run(w, es[..|es| - 1]), es[|es| - 1])
  }

  /**
   * A goal before any recovery: nobody has started its current generation, nothing is queued, and
   * the row may predate claims altogether. A creator that still has to send the first job is a
   * process in `Sending`.
   */
  function Created(row: Row, creating: bool): World
    requires row.claimedAt.None? && row.result.None?
  {
    var bound := if row.claim.Some? then map[row.generation := row.claim.value] else map[];
    World(row, map[],
          if creating && row.claim.Some? then map[0 := Sending(row.generation, row.claim.value, false)] else map[],
          if row.claim.Some? then row.claim.value + 1 else 0, bound, [], [], map[])
  }

  /** One sweep's handling of one goal with nobody in between; four steps always suffice. */
  function Finish(w: World, p: nat): World { Advance(Advance(Advance(w, p), p), p) }

  function Pass(w: World, p: nat, a: Answers): World {
    Finish(Step(Step(w, Read(p)), Decided(p, a)), p)
  }
}
