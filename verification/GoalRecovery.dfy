/**
 * The recovery sweep itself, as it runs: a row, a queue, and the functions that update them one
 * statement at a time. Each is proved to do exactly what an undisturbed process of the protocol does.
 */
module GoalRecovery {
  import opened Common
  import opened GoalProtocol
  import opened GoalTheorems

  datatype JobState = Missing | Live | Terminated

  datatype RecoveryOutcome = Recovered | FailedClosed | SkippedLive | Unchanged

  /** One goal's row and the queue entries under its job ids. */
  class GoalStore {
    var row: Row
    var jobs: map<nat, Job>
    var nextClaim: Claim
    ghost var bound: map<nat, Claim>
    ghost var sent: seq<(nat, Claim)>
    ghost var runs: seq<nat>
    ghost var results: map<nat, Terminal>

    constructor (row: Row, ghost creating: bool)
      requires row.claimedAt.None? && row.result.None?
      ensures AsWorld(Created(row, creating).procs) == Created(row, creating)
    {
      this.row := row;
      jobs := map[];
      nextClaim := if row.claim.Some? then row.claim.value + 1 else 0;
      bound := if row.claim.Some? then map[row.generation := row.claim.value] else map[];
      sent, runs, results := [], [], map[];
    }

    ghost function AsWorld(procs: map<nat, Pc>): World
      reads this
    {
      World(row, jobs, procs, nextClaim, bound, sent, runs, results)
    }

    /** The world in which this sweep is process 0 and holds `goal`. */
    ghost function Sweeping(goal: Row): World
      reads this
    {
      AsWorld(map[0 := Holding(goal)])
    }

    method RandomUuid() returns (claim: Claim)
      modifies this`nextClaim
      ensures claim == old(nextClaim) && nextClaim == old(nextClaim) + 1
    {
      claim := nextClaim;
      nextClaim := nextClaim + 1;
    }

    method GetJobState(generation: nat) returns (state: JobState)
      ensures state == if generation !in jobs then Missing else if jobs[generation].live then Live else Terminated
    {
      if generation !in jobs {
        return Missing;
      }
      state := if jobs[generation].live then Live else Terminated;
    }

    method Enqueue(generation: nat, claim: Claim, recovery: bool)
      modifies this`jobs, this`sent
      ensures AsWorld(map[]) == Send(old(AsWorld(map[])), generation, claim, recovery)
      ensures sent == old(sent) + [(generation, claim)]
      ensures jobs == if generation in old(jobs) then old(jobs) else old(jobs)[generation := Job(claim, recovery, true)]
    {
      if generation !in jobs {
        jobs := jobs[generation := Job(claim, recovery, true)];
      }
      sent := sent + [(generation, claim)];
    }

    method FailIdentityLessAttempt(goal: Row) returns (changed: bool)
      modifies this`row, this`results
      ensures changed <==>
        old(row).generation == goal.generation && old(row).claim == goal.claim && old(row).desired == Running
        && old(row).result.None?
      ensures row == if changed then old(row).(result := Some(Failed)) else old(row)
      ensures AsWorld(map[]) == TryFail(old(Sweeping(goal)), 0, goal)
    {
      changed := row.generation == goal.generation && row.claim == goal.claim && row.desired == Running
                 && row.result.None?;
      if changed {
        row := row.(result := Some(Failed));
        results := results[row.generation := Failed];
      }
    }

    method RecoverClaimedAttempt(goal: Row) returns (recovered: bool)
      modifies this
      ensures recovered <==>
        old(row).generation == goal.generation && old(row).claim == goal.claim && old(row).desired == goal.desired
        && old(row).result.None?
      ensures row.result == old(row).result && (!recovered ==> row == old(row) && sent == old(sent))
      ensures recovered ==>
        && row == old(row).(desired := Running, generation := goal.generation + 1, claim := Some(old(nextClaim)),
                            claimedAt := None, heartbeatAt := None, pauseConfirmed := false, resumeRequested := false)
        && sent == old(sent) + [(row.generation, old(nextClaim))]
      ensures AsWorld(map[]) == Finish(TryRotateClaimed(old(Sweeping(goal)), 0, goal), 0)
      ensures |sent| == |old(sent)| + if recovered then 1 else 0
    {
      var generation := goal.generation + 1;
      var claimId := RandomUuid();
      var changed := row.generation == goal.generation && row.claim == goal.claim && row.desired == goal.desired
                     && row.result.None?;
      if !changed {
        FinishIdle(AsWorld(map[]));
        assert TryRotateClaimed(old(Sweeping(goal)), 0, goal) == AsWorld(map[]);
        return false;
      }
      row := row.(desired := Running, generation := generation, claim := Some(claimId), claimedAt := None,
                  heartbeatAt := None, pauseConfirmed := false, resumeRequested := false);
      bound := bound[generation := claimId];
      ghost var sending := AsWorld(map[0 := Sending(generation, claimId, true)]);
      assert TryRotateClaimed(old(Sweeping(goal)), 0, goal) == sending;
      FinishSends(sending, generation, claimId, true);
      Enqueue(generation, claimId, true);
      return true;
    }

    /** BullMQ returns a retained terminal job instead of enqueueing it again, so the attempt gets a new job id. */
    method ReplaceTerminatedAttempt(goal: Row, claimId: Claim) returns (recovered: bool)
      modifies this
      ensures AsWorld(map[]) == Advance(Advance(old(AsWorld(map[0 := Replacing(goal, claimId)])), 0), 0)
      ensures |sent| == |old(sent)| + if recovered then 1 else 0
      ensures recovered <==>
        old(row).generation == goal.generation && old(row).claim == Some(claimId) && old(row).result.None?
        && old(row).claimedAt.None?
      ensures row == if recovered then old(row).(generation := goal.generation + 1, claim := Some(old(nextClaim)))
                     else old(row)
      ensures row.result == old(row).result
    {
      var generation := goal.generation + 1;
      var rotatedClaim := RandomUuid();
      if !(row.generation == goal.generation && row.claim == Some(claimId) && row.result.None?
           && row.claimedAt.None?)
      {
        return false;
      }
      row := row.(generation := generation, claim := Some(rotatedClaim));
      bound := bound[generation := rotatedClaim];
      Enqueue(generation, rotatedClaim, goal.hasSession);
      return true;
    }

    /** Queues the attempt under its own job id unless a job is there already. */
    method EnqueueAdopted(goal: Row, claimId: Claim) returns (recovered: bool)
      modifies this
      ensures AsWorld(map[]) == Finish(old(AsWorld(map[0 := Adopting(goal, claimId)])), 0)
      ensures |sent| == |old(sent)| + if recovered then 1 else 0
      ensures row.result == old(row).result
    {
      ghost var adopted := AsWorld(map[0 := Adopting(goal, claimId)]);
      var state := GetJobState(goal.generation);
      if state == Live {
        return false;
      }
      if state == Terminated {
        assert Advance(adopted, 0).procs == map[0 := Replacing(goal, claimId)];
        recovered := ReplaceTerminatedAttempt(goal, claimId);
        return;
      }
      Enqueue(goal.generation, claimId, goal.hasSession);
      return true;
    }

    method EnqueueUnclaimedAttempt(goal: Row) returns (recovered: bool)
      modifies this
      ensures AsWorld(map[]) == Finish(TryAdopt(old(Sweeping(goal)), 0, goal), 0)
      ensures |sent| == |old(sent)| + if recovered then 1 else 0
      ensures row.result == old(row).result
    {
      var claimId;
      if goal.claim.Some? {
        claimId := goal.claim.value;
      } else {
        claimId := RandomUuid();
        if !(row.generation == goal.generation && row.result.None? && row.claim.None?) {
          return false;
        }
        row := row.(claim := Some(claimId));
        bound := bound[row.generation := claimId];
      }
      assert TryAdopt(old(Sweeping(goal)), 0, goal) == AsWorld(map[0 := Adopting(goal, claimId)]);
      recovered := EnqueueAdopted(goal, claimId);
    }

    method MarkReconciled(terminal: Terminal)
      modifies this`row
      ensures row == if old(row).result == Some(terminal) then old(row).(taskReconciled := true) else old(row)
    {
      if row.result == Some(terminal) && !row.taskReconciled {
        row := row.(taskReconciled := true);
      }
    }

    method FinishCancellation(goal: Row, a: Answers) returns (outcome: RecoveryOutcome)
      requires goal.result.None? && goal.desired == Cancelled
      modifies this
      ensures AsWorld(map[]) == Finish(Act(old(Sweeping(goal)), 0, goal, a), 0)
      ensures outcome in {Recovered, Unchanged}
      ensures outcome == Recovered <==>
        (goal.claim.None? || a.stopped) && old(row).generation == goal.generation && old(row).claim == goal.claim
        && old(row).desired == Cancelled && old(row).result.None?
      ensures row == if outcome == Recovered then old(row).(result := Some(WasCancelled), taskReconciled := true)
                     else old(row)
      ensures sent == old(sent) && (row.result == old(row).result || row.result == Some(WasCancelled))
    {
      if goal.claim.Some? && !a.stopped {
        return Unchanged;
      }
      if !(row.generation == goal.generation && row.claim == goal.claim && row.desired == Cancelled
           && row.result.None?)
      {
        return Unchanged;
      }
      row := row.(result := Some(WasCancelled));
      results := results[row.generation := WasCancelled];
      MarkReconciled(WasCancelled);
      return Recovered;
    }

    method RecoverRunning(goal: Row, a: Answers) returns (outcome: RecoveryOutcome)
      requires goal.result.None? && goal.desired == Running
      modifies this
      ensures AsWorld(map[]) == Finish(Act(old(Sweeping(goal)), 0, goal, a), 0)
      ensures outcome == FailedClosed <==> old(row).result.None? && row.result == Some(Failed)
      ensures outcome == SkippedLive <==> Decide(goal, a) == SkipLive
      ensures outcome == Recovered <==> |sent| > |old(sent)|
      ensures goal.claimedAt.Some? ==>
        var seen := if goal.heartbeatAt.Some? then goal.heartbeatAt.value else goal.claimedAt.value;
        && (a.now - seen < a.staleMs ==>
              outcome == Unchanged && row == old(row) && jobs == old(jobs) && sent == old(sent))
        && (a.now - seen >= a.staleMs && goal.claim.Some? && !a.containerLive && goal.hasSession && goal.hasWorktree ==>
              if old(row).generation == goal.generation && old(row).claim == goal.claim && old(row).desired == Running
                 && old(row).result.None?
              then outcome == Recovered && row.generation == goal.generation + 1 && row.claim == Some(old(nextClaim))
                   && sent == old(sent) + [(row.generation, old(nextClaim))]
              else outcome == Unchanged && row == old(row) && sent == old(sent))
    {
      DecidesRunning(goal, a);
      IdleSweep(old(Sweeping(goal)), goal, a);
      if !Stale(goal, a) {
        return Unchanged;
      }
      if goal.claimedAt.None? {
        var adopted := EnqueueUnclaimedAttempt(goal);
        return if adopted then Recovered else Unchanged;
      }
      if goal.claim.None? {
        var unclaimed := FailIdentityLessAttempt(goal);
        return if unclaimed then RecoveryOutcome.FailedClosed else Unchanged;
      }
      if a.containerLive {
        return SkippedLive;
      }
      if !goal.hasSession || !goal.hasWorktree {
        var lost := FailIdentityLessAttempt(goal);
        return if lost then RecoveryOutcome.FailedClosed else Unchanged;
      }
      var rotated := RecoverClaimedAttempt(goal);
      return if rotated then Recovered else Unchanged;
    }

    /** Recovery of one goal from a snapshot of its row that may be out of date. */
    method RecoverGoal(goal: Row, a: Answers) returns (outcome: RecoveryOutcome)
      modifies this
      ensures AsWorld(map[]) == Finish(Act(old(Sweeping(goal)), 0, goal, a), 0)
      ensures outcome == FailedClosed <==> old(row).result.None? && row.result == Some(Failed)
      ensures outcome == SkippedLive <==> Decide(goal, a) == SkipLive
      ensures outcome == Recovered <==>
        || |sent| > |old(sent)|
        || (Decide(goal, a) == Cancel && CanCancel(old(row), goal))
        || (Decide(goal, a) == Confirm && CanConfirm(old(row), goal))
      ensures goal.result.None? && goal.claimedAt.Some?
              && (goal.desired == Running || (goal.desired == Paused && !goal.pauseConfirmed)) ==>
        var seen := if goal.heartbeatAt.Some? then goal.heartbeatAt.value else goal.claimedAt.value;
        a.now - seen < a.staleMs ==> outcome == Unchanged && row == old(row) && jobs == old(jobs) && sent == old(sent)
      ensures goal.result.None? && goal.desired == Running && goal.claimedAt.Some? && goal.claim.Some?
              && !a.containerLive && goal.hasSession && goal.hasWorktree ==>
        var seen := if goal.heartbeatAt.Some? then goal.heartbeatAt.value else goal.claimedAt.value;
        a.now - seen >= a.staleMs ==>
          if old(row).generation == goal.generation && old(row).claim == goal.claim && old(row).desired == Running
             && old(row).result.None?
          then outcome == Recovered && row.generation == goal.generation + 1 && row.claim == Some(old(nextClaim))
               && sent == old(sent) + [(row.generation, old(nextClaim))]
          else outcome == Unchanged && row == old(row) && sent == old(sent)
    {
      if goal.result.Some? {
        MarkReconciled(goal.result.value);
        return Unchanged;
      }
      if goal.desired == Cancelled {
        outcome := FinishCancellation(goal, a);
        return;
      }
      if goal.desired == Paused && goal.resumeRequested && goal.pauseConfirmed {
        var resumed := RecoverClaimedAttempt(goal);
        return if resumed then Recovered else Unchanged;
      }
      if goal.desired == Paused {
        outcome := ConfirmPause(goal, a);
        return;
      }
      outcome := RecoverRunning(goal, a);
    }

    /** A paused goal whose worker never confirmed the pause, and which cannot resume yet. */
    method ConfirmPause(goal: Row, a: Answers) returns (outcome: RecoveryOutcome)
      requires goal.result.None? && goal.desired == Paused && !(goal.resumeRequested && goal.pauseConfirmed)
      modifies this
      ensures AsWorld(map[]) == Finish(Act(old(Sweeping(goal)), 0, goal, a), 0)
      ensures outcome == (if Decide(goal, a) == Confirm && CanConfirm(old(row), goal) then Recovered else Unchanged)
      ensures |sent| > |old(sent)| ==> outcome == Recovered
      ensures row.result == old(row).result
      ensures goal.claimedAt.Some? ==>
        var seen := if goal.heartbeatAt.Some? then goal.heartbeatAt.value else goal.claimedAt.value;
        && (a.now - seen < a.staleMs ==>
              outcome == Unchanged && row == old(row) && jobs == old(jobs) && sent == old(sent))
      ensures outcome == Recovered ==>
        old(row).generation == goal.generation && old(row).claim == goal.claim && old(row).desired == Paused
        && old(row).result.None? && (goal.claim.None? || goal.claimedAt.None? || !a.containerLive || a.stopped)
    {
      DecidesPausedOrLeft(goal, a);
      IdleSweep(old(Sweeping(goal)), goal, a);
      if Decide(goal, a) == Confirm { ConfirmSweep(old(Sweeping(goal)), goal, a); }
      if goal.pauseConfirmed || !Stale(goal, a) {
        return Unchanged;
      }
      if goal.claim.Some? && goal.claimedAt.Some? && a.containerLive && !a.stopped {
        return Unchanged;
      }
      if !(row.generation == goal.generation && row.claim == goal.claim && row.desired == Paused
           && row.result.None?)
      {
        return Unchanged;
      }
      row := row.(pauseConfirmed := true);
      if !goal.resumeRequested {
        return Recovered;
      }
      var resumed := ResumeConfirmed(goal);
      return if resumed then Recovered else Unchanged;
    }

    /** The second half of a confirmed pause that was also asked to resume. */
    method ResumeConfirmed(goal: Row) returns (resumed: bool)
      modifies this
      ensures AsWorld(map[]) == Finish(old(AsWorld(map[0 := Resuming(goal)])), 0)
      ensures resumed == CanRotateClaimed(old(row), goal) && row.result == old(row).result
      ensures |sent| == |old(sent)| + if resumed then 1 else 0
    {
      FinishResumes(AsWorld(map[0 := Resuming(goal)]), Sweeping(goal), goal);
      resumed := RecoverClaimedAttempt(goal);
    }
  }

  /** A sweep that leaves its goal alone leaves the world as it is. */
  lemma IdleSweep(w: World, goal: Row, a: Answers)
    requires w.procs == map[0 := Holding(goal)]
    ensures Decide(goal, a) in {Leave, SkipLive} ==> Finish(Act(w, 0, goal, a), 0) == w.(procs := map[])
    ensures Decide(goal, a) == FailClosed ==>
      Finish(Act(w, 0, goal, a), 0) == TryFail(w, 0, goal) && TryFail(w, 0, goal).procs == map[]
  {
  }

  lemma DecidesPausedOrLeft(goal: Row, a: Answers)
    requires goal.result.None? && goal.desired == Paused && !(goal.resumeRequested && goal.pauseConfirmed)
    ensures goal.pauseConfirmed ==> Decide(goal, a) == Leave
    ensures Decide(goal, a) in {Leave, Confirm}
  {
  }

  /** A sweep that confirms a pause, as far as its first write. */
  lemma ConfirmSweep(w: World, goal: Row, a: Answers)
    requires w.procs == map[0 := Holding(goal)] && Decide(goal, a) == Confirm
    ensures !CanConfirm(w.row, goal) ==> Finish(Act(w, 0, goal, a), 0) == w.(procs := map[])
    ensures CanConfirm(w.row, goal) ==>
      var w' := w.(row := w.row.(pauseConfirmed := true));
      Finish(Act(w, 0, goal, a), 0)
      == if goal.resumeRequested then Finish(w'.(procs := map[0 := Resuming(goal)]), 0) else w'.(procs := map[])
  {
    var w' := w.(row := w.row.(pauseConfirmed := true));
    if CanConfirm(w.row, goal) && goal.resumeRequested {
      assert At(w', 0, Resuming(goal)) == w'.(procs := map[0 := Resuming(goal)]);
      assert Act(w, 0, goal, a) == At(w', 0, Resuming(goal));
    } else {
      assert Act(w, 0, goal, a).procs == map[];
    }
  }

  lemma FinishIdle(w: World)
    requires w.procs == map[]
    ensures Finish(w, 0) == w
  {
  }

  lemma FinishSends(w: World, generation: nat, claim: Claim, recovery: bool)
    requires w.procs == map[0 := Sending(generation, claim, recovery)]
    ensures Finish(w, 0) == Send(w.(procs := map[]), generation, claim, recovery)
  {
    var sent := Finished(Send(w, generation, claim, recovery), 0);
    assert Advance(w, 0) == sent && sent.procs == map[];
    FinishIdle(sent);
  }

  /** A confirmed pause that was also asked to resume rotates as its next step. */
  lemma FinishResumes(resuming: World, holding: World, goal: Row)
    requires resuming.procs == map[0 := Resuming(goal)] && holding.procs == map[0 := Holding(goal)]
    requires resuming == holding.(procs := resuming.procs)
    ensures Finish(resuming, 0) == Finish(TryRotateClaimed(holding, 0, goal), 0)
  {
    var rotated := TryRotateClaimed(holding, 0, goal);
    assert TryRotateClaimed(resuming, 0, goal) == rotated;
    assert Advance(resuming, 0) == rotated;
    assert Advance(Advance(Advance(rotated, 0), 0), 0) == Advance(Advance(rotated, 0), 0);
  }

  /** The rows a sweep selects: unresolved goals, and resolved ones whose task is not yet marked. */
  predicate Selected(row: Row) { row.result.None? || !row.taskReconciled }

  /** What an undisturbed sweep promises for one goal it found in world `w` and left in world `w'`. */
  ghost predicate Recovers(w: World, w': World, a: Answers) {
    if Selected(w.row) then w' == Pass(w, 0, a) else w' == w
  }

  /** Not stranded: unstarted or lost, and about to be started; recent or reported live, and untouched; or failed. */
  ghost predicate Safe(w: World, w': World, a: Answers) {
    w.row.result.None? && w.row.desired == Running ==>
      if w.row.claimedAt.None? then Startable(w')
      else
        var seen := if w.row.heartbeatAt.Some? then w.row.heartbeatAt.value else w.row.claimedAt.value;
        if a.now - seen < a.staleMs || (w.row.claim.Some? && a.containerLive) then w' == w
        else Startable(w') || w'.row == w.row.(result := Some(Failed))
  }

  ghost predicate Distinct(stores: seq<GoalStore>) {
    forall i, j :: 0 <= i < j < |stores| ==> stores[i] != stores[j]
  }

  lemma PassIsFinish(w: World, a: Answers)
    requires w.procs == map[]
    ensures Pass(w, 0, a) == Finish(Act(w.(procs := map[0 := Holding(w.row)]), 0, w.row, a), 0)
  {
    assert Step(w, Read(0)).procs == map[0 := Holding(w.row)];
  }

  lemma RecoveredIsSafe(w: World, w': World, a: Answers)
    requires w.procs == map[] && Recovers(w, w', a) && Reachable(w)
    ensures Safe(w, w', a)
  {
    if w.row.result.None? && w.row.desired == Running {
      NoStrandedGoal(w, 0, a);
    }
  }

  /** The goals a sweep will handle, in table order, with the snapshots it starts from. */
  method SelectGoals(stores: seq<GoalStore>) returns (goals: seq<GoalStore>, rows: seq<Row>)
    requires Distinct(stores)
    ensures Distinct(goals) && |rows| == |goals|
    ensures forall k :: 0 <= k < |goals| ==> goals[k] in stores && rows[k] == goals[k].row
    ensures forall s :: s in stores ==> (s in goals <==> Selected(s.row))
  {
    goals, rows := [], [];
    for i := 0 to |stores|
      invariant Distinct(goals) && |rows| == |goals|
      invariant forall k :: 0 <= k < |goals| ==> goals[k] in stores[..i] && rows[k] == goals[k].row
      invariant forall s :: s in stores[..i] ==> (s in goals <==> Selected(s.row))
    {
      assert stores[i] !in stores[..i];
      if Selected(stores[i].row) {
        goals, rows := goals + [stores[i]], rows + [stores[i].row];
      }
    }
    assert stores[..|stores|] == stores;
  }

  lemma Listed(o: RecoveryOutcome)
    ensures o in {Recovered, FailedClosed, SkippedLive, Unchanged}
  {
    match o
    case Recovered =>
    case FailedClosed =>
    case SkippedLive =>
    case Unchanged =>
  }

  /** The sweep's counters after a list of outcomes. */
  function Tally(outcomes: seq<RecoveryOutcome>): (counts: map<RecoveryOutcome, nat>)
    ensures counts.Keys == {Recovered, FailedClosed, SkippedLive, Unchanged}
  {
    if outcomes == [] then map[Recovered := 0, FailedClosed := 0, SkippedLive := 0, Unchanged := 0]
    else
      var counts := Tally(outcomes[..|outcomes| - 1]);
      var last := outcomes[|outcomes| - 1];
      Listed(last);
      counts[last := counts[last] + 1]
  }

  lemma {:induction false} TallyCounts(outcomes: seq<RecoveryOutcome>, o: RecoveryOutcome)
    ensures o in Tally(outcomes) && Tally(outcomes)[o] == multiset(outcomes)[o]
  {
    Listed(o);
    if outcomes != [] {
      TallyCounts(outcomes[..|outcomes| - 1], o);
      assert outcomes == outcomes[..|outcomes| - 1] + [outcomes[|outcomes| - 1]];
    }
  }

  method Bump(counts: map<RecoveryOutcome, nat>, outcome: RecoveryOutcome, ghost outcomes: seq<RecoveryOutcome>)
    returns (counts': map<RecoveryOutcome, nat>)
    requires counts == Tally(outcomes)
    ensures counts' == Tally(outcomes + [outcome])
  {
    assert (outcomes + [outcome])[..|outcomes|] == outcomes;
    Listed(outcome);
    counts' := counts[outcome := counts[outcome] + 1];
  }

  /** One goal's world before and after its recovery, and the outcome reported for it. */
  ghost predicate Handled(w: World, w': World, a: Answers, outcome: RecoveryOutcome) {
    && w' == Pass(w, 0, a)
    && (outcome == FailedClosed <==> w.row.result.None? && w'.row.result == Some(Failed))
    && (outcome == SkippedLive <==> Decide(w.row, a) == SkipLive)
    && (outcome == Recovered <==> |w'.sent| > |w.sent| || Decide(w.row, a) in {Cancel, Confirm})
  }

  /** A reading of `Handled` that a caller does not need to look into. */
  type Report = (World, World, Answers, RecoveryOutcome) -> bool

  ghost predicate Reads(report: Report) {
    forall w, w', a, o :: Handled(w, w', a, o) ==> report(w, w', a, o)
  }

  method RecoverOne(store: GoalStore, goal: Row, a: Answers, ghost report: Report) returns (outcome: RecoveryOutcome)
    requires goal == store.row
    requires Reads(report)
    modifies store
    ensures report(old(store.AsWorld(map[])), store.AsWorld(map[]), a, outcome)
  {
    PassIsFinish(store.AsWorld(map[]), a);
    outcome := store.RecoverGoal(goal, a);
    assert Handled(old(store.AsWorld(map[])), store.AsWorld(map[]), a, outcome);
  }

  /** Handles the selected goals one after the other and counts the outcomes. */
  method RecoverEach(goals: seq<GoalStore>, rows: seq<Row>, answers: map<GoalStore, Answers>, ghost report: Report)
    returns (counts: map<RecoveryOutcome, nat>, ghost outcomes: seq<RecoveryOutcome>)
    requires Distinct(goals) && |rows| == |goals|
    requires forall k :: 0 <= k < |goals| ==> goals[k] in answers && rows[k] == goals[k].row
    requires Reads(report)
    modifies goals
    ensures |outcomes| == |goals| && counts == Tally(outcomes)
    ensures forall k :: 0 <= k < |goals| ==>
      report(old(goals[k].AsWorld(map[])), goals[k].AsWorld(map[]), answers[goals[k]], outcomes[k])
  {
    counts, outcomes := map[Recovered := 0, FailedClosed := 0, SkippedLive := 0, Unchanged := 0], [];
    for n := 0 to |goals|
      invariant |outcomes| == n && counts == Tally(outcomes)
      invariant forall k :: 0 <= k < n ==>
        report(old(goals[k].AsWorld(map[])), goals[k].AsWorld(map[]), answers[goals[k]], outcomes[k])
      invariant forall k :: n <= k < |goals| ==> unchanged(goals[k])
    {
      var outcome := RecoverOne(goals[n], rows[n], answers[goals[n]], report);
      counts := Bump(counts, outcome, outcomes);
      outcomes := outcomes + [outcome];
    }
  }

  /**
   * One sweep: read the selected rows, then handle each; `answers` is what Docker and the clock say meanwhile. Whatever
   * reachable state it finds, it leaves no unresolved running goal stranded, and it counts every outcome once.
   */
  method RecoverNonterminalGoals(stores: seq<GoalStore>, answers: map<GoalStore, Answers>)
    returns (recovered: nat, failedClosed: nat, skippedLive: nat,
             ghost goals: seq<GoalStore>, ghost outcomes: seq<RecoveryOutcome>)
    requires Distinct(stores) && forall s :: s in stores ==> s in answers
    modifies stores
    ensures Distinct(goals) && |outcomes| == |goals|
    ensures forall s :: s in stores ==>
      (s in goals <==> old(s.row).result.None? || !old(s.row).taskReconciled)
    ensures forall k :: 0 <= k < |goals| ==>
      && goals[k] in stores
      && Handled(old(goals[k].AsWorld(map[])), goals[k].AsWorld(map[]), answers[goals[k]], outcomes[k])
    ensures recovered == multiset(outcomes)[Recovered] && failedClosed == multiset(outcomes)[FailedClosed]
    ensures skippedLive == multiset(outcomes)[SkippedLive]
    ensures forall s :: s in stores && s !in goals ==> s.AsWorld(map[]) == old(s.AsWorld(map[]))
    ensures forall s :: s in stores && Reachable(old(s.AsWorld(map[]))) ==>
      Safe(old(s.AsWorld(map[])), s.AsWorld(map[]), answers[s])
  {
    var selected, rows := SelectGoals(stores);
    goals := selected;
    var counts;
    counts, outcomes := RecoverEach(selected, rows, answers, Handled);
    TallyCounts(outcomes, Recovered);
    TallyCounts(outcomes, FailedClosed);
    TallyCounts(outcomes, SkippedLive);
    recovered, failedClosed, skippedLive := counts[Recovered], counts[FailedClosed], counts[SkippedLive];
    forall s | s in stores && Reachable(old(s.AsWorld(map[])))
      ensures Safe(old(s.AsWorld(map[])), s.AsWorld(map[]), answers[s])
    {
      if s in goals {
        var k :| 0 <= k < |goals| && goals[k] == s;
        assert Handled(old(s.AsWorld(map[])), s.AsWorld(map[]), answers[s], outcomes[k]);
      }
      RecoveredIsSafe(old(s.AsWorld(map[])), s.AsWorld(map[]), answers[s]);
    }
  }
}
