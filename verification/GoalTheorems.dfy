/** The promises of goal recovery, over every run of the protocol. */
module GoalTheorems {
  import opened Common
  import opened GoalProtocol
  import opened GoalProofs

  ghost predicate Reachable(w: World) {
    exists row: Row, creating: bool, es: seq<Event> ::
      row.claimedAt.None? && row.result.None? && w == Run(Created(row, creating), es)
  }

  lemma ReachableInv(w: World)
    requires Reachable(w)
    ensures Inv(w)
  {
    var row: Row, creating: bool, es: seq<Event> :|
      row.claimedAt.None? && row.result.None? && w == Run(Created(row, creating), es);
    CreatedInv(row, creating);
    RunInv(Created(row, creating), es);
  }

  /**
   * Fencing: all jobs ever sent for one generation carry one claim, jobs of different generations carry
   * different ones, no job is ahead of the row, and a job of the row's generation carries the row's claim.
   */
  lemma Fencing(w: World)
    requires Reachable(w)
    ensures forall s, t :: s in w.sent && t in w.sent ==> (s.0 == t.0 <==> s.1 == t.1)
    ensures forall s :: s in w.sent ==> s.0 <= w.row.generation
    ensures forall s :: s in w.sent && s.0 == w.row.generation ==> w.row.claim == Some(s.1)
    ensures forall g :: g in w.jobs ==> (g, w.jobs[g].claim) in w.sent
  {
    ReachableInv(w);
  }

  /** The moment a rotation commits, nothing was ever sent for the new generation and no job has its id. */
  lemma RotationFindsNoJob(w: World, e: Event)
    requires Reachable(w)
    requires Step(w, e).row.generation != w.row.generation
    ensures var g := Step(w, e).row.generation;
            && g == w.row.generation + 1
            && g !in w.jobs && g !in Step(w, e).jobs
            && (forall s :: s in w.sent ==> s.0 != g && Step(w, e).row.claim != Some(s.1))
            && Step(w, e).row.claimedAt.None?
  {
    ReachableInv(w);
    StepInv(w, e);
    assert forall s :: s in w.sent ==> BoundTo(w, s.0, s.1);
    RotationNeverSent(w);
  }

  /** However many jobs, sweeps and workers there are, each generation is started at most once, in order. */
  lemma AttemptsStartOnce(w: World)
    requires Reachable(w)
    ensures forall i, j :: 0 <= i < j < |w.runs| ==> w.runs[i] < w.runs[j]
    ensures w.row.claimedAt.Some? <==> w.row.generation in w.runs
  {
    ReachableInv(w);
  }

  lemma {:induction false} RunAppend(w: World, es: seq<Event>, fs: seq<Event>)
    ensures Run(w, es + fs) == Run(Run(w, es), fs)
  {
    if fs == [] {
      assert es + fs == es;
    } else {
      assert (es + fs)[..|es + fs| - 1] == es + fs[..|fs| - 1];
      RunAppend(w, es, fs[..|fs| - 1]);
    }
  }

  /** A result is never overwritten within its generation: later steps keep it or open a later generation. */
  lemma {:induction false} ResultsAreFinal(w: World, es: seq<Event>)
    requires Reachable(w) && w.row.result.Some?
    ensures var w' := Run(w, es);
            && w.row.generation in w'.results && w'.results[w.row.generation] == w.row.result.value
            && (w'.row.generation == w.row.generation ==> w'.row.result == w.row.result)
            && w.row.generation <= w'.row.generation
  {
    ReachableInv(w);
    RunInv(w, es);
  }

  /** The one write that clears a result: a continue, by compare-and-set on the generation it read. */
  predicate Reopens(w: World, e: Event) {
    e.Reopen? && e.p in w.procs && w.procs[e.p].Holding? && ReopenAllowed(w.row, w.procs[e.p].snap, e.row, w.nextClaim)
  }

  lemma ResultChangesIff(w: World, e: Event)
    requires Inv(w) && w.row.result.Some?
    ensures Step(w, e).row.result != w.row.result <==> Reopens(w, e)
  {
    assert w.row.generation in w.results && w.results[w.row.generation] == w.row.result.value;
    if e.Reopen? {
    } else {
      StepInv(w, e);
      assert Step(w, e).row.generation == w.row.generation by { GenerationStays(w, e); }
    }
  }

  /** With a result on the row, only a continue moves the generation. */
  lemma GenerationStays(w: World, e: Event)
    requires w.row.result.Some? && !e.Reopen?
    ensures Step(w, e).row.generation == w.row.generation
  {
  }

  /** The row carried this result after every step. */
  predicate KeepsResult(w: World, es: seq<Event>) {
    Run(w, es).row.result == w.row.result && (es == [] || KeepsResult(w, es[..|es| - 1]))
  }

  predicate ReopensIn(w: World, es: seq<Event>) {
    es != [] && (ReopensIn(w, es[..|es| - 1]) || Reopens(Run(w, es[..|es| - 1]), es[|es| - 1]))
  }

  /** A result stays on the row over a whole run if and only if no continue happened in it. */
  lemma ResultsAreKeptIff(w: World, es: seq<Event>)
    requires Reachable(w) && w.row.result.Some?
    ensures KeepsResult(w, es) <==> !ReopensIn(w, es)
  {
    ReachableInv(w);
    KeptIff(w, es);
  }

  lemma {:induction false} KeptIff(w: World, es: seq<Event>)
    requires Inv(w) && w.row.result.Some?
    ensures KeepsResult(w, es) <==> !ReopensIn(w, es)
  {
    if es == [] {
    } else {
      var before := es[..|es| - 1];
      KeptIff(w, before);
      RunInv(w, before);
      if KeepsResult(w, before) { ResultChangesIff(Run(w, before), es[|es| - 1]); }
    }
  }

  /** A goal that finishes and is continued: its result leaves the row, and stays recorded for its generation. */
  lemma ContinueClearsResult(row: Row, terminal: Terminal)
    requires row.claimedAt.None? && row.result.None?
    ensures var w := Step(Created(row, false), Write(row.(result := Some(terminal))));
      var next := row.(generation := row.generation + 1, claim := Some(w.nextClaim));
      var w' := Step(Step(w, Read(0)), Reopen(0, next));
      && w.row.result == Some(terminal) && w'.row.result.None?
      && row.generation in w'.results && w'.results[row.generation] == terminal
  {
    var w := Step(Created(row, false), Write(row.(result := Some(terminal))));
    var held := Step(w, Read(0));
    assert held.procs[0] == Holding(w.row);
  }

  // ---------- an undisturbed pass ----------

  /** A live job that, delivered now, starts the goal. */
  predicate Startable(w: World) {
    w.row.generation in w.jobs && w.jobs[w.row.generation].live
    && CanClaim(w.row, w.row.generation, w.jobs[w.row.generation].claim)
  }

  lemma StartableStarts(w: World, now: int)
    requires Reachable(w) && Startable(w)
    ensures var job := (w.row.generation, w.jobs[w.row.generation].claim);
      Step(w, Deliver(job, now)).row.claimedAt == Some(now) && Step(w, Deliver(job, now)).runs == w.runs + [job.0]
  {
    ReachableInv(w);
  }

  /**
   * A delivered job starts its attempt if and only if the goal is running, unresolved and not yet claimed, and its
   * generation and claim are the job's; any other delivery changes nothing.
   */
  lemma DeliveryStartsIff(w: World, job: (nat, Claim), now: int)
    ensures var w' := Step(w, Deliver(job, now));
      if job in w.sent && w.row.generation == job.0 && w.row.claim == Some(job.1)
         && w.row.desired == Running && w.row.result.None? && w.row.claimedAt.None?
      then
        && w'.runs == w.runs + [job.0]
        && w' == w.(row := w.row.(claimedAt := Some(now), heartbeatAt := Some(now), pauseConfirmed := false),
                    runs := w'.runs)
      else w' == w
  {
  }

  lemma AfterSending(w: World, p: nat, recovery: bool)
    requires Inv(w) && w.row.generation !in w.jobs
    requires w.row.claim.Some? && p in w.procs && w.procs[p] == Sending(w.row.generation, w.row.claim.value, recovery)
    requires w.row.result.None? && w.row.desired == Running && w.row.claimedAt.None?
    ensures Startable(Advance(w, p)) && p !in Advance(w, p).procs && Advance(w, p).row == w.row
  {
  }

  /** The second half of adopting an unclaimed attempt: look the job up, then send or replace it. */
  lemma AdoptedPass(w: World, p: nat)
    requires Inv(w) && p in w.procs && w.procs[p].Adopting?
    requires w.procs[p].snap.generation == w.row.generation && w.row.claim == Some(w.procs[p].claim)
    requires w.row.result.None? && w.row.desired == Running && w.row.claimedAt.None?
    ensures Startable(Finish(w, p)) && p !in Finish(w, p).procs
  {
    var w2 := Advance(w, p);
    AdvanceInv(w, p);
    if w.row.generation !in w.jobs {
      AfterSending(w2, p, w.procs[p].snap.hasSession);
      assert Finish(w, p) == Advance(w2, p);
    } else if w.jobs[w.row.generation].live {
      assert (w.row.generation, w.jobs[w.row.generation].claim) in w.sent;
      assert Finish(w, p) == w2;
    } else {
      ReplacedPass(w2, p);
    }
  }

  lemma ReplacedPass(w: World, p: nat)
    requires Inv(w) && p in w.procs && w.procs[p].Replacing?
    requires w.procs[p].snap.generation == w.row.generation && w.row.claim == Some(w.procs[p].claim)
    requires w.row.result.None? && w.row.desired == Running && w.row.claimedAt.None?
    ensures Startable(Advance(Advance(w, p), p)) && p !in Advance(Advance(w, p), p).procs
  {
    RotationNeverSent(w);
    AdvanceInv(w, p);
    AfterSending(Advance(w, p), p, w.procs[p].snap.hasSession);
  }

  /** Reading and deciding about a goal nobody has started ends in adopting its attempt. */
  lemma DecidesToAdopt(w: World, p: nat, a: Answers)
    requires p !in w.procs
    requires w.row.result.None? && w.row.desired == Running && w.row.claimedAt.None?
    ensures var w1 := Step(Step(w, Read(p)), Decided(p, a));
            && p in w1.procs && w1.procs[p].Adopting? && w1.procs[p].snap.generation == w1.row.generation
            && w1.row == w.row.(claim := Some(w1.procs[p].claim))
  {
    assert Decide(w.row, a) == Adopt;
    var w0 := Step(w, Read(p));
    assert Step(w0, Decided(p, a)) == TryAdopt(w0, p, w.row);
  }

  lemma AdoptPass(w: World, p: nat, a: Answers)
    requires Inv(w) && p !in w.procs
    requires w.row.result.None? && w.row.desired == Running && w.row.claimedAt.None?
    ensures Startable(Pass(w, p, a)) && p !in Pass(w, p, a).procs
  {
    var w0 := Step(w, Read(p));
    StepInv(w, Read(p));
    var w1 := Step(w0, Decided(p, a));
    StepInv(w0, Decided(p, a));
    DecidesToAdopt(w, p, a);
    AdoptedPass(w1, p);
  }

  lemma RotationNeverSent(w: World)
    requires Inv(w)
    ensures w.row.generation + 1 !in w.jobs
  {
    assert forall g :: g in w.jobs ==> (g, w.jobs[g].claim).0 <= w.row.generation;
  }

  lemma RotatePass(w: World, p: nat, snap: Row)
    requires Inv(w) && CanRotateClaimed(w.row, snap)
    ensures var w' := Advance(TryRotateClaimed(w, p, snap), p); Startable(w') && p !in w'.procs
  {
    RotationNeverSent(w);
    TryRotateClaimedInv(w, p, snap);
    AfterSending(TryRotateClaimed(w, p, snap), p, true);
  }

  lemma ConfirmedPass(w: World, p: nat, snap: Row)
    requires Inv(w) && p in w.procs && w.procs[p] == Resuming(snap) && CanRotateClaimed(w.row, snap)
    ensures Startable(Finish(w, p))
  {
    RotatePass(w, p, snap);
    assert Advance(w, p) == TryRotateClaimed(w, p, snap);
    assert Finish(w, p) == Advance(TryRotateClaimed(w, p, snap), p);
  }

  lemma ConfirmPass(w: World, p: nat, snap: Row)
    requires Inv(w) && p in w.procs && snap == w.row && CanConfirm(w.row, snap) && snap.resumeRequested
    ensures Startable(Finish(TryConfirm(w, p, snap), p))
  {
    assert SnapOk(w, snap);
    TryConfirmInv(w, p, snap);
    ConfirmedPass(TryConfirm(w, p, snap), p, snap);
  }

  lemma DecidesRunning(row: Row, a: Answers)
    requires row.result.None? && row.desired == Running
    ensures row.claimedAt.None? ==> Decide(row, a) == Adopt
    ensures row.claimedAt.Some? ==>
      var seen := if row.heartbeatAt.Some? then row.heartbeatAt.value else row.claimedAt.value;
      Decide(row, a) ==
        if a.now - seen < a.staleMs then Leave
        else if row.claim.None? then FailClosed
        else if a.containerLive then SkipLive
        else if row.hasSession && row.hasWorktree then Rotate
        else FailClosed
  {
  }

  /** A process that reads and then leaves the goal alone changes nothing. */
  lemma IdlePass(w: World, p: nat, a: Answers)
    requires p !in w.procs && Decide(w.row, a) in {Leave, SkipLive}
    ensures Pass(w, p, a) == w
  {
    var w0 := Step(w, Read(p));
    assert Step(w0, Decided(p, a)) == Finished(w0, p) && Finished(w0, p).procs == w.procs;
  }

  lemma FailPass(w: World, p: nat, a: Answers)
    requires p !in w.procs && Decide(w.row, a) == FailClosed && w.row.result.None? && w.row.desired == Running
    ensures Pass(w, p, a).row == w.row.(result := Some(Failed))
    ensures Pass(w, p, a).jobs == w.jobs && Pass(w, p, a).sent == w.sent && p !in Pass(w, p, a).procs
  {
    var w0 := Step(w, Read(p));
    assert Step(w0, Decided(p, a)) == TryFail(w0, p, w.row);
  }

  lemma LostPass(w: World, p: nat, a: Answers)
    requires Reachable(w) && p !in w.procs && Decide(w.row, a) == Rotate
    ensures Startable(Pass(w, p, a)) && p !in Pass(w, p, a).procs
    ensures Pass(w, p, a).row.generation == w.row.generation + 1
  {
    ReachableInv(w);
    var w0 := Step(w, Read(p));
    StepInv(w, Read(p));
    RotatePass(w0, p, w.row);
    var w1 := TryRotateClaimed(w0, p, w.row);
    assert Step(w0, Decided(p, a)) == w1;
    assert Advance(w1, p).row == w1.row && Pass(w, p, a) == Advance(w1, p);
  }

  /**
   * No stranded goal. From every reachable state, one undisturbed pass over an unresolved running goal does one of
   * four things: an attempt nobody has started gets a live job that will start it; one whose last sign of life is
   * recent, or whose container is reported live, is left exactly as it is; one that cannot be resumed is failed; any
   * other lost one moves to the next generation, with a live job that will start it.
   */
  lemma {:induction false} NoStrandedGoal(w: World, p: nat, a: Answers)
    requires Reachable(w) && p !in w.procs && w.row.result.None? && w.row.desired == Running
    ensures p !in Pass(w, p, a).procs
    ensures w.row.claimedAt.None? ==> Startable(Pass(w, p, a))
    ensures w.row.claimedAt.Some? ==>
      var w' := Pass(w, p, a);
      var seen := if w.row.heartbeatAt.Some? then w.row.heartbeatAt.value else w.row.claimedAt.value;
      if a.now - seen < a.staleMs || (w.row.claim.Some? && a.containerLive) then w' == w
      else if w.row.claim.None? || !w.row.hasSession || !w.row.hasWorktree
      then w'.row == w.row.(result := Some(Failed)) && w'.jobs == w.jobs && w'.sent == w.sent
      else w'.row.generation == w.row.generation + 1 && Startable(w')
  {
    ReachableInv(w);
    DecidesRunning(w.row, a);
    match Decide(w.row, a)
    case Leave => IdlePass(w, p, a);
    case SkipLive => IdlePass(w, p, a);
    case Adopt => AdoptPass(w, p, a);
    case FailClosed => FailPass(w, p, a);
    case Rotate => LostPass(w, p, a);
  }

  /** A snapshot of an earlier generation, another claim or an unresolved goal since resolved writes nothing. */
  lemma OldSnapshotsWriteNothing(w: World, p: nat, snap: Row, a: Answers)
    requires snap.result.None?
    requires snap.generation != w.row.generation || snap.claim != w.row.claim || w.row.result.Some?
    ensures Act(w, p, snap, a).row == w.row && Act(w, p, snap, a).jobs == w.jobs && Act(w, p, snap, a).sent == w.sent
  {
    match Decide(snap, a)
    case Rotate => assert !CanRotateClaimed(w.row, snap);
    case Cancel => assert !CanCancel(w.row, snap);
    case Confirm => assert !CanConfirm(w.row, snap);
    case FailClosed => assert !CanFail(w.row, snap);
    case Adopt => assert snap.claim.None? ==> !CanBind(w.row, snap);
    case _ =>
  }

  lemma DecidesPaused(row: Row, a: Answers)
    requires row.result.None? && row.desired == Paused && !row.pauseConfirmed
    ensures row.claimedAt.Some? ==>
      var seen := if row.heartbeatAt.Some? then row.heartbeatAt.value else row.claimedAt.value;
      Decide(row, a) ==
        if a.now - seen < a.staleMs || (row.claim.Some? && a.containerLive && !a.stopped) then Leave else Confirm
    ensures row.claimedAt.None? ==> Decide(row, a) == Confirm
  {
  }

  /**
   * A pause its worker never confirmed is left alone while the attempt shows signs of life or its container cannot be
   * stopped; otherwise it is confirmed, and nothing else changes unless a resume was asked for.
   */
  lemma PausesAreConfirmed(w: World, p: nat, a: Answers)
    requires p !in w.procs && w.row.result.None? && w.row.desired == Paused && !w.row.pauseConfirmed
    ensures w.row.claimedAt.Some? ==>
      var seen := if w.row.heartbeatAt.Some? then w.row.heartbeatAt.value else w.row.claimedAt.value;
      && (a.now - seen < a.staleMs || (w.row.claim.Some? && a.containerLive && !a.stopped) ==> Pass(w, p, a) == w)
      && (a.now - seen >= a.staleMs && (w.row.claim.None? || !a.containerLive || a.stopped)
          && !w.row.resumeRequested ==>
            Pass(w, p, a) == w.(row := w.row.(pauseConfirmed := true)))
    ensures w.row.claimedAt.None? && !w.row.resumeRequested ==>
      Pass(w, p, a) == w.(row := w.row.(pauseConfirmed := true))
  {
    DecidesPaused(w.row, a);
    if Decide(w.row, a) == Leave {
      IdlePass(w, p, a);
    } else if !w.row.resumeRequested {
      var w0 := Step(w, Read(p));
      var w1 := Step(w0, Decided(p, a));
      assert w1 == TryConfirm(w0, p, w.row) && w1.procs == w.procs;
    }
  }

  /** A paused goal that was asked to resume is resumed by the pass that finds its pause confirmed or confirms it. */
  lemma PausedGoalResumes(w: World, p: nat, a: Answers)
    requires Reachable(w) && p !in w.procs && w.row.result.None? && w.row.desired == Paused
    requires w.row.resumeRequested
    ensures Startable(Pass(w, p, a)) <==>
      || w.row.pauseConfirmed
      || w.row.claimedAt.None?
      || (var seen := if w.row.heartbeatAt.Some? then w.row.heartbeatAt.value else w.row.claimedAt.value;
          a.now - seen >= a.staleMs && (w.row.claim.None? || !a.containerLive || a.stopped))
  {
    ReachableInv(w);
    var w0 := Step(w, Read(p));
    StepInv(w, Read(p));
    assert Pass(w, p, a) == Finish(Act(w0, p, w.row, a), p);
    match Decide(w.row, a)
    case Leave => assert Finish(Finished(w0, p), p) == Finished(w0, p);
    case Rotate =>
      RotatePass(w0, p, w.row);
      assert Finish(TryRotateClaimed(w0, p, w.row), p) == Advance(TryRotateClaimed(w0, p, w.row), p);
    case Confirm => ConfirmPass(w0, p, w.row);
  }

  lemma CancelPass(w: World, p: nat, a: Answers)
    requires p in w.procs && w.procs[p] == Holding(w.row) && w.row.result.None? && w.row.desired == Cancelled
    ensures var w' := Finish(Act(w, p, w.row, a), p);
            && w'.row.result == (if w.row.claim.None? || a.stopped then Some(WasCancelled) else None)
            && (w.row.claim.None? || a.stopped ==> w'.row.taskReconciled)
  {
    var w1 := Act(w, p, w.row, a);
    if Decide(w.row, a) == Cancel {
      assert w1.procs[p] == Marking(WasCancelled) && w1.row.result == Some(WasCancelled);
      assert p !in Advance(w1, p).procs;
    } else {
      assert p !in w1.procs;
    }
  }

  /** A cancelled goal ends cancelled, and its task is marked, exactly when nothing of it can still be running. */
  lemma CancelledGoalEnds(w: World, p: nat, a: Answers)
    requires p !in w.procs && w.row.result.None? && w.row.desired == Cancelled
    ensures Pass(w, p, a).row.result == (if w.row.claim.None? || a.stopped then Some(WasCancelled) else None)
    ensures w.row.claim.None? || a.stopped ==> Pass(w, p, a).row.taskReconciled
  {
    var w0 := Step(w, Read(p));
    CancelPass(w0, p, a);
  }
}
