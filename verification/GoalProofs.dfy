/** What every run of the goal recovery protocol keeps. */
module GoalProofs {
  import opened Common
  import opened GoalProtocol

  /** A snapshot can only be old, and if it names a claim, that is its generation's claim. */
  ghost predicate SnapOk(w: World, snap: Row) {
    snap.generation <= w.row.generation
    && (snap.claim.Some? ==> snap.generation in w.bound && w.bound[snap.generation] == snap.claim.value)
  }

  ghost predicate BoundTo(w: World, generation: nat, claim: Claim) {
    generation in w.bound && w.bound[generation] == claim
  }

  ghost predicate PcOk(w: World, pc: Pc) {
    match pc
    case Holding(snap) => SnapOk(w, snap)
    case Adopting(snap, claim) => BoundTo(w, snap.generation, claim)
    case Replacing(snap, claim) => BoundTo(w, snap.generation, claim)
    case Resuming(snap) => SnapOk(w, snap)
    case Sending(generation, claim, _) => BoundTo(w, generation, claim)
    case Marking(_) => true
  }

  /** The row's claim is the one bound to its generation; generations above it have none; no claim is reused. */
  ghost predicate ClaimsInv(w: World) {
    && w.row.claim == Lookup(w.bound, w.row.generation)
    && (forall g :: g in w.bound ==> g <= w.row.generation && w.bound[g] < w.nextClaim)
    && (forall g, h :: g in w.bound && h in w.bound && w.bound[g] == w.bound[h] ==> g == h)
  }

  ghost predicate ProcsInv(w: World) { forall p :: p in w.procs ==> PcOk(w, w.procs[p]) }

  /** Everything sent carries its generation's claim, and every queued job was sent. */
  ghost predicate QueueInv(w: World) {
    && (forall s :: s in w.sent ==> BoundTo(w, s.0, s.1))
    && (forall g :: g in w.jobs ==> (g, w.jobs[g].claim) in w.sent)
  }

  /** Started generations strictly increase, and the row is claimed exactly when its own is among them. */
  ghost predicate RunsInv(w: World) {
    && (forall i, j :: 0 <= i < j < |w.runs| ==> w.runs[i] < w.runs[j])
    && (forall i :: 0 <= i < |w.runs| ==> w.runs[i] <= w.row.generation && w.runs[i] in w.bound)
    && (w.row.claimedAt.Some? <==> w.row.generation in w.runs)
  }

  ghost predicate ResultsInv(w: World) {
    && w.row.result == Lookup(w.results, w.row.generation)
    && (forall g :: g in w.results ==> g <= w.row.generation)
  }

  ghost predicate Inv(w: World) {
    ClaimsInv(w) && ProcsInv(w) && QueueInv(w) && RunsInv(w) && ResultsInv(w)
  }

  /** What a step can never undo: bound claims, sent jobs, started attempts and results stay as they are. */
  ghost predicate Grows(w: World, w': World) {
    && Extends(w.bound, w'.bound) && Extends(w.results, w'.results)
    && w.sent <= w'.sent && w.runs <= w'.runs
    && w.row.generation <= w'.row.generation && w.nextClaim <= w'.nextClaim
  }

  /** The generation moves only by one, with a claim never used before, unstarted, and without touching the queue. */
  ghost predicate Moves(w: World, w': World) {
    w'.row.generation == w.row.generation
    || (w'.row.generation == w.row.generation + 1 && w'.row.claim == Some(w.nextClaim)
        && w'.row.claimedAt.None? && w'.jobs == w.jobs)
  }

  ghost predicate Sound(w: World, w': World) { Inv(w') && Grows(w, w') && Moves(w, w') }

  lemma CreatedInv(row: Row, creating: bool)
    requires row.claimedAt.None? && row.result.None?
    ensures Inv(Created(row, creating))
  {
  }

  /** Only claims, generation and history decide whether a local state is sound, so they carry it over. */
  lemma PcKept(w: World, w': World, pc: Pc)
    requires PcOk(w, pc) && Extends(w.bound, w'.bound) && w.row.generation <= w'.row.generation
    ensures PcOk(w', pc)
  {
  }

  /** A step that leaves generation, claim, start time, result and all histories alone. */
  ghost predicate Quiet(w: World, w': World) {
    && w'.row.generation == w.row.generation && w'.row.claim == w.row.claim
    && w'.row.claimedAt == w.row.claimedAt && w'.row.result == w.row.result
    && w'.bound == w.bound && w'.sent == w.sent && w'.runs == w.runs && w'.results == w.results
    && w.nextClaim <= w'.nextClaim
  }

  lemma QuietInv(w: World, w': World)
    requires Inv(w) && Quiet(w, w')
    requires forall p :: p in w'.procs ==> PcOk(w, w'.procs[p])
    requires forall g :: g in w'.jobs ==> g in w.jobs && w'.jobs[g].claim == w.jobs[g].claim
    ensures Sound(w, w')
  {
    forall p | p in w'.procs ensures PcOk(w', w'.procs[p]) { PcKept(w, w', w'.procs[p]); }
  }

  lemma FinishedInv(w: World, p: nat)
    requires Inv(w)
    ensures Sound(w, Finished(w, p))
  {
    QuietInv(w, Finished(w, p));
  }

  lemma AtInv(w: World, p: nat, pc: Pc)
    requires Inv(w) && PcOk(w, pc)
    ensures Sound(w, At(w, p, pc))
  {
    QuietInv(w, At(w, p, pc));
  }

  lemma EndInv(w: World, terminal: Terminal)
    requires Inv(w) && w.row.result.None?
    ensures Sound(w, End(w, terminal))
  {
    var w' := End(w, terminal);
    forall p | p in w'.procs ensures PcOk(w', w'.procs[p]) { PcKept(w, w', w'.procs[p]); }
  }

  lemma SendInv(w: World, generation: nat, claim: Claim, recovery: bool)
    requires Inv(w) && BoundTo(w, generation, claim)
    ensures Sound(w, Send(w, generation, claim, recovery))
  {
    var w' := Send(w, generation, claim, recovery);
    assert w'.sent[|w.sent|] == (generation, claim);
    forall p | p in w'.procs ensures PcOk(w', w'.procs[p]) { PcKept(w, w', w'.procs[p]); }
  }

  /** Writing a claim: the row gets a claim never used before, for its own or the next generation. */
  lemma ClaimWritten(w: World, w': World)
    requires Inv(w)
    requires w'.row.claim == Some(w.nextClaim) && w'.nextClaim == w.nextClaim + 1
    requires w'.bound == w.bound[w'.row.generation := w.nextClaim]
    requires w'.jobs == w.jobs && w'.sent == w.sent && w'.runs == w.runs && w'.results == w.results
    requires w'.row.claimedAt.None? && w'.row.result.None?
    requires w'.row.generation == w.row.generation + 1
      || (w'.row.generation == w.row.generation && w.row.claim.None? && w.row.claimedAt.None? && w.row.result.None?)
    requires forall p :: p in w'.procs ==> PcOk(w, w'.procs[p]) || PcOk(w', w'.procs[p])
    ensures Sound(w, w')
  {
    assert Extends(w.bound, w'.bound);
    forall p | p in w'.procs ensures PcOk(w', w'.procs[p]) {
      if PcOk(w, w'.procs[p]) { PcKept(w, w', w'.procs[p]); }
    }
  }

  lemma RotatedInv(w: World, p: nat, row: Row, recovery: bool)
    requires Inv(w)
    requires row.generation == w.row.generation + 1 && row.claim == Some(w.nextClaim)
    requires row.claimedAt.None? && row.result.None?
    ensures Sound(w, Rotated(w, p, row, recovery))
  {
    ClaimWritten(w, Rotated(w, p, row, recovery));
  }

  lemma TryRotateClaimedInv(w: World, p: nat, snap: Row)
    requires Inv(w)
    ensures Sound(w, TryRotateClaimed(w, p, snap))
  {
    if CanRotateClaimed(w.row, snap) {
      RotatedInv(w, p, RotateClaimed(w.row, snap, w.nextClaim), true);
    } else {
      QuietInv(w, TryRotateClaimed(w, p, snap));
    }
  }

  lemma TryConfirmInv(w: World, p: nat, snap: Row)
    requires Inv(w) && SnapOk(w, snap)
    ensures Sound(w, TryConfirm(w, p, snap))
  {
    if CanConfirm(w.row, snap) {
      var w' := w.(row := w.row.(pauseConfirmed := true));
      QuietInv(w, w');
      if snap.resumeRequested { AtInv(w', p, Resuming(snap)); } else { FinishedInv(w', p); }
    } else {
      FinishedInv(w, p);
    }
  }

  lemma TryAdoptInv(w: World, p: nat, snap: Row)
    requires Inv(w) && SnapOk(w, snap)
    ensures Sound(w, TryAdopt(w, p, snap))
  {
    if snap.claim.None? && CanBind(w.row, snap) {
      ClaimWritten(w, TryAdopt(w, p, snap));
    } else {
      QuietInv(w, TryAdopt(w, p, snap));
    }
  }

  lemma TryCancelInv(w: World, p: nat, snap: Row)
    requires Inv(w)
    ensures Sound(w, TryCancel(w, p, snap))
  {
    if CanCancel(w.row, snap) {
      EndInv(w, WasCancelled);
      AtInv(End(w, WasCancelled), p, Marking(WasCancelled));
    } else {
      FinishedInv(w, p);
    }
  }

  lemma TryFailInv(w: World, p: nat, snap: Row)
    requires Inv(w)
    ensures Sound(w, TryFail(w, p, snap))
  {
    if CanFail(w.row, snap) {
      EndInv(w, Failed);
      FinishedInv(End(w, Failed), p);
    } else {
      FinishedInv(w, p);
    }
  }

  lemma ActInv(w: World, p: nat, snap: Row, a: Answers)
    requires Inv(w) && SnapOk(w, snap)
    ensures Sound(w, Act(w, p, snap, a))
  {
    match Decide(snap, a)
    case Leave => FinishedInv(w, p);
    case SkipLive => FinishedInv(w, p);
    case Reconcile => AtInv(w, p, Marking(snap.result.value));
    case Cancel => TryCancelInv(w, p, snap);
    case Confirm => TryConfirmInv(w, p, snap);
    case Rotate => TryRotateClaimedInv(w, p, snap);
    case Adopt => TryAdoptInv(w, p, snap);
    case FailClosed => TryFailInv(w, p, snap);
  }

  lemma ReplacingInv(w: World, p: nat, snap: Row, claim: Claim)
    requires Inv(w) && p in w.procs && w.procs[p] == Replacing(snap, claim)
    ensures Sound(w, Advance(w, p))
  {
    if CanReplace(w.row, snap, claim) {
      RotatedInv(w, p, Replace(w.row, snap, w.nextClaim), snap.hasSession);
    } else {
      QuietInv(w, Advance(w, p));
    }
  }

  lemma AdoptingInv(w: World, p: nat, snap: Row, claim: Claim)
    requires Inv(w) && p in w.procs && w.procs[p] == Adopting(snap, claim)
    ensures Sound(w, Advance(w, p))
  {
    assert PcOk(w, w.procs[p]);
    if snap.generation !in w.jobs {
      AtInv(w, p, Sending(snap.generation, claim, snap.hasSession));
    } else if w.jobs[snap.generation].live {
      FinishedInv(w, p);
    } else {
      AtInv(w, p, Replacing(snap, claim));
    }
  }

  lemma MarkingInv(w: World, p: nat, terminal: Terminal)
    requires Inv(w) && p in w.procs && w.procs[p] == Marking(terminal)
    ensures Sound(w, Advance(w, p))
  {
    var w' := if CanMark(w.row, terminal) then w.(row := w.row.(taskReconciled := true)) else w;
    QuietInv(w, w');
    FinishedInv(w', p);
  }

  lemma AdvanceInv(w: World, p: nat)
    requires Inv(w)
    ensures Sound(w, Advance(w, p))
  {
    if p in w.procs {
      assert PcOk(w, w.procs[p]);
      match w.procs[p]
      case Holding(_) =>
      case Adopting(snap, claim) => AdoptingInv(w, p, snap, claim);
      case Replacing(snap, claim) => ReplacingInv(w, p, snap, claim);
      case Resuming(snap) => TryRotateClaimedInv(w, p, snap);
      case Sending(generation, claim, recovery) =>
        SendInv(w, generation, claim, recovery);
        FinishedInv(Send(w, generation, claim, recovery), p);
      case Marking(terminal) => MarkingInv(w, p, terminal);
    }
  }

  lemma DeliverInv(w: World, job: (nat, Claim), now: int)
    requires Inv(w)
    ensures Sound(w, Step(w, Deliver(job, now)))
  {
    var w' := Step(w, Deliver(job, now));
    if w' != w {
      assert w'.runs[|w.runs|] == w.row.generation;
      assert forall i :: 0 <= i < |w.runs| ==> w.runs[i] in w.runs && w.runs[i] != w.row.generation;
      forall p | p in w'.procs ensures PcOk(w', w'.procs[p]) { PcKept(w, w', w'.procs[p]); }
    }
  }

  lemma WriteInv(w: World, row: Row)
    requires Inv(w) && WriteAllowed(w.row, row)
    ensures Sound(w, Step(w, Write(row)))
  {
    var kept := w.(row := row.(result := w.row.result));
    QuietInv(w, kept);
    if row.result == w.row.result {
      assert Step(w, Write(row)) == kept;
    } else {
      EndInv(kept, row.result.value);
      assert Step(w, Write(row)) == End(kept, row.result.value);
    }
  }

  lemma StepInv(w: World, e: Event)
    requires Inv(w)
    ensures Sound(w, Step(w, e))
  {
    match e
    case Read(p) => if p !in w.procs { AtInv(w, p, Holding(w.row)); }
    case Decided(p, a) =>
      if p in w.procs && w.procs[p].Holding? {
        assert PcOk(w, w.procs[p]);
        ActInv(w, p, w.procs[p].snap, a);
      }
    case Proceed(p) => AdvanceInv(w, p);
    case Crash(p) => FinishedInv(w, p);
    case Deliver(job, now) => DeliverInv(w, job, now);
    case Retire(generation) => QuietInv(w, Step(w, e));
    case Evict(generation) => QuietInv(w, Step(w, e));
    case Write(row) => if WriteAllowed(w.row, row) { WriteInv(w, row); }
    case Reopen(p, row) =>
      if p in w.procs && w.procs[p].Holding? && ReopenAllowed(w.row, w.procs[p].snap, row, w.nextClaim) {
        RotatedInv(w, p, row, false);
      }
  }

  lemma {:induction false} RunInv(w: World, es: seq<Event>)
    requires Inv(w)
    ensures Inv(Run(w, es)) && Grows(w, Run(w, es))
  {
    if es != [] {
      RunInv(w, es[..|es| - 1]);
      StepInv(Run(w, es[..|es| - 1]), es[|es| - 1]);
    }
  }
}
