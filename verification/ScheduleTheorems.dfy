/** What the schedule protocol keeps over every run: the dispatch obligation, and the partition of due slots. */
module ScheduleTheorems {
  import opened Common
  import opened ScheduleProtocol

  // ---------- the dispatch obligation ----------

  /** A receipt that still waits for its first enqueue. */
  predicate Undispatched(w: World, slot: int) {
    slot in w.receipts && w.receipts[slot].state == Queued && !w.receipts[slot].dispatched
  }

  /** Whoever waits for dispatch is still pending, and nothing is released without a receipt. */
  ghost predicate Obligation(w: World) {
    && (forall s :: Undispatched(w, s) ==> w.schedule.pending == Some(s))
    && (forall s :: s in w.released ==> s in w.receipts)
  }

  /** A slot that has no receipt yet is still pending while anyone is about to record it. */
  ghost predicate Owed(w: World, slot: int) { slot in w.receipts || w.schedule.pending == Some(slot) }

  ghost predicate PcOk(w: World, pc: Pc) {
    match pc
    case Admitted(slot, scheduled, enabled) => scheduled && enabled ==> Owed(w, slot)
    case Creating(slot) => Owed(w, slot)
    case Dispatching(slot) => slot in w.receipts
    case Retracting(slot) => slot in w.receipts
    case Releasing(slot) => slot in w.receipts && !Undispatched(w, slot)
    case _ => true
  }

  ghost predicate ProcsOk(w: World) { forall p :: p in w.procs ==> PcOk(w, w.procs[p]) }

  /** Every slot ever claimed is still pending or has its receipt. */
  ghost predicate ClaimsOk(w: World) { forall k :: 0 <= k < |w.claims| ==> Owed(w, w.claims[k].slot) }

  ghost predicate Inv(w: World) { Obligation(w) && ProcsOk(w) }

  lemma StartInv(s: Schedule)
    ensures Inv(Start(s))
  {
  }

  /** A step that changes neither receipts nor pending slot, and leaves only sound local states. */
  lemma QuietInv(w: World, w': World)
    requires Inv(w)
    requires w'.receipts == w.receipts && w'.schedule.pending == w.schedule.pending
    requires w'.released == w.released
    requires forall p :: p in w'.procs ==> PcOk(w, w'.procs[p])
    ensures Inv(w')
  {
    assert forall s :: Undispatched(w', s) == Undispatched(w, s) && Owed(w', s) == Owed(w, s);
    assert forall pc :: PcOk(w', pc) == PcOk(w, pc);
  }

  lemma AtInv(w: World, p: nat, pc: Pc)
    requires Inv(w) && PcOk(w, pc)
    ensures Inv(At(w, p, pc))
  {
    QuietInv(w, At(w, p, pc));
  }

  lemma FinishedInv(w: World, p: nat)
    requires Inv(w)
    ensures Inv(Finished(w, p))
  {
    QuietInv(w, Finished(w, p));
  }

  /** Receipts only move away from waiting. */
  lemma ReceiptsInv(w: World, w': World)
    requires Inv(w)
    requires w'.schedule == w.schedule && w'.released == w.released && w'.procs == w.procs
    requires forall s :: s in w.receipts ==> s in w'.receipts
    requires forall s :: Undispatched(w', s) ==>
      Undispatched(w, s) || (s !in w.receipts && w.schedule.pending == Some(s))
    ensures Inv(w')
  {
    forall p | p in w'.procs ensures PcOk(w', w'.procs[p]) {
      assert PcOk(w, w.procs[p]);
    }
  }

  lemma ClaimInv(w: World, p: nat, slot: int, next: int)
    requires Inv(w) && p in w.procs && w.procs[p].Listed?
    ensures Inv(Step(w, Claimed(p, slot, next)))
  {
    var pc := w.procs[p];
    var w' := Step(w, Claimed(p, slot, next));
    if pc.pendingSlot.None? && pc.next.Some? && CanClaim(w.schedule, pc.next.value) {
      assert forall s :: Owed(w, s) ==> Owed(w', s);
      assert forall s :: Undispatched(w', s) == Undispatched(w, s);
      forall q | q in w'.procs ensures PcOk(w', w'.procs[q]) {
        assert q in w.procs;
        assert PcOk(w, w.procs[q]);
      }
    } else {
      QuietInv(w, w');
    }
  }

  lemma CreateInv(w: World, p: nat, slot: int, a: Answers)
    requires Inv(w) && Owed(w, slot)
    ensures Inv(CreateStep(w, p, slot, a))
  {
    if !a.valid {
      AtInv(w, p, Skipping(slot));
    } else {
      var w1 := Insert(w, slot, InitialState(a.gate));
      ReceiptsInv(w, w1);
      AtInv(w1, p, AfterReceipt(w1.receipts[slot].state, slot));
    }
  }

  lemma DispatchInv(w: World, p: nat, slot: int, a: Answers)
    requires Inv(w) && slot in w.receipts
    ensures Inv(DispatchStep(w, p, slot, a))
  {
    ReceiptsInv(w, Dispatched(w, slot));
    match a.delivery
    case Accepted => AtInv(Dispatched(w, slot), p, Releasing(slot));
    case Refused => FinishedInv(w, p);
    case Lost => FinishedInv(Dispatched(w, slot), p);
  }

  lemma SkipInv(w: World, p: nat, slot: int)
    requires Inv(w)
    ensures Inv(SkipStep(w, p, slot))
  {
    if slot in w.receipts && w.receipts[slot].state == Queued {
      AtInv(w, p, Retracting(slot));
    } else {
      var w1 := Insert(w, slot, Skipped);
      ReceiptsInv(w, w1);
      AtInv(w1, p, Releasing(slot));
    }
  }

  lemma RetractInv(w: World, slot: int)
    requires Inv(w)
    ensures Inv(Retract(w, slot))
  {
    ReceiptsInv(w, Retract(w, slot));
  }

  lemma ReleaseInv(w: World, slot: int)
    requires Inv(w) && slot in w.receipts && !Undispatched(w, slot)
    ensures Inv(Release(w, slot))
  {
    var w' := Release(w, slot);
    assert forall s :: Undispatched(w', s) == Undispatched(w, s);
    assert forall s :: Owed(w, s) ==> Owed(w', s);
    forall p | p in w'.procs ensures PcOk(w', w'.procs[p]) { assert PcOk(w, w.procs[p]); }
  }

  lemma DecideInv(w: World, p: nat, a: Answers)
    requires Inv(w) && p in w.procs && w.procs[p].Admitted?
    ensures Inv(DecideStep(w, p, w.procs[p], a))
  {
    assert PcOk(w, w.procs[p]);
    QuietInv(w, DecideStep(w, p, w.procs[p], a));
  }

  lemma AdvanceInv(w: World, p: nat, a: Answers)
    requires Inv(w) && !Drops(w, Proceed(p, a))
    ensures Inv(Advance(w, p, a))
  {
    if p in w.procs {
      assert PcOk(w, w.procs[p]);
      match w.procs[p]
      case Listed(_, _, _) =>
      case Holding(slot) => QuietInv(w, AdmitStep(w, p, slot));
      case Admitted(_, _, _) => DecideInv(w, p, a);
      case Creating(slot) => CreateInv(w, p, slot, a);
      case Dispatching(slot) => DispatchInv(w, p, slot, a);
      case Skipping(slot) => SkipInv(w, p, slot);
      case Retracting(slot) =>
        RetractInv(w, slot);
        AtInv(Retract(w, slot), p, Releasing(slot));
      case Releasing(slot) =>
        ReleaseInv(w, slot);
        FinishedInv(Release(w, slot), p);
      case Offboarding(slot) => QuietInv(w, OffboardStep(w, p, slot));
      case Withdrawing(slot) =>
        RetractInv(w, slot);
        AtInv(Retract(w, slot), p, Disabling);
    }
  }

  lemma StepInv(w: World, e: Event)
    requires Inv(w) && !Drops(w, e)
    ensures Inv(Step(w, e))
  {
    match e
    case List(p, now) => QuietInv(w, Step(w, e));
    case Claimed(p, slot, next) => if p in w.procs && w.procs[p].Listed? { ClaimInv(w, p, slot, next); }
    case Broken(p) => QuietInv(w, Step(w, e));
    case Proceed(p, a) => AdvanceInv(w, p, a);
    case Crash(p) => FinishedInv(w, p);
    case Work(slot) => ReceiptsInv(w, Step(w, e));
    case Edit(_, _, _) => QuietInv(w, Step(w, e));
  }

  lemma {:induction false} RunInv(w: World, es: seq<Event>)
    requires Inv(w) && Keeps(w, es)
    ensures Inv(Run(w, es))
  {
    if es != [] {
      RunInv(w, es[..|es| - 1]);
      StepInv(Run(w, es[..|es| - 1]), es[|es| - 1]);
    }
  }

  /** Without a drop, a slot that is pending or recorded stays so. */
  lemma StepOwed(w: World, e: Event, slot: int)
    requires Inv(w) && !Drops(w, e) && Owed(w, slot)
    ensures Owed(Step(w, e), slot)
  {
    if e.Proceed? && e.p in w.procs { assert PcOk(w, w.procs[e.p]); }
  }

  lemma {:induction false} RunClaims(w: World, es: seq<Event>)
    requires Inv(w) && Keeps(w, es) && ClaimsOk(w)
    ensures ClaimsOk(Run(w, es))
  {
    if es != [] {
      var before := Run(w, es[..|es| - 1]);
      var e := es[|es| - 1];
      RunClaims(w, es[..|es| - 1]);
      RunInv(w, es[..|es| - 1]);
      ClaimsGrow(before, e);
      forall k | 0 <= k < |before.claims| ensures Owed(Step(before, e), before.claims[k].slot) {
        StepOwed(before, e, before.claims[k].slot);
      }
    }
  }

  /** Claims are only ever added, and an added one's slot is pending. */
  lemma ClaimsGrow(w: World, e: Event)
    ensures var w' := Step(w, e);
            w'.claims == w.claims
            || (e.Claimed? && |w'.claims| == |w.claims| + 1 && w.claims == w'.claims[..|w.claims|]
                && w'.schedule.pending == Some(w'.claims[|w.claims|].slot))
  {
  }

  /**
   * The dispatch obligation, over every run of any number of sweeps with crashes and failed enqueues
   * anywhere, as long as no sweep turns the schedule off: a queued receipt that was never enqueued has its
   * slot pending, a released slot has its receipt, and no claimed slot is forgotten.
   */
  lemma {:induction false} DispatchObligation(s: Schedule, es: seq<Event>)
    requires Keeps(Start(s), es)
    ensures Obligation(Run(Start(s), es)) && ClaimsOk(Run(Start(s), es))
  {
    StartInv(s);
    RunInv(Start(s), es);
    RunClaims(Start(s), es);
  }

  /**
   * In every such run, whatever other sweeps did since it was admitted, a sweep that is about to start work holds a
   * slot that is still pending or already recorded, and one about to release holds a slot that needs no dispatch.
   */
  lemma {:induction false} AdmittedSlotsAreOwed(s: Schedule, es: seq<Event>, p: nat)
    requires Keeps(Start(s), es) && p in Run(Start(s), es).procs
    ensures var w := Run(Start(s), es); var pc := w.procs[p];
      && ((pc.Admitted? && pc.scheduleEnabled && pc.enabled) || pc.Creating? ==> Owed(w, pc.slot))
      && (pc.Releasing? ==> pc.slot in w.receipts && !Undispatched(w, pc.slot))
  {
    StartInv(s);
    RunInv(Start(s), es);
    assert PcOk(Run(Start(s), es), Run(Start(s), es).procs[p]);
  }
}
