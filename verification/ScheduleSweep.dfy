/**
 * The schedule sweep as it runs, over the definition's columns and its run receipts. Each function is
 * proved to do what an undisturbed process of the protocol does.
 */
module ScheduleSweep {
  import opened Common
  import opened CronSearch
  import opened ScheduleProtocol
  import opened ScheduleTheorems

  datatype Outcome = Created | Existing | Invalid | Disabled | LostSlot | NoOutcome | Threw

  datatype TriggerResult = Triggered(state: RunState, created: bool, enqueued: bool) | AgentInvalid | TriggerThrew

  /** Three more steps of an uninterrupted sweep. */
  function Rest(w: World, p: nat, a: Answers): World { Advance(Advance(Advance(w, p, a), p, a), p, a) }

  /** What an uninterrupted sweep does once it is admitted; four steps always suffice. */
  function Finish(w: World, p: nat, a: Answers): World { Rest(Advance(w, p, a), p, a) }

  /** The slot has a receipt that needs no dispatch by the sweep, and is no longer pending. */
  predicate Settled(w: World, slot: int) {
    slot in w.receipts && !Undispatched(w, slot) && w.schedule.pending != Some(slot)
  }

  /** There is no cron, or it has no occurrence in the window after some time the search may evaluate it at. */
  ghost predicate Unevaluable(cron: Option<Cron>, from: int, now: int) {
    cron.None? || exists t :: from - MINUTE < t <= now && Barren(cron.value, t)
  }

  class DefinitionStore {
    var schedule: Schedule
    var receipts: map<int, Receipt>
    var attemptedAt: Option<int>
    ghost var claims: seq<Claim>
    ghost var released: set<int>

    constructor (schedule: Schedule)
      ensures AsWorld(map[]) == Start(schedule)
    {
      this.schedule := schedule;
      receipts, attemptedAt, claims, released := map[], None, [], {};
    }

    ghost function AsWorld(procs: map<nat, Pc>): World
      reads this
    {
      World(schedule, receipts, procs, claims, released)
    }

    /** The world in which this sweep is process 0 and stands at `pc`. */
    ghost function Sweep(pc: Pc): World
      reads this
    {
      AsWorld(map[0 := pc])
    }

    method ClaimScheduleSlot(from: int, next: int, slot: int) returns (claimed: bool)
      modifies this
      ensures claimed <==>
        old(schedule).nextRunAt == Some(from) && old(schedule).scheduleEnabled && old(schedule).enabled
        && old(schedule).pending.None?
      ensures schedule ==
        if claimed then old(schedule).(nextRunAt := Some(next), pending := Some(slot)) else old(schedule)
      ensures claims == (if claimed then old(claims) + [Claim(from, slot, next)] else old(claims))
      ensures receipts == old(receipts) && released == old(released)
    {
      claimed := schedule.nextRunAt == Some(from) && schedule.scheduleEnabled && schedule.enabled
                 && schedule.pending.None?;
      if claimed {
        schedule := schedule.(nextRunAt := Some(next), pending := Some(slot));
        claims := claims + [Claim(from, slot, next)];
      }
    }

    /** Notes the attempt, so that other pending slots come first next time. */
    method AdmitScheduleSlot(slot: int, now: int) returns (definition: Option<Schedule>)
      modifies this`attemptedAt
      ensures definition == if schedule.pending == Some(slot) then Some(schedule) else None
      ensures attemptedAt == if schedule.pending == Some(slot) then Some(now) else old(attemptedAt)
    {
      if schedule.pending != Some(slot) {
        return None;
      }
      attemptedAt := Some(now);
      return Some(schedule);
    }

    method ReleaseScheduleSlot(slot: int)
      modifies this`schedule, this`released
      ensures AsWorld(map[]) == Release(old(AsWorld(map[])), slot) && released == old(released) + {slot}
      ensures schedule == if old(schedule).pending == Some(slot) then old(schedule).(pending := None) else old(schedule)
    {
      if schedule.pending == Some(slot) {
        schedule := schedule.(pending := None);
      }
      released := released + {slot};
    }

    method DisableSchedule() returns (disabled: bool)
      modifies this`schedule
      ensures schedule == Disable(old(schedule)) && disabled == old(schedule).scheduleEnabled
      ensures schedule.pending.None? && !schedule.scheduleEnabled && schedule.enabled == old(schedule).enabled
      ensures schedule.nextRunAt == if disabled then None else old(schedule).nextRunAt
    {
      schedule := schedule.(pending := None);
      disabled := schedule.scheduleEnabled;
      if disabled {
        schedule := schedule.(scheduleEnabled := false, nextRunAt := None);
      }
    }

    /** Inserts a receipt unless the slot has one, and returns the stored one's state. */
    method CreateAgentRun(slot: int, initial: RunState) returns (state: RunState, created: bool)
      modifies this`receipts
      ensures AsWorld(map[]) == Insert(old(AsWorld(map[])), slot, initial)
      ensures slot in receipts && state == receipts[slot].state && created == (slot !in old(receipts))
      ensures receipts == if created then old(receipts)[slot := Receipt(initial, false)] else old(receipts)
    {
      created := slot !in receipts;
      if created {
        receipts := receipts[slot := Receipt(initial, false)];
      }
      state := receipts[slot].state;
    }

    /** Moves a receipt that was seen queued to skipped if it still is, and returns its state. */
    method SkipQueuedReceipt(slot: int, seen: RunState) returns (state: RunState)
      requires slot in receipts
      modifies this`receipts
      ensures AsWorld(map[]) == if seen == Queued then Retract(old(AsWorld(map[])), slot) else old(AsWorld(map[]))
      ensures slot in receipts && state == if seen == Queued then receipts[slot].state else seen
      ensures seen == Queued ==> receipts[slot].state != Queued
      ensures receipts[slot] == old(receipts)[slot]
              || (old(receipts)[slot].state == Queued && receipts[slot] == old(receipts)[slot].(state := Skipped))
    {
      if seen != Queued {
        return seen;
      }
      if receipts[slot].state == Queued {
        receipts := receipts[slot := receipts[slot].(state := Skipped)];
      }
      state := receipts[slot].state;
    }

    /** A skipped receipt for the slot; a replayed one that is still queued starts no new work either. */
    method RecordSkippedSlot(slot: int) returns (state: RunState, created: bool)
      modifies this`receipts
      ensures slot in receipts && receipts[slot].state != Queued && state == receipts[slot].state
      ensures created == (slot !in old(receipts))
      ensures schedule == old(schedule) && claims == old(claims) && released == old(released)
      ensures receipts == old(receipts)[slot :=
        if slot !in old(receipts) then Receipt(Skipped, false)
        else if old(receipts)[slot].state == Queued then old(receipts)[slot].(state := Skipped)
        else old(receipts)[slot]]
    {
      state, created := CreateAgentRun(slot, Skipped);
      if !created {
        state := SkipQueuedReceipt(slot, state);
      }
    }

    /** Hands the receipt's job to the queue; a lost answer leaves the job queued although the call fails. */
    method Dispatch(slot: int, a: Answers) returns (ok: bool)
      requires slot in receipts
      modifies this`receipts
      ensures AsWorld(map[]) ==
        if a.delivery == Refused then old(AsWorld(map[])) else Dispatched(old(AsWorld(map[])), slot)
      ensures ok == (a.delivery == Accepted)
      ensures receipts == old(receipts)[slot := old(receipts)[slot].(dispatched :=
                                                  old(receipts)[slot].dispatched || a.delivery != Refused)]
    {
      if a.delivery != Refused {
        receipts := receipts[slot := receipts[slot].(dispatched := true)];
      }
      ok := a.delivery == Accepted;
    }

    /** The trigger primitive as the schedule calls it: a failed enqueue leaves the receipt queued. */
    method Trigger(slot: int, a: Answers) returns (r: TriggerResult)
      modifies this`receipts
      ensures var w := old(AsWorld(map[]));
        AsWorld(map[]) ==
          if slot in w.receipts || !a.valid then w
          else if a.gate != Proceeds || a.delivery == Refused then Insert(w, slot, InitialState(a.gate))
          else Dispatched(Insert(w, slot, Queued), slot)
      ensures r ==
        if slot in old(receipts) then Triggered(old(receipts)[slot].state, false, false)
        else if !a.valid then AgentInvalid
        else if a.gate != Proceeds then Triggered(if a.gate == Skips then Skipped else Deferred, true, false)
        else if a.delivery == Accepted then Triggered(Queued, true, true)
        else TriggerThrew
    {
      if slot in receipts {
        return Triggered(receipts[slot].state, false, false);
      }
      if !a.valid {
        return AgentInvalid;
      }
      var state, created := CreateAgentRun(slot, InitialState(a.gate));
      if !created || state != Queued {
        return Triggered(state, created, false);
      }
      var ok := Dispatch(slot, a);
      return if ok then Triggered(state, created, true) else TriggerThrew;
    }

    /** The slot starts no new work: record it as skipped and release it. */
    method SkipSlot(slot: int, ghost a: Answers) returns (outcome: Outcome)
      modifies this
      ensures claims == old(claims)
      ensures AsWorld(map[]) == Rest(old(Sweep(Skipping(slot))), 0, a)
      ensures outcome == if slot in old(receipts) then Existing else Invalid
      ensures Settled(AsWorld(map[]), slot)
      ensures slot in receipts && receipts[slot].state != Queued && schedule.pending != Some(slot)
      ensures slot !in old(receipts) ==> receipts[slot] == Receipt(Skipped, false)
    {
      var state, created := RecordSkippedSlot(slot);
      ghost var skipped := Sweep(Releasing(slot));
      ReleaseScheduleSlot(slot);
      assert Advance(skipped, 0, a) == AsWorld(map[]);
      return if created then Invalid else Existing;
    }

    /** The owner left: withdraw a receipt that may not have been dispatched, then turn the schedule off. */
    method Offboard(slot: int, ghost a: Answers) returns (outcome: Outcome)
      modifies this
      ensures claims == old(claims)
      ensures AsWorld(map[]) == Rest(old(Sweep(Offboarding(slot))), 0, a)
      ensures outcome == if old(schedule).scheduleEnabled then Disabled else NoOutcome
      ensures slot in receipts ==> receipts[slot].state != Queued
      ensures schedule.pending.None? && !schedule.scheduleEnabled
      ensures receipts.Keys == old(receipts).Keys
    {
      if slot in receipts {
        var state := SkipQueuedReceipt(slot, receipts[slot].state);
      }
      var disabled := DisableSchedule();
      return if disabled then Disabled else NoOutcome;
    }

    /** Release after a receipt was returned, dispatching it first if it may still wait. */
    method ReleaseReceipt(slot: int, state: RunState, a: Answers) returns (released: bool)
      requires slot in receipts
      modifies this
      ensures claims == old(claims)
      ensures AsWorld(map[]) == Advance(Advance(old(Sweep(AfterReceipt(state, slot))), 0, a), 0, a)
      ensures released == (state != Queued || a.delivery == Accepted)
    {
      if state == Queued {
        var ok := Dispatch(slot, a);
        if !ok {
          return false;
        }
      }
      ghost var releasing := Sweep(Releasing(slot));
      ReleaseScheduleSlot(slot);
      assert Advance(releasing, 0, a) == AsWorld(map[]);
      return true;
    }

    /** The enabled definition of a present owner: trigger, then skip, dispatch or release. */
    method TriggerAndRelease(slot: int, a: Answers) returns (outcome: Outcome)
      requires a.member
      modifies this
      ensures claims == old(claims)
      ensures AsWorld(map[]) == Finish(old(Sweep(Admitted(slot, true, true))), 0, a)
      ensures outcome ==
        if slot in old(receipts) then
          if old(receipts)[slot].state == Queued && a.delivery != Accepted then Threw else Existing
        else if !a.valid then Invalid
        else if a.gate == Proceeds && a.delivery != Accepted then Threw
        else Created
      ensures outcome != Threw ==> Settled(AsWorld(map[]), slot)
      ensures outcome == Threw ==> slot in receipts && receipts[slot].state == Queued && schedule == old(schedule)
      ensures outcome == Created ==>
        && slot in receipts
        && receipts[slot] == match a.gate
                             case Proceeds => Receipt(Queued, true)
                             case Skips => Receipt(Skipped, false)
                             case Defers => Receipt(Deferred, false)
      ensures outcome in {Created, Existing, Invalid} ==>
        && slot in receipts && schedule.pending != Some(slot)
        && (receipts[slot].state == Queued ==> receipts[slot].dispatched)
    {
      Settles(old(AsWorld(map[])), slot, a);
      ghost var w := Sweep(Admitted(slot, true, true));
      var r := Trigger(slot, a);
      if r.TriggerThrew? {
        ghost var inserted := Insert(w, slot, Queued);
        assert Advance(Advance(w, 0, a), 0, a) == At(inserted, 0, Dispatching(slot));
        assert Advance(Advance(Advance(w, 0, a), 0, a), 0, a) == AsWorld(map[]);
        return Threw;
      }
      if r.AgentInvalid? {
        assert Advance(Advance(w, 0, a), 0, a) == Sweep(Skipping(slot));
        outcome := SkipSlot(slot, a);
        return;
      }
      if r.enqueued {
        ghost var releasing := Sweep(Releasing(slot));
        assert Advance(Advance(w, 0, a), 0, a) == At(Insert(w, slot, Queued), 0, Dispatching(slot));
        assert Advance(Advance(Advance(w, 0, a), 0, a), 0, a) == releasing;
        ReleaseScheduleSlot(slot);
        assert Advance(releasing, 0, a) == AsWorld(map[]);
        return Created;
      }
      ghost var received := Sweep(AfterReceipt(r.state, slot));
      assert (if r.created then Advance(Advance(w, 0, a), 0, a) else Advance(w, 0, a)) == received;
      var ok := ReleaseReceipt(slot, r.state, a);
      return if !ok then Threw else if r.created then Created else Existing;
    }

    /** Settles one claimed slot, whoever claimed it, by what the definition said when it was admitted. */
    method FireClaimedSlot(definition: Schedule, slot: int, a: Answers) returns (outcome: Outcome)
      modifies this
      ensures claims == old(claims)
      ensures AsWorld(map[]) ==
        Finish(old(Sweep(Admitted(slot, definition.scheduleEnabled, definition.enabled))), 0, a)
      ensures outcome in {Created, Existing, Invalid} ==> Settled(AsWorld(map[]), slot)
      ensures outcome == Created ==> slot !in old(receipts)
      ensures outcome == Threw ==> slot in receipts && receipts[slot].state == Queued && schedule == old(schedule)
      ensures !definition.scheduleEnabled || (a.member && !definition.enabled) ==>
        outcome == (if slot in old(receipts) then Existing else Invalid)
        && slot in receipts && receipts[slot].state != Queued && schedule.pending != Some(slot)
      ensures definition.scheduleEnabled && !a.member ==>
        outcome == (if old(schedule).scheduleEnabled then Disabled else NoOutcome)
        && !schedule.scheduleEnabled && schedule.pending.None?
        && (slot in receipts <==> slot in old(receipts)) && (slot in receipts ==> receipts[slot].state != Queued)
      ensures definition.scheduleEnabled && a.member && definition.enabled ==>
        outcome ==
          if slot in old(receipts) then
            if old(receipts)[slot].state == Queued && a.delivery != Accepted then Threw else Existing
          else if !a.valid then Invalid
          else if a.gate == Proceeds && a.delivery != Accepted then Threw
          else Created
      ensures outcome == Created ==>
        && slot in receipts
        && receipts[slot] == match a.gate
                             case Proceeds => Receipt(Queued, true)
                             case Skips => Receipt(Skipped, false)
                             case Defers => Receipt(Deferred, false)
      ensures outcome in {Created, Existing, Invalid} ==>
        && slot in receipts && schedule.pending != Some(slot)
        && (receipts[slot].state == Queued ==> receipts[slot].dispatched)
    {
      Decides(old(AsWorld(map[])), Admitted(slot, definition.scheduleEnabled, definition.enabled), a);
      if !definition.scheduleEnabled {
        outcome := SkipSlot(slot, a);
      } else if !a.member {
        outcome := Offboard(slot, a);
      } else if !definition.enabled {
        outcome := SkipSlot(slot, a);
      } else {
        outcome := TriggerAndRelease(slot, a);
      }
    }

    /**
     * Claims the latest due slot exactly if nobody changed the schedule since it was read. The schedule is turned off
     * only if its cron cannot be evaluated.
     */
    method ClaimDueSlot(due: Schedule, cron: Option<Cron>, now: int) returns (slot: Option<int>, outcome: Outcome)
      requires due.nextRunAt.Some? && due.nextRunAt.value <= now
      modifies this
      ensures slot.Some? ==>
        && cron.Some?
        && |claims| == |old(claims)| + 1 && claims[..|old(claims)|] == old(claims)
        && claims[|old(claims)|].from == due.nextRunAt.value && claims[|old(claims)|].slot == slot.value
        && schedule == old(schedule).(pending := slot, nextRunAt := Some(claims[|old(claims)|].next))
        && IsLatest(cron.value, due.nextRunAt.value, now, slot.value)
        && IsNext(cron.value, slot.value, claims[|old(claims)|].next)
      ensures slot.None? ==> outcome in {LostSlot, Disabled, NoOutcome} && claims == old(claims)
      ensures slot.Some? || outcome == LostSlot || Unevaluable(cron, due.nextRunAt.value, now)
      ensures slot.Some? || outcome == LostSlot ==>
        (slot.Some? <==>
           old(schedule).nextRunAt == due.nextRunAt && old(schedule).scheduleEnabled && old(schedule).enabled
           && old(schedule).pending.None?)
      ensures slot.None? && outcome == LostSlot ==> schedule == old(schedule)
      ensures outcome in {Disabled, NoOutcome} && slot.None? ==>
        && !schedule.scheduleEnabled && schedule.pending.None?
        && (outcome == Disabled <==> old(schedule).scheduleEnabled)
      ensures receipts == old(receipts) && released == old(released)
    {
      if cron.Some? {
        var next := NextCronOccurrence(cron.value, now);
        if next.Some? {
          var latest, _ := LatestDueSlot(cron.value, due.nextRunAt.value, now);
          if latest.Some? {
            var claimed := ClaimScheduleSlot(due.nextRunAt.value, next.value, latest.value);
            NextAfterLatest(cron.value, due.nextRunAt.value, now, latest.value, next.value);
            return if claimed then latest else None, LostSlot;
          }
        } else {
          assert Barren(cron.value, now);
        }
      }
      assert Unevaluable(cron, due.nextRunAt.value, now);
      var disabled := DisableSchedule();
      return None, if disabled then Disabled else NoOutcome;
    }

    /**
     * Handles one listed definition: the slot left over from before, or else a newly claimed one. `fired` is the slot
     * this sweep was responsible for, if it came to hold one.
     */
    method FireDueDefinition(due: Schedule, cron: Option<Cron>, now: int, a: Answers)
      returns (outcome: Outcome, ghost fired: Option<int>)
      requires Due(due, now)
      modifies this
      ensures due.pending.Some? ==> fired == due.pending && claims == old(claims)
      ensures due.pending.None? && fired.Some? ==>
        |claims| == |old(claims)| + 1 && claims[..|old(claims)|] == old(claims)
        && claims[|old(claims)|].from == due.nextRunAt.value && claims[|old(claims)|].slot == fired.value
      ensures fired.None? ==> claims == old(claims) && outcome in {LostSlot, Disabled, NoOutcome}
      ensures outcome in {Created, Existing, Invalid} ==> fired.Some? && Settled(AsWorld(map[]), fired.value)
      ensures outcome == Threw ==> fired.Some? && schedule.pending == fired && fired.value in receipts
      ensures due.pending.None? && !Unevaluable(cron, due.nextRunAt.value, now) ==>
        && (fired.Some? <==>
              old(schedule).nextRunAt == due.nextRunAt && old(schedule).scheduleEnabled && old(schedule).enabled
              && old(schedule).pending.None?)
        && (fired.None? ==> outcome == LostSlot && schedule == old(schedule) && receipts == old(receipts))
      ensures due.pending.Some? && old(schedule).pending != due.pending ==>
        outcome == LostSlot && schedule == old(schedule) && receipts == old(receipts)
    {
      var slot := due.pending;
      if slot.None? {
        slot, outcome := ClaimDueSlot(due, cron, now);
      }
      fired := slot;
      if slot.None? {
        return;
      }
      var admitted := AdmitScheduleSlot(slot.value, now);
      if admitted.None? {
        outcome := LostSlot;
        return;
      }
      outcome := FireClaimedSlot(admitted.value, slot.value, a);
    }
  }

  /** The first step of an admitted sweep that starts no new work. */
  lemma Decides(w: World, pc: Pc, a: Answers)
    requires pc.Admitted?
    ensures !pc.scheduleEnabled ==> Finish(At(w, 0, pc), 0, a) == Rest(At(w, 0, Skipping(pc.slot)), 0, a)
    ensures pc.scheduleEnabled && !a.member ==> Finish(At(w, 0, pc), 0, a) == Rest(At(w, 0, Offboarding(pc.slot)), 0, a)
    ensures pc.scheduleEnabled && a.member && !pc.enabled ==>
      Finish(At(w, 0, pc), 0, a) == Rest(At(w, 0, Skipping(pc.slot)), 0, a)
  {
    var decided := Advance(At(w, 0, pc), 0, a);
    assert decided.procs == map[0 := decided.procs[0]] + (w.procs - {0});
    assert !pc.scheduleEnabled || (a.member && !pc.enabled) ==> decided == At(w, 0, Skipping(pc.slot));
    assert pc.scheduleEnabled && !a.member ==> decided == At(w, 0, Offboarding(pc.slot));
  }

  /** What the trigger path leaves behind for its slot. */
  lemma Settles(w: World, slot: int, a: Answers)
    requires a.member
    ensures var w' := Finish(At(w, 0, Admitted(slot, true, true)), 0, a);
            var threw := a.delivery != Accepted
                         && (if slot in w.receipts then w.receipts[slot].state == Queued
                             else a.valid && a.gate == Proceeds);
            && (threw ==> slot in w'.receipts)
            && (threw ==> w'.receipts[slot].state == Queued && w'.schedule == w.schedule)
            && (!threw ==> Settled(w', slot))
  {
    var w1 := Advance(At(w, 0, Admitted(slot, true, true)), 0, a);
    var w2 := Advance(w1, 0, a);
    if slot in w.receipts {
      assert w1.procs[0] == AfterReceipt(w.receipts[slot].state, slot);
    } else if !a.valid {
      assert w2.procs[0] == Skipping(slot);
    } else {
      assert w2.procs[0] == AfterReceipt(InitialState(a.gate), slot);
    }
  }
}
