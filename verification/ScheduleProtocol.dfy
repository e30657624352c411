/**
 * The agent schedule sweep as a protocol over one definition: its schedule columns, the run receipts of
 * its slots, and any number of sweeps. Claiming a slot makes it pending; the pending slot is the
 * obligation to dispatch it, and is released once a receipt exists that needs no dispatch.
 */
module ScheduleProtocol {
  import opened Common

  /** The schedule columns of the definition row. */
  datatype Schedule = Schedule(nextRunAt: Option<int>, pending: Option<int>, scheduleEnabled: bool, enabled: bool)

  /** `Advanced` is every state a run reaches once a worker or a user has taken it up. */
  datatype RunState = Queued | Skipped | Deferred | Advanced

  /** A run receipt; `dispatched` records whether its job was ever accepted by the queue. */
  datatype Receipt = Receipt(state: RunState, dispatched: bool)

  /** One successful claim: the `next_run_at` it replaced, the slot it fired, and the one it wrote. */
  datatype Claim = Claim(from: int, slot: int, next: int)

  datatype Gate = Proceeds | Skips | Defers

  /** `Lost` is an enqueue that the queue accepted although the caller saw it fail. */
  datatype Delivery = Accepted | Refused | Lost

  /** What a sweep is told while it fires one slot. */
  datatype Answers = Answers(member: bool, valid: bool, gate: Gate, delivery: Delivery)

  datatype Pc =
    | Listed(next: Option<int>, pendingSlot: Option<int>, now: int)
    | Holding(slot: int)
    | Admitted(slot: int, scheduleEnabled: bool, enabled: bool)
    | Creating(slot: int)
    | Dispatching(slot: int)
    | Skipping(slot: int)
    | Retracting(slot: int)
    | Releasing(slot: int)
    | Offboarding(slot: int)
    | Withdrawing(slot: int)
    | Disabling

  datatype World = World(
    schedule: Schedule,
    receipts: map<int, Receipt>,
    procs: map<nat, Pc>,
    claims: seq<Claim>,
    released: set<int>)

  function At(w: World, p: nat, pc: Pc): World { w.(procs := w.procs[p := pc]) }

  function Finished(w: World, p: nat): World { w.(procs := w.procs - {p}) }

  /** A claim needs the value that was read to be stored still, an enabled schedule, and no slot under way. */
  predicate CanClaim(s: Schedule, from: int) {
    s.nextRunAt == Some(from) && s.scheduleEnabled && s.enabled && s.pending.None?
  }

  /** `insert ... on conflict do nothing`: the receipt that is stored, and whether this call created it. */
  function Insert(w: World, slot: int, state: RunState): World {
    if slot in w.receipts then w else w.(receipts := w.receipts[slot := Receipt(state, false)])
  }

  function Dispatched(w: World, slot: int): World
    requires slot in w.receipts
  {
    w.(receipts := w.receipts[slot := w.receipts[slot].(dispatched := true)])
  }

  function Retract(w: World, slot: int): World {
    if slot in w.receipts && w.receipts[slot].state == Queued
    then w.(receipts := w.receipts[slot := w.receipts[slot].(state := Skipped)])
    else w
  }

  function Release(w: World, slot: int): World {
    w.(schedule := if w.schedule.pending == Some(slot) then w.schedule.(pending := None) else w.schedule,
       released := w.released + {slot})
  }

  /** Turns the schedule off on the system's behalf and drops any pending slot with it. */
  function Disable(s: Schedule): Schedule {
    s.(pending := None, scheduleEnabled := false, nextRunAt := if s.scheduleEnabled then None else s.nextRunAt)
  }

  function InitialState(gate: Gate): RunState {
    match gate
    case Proceeds => Queued
    case Skips => Skipped
    case Defers => Deferred
  }

  /** What happens after a receipt was returned whose dispatch this sweep has not seen. */
  function AfterReceipt(state: RunState, slot: int): Pc {
    if state == Queued then Dispatching(slot) else Releasing(slot)
  }

  /** A listed definition: resume its pending slot, or try to claim `slot` and write `next`. */
  function ClaimStep(w: World, p: nat, pc: Pc, slot: int, next: int): World
    requires pc.Listed?
  {
    if pc.pendingSlot.Some? then At(w, p, Holding(pc.pendingSlot.value))
    else if pc.next.Some? && CanClaim(w.schedule, pc.next.value) then
      At(w.(schedule := w.schedule.(nextRunAt := Some(next), pending := Some(slot)),
            claims := w.claims + [Claim(pc.next.value, slot, next)]), p, Holding(slot))
    else Finished(w, p)
  }

  function AdmitStep(w: World, p: nat, slot: int): World {
    if w.schedule.pending == Some(slot)
    then At(w, p, Admitted(slot, w.schedule.scheduleEnabled, w.schedule.enabled))
    else Finished(w, p)
  }

  function DecideStep(w: World, p: nat, pc: Pc, a: Answers): World
    requires pc.Admitted?
  {
    At(w, p,
       if !pc.scheduleEnabled then Skipping(pc.slot)
       else if !a.member then Offboarding(pc.slot)
       else if !pc.enabled then Skipping(pc.slot)
       else if pc.slot in w.receipts then AfterReceipt(w.receipts[pc.slot].state, pc.slot)
       else Creating(pc.slot))
  }

  function CreateStep(w: World, p: nat, slot: int, a: Answers): World {
    if !a.valid then At(w, p, Skipping(slot))
    else
      var w' := Insert(w, slot, InitialState(a.gate));
      At(w', p, AfterReceipt(w'.receipts[slot].state, slot))
  }

  function DispatchStep(w: World, p: nat, slot: int, a: Answers): World
    requires slot in w.receipts
  {
    match a.delivery
    case Accepted => At(Dispatched(w, slot), p, Releasing(slot))
    case Refused => Finished(w, p)
    case Lost => Finished(Dispatched(w, slot), p)
  }

  function SkipStep(w: World, p: nat, slot: int): World {
    if slot in w.receipts && w.receipts[slot].state == Queued then At(w, p, Retracting(slot))
    else At(Insert(w, slot, Skipped), p, Releasing(slot))
  }

  function OffboardStep(w: World, p: nat, slot: int): World {
    At(w, p, if slot in w.receipts && w.receipts[slot].state == Queued then Withdrawing(slot) else Disabling)
  }

  /** The next step of a sweep that holds a slot. */
  function Advance(w: World, p: nat, a: Answers): World {
    if p !in w.procs then w
    else match w.procs[p]
      case Listed(_, _, _) => w
      case Holding(slot) => AdmitStep(w, p, slot)
      case Admitted(_, _, _) => DecideStep(w, p, w.procs[p], a)
      case Creating(slot) => CreateStep(w, p, slot, a)
      case Dispatching(slot) => if slot in w.receipts then DispatchStep(w, p, slot, a) else Finished(w, p)
      case Skipping(slot) => SkipStep(w, p, slot)
      case Retracting(slot) => At(Retract(w, slot), p, Releasing(slot))
      case Releasing(slot) => Finished(Release(w, slot), p)
      case Offboarding(slot) => OffboardStep(w, p, slot)
      case Withdrawing(slot) => At(Retract(w, slot), p, Disabling)
      case Disabling => Finished(w.(schedule := Disable(w.schedule)), p)
  }

  /**
   * `List` reads the definition into a sweep that runs at `now`; `Claimed` is the claim, with what the cron
   * evaluates to; `Broken` is a cron that cannot be evaluated; `Proceed` is any later step; `Crash` ends a
   * sweep anywhere. `Work` is a worker or user moving a run on, `Edit` a user changing the schedule.
   */
  datatype Event =
    | List(p: nat, now: int)
    | Claimed(p: nat, slot: int, next: int)
    | Broken(p: nat)
    | Proceed(p: nat, a: Answers)
    | Crash(p: nat)
    | Work(slot: int)
    | Edit(nextRunAt: Option<int>, scheduleEnabled: bool, enabled: bool)

  /** Due, or with a slot still pending. */
  predicate Due(s: Schedule, now: int) {
    s.pending.Some? || (s.scheduleEnabled && s.enabled && s.nextRunAt.Some? && s.nextRunAt.value <= now)
  }

  function Step(w: World, e: Event): World {
    match e
    case List(p, now) =>
      if p in w.procs || !Due(w.schedule, now) then w
      else At(w, p, Listed(w.schedule.nextRunAt, w.schedule.pending, now))
    case Claimed(p, slot, next) =>
      if p in w.procs && w.procs[p].Listed? then ClaimStep(w, p, w.procs[p], slot, next) else w
    case Broken(p) =>
      if p in w.procs && w.procs[p].Listed? && w.procs[p].pendingSlot.None? then At(w, p, Disabling) else w
    case Proceed(p, a) => Advance(w, p, a)
    case Crash(p) => Finished(w, p)
    case Work(slot) =>
      if slot in w.receipts && (w.receipts[slot].state != Queued || w.receipts[slot].dispatched)
      then w.(receipts := w.receipts[slot := w.receipts[slot].(state := Advanced)])
      else w
    case Edit(nextRunAt, scheduleEnabled, enabled) =>
      w.(schedule := Schedule(nextRunAt, w.schedule.pending, scheduleEnabled, enabled))
  }

  function Run(w: World, es: seq<Event>): World {
    if es == [] then w else Step(Run(w, es[..|es| - 1]), es[|es| - 1])
  }

  /** Whether a step turns the schedule off, dropping the pending slot. */
  predicate Drops(w: World, e: Event) { e.Proceed? && e.p in w.procs && w.procs[e.p].Disabling? }

  /** No step of the run drops a pending slot. */
  predicate Keeps(w: World, es: seq<Event>) {
    es == [] || (Keeps(w, es[..|es| - 1]) && !Drops(Run(w, es[..|es| - 1]), es[|es| - 1]))
  }

  function Start(s: Schedule): World { World(s, map[], map[], [], {}) }
}
