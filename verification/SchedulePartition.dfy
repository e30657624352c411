/** While nobody edits the schedule, the claims of any number of sweeps partition the due occurrences. */
module SchedulePartition {
  import opened Common
  import opened CronSearch
  import opened ScheduleProtocol

  /** The sweep evaluated the cron as the source does: the latest due slot, and the occurrence after its `now`. */
  ghost predicate Truthful(c: Cron, w: World, e: Event) {
    e.Claimed? && e.p in w.procs && w.procs[e.p].Listed?
    && w.procs[e.p].pendingSlot.None? && w.procs[e.p].next.Some? ==>
      IsLatest(c, w.procs[e.p].next.value, w.procs[e.p].now, e.slot) && IsNext(c, w.procs[e.p].now, e.next)
  }

  /** A run in which every evaluation is truthful and the schedule is neither edited nor turned off. */
  ghost predicate Undisturbed(c: Cron, w: World, es: seq<Event>) {
    es == []
    || (Undisturbed(c, w, es[..|es| - 1])
        && var before := Run(w, es[..|es| - 1]);
           var e := es[|es| - 1];
           Truthful(c, before, e) && !e.Edit? && !Drops(before, e))
  }

  /** One claim's interval: it starts at an occurrence, ends at one, and the next claim starts right after. */
  ghost predicate Interval(c: Cron, k: Claim) {
    Fires(c, k.from) && k.from <= k.slot && Fires(c, k.slot) && IsNext(c, k.slot, k.next)
  }

  /** The claims chain from the schedule's first `next_run_at` to its current one. */
  ghost predicate Chained(c: Cron, first: int, w: World) {
    && (forall k :: 0 <= k < |w.claims| ==> Interval(c, w.claims[k]))
    && (forall k :: 0 <= k < |w.claims| - 1 ==> w.claims[k].next == w.claims[k + 1].from)
    && w.schedule.nextRunAt == Some(if w.claims == [] then first else w.claims[|w.claims| - 1].next)
    && (w.claims != [] ==> w.claims[0].from == first)
    && Fires(c, first)
  }

  lemma ClaimChains(c: Cron, first: int, w: World, p: nat, slot: int, next: int)
    requires Chained(c, first, w) && Truthful(c, w, Claimed(p, slot, next))
    ensures Chained(c, first, Step(w, Claimed(p, slot, next)))
  {
    var w' := Step(w, Claimed(p, slot, next));
    if w'.claims != w.claims {
      var from := w.procs[p].next.value;
      NextAfterLatest(c, from, w.procs[p].now, slot, next);
      assert w'.claims == w.claims + [Claim(from, slot, next)];
      assert Fires(c, from) by {
        if w.claims != [] { assert Interval(c, w.claims[|w.claims| - 1]); }
      }
      assert Interval(c, Claim(from, slot, next));
    }
  }

  lemma AdvanceQuiet(w: World, p: nat, a: Answers)
    requires !Drops(w, Proceed(p, a))
    ensures Advance(w, p, a).claims == w.claims && Advance(w, p, a).schedule.nextRunAt == w.schedule.nextRunAt
  {
    if p in w.procs {
      match w.procs[p]
      case Creating(slot) => assert Advance(w, p, a).schedule == w.schedule;
      case Dispatching(slot) => assert Advance(w, p, a).schedule == w.schedule;
      case Skipping(slot) => assert Advance(w, p, a).schedule == w.schedule;
      case _ =>
    }
  }

  /** Every other step leaves the claims and `next_run_at` alone. */
  lemma OtherChains(c: Cron, first: int, w: World, e: Event)
    requires Chained(c, first, w) && !e.Claimed? && !e.Edit? && !Drops(w, e)
    ensures Chained(c, first, Step(w, e))
  {
    if e.Proceed? { AdvanceQuiet(w, e.p, e.a); }
    assert Step(w, e).claims == w.claims && Step(w, e).schedule.nextRunAt == w.schedule.nextRunAt;
  }

  lemma {:induction false} RunChains(c: Cron, s: Schedule, first: int, es: seq<Event>)
    requires s.nextRunAt == Some(first) && Fires(c, first) && Undisturbed(c, Start(s), es)
    ensures Chained(c, first, Run(Start(s), es))
  {
    if es != [] {
      var before := Run(Start(s), es[..|es| - 1]);
      var e := es[|es| - 1];
      RunChains(c, s, first, es[..|es| - 1]);
      if e.Claimed? { ClaimChains(c, first, before, e.p, e.slot, e.next); } else { OtherChains(c, first, before, e); }
    }
  }

  /** Later claims lie strictly after earlier ones. */
  lemma {:induction false} ClaimsIncrease(c: Cron, first: int, w: World, i: nat, j: nat)
    requires Chained(c, first, w) && i < j < |w.claims|
    ensures w.claims[i].slot < w.claims[j].from <= w.claims[j].slot
    decreases j
  {
    assert Interval(c, w.claims[i]) && Interval(c, w.claims[j]) && Interval(c, w.claims[j - 1]);
    if i < j - 1 { ClaimsIncrease(c, first, w, i, j - 1); }
    assert w.claims[j - 1].next == w.claims[j].from;
  }

  lemma {:induction false} Covered(c: Cron, first: int, w: World, n: nat, t: int) returns (k: nat)
    requires Chained(c, first, w) && n <= |w.claims| && Fires(c, t) && first <= t
    requires n > 0 && t < w.claims[n - 1].next
    ensures k < n && w.claims[k].from <= t <= w.claims[k].slot
    decreases n
  {
    assert Interval(c, w.claims[n - 1]);
    if w.claims[n - 1].from <= t {
      k := n - 1;
    } else {
      assert w.claims[n - 2].next == w.claims[n - 1].from;
      k := Covered(c, first, w, n - 1, t);
    }
  }

  /** Each claim's interval lies strictly after all earlier ones. */
  ghost predicate Apart(w: World) {
    forall i, j :: 0 <= i < j < |w.claims| ==> w.claims[i].slot < w.claims[j].from <= w.claims[j].slot
  }

  /** Every occurrence from `first` up to the current `next_run_at` lies in some claim's interval. */
  ghost predicate Covers(c: Cron, first: int, w: World) {
    w.schedule.nextRunAt.Some?
    && forall t :: first <= t < w.schedule.nextRunAt.value && Fires(c, t) ==>
         exists k :: 0 <= k < |w.claims| && w.claims[k].from <= t <= w.claims[k].slot
  }

  lemma ChainedCovers(c: Cron, first: int, w: World)
    requires Chained(c, first, w)
    ensures Covers(c, first, w)
  {
    forall t | first <= t < w.schedule.nextRunAt.value && Fires(c, t)
      ensures exists k :: 0 <= k < |w.claims| && w.claims[k].from <= t <= w.claims[k].slot
    {
      var k := Covered(c, first, w, |w.claims|, t);
    }
  }

  lemma ChainedApart(c: Cron, first: int, w: World)
    requires Chained(c, first, w)
    ensures Apart(w)
  {
    forall i, j | 0 <= i < j < |w.claims| ensures w.claims[i].slot < w.claims[j].from <= w.claims[j].slot {
      ClaimsIncrease(c, first, w, i, j);
    }
  }

  /**
   * Missed slots coalesce without gap or overlap: each claim's interval lies strictly after all earlier
   * ones, so fired slots strictly increase; the `next_run_at` a claim writes is the occurrence right after
   * the slot it fired; and every occurrence from the first `next_run_at` up to the current one lies in one
   * claim's interval, hence in exactly one.
   */
  lemma {:induction false} CoalescingIsAPartition(c: Cron, s: Schedule, first: int, es: seq<Event>)
    requires s.nextRunAt == Some(first) && Fires(c, first) && Undisturbed(c, Start(s), es)
    ensures var w := Run(Start(s), es);
            && Apart(w) && Covers(c, first, w)
            && forall k :: 0 <= k < |w.claims| ==>
                 Fires(c, w.claims[k].slot) && IsNext(c, w.claims[k].slot, w.claims[k].next)
  {
    var w := Run(Start(s), es);
    RunChains(c, s, first, es);
    ChainedCovers(c, first, w);
    ChainedApart(c, first, w);
    assert forall k :: 0 <= k < |w.claims| ==> Interval(c, w.claims[k]);
  }
}
