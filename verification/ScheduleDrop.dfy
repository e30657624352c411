/**
 * Turning a schedule off drops its pending slot. The obligation to dispatch survives that exactly when no
 * receipt waits for its first enqueue and no other sweep is about to create one.
 */
module ScheduleDrop {
  import opened Common
  import opened ScheduleProtocol
  import opened ScheduleTheorems

  /** A sweep that may still create a queued receipt for a slot that has none. */
  predicate MayCreate(w: World, pc: Pc) {
    (pc.Creating? || (pc.Admitted? && pc.scheduleEnabled && pc.enabled)) && pc.slot !in w.receipts
  }

  /** What a caller could check just before process `p` turns the schedule off. */
  ghost predicate Harmless(w: World, p: nat) {
    && (forall s :: !Undispatched(w, s))
    && (forall q :: q in w.procs && q != p ==> !MayCreate(w, w.procs[q]))
  }

  const GO := Answers(true, true, Proceeds, Refused)

  lemma HarmlessKeepsInv(w: World, p: nat, a: Answers)
    requires Inv(w) && Drops(w, Proceed(p, a)) && Harmless(w, p)
    ensures Inv(Advance(w, p, a))
  {
    var w' := Advance(w, p, a);
    assert forall s :: Undispatched(w', s) == Undispatched(w, s);
    forall q | q in w'.procs ensures PcOk(w', w'.procs[q]) {
      assert PcOk(w, w.procs[q]) && !MayCreate(w, w.procs[q]);
    }
  }

  lemma RunOne(w: World, e: Event)
    ensures Run(w, [e]) == Step(w, e)
    ensures Keeps(w, [e]) <==> !Drops(w, e)
  {
    assert [e][..0] == [];
    assert Run(w, []) == w;
  }

  lemma RunTwo(w: World, e: Event, f: Event)
    ensures Run(w, [e, f]) == Step(Step(w, e), f)
    ensures Keeps(w, [e, f]) <==> !Drops(w, e) && !Drops(Step(w, e), f)
  {
    RunOne(w, e);
    assert [e, f][..1] == [e];
  }

  /** A sweep about to create strands its receipt if the queue then refuses it. */
  lemma CreatorStrands(w: World, q: nat) returns (es: seq<Event>)
    requires q in w.procs && MayCreate(w, w.procs[q]) && w.schedule.pending.None?
    ensures Keeps(w, es) && !Obligation(Run(w, es))
  {
    var slot := w.procs[q].slot;
    if w.procs[q].Creating? {
      es := [Proceed(q, GO)];
      RunOne(w, Proceed(q, GO));
    } else {
      es := [Proceed(q, GO), Proceed(q, GO)];
      RunTwo(w, Proceed(q, GO), Proceed(q, GO));
      assert Step(w, Proceed(q, GO)).procs[q] == Creating(slot);
    }
    assert Undispatched(Run(w, es), slot);
  }

  /** A receipt that waits while nothing is pending is stranded already. */
  lemma WaitingStrands(w: World, slot: int) returns (es: seq<Event>)
    requires Undispatched(w, slot) && w.schedule.pending.None?
    ensures Keeps(w, es) && !Obligation(Run(w, es))
  {
    es := [];
    assert Run(w, es) == w;
  }

  /**
   * After process `p` turns the schedule off, the obligation holds in every later run without another such
   * step if and only if the drop was harmless.
   */
  lemma DropIsSafeIffHarmless(w: World, p: nat, a: Answers)
    requires Inv(w) && Drops(w, Proceed(p, a))
    ensures (forall es :: Keeps(Advance(w, p, a), es) ==> Obligation(Run(Advance(w, p, a), es))) <==> Harmless(w, p)
  {
    var w' := Advance(w, p, a);
    if Harmless(w, p) {
      HarmlessKeepsInv(w, p, a);
      forall es | Keeps(w', es) ensures Obligation(Run(w', es)) { RunInv(w', es); }
    } else if exists s :: Undispatched(w, s) {
      var s :| Undispatched(w, s);
      var es := WaitingStrands(w', s);
    } else {
      var q :| q in w.procs && q != p && MayCreate(w, w.procs[q]);
      assert q in w'.procs && MayCreate(w', w'.procs[q]);
      var es := CreatorStrands(w', q);
    }
  }

  /** A sweep that finds the owner gone and is not interleaved with another always drops harmlessly. */
  lemma {:induction false} OffboardingAloneIsSafe(w: World, p: nat, slot: int, a: Answers, es: seq<Event>)
    requires Inv(w) && w.procs == map[p := Offboarding(slot)] && w.schedule.pending == Some(slot)
    requires Keeps(Advance(Advance(Advance(w, p, a), p, a), p, a), es)
    ensures var w' := Advance(Advance(Advance(w, p, a), p, a), p, a);
            Obligation(Run(w', es)) && w'.schedule.pending.None? && !w'.schedule.scheduleEnabled && w'.procs == map[]
  {
    var w1 := Advance(w, p, a);
    AdvanceInv(w, p, a);
    assert forall s :: Undispatched(w, s) ==> s == slot;
    if w1.procs[p] == Disabling {
      assert Harmless(w1, p);
      HarmlessKeepsInv(w1, p, a);
      var w2 := Advance(w1, p, a);
      assert Advance(w2, p, a) == w2;
      RunInv(w2, es);
    } else {
      var w2 := Advance(w1, p, a);
      AdvanceInv(w1, p, a);
      assert Harmless(w2, p);
      HarmlessKeepsInv(w2, p, a);
      RunInv(Advance(w2, p, a), es);
    }
  }

  lemma {:induction false} RunAppend(w: World, es: seq<Event>, fs: seq<Event>)
    ensures Run(w, es + fs) == Run(Run(w, es), fs)
  {
    if fs == [] {
      assert es + fs == es;
    } else {
      assert (es + fs)[..|es + fs| - 1] == es + fs[..|fs| - 1];
      RunAppend(w, es, fs[..|fs| - 1]);
    }
  }

  /** Sweep 0 claims the due slot and is admitted while the owner is still a member. */
  lemma FirstSweepAdmitted() returns (es: seq<Event>)
    ensures Run(Start(DUE), es) == Both(map[0 := Admitted(60000, true, true)])
  {
    var w0 := Start(DUE);
    var e0, e1, e2 := List(0, 60000), Claimed(0, 60000, 120000), Proceed(0, GO);
    RunTwo(w0, e0, e1);
    assert Step(w0, e0).procs == map[0 := Listed(Some(60000), None, 60000)];
    assert Step(Step(w0, e0), e1) == Both(map[0 := Holding(60000)]);
    es := [e0, e1] + [e2];
    RunAppend(w0, [e0, e1], [e2]);
    RunOne(Both(map[0 := Holding(60000)]), e2);
    assert Both(map[0 := Holding(60000)]).procs[0 := Admitted(60000, true, true)]
           == map[0 := Admitted(60000, true, true)];
  }

  const DUE := Schedule(Some(60000), None, true, true)

  /** The slot is claimed and pending, and nothing is recorded for it yet. */
  function Both(procs: map<nat, Pc>): World {
    World(Schedule(Some(120000), Some(60000), true, true), map[], procs, [Claim(60000, 60000, 120000)], {})
  }

  /** Sweep 1 resumes the pending slot, finds the owner gone, and turns the schedule off. */
  lemma SecondSweepDrops() returns (es: seq<Event>)
    ensures var w := Run(Both(map[0 := Admitted(60000, true, true)]), es);
            w.procs == map[0 := Admitted(60000, true, true)] && w.schedule.pending.None? && w.receipts == map[]
  {
    var gone := GO.(member := false);
    var w0 := Both(map[0 := Admitted(60000, true, true)]);
    var e0, e1, e := List(1, 60000), Claimed(1, 60000, 120000), Proceed(1, gone);
    var w1 := Step(w0, e0);
    assert w1.procs[1] == Listed(Some(120000), Some(60000), 60000);
    var w2 := Step(w1, e1);
    assert w2 == Both(w0.procs[1 := Holding(60000)]);
    var w3 := Step(w2, e);
    assert w3 == Both(w0.procs[1 := Admitted(60000, true, true)]);
    var w4 := Step(w3, e);
    assert w4 == Both(w0.procs[1 := Offboarding(60000)]);
    var w5 := Step(w4, e);
    assert w5 == Both(w0.procs[1 := Disabling]);
    var w6 := Step(w5, e);
    assert w6.procs == w0.procs;
    RunTwo(w0, e0, e1);
    RunTwo(w2, e, e);
    RunTwo(w4, e, e);
    RunAppend(w0, [e0, e1], [e, e]);
    RunAppend(w0, [e0, e1] + [e, e], [e, e]);
    es := [e0, e1] + [e, e] + [e, e];
  }

  /**
   * Interleaved, it does not: two sweeps of one due slot, one of which finds the owner gone, can leave a
   * queued receipt that nobody will ever dispatch.
   */
  lemma InterleavedOffboardingStrands()
    ensures exists es :: !Obligation(Run(Start(DUE), es))
  {
    var es1 := FirstSweepAdmitted();
    var es2 := SecondSweepDrops();
    RunAppend(Start(DUE), es1, es2);
    var w := Run(Start(DUE), es1 + es2);
    var es3 := CreatorStrands(w, 0);
    RunAppend(Start(DUE), es1 + es2, es3);
    assert !Obligation(Run(Start(DUE), es1 + es2 + es3));
  }
}
