/**
 * One reconciler's pass over one candidate, as far as it got, and the run of the protocol that it is. The code that
 * runs is proved against the first, and inherits every theorem about runs through the second.
 */
module TaskPass {
  import opened Common
  import opened TaskHistory

  /** How much of a pass was committed: nothing, only its record, everything, or everything by way of Redis. */
  datatype Progress = Stopped | Recorded | Done | ViaRedis

  /** The world after a pass with nobody in between. */
  function AfterPass(w: World, c: Candidate, now: int, a: Answers, limits: Limits, g: Progress): World {
    match Decide(c, now, a, limits)
    case SeenLive => if g == Stopped then w else Clear(w, c.task)
    case Settle(terminal) => Settled(w, c, terminal, w.nextPass, false, g)
    case SeenMissing =>
      if g == Stopped then w else RecordedAnd(w, c, now, a, limits, g)
    case _ => w
  }

  /** Recording, and failing the task if this is the evidence that was missing. */
  function RecordedAnd(w: World, c: Candidate, now: int, a: Answers, limits: Limits, g: Progress): World {
    var recorded := Record(w, c, now, w.nextPass, a);
    if IsOrphan(Observed(w, c, now), now, limits.graceMs)
    then Settled(recorded, c, Failed, w.nextPass, true, g) else recorded
  }

  function Settled(w: World, c: Candidate, terminal: Terminal, pass: nat, orphan: bool, g: Progress): World {
    match g
    case Stopped => w
    case Recorded => w
    case Done => Finalize(w, c, terminal, pass, orphan)
    case ViaRedis => Clear(w, c.task)
  }

  /** The pass is over, and what it was told is kept. */
  function Closed(w: World, t: Told): World { w.(nextPass := w.nextPass + 1, told := w.told[w.nextPass := t]) }

  lemma RunOne(w: World, es: seq<Event>, e: Event, limits: Limits)
    ensures Run(w, es + [e], limits) == Step(Run(w, es, limits), e, limits)
  {
    assert (es + [e])[..|es + [e]| - 1] == es;
  }

  /** The pass that `w` opens has read its answers. */
  function Standing(w: World, c: Candidate, now: int, a: Answers, limits: Limits): World {
    Closed(w, Told(c, now, a)).(procs :=
      match Decide(c, now, a, limits)
      case Settle(terminal) => map[w.nextPass := Settling(c, terminal, false)]
      case SeenLive => map[w.nextPass := Clearing(c)]
      case SeenMissing => map[w.nextPass := Recording(c, now, a)]
      case _ => map[])
  }

  /** The pass has read its answers and stands at its first commit, or has ended. */
  lemma Probed(w: World, c: Candidate, now: int, a: Answers, limits: Limits) returns (es: seq<Event>)
    requires w.procs == map[]
    ensures es == [] + [Begin(c, now)] + [Probe(w.nextPass, a)]
    ensures Run(w, es, limits) == Standing(w, c, now, a, limits)
  {
    var p := w.nextPass;
    es := [] + [Begin(c, now)] + [Probe(p, a)];
    RunOne(w, [], Begin(c, now), limits);
    RunOne(w, [] + [Begin(c, now)], Probe(p, a), limits);
    var begun := w.(nextPass := p + 1, procs := map[p := Probing(c, now)]);
    assert Step(w, Begin(c, now), limits) == begun;
    ProbedOnce(begun, p, c, now, a, limits);
  }

  lemma ProbedOnce(w: World, p: nat, c: Candidate, now: int, a: Answers, limits: Limits)
    requires w.procs == map[p := Probing(c, now)]
    ensures Step(w, Probe(p, a), limits) == w.(told := w.told[p := Told(c, now, a)], procs :=
      match Decide(c, now, a, limits)
      case Settle(terminal) => map[p := Settling(c, terminal, false)]
      case SeenLive => map[p := Clearing(c)]
      case SeenMissing => map[p := Recording(c, now, a)]
      case _ => map[])
  {
    assert Finished(w, p).procs == map[];
  }

  lemma ProceedSettles(w: World, p: nat, c: Candidate, terminal: Terminal, orphan: bool, limits: Limits)
    requires w.procs == map[p := Settling(c, terminal, orphan)]
    ensures Step(w, Proceed(p), limits) == Finalize(w, c, terminal, p, orphan).(procs := map[])
    ensures Step(w, Persisted(p), limits) == w.(procs := map[p := Clearing(c)])
  {
    assert Finished(w, p).procs == map[];
    assert Finalize(w, c, terminal, p, orphan).procs == w.procs;
  }

  lemma ProceedClears(w: World, p: nat, c: Candidate, limits: Limits)
    requires w.procs == map[p := Clearing(c)]
    ensures Step(w, Proceed(p), limits) == Clear(w, c.task).(procs := map[])
  {
    assert Finished(w, p).procs == map[];
  }

  lemma Quits(w: World, p: nat, pc: Pc, limits: Limits)
    requires w.procs == map[p := pc]
    ensures Run(w, [] + [Quit(p)], limits) == w.(procs := map[])
  {
    RunOne(w, [], Quit(p), limits);
    assert Finished(w, p).procs == map[];
  }

  /** A pass that stands at a terminal row commits it, leaves it, or finds that Redis persisted it. */
  lemma SettledIsRun(w: World, p: nat, c: Candidate, terminal: Terminal, orphan: bool, g: Progress, limits: Limits)
    returns (es: seq<Event>)
    requires w.procs == map[p := Settling(c, terminal, orphan)]
    ensures Run(w, es, limits) == Settled(w, c, terminal, p, orphan, g).(procs := map[])
    ensures g == Done ==> es == [Proceed(p)]
  {
    ProceedSettles(w, p, c, terminal, orphan, limits);
    if g == Done {
      es := [] + [Proceed(p)];
      RunOne(w, [], Proceed(p), limits);
    } else if g == ViaRedis {
      es := [] + [Persisted(p)] + [Proceed(p)];
      RunOne(w, [], Persisted(p), limits);
      RunOne(w, [] + [Persisted(p)], Proceed(p), limits);
      ProceedClears(w.(procs := map[p := Clearing(c)]), p, c, limits);
    } else {
      es := [] + [Quit(p)];
      Quits(w, p, Settling(c, terminal, orphan), limits);
    }
  }

  /** A pass that has ended may be asked to go on, and does nothing. */
  lemma Idles(w: World, es: seq<Event>, p: nat, limits: Limits)
    requires Run(w, es, limits).procs == map[]
    ensures Run(w, es + [Proceed(p)], limits) == Run(w, es, limits)
  {
    RunOne(w, es, Proceed(p), limits);
  }

  /** What a pass commits does not depend on who else is under way. */
  lemma SettledFrame(w: World, procs: map<nat, Pc>, n: nat, told: map<nat, Told>, c: Candidate, terminal: Terminal,
                     p: nat, orphan: bool, g: Progress)
    ensures Settled(w.(procs := procs, nextPass := n, told := told), c, terminal, p, orphan, g)
            == Settled(w, c, terminal, p, orphan, g).(procs := procs, nextPass := n, told := told)
  {
    assert CanFinalize(w.(procs := procs, nextPass := n, told := told), c) == CanFinalize(w, c);
  }

  /** The pass that `w` opens stands at `pc`. */
  function Open(w: World, t: Told, pc: Pc): World { Closed(w, t).(procs := map[w.nextPass := pc]) }

  lemma SettleRest(w: World, t: Told, c: Candidate, terminal: Terminal, g: Progress, limits: Limits)
    returns (es: seq<Event>)
    requires w.procs == map[]
    ensures Run(Open(w, t, Settling(c, terminal, false)), es, limits)
            == Closed(Settled(w, c, terminal, w.nextPass, false, g), t)
    ensures g == Done ==> es == [Proceed(w.nextPass), Proceed(w.nextPass)]
  {
    var open := Open(w, t, Settling(c, terminal, false));
    es := SettledIsRun(open, w.nextPass, c, terminal, false, g, limits);
    SettledFrame(w, open.procs, open.nextPass, open.told, c, terminal, w.nextPass, false, g);
    assert Run(open, es, limits) == Closed(Settled(w, c, terminal, w.nextPass, false, g), t) by {
      assert Settled(w, c, terminal, w.nextPass, false, g).procs == map[];
    }
    if g == Done {
      Idles(open, es, w.nextPass, limits);
      es := es + [Proceed(w.nextPass)];
    }
  }

  lemma ClearRest(w: World, t: Told, c: Candidate, g: Progress, limits: Limits) returns (es: seq<Event>)
    requires w.procs == map[]
    ensures Run(Open(w, t, Clearing(c)), es, limits) == Closed(if g == Stopped then w else Clear(w, c.task), t)
    ensures g == Done ==> es == [Proceed(w.nextPass), Proceed(w.nextPass)]
  {
    var open := Open(w, t, Clearing(c));
    if g == Stopped {
      es := [] + [Quit(w.nextPass)];
      Quits(open, w.nextPass, Clearing(c), limits);
    } else {
      es := [] + [Proceed(w.nextPass)] + [Proceed(w.nextPass)];
      RunOne(open, [], Proceed(w.nextPass), limits);
      ProceedClears(open, w.nextPass, c, limits);
      Idles(open, [] + [Proceed(w.nextPass)], w.nextPass, limits);
    }
  }

  /** The pass records its candidate, and goes on to fail it if that was the missing evidence. */
  lemma RecordsOnce(w: World, c: Candidate, now: int, a: Answers, limits: Limits)
    requires w.procs == map[]
    ensures Run(Open(w, Told(c, now, a), Recording(c, now, a)), [] + [Proceed(w.nextPass)], limits)
            == Closed(Record(w, c, now, w.nextPass, a), Told(c, now, a)).(procs :=
                 if IsOrphan(Observed(w, c, now), now, limits.graceMs)
                 then map[w.nextPass := Settling(c, Failed, true)] else map[])
  {
    var p := w.nextPass;
    var open := Open(w, Told(c, now, a), Recording(c, now, a));
    RunOne(open, [], Proceed(p), limits);
    assert Step(open, Proceed(p), limits) == RecordStep(open, p, Recording(c, now, a), limits);
    assert Finished(Record(open, c, now, p, a), p).procs == map[];
  }

  lemma RecordRest(w: World, c: Candidate, now: int, a: Answers, g: Progress, limits: Limits) returns (es: seq<Event>)
    requires w.procs == map[]
    ensures Run(Open(w, Told(c, now, a), Recording(c, now, a)), es, limits)
            == Closed(if g == Stopped then w else RecordedAnd(w, c, now, a, limits, g), Told(c, now, a))
    ensures g == Done ==> es == [Proceed(w.nextPass), Proceed(w.nextPass)]
  {
    var p := w.nextPass;
    var open := Open(w, Told(c, now, a), Recording(c, now, a));
    if g == Stopped {
      es := [] + [Quit(p)];
      Quits(open, p, Recording(c, now, a), limits);
    } else {
      es := [] + [Proceed(p)];
      RecordsOnce(w, c, now, a, limits);
      var recorded := Record(w, c, now, p, a);
      if IsOrphan(Observed(w, c, now), now, limits.graceMs) {
        var settling := Closed(recorded, Told(c, now, a)).(procs := map[p := Settling(c, Failed, true)]);
        var rest := SettledIsRun(settling, p, c, Failed, true, g, limits);
        SettledFrame(recorded, settling.procs, settling.nextPass, settling.told, c, Failed, p, true, g);
        assert Settled(recorded, c, Failed, p, true, g).procs == map[];
        RunAppend(open, es, rest, limits);
        es := es + rest;
      } else {
        assert Run(open, es, limits).procs == map[];
        Idles(open, es, p, limits);
        es := es + [Proceed(p)];
      }
    }
  }

  /** Whatever a pass committed is a run of the protocol; one that met no obstacle is begin, probe and two steps. */
  lemma ResultIsRun(w: World, c: Candidate, now: int, a: Answers, limits: Limits, g: Progress) returns (es: seq<Event>)
    requires w.procs == map[]
    ensures Run(w, es, limits) == Closed(AfterPass(w, c, now, a, limits, g), Told(c, now, a))
    ensures g == Done ==> es == [Begin(c, now), Probe(w.nextPass, a), Proceed(w.nextPass), Proceed(w.nextPass)]
  {
    es := Probed(w, c, now, a, limits);
    var rest := Rest(w, c, now, a, limits, g);
    RunAppend(w, es, rest, limits);
    es := es + rest;
  }

  /** From what the pass was told to its end. */
  lemma Rest(w: World, c: Candidate, now: int, a: Answers, limits: Limits, g: Progress) returns (rest: seq<Event>)
    requires w.procs == map[]
    ensures Run(Standing(w, c, now, a, limits), rest, limits)
            == Closed(AfterPass(w, c, now, a, limits, g), Told(c, now, a))
    ensures g == Done ==> rest == [Proceed(w.nextPass), Proceed(w.nextPass)]
  {
    var p := w.nextPass;
    match Decide(c, now, a, limits) {
      case Settle(terminal) => rest := SettleRest(w, Told(c, now, a), c, terminal, g, limits);
      case SeenLive => rest := ClearRest(w, Told(c, now, a), c, g, limits);
      case SeenMissing => rest := RecordRest(w, c, now, a, g, limits);
      case _ =>
        rest := [] + [Proceed(p)] + [Proceed(p)];
        Idles(Standing(w, c, now, a, limits), [], p, limits);
        Idles(Standing(w, c, now, a, limits), [] + [Proceed(p)], p, limits);
    }
  }
}
