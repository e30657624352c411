/**
 * Shutting browser sessions down: admitted requests are drained, store authority is revoked, started store operations
 * settle, and only then does the store disconnect. Events are the turns of a single-threaded event loop; a store call
 * reaches the underlying store in a later turn than the call itself.
 */
module SessionDrain {
  /** A store call: its promise, and its callback if it was given one. */
  datatype Operation = Operation(invoked: bool, resultSettled: bool, callbackPending: bool) {
    predicate Settled() { resultSettled && !callbackPending }
  }

  /** `Draining` waits for the requests, `Settling` for the operations that were tracked when the store closed. */
  datatype Phase = Open | Draining | Settling(waiting: set<nat>) | Disconnected

  /** `open` are the admitted requests not yet released; `disconnects` counts calls of `disconnect`. */
  datatype World = World(
    stopping: bool,
    storeClosed: bool,
    requests: int,
    tracked: set<nat>,
    phase: Phase,
    open: set<nat>,
    released: set<nat>,
    operations: map<nat, Operation>,
    invokedAfterClose: set<nat>,
    disconnects: nat)

  const Start := World(false, false, 0, {}, Open, {}, {}, map[], {}, 0)

  function Admit(w: World, r: nat): World {
    if w.stopping || r in w.open + w.released then w
    else w.(requests := w.requests + 1, open := w.open + {r})
  }

  /** Either of `finish` and `close` releases a request, the first one only. */
  function Release(w: World, r: nat): World {
    if r !in w.open then w
    else w.(requests := w.requests - 1, open := w.open - {r}, released := w.released + {r})
  }

  function Call(w: World, op: nat, callback: bool): World {
    if w.storeClosed || op in w.operations then w
    else w.(operations := w.operations[op := Operation(false, false, callback)], tracked := w.tracked + {op})
  }

  /** The deferred invocation; when it throws, no callback is owed. */
  function Invoke(w: World, op: nat, throws: bool): World {
    if op !in w.operations || w.operations[op].invoked then w
    else w.(operations := w.operations[op := if throws then Operation(true, true, false)
                                             else w.operations[op].(invoked := true)],
            invokedAfterClose := if w.storeClosed then w.invokedAfterClose + {op} else w.invokedAfterClose)
  }

  predicate Running(w: World, op: nat) { op in w.operations && w.operations[op].invoked }

  function SettleResult(w: World, op: nat): World {
    if !Running(w, op) then w else w.(operations := w.operations[op := w.operations[op].(resultSettled := true)])
  }

  function CallBack(w: World, op: nat): World {
    if !Running(w, op) then w else w.(operations := w.operations[op := w.operations[op].(callbackPending := false)])
  }

  predicate CanForget(w: World, op: nat) { op in w.operations && w.operations[op].Settled() }

  function Forget(w: World, op: nat): World {
    if CanForget(w, op) then w.(tracked := w.tracked - {op}) else w
  }

  /** Revokes store authority in the same turn in which the drain is seen to be over. */
  function CloseStore(w: World): World { w.(storeClosed := true, phase := Settling(w.tracked)) }

  function Close(w: World): World {
    var w' := w.(stopping := true);
    if w.phase != Open then w' else if w.requests != 0 then w'.(phase := Draining) else CloseStore(w')
  }

  function Drained(w: World): World {
    if w.phase == Draining && w.requests == 0 then CloseStore(w) else w
  }

  predicate AllSettled(w: World, ops: set<nat>) {
    forall op :: op in ops ==> op in w.operations && w.operations[op].Settled()
  }

  function Disconnect(w: World): World {
    if w.phase.Settling? && AllSettled(w, w.phase.waiting)
    then w.(phase := Disconnected, disconnects := w.disconnects + 1) else w
  }

  datatype Event =
    | Admits(r: nat)
    | Releases(r: nat)
    | Calls(op: nat, callback: bool)
    | Invokes(op: nat, throws: bool)
    | SettlesResult(op: nat)
    | CallsBack(op: nat)
    | Forgets(op: nat)
    | Closes
    | Drains
    | Disconnects

  function Step(w: World, e: Event): World {
    match e
    case Admits(r) => Admit(w, r)
    case Releases(r) => Release(w, r)
    case Calls(op, callback) => Call(w, op, callback)
    case Invokes(op, throws) => Invoke(w, op, throws)
    case SettlesResult(op) => SettleResult(w, op)
    case CallsBack(op) => CallBack(w, op)
    case Forgets(op) => Forget(w, op)
    case Closes => Close(w)
    case Drains => Drained(w)
    case Disconnects => Disconnect(w)
  }

  function Run(w: World, es: seq<Event>): World {
    if es == [] then w else Step(Run(w, es[..|es| - 1]), es[|es| - 1])
  }

  // ---------- the invariant ----------

  ghost predicate Inv(w: World) {
    && w.requests == |w.open| && w.open !! w.released
    && (w.phase != Open ==> w.stopping)
    && (w.storeClosed <==> w.phase.Settling? || w.phase.Disconnected?)
    && (w.storeClosed ==> w.open == {})
    && w.disconnects == (if w.phase.Disconnected? then 1 else 0)
    && (forall op :: op in w.operations && op !in w.tracked ==> w.operations[op].Settled())
    && (forall op :: op in w.tracked ==> op in w.operations)
    && (forall op :: op in w.operations && !w.operations[op].invoked ==> !w.operations[op].resultSettled)
    && (w.phase.Settling? ==> w.tracked <= w.phase.waiting <= w.operations.Keys)
    && (w.phase.Disconnected? ==> forall op :: op in w.operations ==> w.operations[op].Settled())
    && (forall op :: op in w.invokedAfterClose ==> op in w.operations)
  }

  lemma RequestInv(w: World, r: nat)
    requires Inv(w)
    ensures Inv(Admit(w, r)) && Inv(Release(w, r))
  {
  }

  lemma CallInv(w: World, op: nat, callback: bool)
    requires Inv(w)
    ensures Inv(Call(w, op, callback))
  {
  }

  lemma InvokeInv(w: World, op: nat, throws: bool)
    requires Inv(w)
    ensures Inv(Invoke(w, op, throws))
  {
  }

  lemma SettleInv(w: World, op: nat)
    requires Inv(w)
    ensures Inv(SettleResult(w, op)) && Inv(CallBack(w, op))
  {
  }

  lemma ForgetInv(w: World, op: nat)
    requires Inv(w)
    ensures Inv(Forget(w, op))
  {
  }

  lemma CloseInv(w: World)
    requires Inv(w)
    ensures Inv(Close(w)) && Inv(Drained(w))
  {
  }

  lemma DisconnectInv(w: World)
    requires Inv(w)
    ensures Inv(Disconnect(w))
  {
    if Disconnect(w) != w {
      forall op | op in w.operations ensures w.operations[op].Settled() {
        if op in w.tracked { assert op in w.phase.waiting; }
      }
    }
  }

  lemma {:induction false} StepInv(w: World, e: Event)
    requires Inv(w)
    ensures Inv(Step(w, e))
  {
    match e
    case Admits(r) => RequestInv(w, r);
    case Releases(r) => RequestInv(w, r);
    case Calls(op, callback) => CallInv(w, op, callback);
    case Invokes(op, throws) => InvokeInv(w, op, throws);
    case SettlesResult(op) => SettleInv(w, op);
    case CallsBack(op) => SettleInv(w, op);
    case Forgets(op) => ForgetInv(w, op);
    case Closes => CloseInv(w);
    case Drains => CloseInv(w);
    case Disconnects => DisconnectInv(w);
  }

  lemma {:induction false} RunInv(w: World, es: seq<Event>)
    requires Inv(w)
    ensures Inv(Run(w, es))
  {
    if es == [] {
    } else {
      RunInv(w, es[..|es| - 1]);
      StepInv(Run(w, es[..|es| - 1]), es[|es| - 1]);
    }
  }

  // ---------- what holds of every run ----------

  /** The counter is the number of admitted requests still open, whatever `finish` and `close` events fire. */
  lemma {:induction false} CounterIsExact(es: seq<Event>)
    ensures Run(Start, es).requests == |Run(Start, es).open|
  {
    RunInv(Start, es);
  }

  /** The store disconnects at most once, with no request open and every call that was ever let through settled. */
  lemma {:induction false} DisconnectComesLast(es: seq<Event>)
    ensures var w := Run(Start, es);
      && w.disconnects <= 1
      && (w.disconnects == 1 ==>
            w.open == {} && w.storeClosed && forall op :: op in w.operations ==> w.operations[op].Settled())
  {
    RunInv(Start, es);
  }

  /** After the store closed no call is let through. */
  lemma {:induction false} NoCallAfterClose(w: World, es: seq<Event>)
    requires w.storeClosed
    ensures Run(w, es).storeClosed && Run(w, es).operations.Keys == w.operations.Keys
  {
    if es == [] {
    } else {
      NoCallAfterClose(w, es[..|es| - 1]);
    }
  }

  /** Every call that was let through has reached the underlying store. */
  predicate AllInvoked(w: World) { forall op :: op in w.operations ==> w.operations[op].invoked }

  lemma {:induction false} StaysInvoked(w: World, es: seq<Event>)
    requires w.storeClosed && AllInvoked(w)
    ensures AllInvoked(Run(w, es)) && Run(w, es).storeClosed && Run(w, es).invokedAfterClose == w.invokedAfterClose
  {
    if es == [] {
    } else {
      StaysInvoked(w, es[..|es| - 1]);
    }
  }

  /**
   * From the turn in which the store closes, no operation starts on the underlying store in any continuation if and
   * only if every call let through by then has already started.
   */
  lemma NothingStartsAfterCloseIff(w: World)
    requires w.storeClosed && w.invokedAfterClose == {}
    ensures (forall es :: Run(w, es).invokedAfterClose == {}) <==> AllInvoked(w)
  {
    if AllInvoked(w) {
      forall es ensures Run(w, es).invokedAfterClose == {} {
        StaysInvoked(w, es);
      }
    } else {
      var es := LateStart(w);
      assert Run(w, es).invokedAfterClose != {};
    }
  }

  lemma LateStart(w: World) returns (es: seq<Event>)
    requires w.storeClosed && !AllInvoked(w)
    ensures Run(w, es).invokedAfterClose != {}
  {
    var op :| op in w.operations && !w.operations[op].invoked;
    es := [Invokes(op, false)];
    assert es[..|es| - 1] == [] && Run(w, []) == w;
    assert op in Run(w, es).invokedAfterClose;
  }

  /** A call made in the turn before closing starts on the store only after it is closed. */
  lemma StartsAfterClose(callback: bool)
    ensures var w := Step(Step(Step(Start, Calls(0, callback)), Closes), Invokes(0, false));
      w.storeClosed && w.invokedAfterClose == {0}
  {
  }

  /** Nothing starts once the store is disconnected. */
  lemma {:induction false} NothingStartsAfterDisconnect(es: seq<Event>, more: seq<Event>)
    requires Run(Start, es).phase.Disconnected?
    ensures Run(Run(Start, es), more).invokedAfterClose == Run(Start, es).invokedAfterClose
  {
    RunInv(Start, es);
    var w := Run(Start, es);
    assert AllInvoked(w) by {
      forall op | op in w.operations ensures w.operations[op].invoked {
        assert w.operations[op].Settled();
      }
    }
    StaysInvoked(w, more);
  }

  /**
   * Once closing was asked for, and unless it has disconnected already, the last release and the last settlement are
   * enough to disconnect, however many operations were forgotten meanwhile.
   */
  lemma ShutdownCompletes(w: World)
    requires Inv(w) && w.phase != Open && w.open == {}
    requires forall op :: op in w.operations ==> w.operations[op].Settled()
    ensures Step(Step(w, Drains), Disconnects).disconnects == 1
  {
    StepInv(w, Drains);
    var w' := Step(w, Drains);
    assert w'.phase.Settling? ==> AllSettled(w', w'.phase.waiting);
  }

  // ---------- the lifecycle object ----------

  class BrowserSessionLifecycle {
    var stopping: bool
    var storeClosed: bool
    var requests: int
    var tracked: set<nat>
    var phase: Phase
    /** The closures of requests and calls: which were released, invoked and settled. */
    var open: set<nat>
    var released: set<nat>
    var operations: map<nat, Operation>
    ghost var invokedAfterClose: set<nat>
    ghost var disconnects: nat

    constructor ()
      ensures AsWorld() == Start
    {
      stopping, storeClosed, requests, tracked, phase := false, false, 0, {}, Open;
      open, released, operations, invokedAfterClose, disconnects := {}, {}, map[], {}, 0;
    }

    ghost function AsWorld(): World
      reads this
    {
      World(stopping, storeClosed, requests, tracked, phase, open, released, operations, invokedAfterClose, disconnects)
    }

    /** A request, with an identity of its own: refused with 503 while stopping. */
    method Middleware(r: nat) returns (admitted: bool)
      requires r !in open && r !in released
      modifies this
      ensures AsWorld() == Admit(old(AsWorld()), r)
      ensures admitted <==> !old(stopping)
      ensures open == old(open) + (if admitted then {r} else {})
      ensures requests == old(requests) + (if admitted then 1 else 0)
    {
      if stopping {
        return false;
      }
      requests := requests + 1;
      open := open + {r};
      return true;
    }

    method ReleaseRequest(r: nat) returns (drained: bool)
      requires r in open || r in released
      requires open !! released
      modifies this
      ensures AsWorld() == Release(old(AsWorld()), r)
      ensures open == old(open) - {r} && released == old(released) + {r}
      ensures requests == old(requests) - (if r in old(released) then 0 else 1)
      ensures drained <==> r !in old(released) && requests == 0
    {
      if r in released {
        return false;
      }
      released := released + {r};
      open := open - {r};
      requests := requests - 1;
      return requests == 0;
    }

    method CallStore(op: nat, callback: bool) returns (accepted: bool)
      requires op !in operations
      modifies this
      ensures AsWorld() == Call(old(AsWorld()), op, callback)
      ensures accepted <==> !old(storeClosed)
      ensures tracked == old(tracked) + (if accepted then {op} else {})
      ensures operations == if accepted then old(operations)[op := Operation(false, false, callback)]
                            else old(operations)
    {
      if storeClosed {
        return false;
      }
      operations := operations[op := Operation(false, false, callback)];
      tracked := tracked + {op};
      return true;
    }

    method InvokeOriginal(op: nat, throws: bool)
      requires op in operations && !operations[op].invoked
      modifies this
      ensures AsWorld() == Invoke(old(AsWorld()), op, throws)
      ensures operations == old(operations)[op := if throws then Operation(true, true, false)
                                                  else old(operations)[op].(invoked := true)]
    {
      operations := operations[op := operations[op].(invoked := true)];
      if throws {
        operations := operations[op := operations[op].(resultSettled := true, callbackPending := false)];
      }
      if storeClosed {
        invokedAfterClose := invokedAfterClose + {op};
      }
    }

    /** Any call but the first keeps waiting for the same closing. */
    method CloseLifecycle()
      modifies this
      ensures AsWorld() == Close(old(AsWorld()))
      ensures stopping && tracked == old(tracked) && operations == old(operations) && open == old(open)
      ensures storeClosed <==> old(storeClosed) || (old(phase) == Open && old(requests) == 0)
      ensures phase == if old(phase) != Open then old(phase)
                       else if old(requests) == 0 then Settling(old(tracked)) else Draining
    {
      stopping := true;
      if phase == Open {
        if requests != 0 {
          phase := Draining;
        } else {
          RevokeStore();
        }
      }
    }

    method RevokeStore()
      modifies this
      ensures AsWorld() == CloseStore(old(AsWorld()))
    {
      storeClosed := true;
      phase := Settling(tracked);
    }

    /** The turn after the last release. */
    method OnDrained()
      requires phase == Draining && requests == 0
      modifies this
      ensures AsWorld() == Drained(old(AsWorld()))
    {
      RevokeStore();
    }

    method OnAllSettled()
      requires phase.Settling? && AllSettled(AsWorld(), phase.waiting)
      modifies this
      ensures AsWorld() == Disconnect(old(AsWorld()))
    {
      phase := Disconnected;
      disconnects := disconnects + 1;
    }
  }
}
