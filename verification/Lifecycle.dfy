/** Starts, stops and destructors of one server object in every interleaving. Each step is what a task does between
    two suspension points: a section under the state lock, or an event of the native server outside it. */
module Lifecycle {
  import opened Common
  import opened ServerState
  import opened Replay
  import opened ReplayRefinement
  import opened HostedServer

  type TaskId = nat

  datatype Task =
    | Replaying(taken: Taken)                        // past the lock, building the server and replaying the queue
    | Storing(log: seq<Call>, handle: Handle)        // listener open, second locked section still to come
    | Closing(held: Option<Handle>)                  // a stop or a destructor that took the handle
    | Started
    | Finished(error: Option<PyError>)               // of a failed start, or of a stop

  datatype Shared = Shared(
    cell: ServerState,
    tasks: map<TaskId, Task>,
    passed: set<TaskId>,          // starts that ever got past the lock, failed ones included
    listeners: set<Handle>,       // handles of the listeners ever opened
    closed: multiset<Handle>)     // handles stopped, as often as they were

  datatype Event =
    | Configure(cell: ServerState)                   // any method that keeps the lifecycle state
    | StartLock(t: TaskId)
    | ReplayFail(t: TaskId, error: PyError)
    | ReplayOpen(t: TaskId, log: seq<Call>, handle: Handle)
    | Store(t: TaskId)
    | StopLock(t: TaskId)
    | DropLock(t: TaskId)
    | Close(t: TaskId)

  /** Registrations and settings change what is queued or installed, not the lifecycle. */
  predicate SameLifecycle(a: ServerState, b: ServerState) {
    || (a.NotStarted? && b.NotStarted?)
    || (a.Running? && b.Running? && a.handle == b.handle)
    || (a.Stopped? && b.Stopped?)
  }

  predicate Enabled(s: Shared, e: Event) {
    match e
    case Configure(cell) => SameLifecycle(s.cell, cell)
    case StartLock(t) => t !in s.tasks
    case ReplayFail(t, _) => t in s.tasks && s.tasks[t].Replaying?
    case ReplayOpen(t, _, h) => t in s.tasks && s.tasks[t].Replaying? && h !in s.listeners
    case Store(t) => t in s.tasks && s.tasks[t].Storing?
    case StopLock(t) => t !in s.tasks
    case DropLock(t) => t !in s.tasks
    case Close(t) => t in s.tasks && s.tasks[t].Closing?
  }

  function Next(s: Shared, e: Event): Shared
    requires Enabled(s, e)
  {
    match e
    case Configure(cell) => s.(cell := cell)
    case StartLock(t) =>
      (match TakeForStart(s.cell)
       case (cell, Ok(taken)) => s.(cell := cell, tasks := s.tasks[t := Replaying(taken)], passed := s.passed + {t})
       case (cell, Raised(e)) => s.(cell := cell, tasks := s.tasks[t := Finished(Some(e))]))
    case ReplayFail(t, e) => s.(tasks := s.tasks[t := Finished(Some(e))])
    case ReplayOpen(t, log, h) => s.(tasks := s.tasks[t := Storing(log, h)], listeners := s.listeners + {h})
    case Store(t) => s.(cell := Running(s.tasks[t].log, Some(s.tasks[t].handle)), tasks := s.tasks[t := Started])
    case StopLock(t) =>
      (match TakeForStop(s.cell)
       case (cell, Ok(handle)) => s.(cell := cell, tasks := s.tasks[t := Closing(handle)])
       case (cell, Raised(e)) => s.(cell := cell, tasks := s.tasks[t := Finished(Some(e))]))
    case DropLock(t) =>
      (match TakeForStop(s.cell)
       case (cell, Ok(handle)) => s.(cell := cell, tasks := s.tasks[t := Closing(handle)])
       case (cell, Raised(_)) => s.(cell := cell, tasks := s.tasks[t := Finished(None)]))
    case Close(t) =>
      var closed := match s.tasks[t].held case Some(h) => s.closed + multiset{h} case None => s.closed;
      s.(tasks := s.tasks[t := Finished(None)], closed := closed)
  }

  const INITIAL := Shared(NotStarted(None, [], None), map[], {}, {}, multiset{})

  /** The states of a run, one event after another. */
  ghost predicate IsRun(states: seq<Shared>, events: seq<Event>) {
    && |states| == |events| + 1
    && states[0] == INITIAL
    && forall i :: 0 <= i < |events| ==> Enabled(states[i], events[i]) && states[i + 1] == Next(states[i], events[i])
  }

  // Who has the handle of an open listener.

  datatype Owner = Cell | Task(id: TaskId) | Nobody

  /** Every place that has `h`: the state cell, a start about to store it, a stop or destructor about to close it. */
  ghost predicate Owns(s: Shared, o: Owner, h: Handle) {
    match o
    case Cell => s.cell.Running? && s.cell.handle == Some(h)
    case Task(t) =>
      t in s.tasks &&
      ((s.tasks[t].Storing? && s.tasks[t].handle == h) || (s.tasks[t].Closing? && s.tasks[t].held == Some(h)))
    case Nobody => s.closed[h] > 0
  }

  predicate InFlight(s: Shared, t: TaskId) {
    t in s.tasks && (s.tasks[t].Replaying? || s.tasks[t].Storing?)
  }

  /** The handles of the listeners ever opened are owned once each, no other handle is owned, none is closed twice. */
  ghost predicate OneOwnerEach(s: Shared) {
    && (forall h :: s.closed[h] <= 1)
    && (forall o, h :: Owns(s, o, h) ==> h in s.listeners)
    && (forall h :: h in s.listeners ==> exists o :: Owns(s, o, h))
    && (forall o, p, h :: Owns(s, o, h) && Owns(s, p, h) ==> o == p)
  }

  ghost predicate Inv(s: Shared) {
    // before any start gets past the lock there is nothing at all
    && (s.cell.NotStarted? ==> s.passed == {} && s.listeners == {})
    // at most one start is past the lock, and while it is in flight the placeholder stays
    && (forall t, u :: t in s.passed && u in s.passed ==> t == u)
    && (forall t <- s.tasks :: s.tasks[t].Replaying? || s.tasks[t].Storing? || s.tasks[t].Started? ==> t in s.passed)
    && s.passed <= s.tasks.Keys
    && (forall t :: InFlight(s, t) ==> s.cell.Stopped?)
    && (forall t <- s.tasks :: s.tasks[t].Replaying? ==> s.listeners == {})
    // one listener at most, and its handle is in exactly one place
    && (forall h, k :: h in s.listeners && k in s.listeners ==> h == k)
    && OneOwnerEach(s)
    && (s.cell.Running? ==> s.cell.handle.Some?)
    && (forall t <- s.tasks :: s.tasks[t].Closing? ==> s.tasks[t].held.Some?)
  }

  /** Outside the cell, task `t` and the closed handles, a step leaves every owner as it was. */
  lemma MovedTo(s: Shared, n: Shared, t: TaskId, to: Owner, h: Handle)
    requires Inv(s) && n.tasks == s.tasks[t := if t in n.tasks then n.tasks[t] else Started]
    requires Owns(n, to, h)
    requires to != Cell ==> !n.cell.Running?
    requires to != Task(t) ==> n.tasks[t].Started? || n.tasks[t].Finished?
    requires to != Nobody ==> n.closed == s.closed
    requires to == Cell ==> n.cell.handle == Some(h)
    requires to == Nobody ==> n.closed == s.closed + multiset{h}
    requires to == Task(t) || to == Cell || to == Nobody
    requires forall o, k :: Owns(s, o, k) ==> k == h && (o == Cell || o == Task(t))
    requires n.listeners == {h}
    ensures OneOwnerEach(n)
  {
    forall o, k
      ensures Owns(n, o, k) <==> o == to && k == h
    {
      assert o != to && Owns(n, o, k) ==> Owns(s, o, k);
      if o == Nobody {
        assert !Owns(s, Nobody, k);
      }
    }
    forall k ensures n.closed[k] <= 1 {
      assert !Owns(s, Nobody, k);
    }
  }

  /** In a state that keeps the invariant whoever owns a handle is its only owner. */
  lemma OnlyOwner(s: Shared, o: Owner, h: Handle)
    requires Inv(s) && Owns(s, o, h)
    ensures forall p, k :: Owns(s, p, k) ==> p == o && k == h
    ensures s.listeners == {h}
  {
    forall p, k | Owns(s, p, k) ensures p == o && k == h {
      assert k in s.listeners && h in s.listeners;
    }
  }

  lemma Unmoved(s: Shared, n: Shared)
    requires forall o, h :: Owns(n, o, h) <==> Owns(s, o, h)
    requires Inv(s) && n.listeners == s.listeners && n.closed == s.closed
    ensures OneOwnerEach(n)
  {
    forall h | h in n.listeners ensures exists o :: Owns(n, o, h) {
      var o :| Owns(s, o, h);
      assert Owns(n, o, h);
    }
  }

  lemma ReplayOpenKeepsInv(s: Shared, t: TaskId, log: seq<Call>, h: Handle)
    requires Inv(s) && Enabled(s, ReplayOpen(t, log, h))
    ensures Inv(Next(s, ReplayOpen(t, log, h)))
  {
    var n := Next(s, ReplayOpen(t, log, h));
    assert InFlight(s, t) && forall u :: InFlight(n, u) <==> InFlight(s, u);
    MovedTo(s, n, t, Task(t), h);
  }

  lemma StoreKeepsInv(s: Shared, t: TaskId)
    requires Inv(s) && Enabled(s, Store(t))
    ensures Inv(Next(s, Store(t)))
  {
    var n, h := Next(s, Store(t)), s.tasks[t].handle;
    assert InFlight(s, t) && forall u :: InFlight(n, u) ==> InFlight(s, u);
    OnlyOwner(s, Task(t), h);
    MovedTo(s, n, t, Cell, h);
  }

  lemma CloseKeepsInv(s: Shared, t: TaskId)
    requires Inv(s) && Enabled(s, Close(t))
    ensures Inv(Next(s, Close(t)))
  {
    var n, h := Next(s, Close(t)), s.tasks[t].held.value;
    assert forall u :: InFlight(n, u) <==> InFlight(s, u);
    assert s.cell.Running? ==> Owns(s, Cell, s.cell.handle.value);
    OnlyOwner(s, Task(t), h);
    MovedTo(s, n, t, Nobody, h);
  }

  lemma StepKeepsInv(s: Shared, e: Event)
    requires Inv(s) && Enabled(s, e)
    ensures Inv(Next(s, e))
  {
    match e {
      case Configure(_) =>
        assert forall t :: InFlight(Next(s, e), t) <==> InFlight(s, t);
        Unmoved(s, Next(s, e));
      case StartLock(t) =>
        assert forall u :: u != t ==> (InFlight(Next(s, e), u) <==> InFlight(s, u));
        Unmoved(s, Next(s, e));
      case ReplayFail(t, _) =>
        assert forall u :: InFlight(Next(s, e), u) ==> InFlight(s, u);
        Unmoved(s, Next(s, e));
      case ReplayOpen(t, log, h) => ReplayOpenKeepsInv(s, t, log, h);
      case Store(t) => StoreKeepsInv(s, t);
      case StopLock(t) => TakeKeepsInv(s, Next(s, e), t);
      case DropLock(t) => TakeKeepsInv(s, Next(s, e), t);
      case Close(t) => CloseKeepsInv(s, t);
    }
  }

  lemma TakeKeepsInv(s: Shared, n: Shared, t: TaskId)
    requires Inv(s) && t !in s.tasks
    requires Enabled(s, StopLock(t)) && (n == Next(s, StopLock(t)) || n == Next(s, DropLock(t)))
    ensures Inv(n)
  {
    assert forall u :: InFlight(n, u) <==> InFlight(s, u);
    if s.cell.Running? {
      var h := s.cell.handle.value;
      OnlyOwner(s, Cell, h);
      MovedTo(s, n, t, Task(t), h);
    } else {
      Unmoved(s, n);
    }
  }

  lemma {:induction false} RunKeepsInv(states: seq<Shared>, events: seq<Event>, i: nat)
    requires IsRun(states, events) && i < |states|
    ensures Inv(states[i])
  {
    if i > 0 {
      RunKeepsInv(states, events, i - 1);
      StepKeepsInv(states[i - 1], events[i - 1]);
    }
  }

  /** In every interleaving, at every moment: at most one start has ever got past the lock, so at most one listener
      has opened; its handle is in exactly one place, and it has been closed at most once. */
  lemma OneStartOneHandle(states: seq<Shared>, events: seq<Event>, i: nat)
    requires IsRun(states, events) && i < |states|
    ensures forall t, u :: t in states[i].passed && u in states[i].passed ==> t == u
    ensures forall h, k :: h in states[i].listeners && k in states[i].listeners ==> h == k
    ensures OneOwnerEach(states[i])
  {
    RunKeepsInv(states, events, i);
  }

  /** The second locked section of a start only ever replaces the placeholder. */
  lemma StoreReplacesPlaceholder(states: seq<Shared>, events: seq<Event>, i: nat)
    requires IsRun(states, events) && i < |events| && events[i].Store?
    ensures states[i].cell.Stopped? && states[i + 1].cell.Running?
  {
    RunKeepsInv(states, events, i);
    assert InFlight(states[i], events[i].t);
  }

  ghost predicate NoneInFlight(s: Shared) {
    forall t :: !InFlight(s, t)
  }

  /** Once stopped with no start in flight, always stopped: neither a server nor a failed start comes back. */
  lemma {:induction false} StoppedForGood(states: seq<Shared>, events: seq<Event>, i: nat, j: nat)
    requires IsRun(states, events) && i <= j < |states|
    requires states[i].cell.Stopped? && NoneInFlight(states[i])
    ensures states[j].cell.Stopped? && NoneInFlight(states[j])
  {
    if i < j {
      StoppedForGood(states, events, i, j - 1);
      var s, e := states[j - 1], events[j - 1];
      if e.ReplayFail? || e.ReplayOpen? || e.Store? {
        assert InFlight(s, e.t);
      }
      assert forall t :: InFlight(states[j], t) ==> InFlight(s, t);
    }
  }

  /** A start that fails at the lock leaves the state exactly as it was: it had no address, or had been started. */
  lemma StartRefusedAtLock(s: Shared, t: TaskId)
    requires Inv(s) && Enabled(s, StartLock(t))
    ensures var n := Next(s, StartLock(t));
            n.tasks[t].Finished? <==>
            (s.cell.NotStarted? ==> s.cell.bindAddr.None?)
    ensures Next(s, StartLock(t)).tasks[t].Finished? ==> Next(s, StartLock(t)).cell == s.cell
    ensures s.passed != {} ==> Next(s, StartLock(t)).tasks[t].Finished?
  {
  }

  /** A start that fails past the lock leaves the server stopped, at that moment and ever after. */
  lemma FailedStartStops(states: seq<Shared>, events: seq<Event>, i: nat, j: nat)
    requires IsRun(states, events) && i < j < |states| && events[i].ReplayFail?
    ensures states[j].cell.Stopped?
  {
    var t := events[i].t;
    RunKeepsInv(states, events, i);
    RunKeepsInv(states, events, i + 1);
    assert InFlight(states[i], t);
    var n := states[i + 1];
    assert t in n.passed && forall u: TaskId :: InFlight(n, u) ==> u in n.passed;
    StoppedForGood(states, events, i + 1, j);
  }

  /** A stop, or a destructor, that comes while a start is in flight gets nothing and changes nothing: the start is in
      flight as before. */
  lemma StopDuringStart(states: seq<Shared>, events: seq<Event>, i: nat)
    requires IsRun(states, events) && i < |events| && !NoneInFlight(states[i])
    requires events[i].StopLock? || events[i].DropLock?
    ensures states[i + 1].cell == states[i].cell && states[i + 1].tasks[events[i].t].Finished?
    ensures forall t: TaskId :: InFlight(states[i], t) ==>
              InFlight(states[i + 1], t) && states[i + 1].tasks[t] == states[i].tasks[t]
  {
    RunKeepsInv(states, events, i);
  }

  /** A stop or a destructor takes the handle of a running server and leaves it stopped; of any other it takes nothing
      and changes nothing, which is an error of the stop and none of the destructor. What was taken is then closed. */
  lemma StopTakesHandle(s: Shared, t: TaskId, h: Handle)
    requires Inv(s) && t !in s.tasks
    ensures var stop, drop := Next(s, StopLock(t)), Next(s, DropLock(t));
            && (s.cell.Running? ==>
                  && stop.cell == Stopped && stop.tasks[t] == Closing(s.cell.handle) && s.cell.handle.Some?
                  && stop == drop)
            && (!s.cell.Running? ==>
                  && stop.cell == s.cell && stop.tasks[t] == Finished(Some(RuntimeError))
                  && drop.cell == s.cell && drop.tasks[t] == Finished(None))
    ensures forall u: TaskId :: u in s.tasks && s.tasks[u] == Closing(Some(h)) ==>
              Next(s, Close(u)).closed == s.closed + multiset{h} && Next(s, Close(u)).tasks[u] == Finished(None)
  {
  }

  /** A run goes on by any event that is enabled. */
  lemma Extend(states: seq<Shared>, events: seq<Event>, e: Event) returns (longer: seq<Shared>, more: seq<Event>)
    requires IsRun(states, events) && Enabled(states[|events|], e)
    ensures IsRun(longer, more) && longer == states + [Next(states[|events|], e)] && more == events + [e]
  {
    longer, more := states + [Next(states[|events|], e)], events + [e];
    forall i | 0 <= i < |more|
      ensures Enabled(longer[i], more[i]) && longer[i + 1] == Next(longer[i], more[i])
    {
      assert longer[i] == states[i];
      if i < |events| {
        assert more[i] == events[i] && longer[i + 1] == states[i + 1];
      }
    }
  }

  /** Whatever came between, stops and destructors included, a start in flight can still come up: every run that has one
      goes on to a running server. */
  lemma StartComesUp(states: seq<Shared>, events: seq<Event>, t: TaskId, log: seq<Call>, handle: Handle)
    returns (longer: seq<Shared>, more: seq<Event>)
    requires IsRun(states, events) && InFlight(states[|events|], t)
    ensures IsRun(longer, more) && states <= longer && events <= more
    ensures longer[|more|].cell.Running? && t in longer[|more|].tasks && longer[|more|].tasks[t].Started?
  {
    RunKeepsInv(states, events, |events|);
    longer, more := states, events;
    if states[|events|].tasks[t].Replaying? {
      longer, more := Extend(longer, more, ReplayOpen(t, log, handle));
    }
    longer, more := Extend(longer, more, Store(t));
  }

  // The steps are those of the server object.

  /** Every registration is a `Configure` step. */
  lemma RegistrationIsConfigure(native: Native, state: ServerState, prepared: Result<Pending>)
    ensures SameLifecycle(state, Requested(native, state, prepared).0)
  {
  }

  /** A start that nothing interrupts is its steps: refused at the lock it is one, failing past it two, and coming up
      three. */
  lemma StartIsItsSteps(native: Native, s: Shared, t: TaskId, handle: Handle)
    requires Inv(s) && t !in s.tasks && handle !in s.listeners
    ensures var (after, r) := StartStep(native, s.cell, handle);
            var locked := Next(s, StartLock(t));
            && Enabled(s, StartLock(t))
            && (r.Ok? ==>
                  && Enabled(locked, ReplayOpen(t, after.log, handle))
                  && Enabled(Next(locked, ReplayOpen(t, after.log, handle)), Store(t))
                  && Next(Next(locked, ReplayOpen(t, after.log, handle)), Store(t)).cell == after)
            && (r.Raised? && TakeForStart(s.cell).1.Ok? ==>
                  Enabled(locked, ReplayFail(t, r.error)) && Next(locked, ReplayFail(t, r.error)).cell == after)
            && (r.Raised? && TakeForStart(s.cell).1.Raised? ==>
                  locked.cell == after == s.cell && locked.tasks[t] == Finished(Some(r.error)))
  {
  }
}
