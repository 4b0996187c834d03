/** ShutdownCoordinator.ExecuteShutdown over the queue and worker pool. */
module CoordinatedShutdown {
  import opened Models
  import opened Sums
  import opened PoolProtocol
  import opened PoolInvariants
  import opened PoolTheorems

  /** Which callbacks are set, and whether the one that stops acceptance also waits for the requests it
      has already admitted.  The pool callback is Stop, called with index 0; the queue callback is Close. */
  datatype Wiring = Wiring(stopsAccepting: bool, waitsForProducers: bool, stopsPool: bool, closesQueue: bool)

  // ---- The coordinator as an object ----

  datatype Effect = StopAccepting | StopPool | CloseQueue | Cleanup

  /** Its callbacks are set or nil; what they do is recorded. */
  class ShutdownCoordinator {
    const callbacks: set<Effect>
    var effects: seq<Effect>

    constructor (callbacks: set<Effect>)
      ensures this.callbacks == callbacks && effects == []
    {
      this.callbacks, effects := callbacks, [];
    }

    /** Runs the callbacks that are set, in this order, and reports no error: one from the pool is logged only. */
    method ExecuteShutdown(poolError: Option<string>) returns (err: Option<string>)
      modifies this`effects
      ensures err.None?
      ensures effects == old(effects) + Planned(callbacks)
    {
      if StopAccepting in callbacks {
        effects := effects + [StopAccepting];
      }
      if StopPool in callbacks {
        effects := effects + [StopPool];
      }
      if CloseQueue in callbacks {
        effects := effects + [CloseQueue];
      }
      if Cleanup in callbacks {
        effects := effects + [Cleanup];
      }
      err := None;
    }
  }

  function Chosen(callbacks: set<Effect>, e: Effect): seq<Effect> {
    if e in callbacks then [e] else []
  }

  function Planned(callbacks: set<Effect>): seq<Effect> {
    Chosen(callbacks, StopAccepting) + Chosen(callbacks, StopPool)
    + Chosen(callbacks, CloseQueue) + Chosen(callbacks, Cleanup)
  }

  /** Every callback that is set runs exactly once, and the queue is closed only after acceptance and the
      pool have been stopped. */
  lemma PlannedInOrder(callbacks: set<Effect>)
    ensures InOrder(Planned(callbacks))
    ensures forall e :: e in callbacks <==> e in Planned(callbacks)
  {
    var a, b := Chosen(callbacks, StopAccepting), Chosen(callbacks, StopPool);
    var c, d := Chosen(callbacks, CloseQueue), Chosen(callbacks, Cleanup);
    hide Chosen;
    ChosenAlone(callbacks, StopAccepting);
    ChosenAlone(callbacks, StopPool);
    ChosenAlone(callbacks, CloseQueue);
    ChosenAlone(callbacks, Cleanup);
    Joined(a, b);
    Joined(a + b, c);
    Joined(a + b + c, d);
  }

  lemma ChosenAlone(callbacks: set<Effect>, d: Effect)
    ensures InOrder(Chosen(callbacks, d))
    ensures forall e :: e in Chosen(callbacks, d) <==> e == d && e in callbacks
  {
  }

  lemma Joined(a: seq<Effect>, b: seq<Effect>)
    requires InOrder(a) && InOrder(b)
    requires forall d, e :: d in a && e in b ==> Place(d) < Place(e)
    ensures InOrder(a + b)
  {
  }

  function Place(e: Effect): nat {
    match e case StopAccepting => 0 case StopPool => 1 case CloseQueue => 2 case Cleanup => 3
  }

  /** Each effect once, and never before one that it has to follow. */
  predicate InOrder(effects: seq<Effect>) {
    forall i, j :: 0 <= i < j < |effects| ==> Place(effects[i]) < Place(effects[j])
  }

  // ---- The coordinator among the other goroutines ----

  /** The step ExecuteShutdown is at. */
  datatype Stage = NotBegun | DrainingProducers | StoppingPool | ClosingQueue | Finished

  datatype System = System(pool: State, stage: Stage, accepting: bool)

  datatype SystemAction = PoolStep(a: Action) | BeginShutdown | ProducersStopped | PoolReturned | QueueDone

  function SystemInit(capacity: nat, workers: nat, producers: nat, stoppers: nat): System {
    System(Init(capacity, workers, producers, stoppers), NotBegun, true)
  }

  predicate ProducersIdle(s: State) {
    forall c :: |s.pool.workers| <= c < |s.calls| ==> s.calls[c].NoCall?
  }

  /** Only the coordinator closes the queue, and only at its third step; it calls Stop at its second. */
  predicate Allowed(w: Wiring, x: System, a: Action) {
    && (a.BeginEnqueue? && a.c >= |x.pool.pool.workers| ==> x.accepting)
    && (a.CloseBegin? ==> x.stage.ClosingQueue? && w.closesQueue)
    && (a == StopEnter(0) ==> x.stage.StoppingPool? && w.stopsPool)
  }

  predicate SystemEnabled(w: Wiring, x: System, b: SystemAction) {
    match b
    case PoolStep(a) => Allowed(w, x, a) && Enabled(x.pool, a)
    case BeginShutdown => x.stage.NotBegun?
    case ProducersStopped => x.stage.DrainingProducers? && (w.waitsForProducers ==> ProducersIdle(x.pool))
    case PoolReturned =>
      x.stage.StoppingPool? && (w.stopsPool ==> |x.pool.stop.stops| > 0 && x.pool.stop.stops[0].Returned?)
    case QueueDone => x.stage.ClosingQueue? && (w.closesQueue ==> x.pool.q.channelClosed)
  }

  /** An error from the pool is logged and the sequence goes on: PoolReturned does not look at it. */
  function SystemApply(w: Wiring, x: System, b: SystemAction): System
    requires SystemEnabled(w, x, b)
  {
    match b
    case PoolStep(a) => x.(pool := Apply(x.pool, a))
    case BeginShutdown =>
      if w.stopsAccepting then x.(stage := DrainingProducers, accepting := false) else x.(stage := StoppingPool)
    case ProducersStopped => x.(stage := StoppingPool)
    case PoolReturned => x.(stage := ClosingQueue)
    case QueueDone => x.(stage := Finished)
  }

  predicate SystemRun(w: Wiring, x: System, bs: seq<SystemAction>)
    decreases |bs|
  {
    bs == [] || (SystemEnabled(w, x, bs[0]) && SystemRun(w, SystemApply(w, x, bs[0]), bs[1..]))
  }

  function SystemExec(w: Wiring, x: System, bs: seq<SystemAction>): System
    requires SystemRun(w, x, bs)
    decreases |bs|
  {
    if bs == [] then x else SystemExec(w, SystemApply(w, x, bs[0]), bs[1..])
  }

  // ---- Invariants ----

  /** The coordinator's Stop has returned, and no call of Stop, its own or another, with the timeout error. */
  predicate PoolStoppedCleanly(s: State) {
    |s.stop.stops| > 0 && s.stop.stops[0].Returned? && NoneTimedOut(s.stop)
  }

  predicate PastPool(x: System) {
    x.stage.ClosingQueue? || x.stage.Finished?
  }

  predicate ProducersWaitedFor(w: Wiring) {
    w.stopsAccepting && w.waitsForProducers
  }

  ghost predicate SystemInv(w: Wiring, x: System) {
    && Inv(x.pool)
    && (x.stage.NotBegun? || !w.stopsAccepting <==> x.accepting)
    && (ProducersWaitedFor(w) && (x.stage.StoppingPool? || PastPool(x)) ==> ProducersIdle(x.pool))
    && (w.stopsPool && PastPool(x) ==> |x.pool.stop.stops| > 0 && x.pool.stop.stops[0].Returned?)
    && (x.pool.q.closed ==> PastPool(x))
    && (x.stage.Finished? && w.closesQueue ==> x.pool.q.closed && x.pool.q.channelClosed)
    && (w.stopsPool && ProducersWaitedFor(w) && PastPool(x) && PoolStoppedCleanly(x.pool) ==> x.pool.log.faults == 0)
  }

  /** A pool that stopped cleanly makes no calls, so with idle producers nobody can send. */
  lemma CleanStopAdmitsNone(s: State)
    requires Inv(s) && PoolStoppedCleanly(s) && ProducersIdle(s)
    ensures NoneBusy(s) && (s.stop.sawStarted ==> AllExited(s))
    ensures NoneAdmitted(s) && forall c :: 0 <= c < |s.calls| ==> s.calls[c].NoCall?
  {
    var runner := OneStopDecides(s, 0);
    forall c | 0 <= c < |s.calls| ensures s.calls[c].NoCall? {
      if c < |s.pool.workers| {
        assert !IsBusy(s.pool.workers[c]);
      }
    }
  }

  lemma ProducersStayIdle(s: State, a: Action)
    requires Enabled(s, a) && ProducersIdle(s)
    requires a.BeginEnqueue? ==> a.c < |s.pool.workers|
    ensures ProducersIdle(Apply(s, a))
  {
    MoverExists(s, a);
  }

  /** What calls of Stop have returned does not change. */
  lemma ReturnedStays(s: State, a: Action)
    requires OnceHolds(s.stop) && Enabled(s, a) && |s.stop.stops| > 0 && s.stop.stops[0].Returned?
    ensures |StepStop(s, a).stops| > 0 && StepStop(s, a).stops[0] == s.stop.stops[0]
    ensures NoneTimedOut(StepStop(s, a)) ==> NoneTimedOut(s.stop)
  {
    var t, t' := s.stop, StepStop(s, a);
    assert forall k :: 0 <= k < |t.stops| && t.stops[k].Returned? ==> t'.stops[k] == t.stops[k];
  }

  lemma FaultNeedsAdmitted(s: State, a: Action)
    requires Enabled(s, a) && NoneAdmitted(s)
    ensures StepLog(s, a).faults == s.log.faults
  {
  }

  lemma FlagNeedsClose(s: State, a: Action)
    requires Enabled(s, a) && !a.CloseBegin?
    ensures StepQueue(s, a).closed == s.q.closed
  {
  }

  lemma ClosedStays(s: State, a: Action)
    requires Enabled(s, a)
    ensures s.q.closed ==> StepQueue(s, a).closed
    ensures s.q.channelClosed ==> StepQueue(s, a).channelClosed
  {
  }

  lemma PoolActionKeepsIdle(w: Wiring, x: System, a: Action)
    requires SystemInv(w, x) && SystemEnabled(w, x, PoolStep(a))
    ensures ProducersWaitedFor(w) && (x.stage.StoppingPool? || PastPool(x)) ==> ProducersIdle(Apply(x.pool, a))
    ensures StepQueue(x.pool, a).closed ==> PastPool(x)
  {
    if !a.CloseBegin? {
      FlagNeedsClose(x.pool, a);
    }
    if ProducersWaitedFor(w) && (x.stage.StoppingPool? || PastPool(x)) {
      ProducersStayIdle(x.pool, a);
    }
  }

  lemma PoolActionKeepsStopped(w: Wiring, x: System, a: Action)
    requires SystemInv(w, x) && SystemEnabled(w, x, PoolStep(a)) && w.stopsPool && PastPool(x)
    ensures |StepStop(x.pool, a).stops| > 0 && StepStop(x.pool, a).stops[0].Returned?
    ensures ProducersWaitedFor(w) && PoolStoppedCleanly(Apply(x.pool, a)) ==> StepLog(x.pool, a).faults == 0
  {
    ReturnedStays(x.pool, a);
    if ProducersWaitedFor(w) && PoolStoppedCleanly(x.pool) {
      CleanStopAdmitsNone(x.pool);
      FaultNeedsAdmitted(x.pool, a);
    }
  }

  lemma PoolActionKeepsInv(w: Wiring, x: System, a: Action)
    requires SystemInv(w, x) && SystemEnabled(w, x, PoolStep(a))
    ensures SystemInv(w, SystemApply(w, x, PoolStep(a)))
  {
    hide Inv;
    InvStep(x.pool, a);
    ClosedStays(x.pool, a);
    PoolActionKeepsIdle(w, x, a);
    if w.stopsPool && PastPool(x) {
      PoolActionKeepsStopped(w, x, a);
    }
  }

  lemma SystemInvStep(w: Wiring, x: System, b: SystemAction)
    requires SystemInv(w, x) && SystemEnabled(w, x, b)
    ensures SystemInv(w, SystemApply(w, x, b))
  {
    if b.PoolStep? {
      PoolActionKeepsInv(w, x, b.a);
    }
  }

  lemma {:induction false} SystemInvRun(w: Wiring, x: System, bs: seq<SystemAction>)
    requires SystemInv(w, x) && SystemRun(w, x, bs)
    ensures SystemInv(w, SystemExec(w, x, bs))
    decreases |bs|
  {
    if bs != [] {
      SystemInvStep(w, x, bs[0]);
      SystemInvRun(w, SystemApply(w, x, bs[0]), bs[1..]);
    }
  }

  // ---- Theorems ----

  /** When no call of Stop has returned an error and acceptance stops by waiting, then from the coordinator's
      third step on no send has met a closed channel, and none can, although Enqueue checks the flag and
      sends in separate steps.  This holds even when the shutdown began while Start was still spawning; if
      it began later, every worker has exited. */
  lemma OrderedShutdownNeverPanics(w: Wiring, capacity: nat, workers: nat, producers: nat, stoppers: nat,
                                   bs: seq<SystemAction>)
    requires w.stopsPool && ProducersWaitedFor(w)
    requires SystemRun(w, SystemInit(capacity, workers, producers, stoppers), bs)
    requires var x := SystemExec(w, SystemInit(capacity, workers, producers, stoppers), bs);
             PastPool(x) && PoolStoppedCleanly(x.pool)
    ensures var x := SystemExec(w, SystemInit(capacity, workers, producers, stoppers), bs);
            && x.pool.log.faults == 0 && NoneAdmitted(x.pool) && NoneBusy(x.pool)
            && (x.pool.stop.sawStarted ==> AllExited(x.pool))
  {
    InitInv(capacity, workers, producers, stoppers);
    SystemInvRun(w, SystemInit(capacity, workers, producers, stoppers), bs);
    CleanStopAdmitsNone(SystemExec(w, SystemInit(capacity, workers, producers, stoppers), bs).pool);
  }

  /** What such a shutdown leaves behind: every request a worker took up has been handled, and the accepted
      requests that were not are exactly those still in the channel.  Stop cancels before the queue drains. */
  lemma OrderedShutdownLosesTheChannel(w: Wiring, capacity: nat, workers: nat, producers: nat, stoppers: nat,
                                       bs: seq<SystemAction>)
    requires w.stopsPool && ProducersWaitedFor(w)
    requires SystemRun(w, SystemInit(capacity, workers, producers, stoppers), bs)
    requires var x := SystemExec(w, SystemInit(capacity, workers, producers, stoppers), bs);
             PastPool(x) && PoolStoppedCleanly(x.pool)
    ensures var s := SystemExec(w, SystemInit(capacity, workers, producers, stoppers), bs).pool;
            && multiset(s.log.finished) == multiset(s.log.dequeued)
            && s.log.accepted == s.log.dequeued + s.q.channel
            && InFlight(s.pool.workers) == multiset{}
            && s.q.depth == |s.q.channel|
    ensures var x := SystemExec(w, SystemInit(capacity, workers, producers, stoppers), bs);
            x.stage.Finished? && w.closesQueue ==> x.pool.q.closed && x.pool.q.channelClosed
  {
    OrderedShutdownNeverPanics(w, capacity, workers, producers, stoppers, bs);
    InitInv(capacity, workers, producers, stoppers);
    SystemInvRun(w, SystemInit(capacity, workers, producers, stoppers), bs);
    var s := SystemExec(w, SystemInit(capacity, workers, producers, stoppers), bs).pool;
    CleanStopAdmitsNone(s);
    NothingHeld(s.pool.workers);
    SumZero(s.pool.workers, IsReceived);
    SumZero(s.calls, IsSent);
  }

  /** A shutdown that has finished has done each of its steps, errors of the pool or not: nothing is accepted
      any more, Stop has returned, and the queue is closed; each if its callback is set. */
  lemma FinishedDidEverything(w: Wiring, capacity: nat, workers: nat, producers: nat, stoppers: nat,
                              bs: seq<SystemAction>)
    requires SystemRun(w, SystemInit(capacity, workers, producers, stoppers), bs)
    requires SystemExec(w, SystemInit(capacity, workers, producers, stoppers), bs).stage.Finished?
    ensures var x := SystemExec(w, SystemInit(capacity, workers, producers, stoppers), bs);
            && (w.stopsAccepting ==> !x.accepting)
            && (w.stopsPool ==> |x.pool.stop.stops| > 0 && x.pool.stop.stops[0].Returned?)
            && (w.closesQueue ==> x.pool.q.closed && x.pool.q.channelClosed)
  {
    InitInv(capacity, workers, producers, stoppers);
    SystemInvRun(w, SystemInit(capacity, workers, producers, stoppers), bs);
  }

  /** And it is not stuck before that: with idle producers the coordinator can move, or a call of Stop (its own
      or one that it waits for in the Once), or its Close. */
  lemma CoordinatorCanMove(w: Wiring, x: System) returns (b: SystemAction)
    requires SystemInv(w, x) && !x.stage.Finished? && |x.pool.stop.stops| > 0
    requires x.stage.DrainingProducers? ==> ProducersIdle(x.pool)
    ensures SystemEnabled(w, x, b)
    ensures b.PoolStep? ==>
              b.a == StopEnter(0) || b.a.StopCancel? || b.a.StopTimeout? || b.a.CloseBegin? || b.a.CloseEnd?
  {
    hide Shape, Fifo, Conserved, DepthTracks, WaitGroupCounts, LeavesForAReason, DoneMeansIdle, DoneMeansExited;
    match x.stage
    case NotBegun => b := BeginShutdown;
    case DrainingProducers => b := ProducersStopped;
    case StoppingPool =>
      if !w.stopsPool || x.pool.stop.stops[0].Returned? {
        b := PoolReturned;
      } else if x.pool.stop.once.Busy? {
        var k: nat :| k < |x.pool.stop.stops| && InBody(x.pool.stop.stops[k]);
        b := PoolStep(if x.pool.stop.stops[k].InOnce? then StopCancel(k) else StopTimeout(k));
      } else {
        b := PoolStep(StopEnter(0));
      }
    case ClosingQueue =>
      if !w.closesQueue || x.pool.q.channelClosed {
        b := QueueDone;
      } else {
        b := PoolStep(if x.pool.q.writeLocked then CloseEnd else CloseBegin);
      }
  }

  // ---- A pool that did not stop in time ----

  lemma {:induction false} SystemRunSnoc(w: Wiring, x: System, bs: seq<SystemAction>, b: SystemAction)
    requires SystemRun(w, x, bs) && SystemEnabled(w, SystemExec(w, x, bs), b)
    ensures SystemRun(w, x, bs + [b])
    ensures SystemExec(w, x, bs + [b]) == SystemApply(w, SystemExec(w, x, bs), b)
    decreases |bs|
  {
    if bs == [] {
      assert bs + [b] == [b];
      assert [b][1..] == [];
    } else {
      SystemRunSnoc(w, SystemApply(w, x, bs[0]), bs[1..], b);
      assert (bs + [b])[1..] == bs[1..] + [b];
    }
  }

  /** The schedule is a run from x that ends in y. */
  predicate SystemLeads(w: Wiring, x: System, bs: seq<SystemAction>, y: System) {
    SystemRun(w, x, bs) && SystemExec(w, x, bs) == y
  }

  lemma SystemExtend(w: Wiring, x: System, bs: seq<SystemAction>, y: System, b: SystemAction)
    returns (more: seq<SystemAction>, next: System)
    requires SystemLeads(w, x, bs, y) && SystemEnabled(w, y, b)
    ensures next == SystemApply(w, y, b) && SystemLeads(w, x, more, next)
  {
    more, next := bs + [b], SystemApply(w, y, b);
    SystemRunSnoc(w, x, bs, b);
  }

  lemma PoolExtend(w: Wiring, x: System, bs: seq<SystemAction>, y: System, a: Action)
    returns (more: seq<SystemAction>, next: System)
    requires SystemLeads(w, x, bs, y) && Allowed(w, y, a) && Enabled(y.pool, a)
    ensures next == y.(pool := Apply(y.pool, a)) && SystemLeads(w, x, more, next)
  {
    more, next := SystemExtend(w, x, bs, y, PoolStep(a));
  }

  /** Actions of the pool that need no leave of the coordinator are a run of the system. */
  lemma {:induction false} PoolRunIsSystemRun(w: Wiring, x: System, acts: seq<Action>) returns (bs: seq<SystemAction>)
    requires Run(x.pool, acts) && x.accepting
    requires forall a :: a in acts ==> !a.CloseBegin? && !a.StopEnter?
    ensures SystemLeads(w, x, bs, x.(pool := Exec(x.pool, acts)))
    decreases |acts|
  {
    if acts == [] {
      bs := [];
    } else {
      var rest := PoolRunIsSystemRun(w, x.(pool := Apply(x.pool, acts[0])), acts[1..]);
      bs := [PoolStep(acts[0])] + rest;
      assert bs[1..] == rest;
    }
  }

  /** ExecuteShutdown logs an error of Stop and closes the queue all the same.  A handler that outlived the
      timeout can then be between the check and the send of its retry, and sends on the closed channel. */
  lemma TimedOutStopStillCloses(r: ScanRequest) returns (bs: seq<SystemAction>, y: System)
    ensures SystemLeads(Wiring(true, true, true, true), SystemInit(1, 1, 1, 1), bs, y)
    ensures y.pool.log.faults == 1 && y.pool.stop.stops == [Returned(false, true)]
  {
    hide SystemLeads;
    var w, x := Wiring(true, true, true, true), SystemInit(1, 1, 1, 1);
    bs, y := RetryWhileShuttingDown(w, 1, r);
    assert y.pool.stop.stops == [Ready];
    bs, y := StopTimesOut(w, x, bs, y);
    bs, y := PoolExtend(w, x, bs, y, CloseBegin);
    bs, y := PoolExtend(w, x, bs, y, CloseEnd);
    bs, y := PoolExtend(w, x, bs, y, SendOnClosed(0));
  }

  /** The coordinator's own nil is not enough: another call of Stop has timed out, so the coordinator's
      returns nil at once, and the queue is closed under a handler that still runs. */
  lemma AnotherTimeoutStillCloses(r: ScanRequest) returns (bs: seq<SystemAction>, y: System)
    ensures SystemLeads(Wiring(true, true, true, true), SystemInit(1, 1, 1, 2), bs, y)
    ensures y.pool.log.faults == 1 && y.pool.stop.sawStarted
    ensures y.pool.stop.stops == [Returned(true, false), Returned(false, true)]
  {
    hide SystemLeads;
    var w, x := Wiring(true, true, true, true), SystemInit(1, 1, 1, 2);
    bs, y := RetryWhileShuttingDown(w, 2, r);
    assert y.pool.stop.stops == [Ready, Ready];
    bs, y := AnotherStopTimesOut(w, x, bs, y);
    bs, y := CoordinatorGetsNil(w, x, bs, y);
    bs, y := PoolExtend(w, x, bs, y, CloseBegin);
    bs, y := PoolExtend(w, x, bs, y, CloseEnd);
    bs, y := PoolExtend(w, x, bs, y, SendOnClosed(0));
  }

  lemma AnotherStopTimesOut(w: Wiring, x: System, before: seq<SystemAction>, y: System)
    returns (bs: seq<SystemAction>, z: System)
    requires SystemLeads(w, x, before, y) && w.stopsPool && y.pool.pool.started == |y.pool.pool.workers|
    requires y.stage.StoppingPool? && y.pool.stop.stops == [Ready, Ready] && y.pool.stop.once.Fresh?
    ensures SystemLeads(w, x, bs, z) && z.stage.StoppingPool?
    ensures z.pool.stop == Stopping([Ready, Returned(false, true)], Done, true, y.pool.stop.doneClosed, true)
    ensures z.pool.q == y.pool.q && z.pool.calls == y.pool.calls && z.pool.log == y.pool.log
  {
    hide SystemLeads;
    bs, z := PoolExtend(w, x, before, y, StopEnter(1));
    assert z.pool.stop.stops == [Ready, InOnce];
    bs, z := PoolExtend(w, x, bs, z, StopCancel(1));
    assert z.pool.stop.stops == [Ready, Waiting];
    bs, z := PoolExtend(w, x, bs, z, StopTimeout(1));
    assert z.pool.stop.stops == [Ready, Returned(false, true)];
  }

  lemma CoordinatorGetsNil(w: Wiring, x: System, before: seq<SystemAction>, y: System)
    returns (bs: seq<SystemAction>, z: System)
    requires SystemLeads(w, x, before, y) && w.stopsPool && y.stage.StoppingPool?
    requires |y.pool.stop.stops| > 0 && y.pool.stop.stops[0].Ready? && y.pool.stop.once.Done?
    ensures SystemLeads(w, x, bs, z) && z.stage.ClosingQueue?
    ensures z.pool.stop == y.pool.stop.(stops := y.pool.stop.stops[0 := Returned(true, false)])
    ensures z.pool.q == y.pool.q && z.pool.calls == y.pool.calls && z.pool.log == y.pool.log
  {
    hide SystemLeads;
    bs, z := PoolExtend(w, x, before, y, StopEnter(0));
    bs, z := SystemExtend(w, x, bs, z, PoolReturned);
  }

  /** Producers have stopped; the one worker's handler has passed the check of its retry. */
  lemma RetryWhileShuttingDown(w: Wiring, stoppers: nat, r: ScanRequest) returns (bs: seq<SystemAction>, y: System)
    requires w.stopsAccepting
    ensures SystemLeads(w, SystemInit(1, 1, 1, stoppers), bs, y)
    ensures y.stage.StoppingPool? && y.pool.calls == [Admitted(r), NoCall]
    ensures y.pool.stop == Init(1, 1, 1, stoppers).stop && y.pool.pool.started == |y.pool.pool.workers|
    ensures y.pool.stop.once.Fresh? && y.pool.q == Queue(1, [], false, 0, false, false) && y.pool.log.faults == 0
  {
    hide SystemLeads;
    var x := SystemInit(1, 1, 1, stoppers);
    var acts, t := OneInFlight(stoppers, r);
    bs := PoolRunIsSystemRun(w, x, acts);
    y := x.(pool := t);
    bs, y := PoolExtend(w, x, bs, y, CountUp(1));
    bs, y := PoolExtend(w, x, bs, y, BeginEnqueue(0, r));
    assert y.pool.calls == [Admitted(r), NoCall];
    bs, y := SystemExtend(w, x, bs, y, BeginShutdown);
    bs, y := SystemExtend(w, x, bs, y, ProducersStopped);
  }

  lemma CoordinatorWaits(w: Wiring, x: System, before: seq<SystemAction>, y: System)
    returns (bs: seq<SystemAction>, z: System)
    requires SystemLeads(w, x, before, y) && w.stopsPool
    requires y.stage.StoppingPool? && y.pool.stop.stops == [Ready] && y.pool.stop.once.Fresh?
    ensures SystemLeads(w, x, bs, z)
    ensures z == y.(pool := y.pool.(stop := z.pool.stop)) && z.pool.stop.stops == [Waiting] && z.pool.stop.cancelled
  {
    hide SystemLeads;
    bs, z := PoolExtend(w, x, before, y, StopEnter(0));
    assert z.pool.stop.stops == [InOnce];
    bs, z := PoolExtend(w, x, bs, z, StopCancel(0));
  }

  lemma StopTimesOut(w: Wiring, x: System, before: seq<SystemAction>, y: System)
    returns (bs: seq<SystemAction>, z: System)
    requires SystemLeads(w, x, before, y) && w.stopsPool
    requires y.stage.StoppingPool? && y.pool.stop.stops == [Ready] && y.pool.stop.once.Fresh?
    ensures SystemLeads(w, x, bs, z)
    ensures z.stage.ClosingQueue? && z.pool.stop.stops == [Returned(false, true)]
    ensures z.pool.q == y.pool.q && z.pool.calls == y.pool.calls && z.pool.log == y.pool.log
  {
    hide SystemLeads;
    bs, z := CoordinatorWaits(w, x, before, y);
    bs, z := PoolExtend(w, x, bs, z, StopTimeout(0));
    bs, z := SystemExtend(w, x, bs, z, PoolReturned);
  }

  // ---- Producers that were not waited for ----

  /** Stopping acceptance is not enough either: if it does not wait for the requests already admitted, a
      producer between check and send outlives a clean stop of the pool and sends on the closed channel. */
  lemma UnwaitedProducerFaults(r: ScanRequest) returns (bs: seq<SystemAction>, y: System)
    ensures SystemLeads(Wiring(true, false, true, true), SystemInit(1, 1, 1, 1), bs, y)
    ensures PoolStoppedCleanly(y.pool) && AllExited(y.pool) && y.pool.log.faults == 1
  {
    hide SystemLeads;
    var w, x := Wiring(true, false, true, true), SystemInit(1, 1, 1, 1);
    bs, y := ProducerAdmitted(w, r);
    bs, y := CoordinatorWaits(w, x, bs, y);
    bs, y := OnlyWorkerLeaves(w, x, bs, y);
    bs, y := CoordinatorStopsPool(w, x, bs, y);
    bs, y := PoolExtend(w, x, bs, y, CloseBegin);
    bs, y := PoolExtend(w, x, bs, y, CloseEnd);
    bs, y := PoolExtend(w, x, bs, y, SendOnClosed(1));
  }

  /** A producer has passed the check, and the coordinator has gone on without it. */
  lemma ProducerAdmitted(w: Wiring, r: ScanRequest) returns (bs: seq<SystemAction>, y: System)
    requires w.stopsAccepting && !w.waitsForProducers
    ensures SystemLeads(w, SystemInit(1, 1, 1, 1), bs, y)
    ensures y.pool == Init(1, 1, 1, 1).(pool := Pool([Dequeuing], 1, 1), calls := [NoCall, Admitted(r)])
    ensures y.stage.StoppingPool? && y.pool.stop.stops == [Ready]
  {
    hide SystemLeads;
    var x := SystemInit(1, 1, 1, 1);
    var acts, t := OneWaiting(1);
    bs := PoolRunIsSystemRun(w, x, acts);
    y := x.(pool := t);
    assert y.pool.calls == [NoCall, NoCall];
    bs, y := PoolExtend(w, x, bs, y, BeginEnqueue(1, r));
    bs, y := SystemExtend(w, x, bs, y, BeginShutdown);
    bs, y := SystemExtend(w, x, bs, y, ProducersStopped);
  }

  lemma OnlyWorkerLeaves(w: Wiring, x: System, before: seq<SystemAction>, y: System)
    returns (bs: seq<SystemAction>, z: System)
    requires SystemLeads(w, x, before, y) && y.stage.StoppingPool?
    requires y.pool.stop.stops == [Waiting] && y.pool.stop.cancelled && y.pool.pool == Pool([Dequeuing], 1, 1)
    ensures SystemLeads(w, x, bs, z)
    ensures z == y.(pool := y.pool.(pool := Pool([Exited(false)], 1, 0)))
  {
    hide SystemLeads;
    bs, z := PoolExtend(w, x, before, y, ReceiveCancelled(0));
    assert z.pool.pool.workers == [Leaving(false)];
    bs, z := PoolExtend(w, x, bs, z, WgDone(0));
    assert z.pool.pool.workers == [Exited(false)];
  }

  lemma CoordinatorStopsPool(w: Wiring, x: System, before: seq<SystemAction>, y: System)
    returns (bs: seq<SystemAction>, z: System)
    requires SystemLeads(w, x, before, y) && y.stage.StoppingPool?
    requires y.pool.stop.stops == [Waiting] && y.pool.pool.wg == 0
    ensures SystemLeads(w, x, bs, z) && z.stage.ClosingQueue? && z.pool.stop.stops == [Returned(true, true)]
    ensures z.pool == y.pool.(stop := z.pool.stop)
  {
    hide SystemLeads;
    bs, z := PoolExtend(w, x, before, y, WaitDone(0));
    bs, z := PoolExtend(w, x, bs, z, StopReturn(0));
    bs, z := SystemExtend(w, x, bs, z, PoolReturned);
  }
}
