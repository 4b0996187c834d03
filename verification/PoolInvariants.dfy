/** What holds in every reachable state of the queue and worker pool. */
module PoolInvariants {
  import opened Models
  import opened Sums
  import opened PoolProtocol

  // ---- The parts of the invariant ----

  predicate Shape(s: State) {
    && |s.pool.workers| <= |s.calls|
    && s.pool.started <= |s.pool.workers|
    && (forall w :: 0 <= w < |s.pool.workers| ==> (s.pool.workers[w].Unstarted? <==> s.pool.started <= w))
    // a call made inside a handler is over before the handler is
    && (forall w :: 0 <= w < |s.pool.workers| && !s.calls[w].NoCall? ==> s.pool.workers[w].Handling?)
  }

  /** The flag is set and the channel closed under one write lock; both stay so. */
  predicate Closing(s: State) {
    && (s.q.closed <==> s.q.writeLocked || s.q.channelClosed)
    && !(s.q.writeLocked && s.q.channelClosed)
    && (!s.q.channelClosed ==> s.log.faults == 0)
  }

  predicate Fifo(s: State) {
    && s.log.accepted == s.log.dequeued + s.q.channel
    && |s.q.channel| <= s.q.capacity
  }

  predicate Conserved(s: State) {
    multiset(s.log.dequeued) == InFlight(s.pool.workers) + multiset(s.log.finished)
  }

  predicate DepthTracks(s: State) {
    s.q.depth == |s.q.channel| - PendingUp(s) + PendingDown(s)
  }

  predicate WaitGroupCounts(s: State) {
    s.pool.wg == Sum(s.pool.workers, IsActive)
  }

  predicate HasLeft(w: Worker) {
    w.Leaving? || w.Exited?
  }

  /** A worker that left because the queue was drained left a queue that stays closed and empty. */
  predicate LeavesForAReason(s: State) {
    forall w :: 0 <= w < |s.pool.workers| && HasLeft(s.pool.workers[w]) ==>
      if s.pool.workers[w].drained then s.q.channelClosed && s.q.channel == [] else s.stop.cancelled
  }

  predicate AllExited(s: State) {
    forall w :: 0 <= w < |s.pool.workers| ==> s.pool.workers[w].Exited?
  }

  predicate InBody(k: Stopper) {
    k.InOnce? || k.Waiting?
  }

  predicate RanBody(k: Stopper) {
    InBody(k) || (k.Returned? && k.waited)
  }

  /** The body runs while the Once is busy, calls return once it is done, and an error is its runner's. */
  predicate OnceTracks(t: Stopping) {
    && (forall k :: 0 <= k < |t.stops| && InBody(t.stops[k]) ==> t.once.Busy?)
    && (forall k :: 0 <= k < |t.stops| && t.stops[k].Returned? ==>
          t.once.Done? && (t.stops[k].nilError || t.stops[k].waited))
  }

  predicate OneRunner(t: Stopping) {
    forall j, k :: 0 <= j < |t.stops| && 0 <= k < |t.stops| ==>
      RanBody(t.stops[j]) && RanBody(t.stops[k]) ==> j == k
  }

  /** The Once admits one body at a time and only one ever. */
  predicate OnceHolds(t: Stopping) {
    OnceTracks(t) && OneRunner(t)
  }

  /** A call is in the body while the Once is busy; once the body is over, the call that ran it has returned. */
  ghost predicate RunnerExists(t: Stopping) {
    && (t.once.Busy? ==> exists k :: 0 <= k < |t.stops| && InBody(t.stops[k]))
    && (t.once.Done? ==> exists k :: 0 <= k < |t.stops| && t.stops[k].Returned? && t.stops[k].waited)
  }

  /** What callers see: no call of Stop has returned the timeout error. */
  predicate NoneTimedOut(t: Stopping) {
    forall k :: 0 <= k < |t.stops| && t.stops[k].Returned? ==> t.stops[k].nilError
  }

  /** Stop reports done only when the WaitGroup has reached zero. */
  predicate StopReports(t: Stopping) {
    && (forall k :: 0 <= k < |t.stops| && t.stops[k] == Returned(true, true) ==> t.doneClosed)
    && (forall k :: 0 <= k < |t.stops| && t.stops[k].Waiting? ==> t.cancelled)
    && (t.doneClosed ==> t.cancelled && !t.once.Fresh?)
  }

  /** A worker that waits for a request or holds one. */
  predicate IsBusy(w: Worker) {
    w.Dequeuing? || w.Received? || w.Handling?
  }

  predicate NoneBusy(s: State) {
    forall w :: 0 <= w < |s.pool.workers| ==> !IsBusy(s.pool.workers[w])
  }

  /** A worker that Start spawns only after the waiter has seen zero finds the context cancelled. */
  predicate DoneMeansIdle(s: State) {
    s.stop.doneClosed ==> NoneBusy(s)
  }

  predicate DoneMeansExited(s: State) {
    && (s.stop.sawStarted ==> s.pool.started == |s.pool.workers|)
    && (s.stop.doneClosed && s.stop.sawStarted ==> AllExited(s))
  }

  ghost predicate Inv(s: State) {
    && Shape(s) && Closing(s) && Fifo(s) && Conserved(s) && DepthTracks(s) && WaitGroupCounts(s)
    && LeavesForAReason(s) && OnceHolds(s.stop) && RunnerExists(s.stop) && StopReports(s.stop)
    && DoneMeansIdle(s) && DoneMeansExited(s)
  }

  // ---- Each part is kept by every action ----

  lemma ShapeStep(s: State, a: Action)
    requires Shape(s) && Enabled(s, a)
    ensures Shape(Apply(s, a))
  {
    MoverExists(s, a);
  }

  lemma ClosingStep(s: State, a: Action)
    requires Closing(s) && Enabled(s, a)
    ensures Closing(Apply(s, a))
  {
  }

  lemma FifoStep(s: State, a: Action)
    requires Fifo(s) && Enabled(s, a)
    ensures Fifo(Apply(s, a))
  {
    hide StepCalls, StepPool, StepStop;
    match a
    case Send(c) =>
      assert s.log.accepted + [s.calls[c].req] == s.log.dequeued + (s.q.channel + [s.calls[c].req]);
    case HandOff(c, w) =>
      assert s.log.accepted == s.log.dequeued + [] == s.log.dequeued;
    case Receive(w) =>
      assert s.q.channel == [s.q.channel[0]] + s.q.channel[1..];
      assert s.log.accepted == (s.log.dequeued + [s.q.channel[0]]) + s.q.channel[1..];
    case _ =>
  }

  /** What one action adds to the dequeued and to the finished requests. */
  function Taken(s: State, a: Action): seq<ScanRequest>
    requires Enabled(s, a)
  {
    match a
    case HandOff(c, _) => [s.calls[c].req]
    case Receive(_) => [s.q.channel[0]]
    case _ => []
  }

  function Ended(s: State, a: Action): seq<ScanRequest>
    requires Enabled(s, a)
  {
    match a
    case FinishHandling(w, _) => [s.pool.workers[w].scan]
    case _ => []
  }

  lemma HistoryGrows(s: State, a: Action)
    requires Enabled(s, a)
    ensures StepLog(s, a).dequeued == s.log.dequeued + Taken(s, a)
    ensures StepLog(s, a).finished == s.log.finished + Ended(s, a)
  {
    assert s.log.dequeued + [] == s.log.dequeued;
    assert s.log.finished + [] == s.log.finished;
  }

  /** A worker takes up what it dequeues and gives up what it finishes; no other move changes what it holds. */
  lemma HoldingStep(s: State, a: Action)
    requires Shape(s) && Enabled(s, a)
    ensures match Mover(s, a)
            case None => Taken(s, a) == Ended(s, a) == []
            case Some(w) => w < |s.pool.workers| && Balanced(s.pool.workers[w], Taken(s, a), Target(s, a), Ended(s, a))
  {
  }

  predicate Balanced(before: Worker, taken: seq<ScanRequest>, after: Worker, ended: seq<ScanRequest>) {
    || (taken == [] && ended == [] && Holding(before) == Holding(after))
    || (|taken| == 1 && ended == [] && before.Dequeuing? && after == Received(taken[0]))
    || (|ended| == 1 && taken == [] && before == Handling(ended[0]) && after.AtTop?)
  }

  lemma BalancedHolding(before: Worker, taken: seq<ScanRequest>, after: Worker, ended: seq<ScanRequest>)
    requires Balanced(before, taken, after, ended)
    ensures Holding(after) + multiset(ended) == Holding(before) + multiset(taken)
  {
    if |taken| == 1 {
      assert taken == [taken[0]];
    } else if |ended| == 1 {
      assert ended == [ended[0]];
    }
  }

  lemma ConservedStep(s: State, a: Action)
    requires Shape(s) && Conserved(s) && Enabled(s, a)
    ensures Conserved(Apply(s, a))
  {
    MoverExists(s, a);
    HistoryGrows(s, a);
    HoldingStep(s, a);
    AppendBag(s.log.dequeued, Taken(s, a));
    AppendBag(s.log.finished, Ended(s, a));
    match Mover(s, a) {
      case None =>
      case Some(w) =>
        InFlightUpdate(s.pool.workers, w, Target(s, a));
        BalancedHolding(s.pool.workers[w], Taken(s, a), Target(s, a), Ended(s, a));
        Balance(multiset(s.log.dequeued), InFlight(s.pool.workers), multiset(s.log.finished),
                Holding(s.pool.workers[w]), Holding(Target(s, a)), multiset(Taken(s, a)), multiset(Ended(s, a)));
    }
  }

  lemma AppendBag<T>(a: seq<T>, b: seq<T>)
    ensures multiset(a + b) == multiset(a) + multiset(b)
  {
  }

  lemma Balance<T>(d: multiset<T>, f: multiset<T>, e: multiset<T>,
                   before: multiset<T>, after: multiset<T>, taken: multiset<T>, ended: multiset<T>)
    requires d == f + e && before <= f && after + ended == before + taken
    ensures d + taken == (f - before + after) + (e + ended)
  {
    forall x ensures (d + taken)[x] == ((f - before + after) + (e + ended))[x] {
      assert (after + ended)[x] == (before + taken)[x];
    }
  }

  /** How one action changes a sum over the workers. */
  lemma WorkerSumStep(s: State, a: Action, f: Worker -> int)
    requires Enabled(s, a)
    ensures match Mover(s, a)
            case None => Sum(StepWorkers(s, a), f) == Sum(s.pool.workers, f)
            case Some(w) =>
              && w < |s.pool.workers|
              && Sum(StepWorkers(s, a), f) == Sum(s.pool.workers, f) - f(s.pool.workers[w]) + f(Target(s, a))
  {
    MoverExists(s, a);
    if Mover(s, a).Some? {
      SumUpdate(s.pool.workers, Mover(s, a).value, Target(s, a), f);
    }
  }

  /** How one action changes the number of operations that are mid-step. */
  lemma PendingUpStep(s: State, a: Action)
    requires Enabled(s, a)
    ensures PendingUp(Apply(s, a)) == PendingUp(s) + (if a.Send? || a.HandOff? then 1 else if a.CountUp? then -1 else 0)
  {
    MoverExists(s, a);
    if Caller(a).Some? {
      SumUpdate(s.calls, Caller(a).value, CallTarget(s, a), IsSent);
    }
  }

  lemma PendingDownStep(s: State, a: Action)
    requires Shape(s) && Enabled(s, a)
    ensures PendingDown(Apply(s, a)) ==
            PendingDown(s) + (if a.Receive? || a.HandOff? then 1 else if a.CountDown? then -1 else 0)
  {
    WorkerSumStep(s, a, IsReceived);
  }

  lemma DepthStep(s: State, a: Action)
    requires Shape(s) && DepthTracks(s) && Enabled(s, a)
    ensures DepthTracks(Apply(s, a))
  {
    PendingUpStep(s, a);
    PendingDownStep(s, a);
  }

  lemma WaitGroupStep(s: State, a: Action)
    requires Shape(s) && WaitGroupCounts(s) && Enabled(s, a)
    ensures WaitGroupCounts(Apply(s, a))
  {
    WorkerSumStep(s, a, IsActive);
  }

  /** A closed and empty channel stays closed and empty, and a cancelled context stays cancelled. */
  lemma ReasonsStay(s: State, a: Action)
    requires Enabled(s, a)
    ensures s.q.channelClosed && s.q.channel == [] ==> StepQueue(s, a).channelClosed && StepQueue(s, a).channel == []
    ensures s.stop.cancelled ==> StepStop(s, a).cancelled
  {
  }

  lemma LeavesStep(s: State, a: Action)
    requires LeavesForAReason(s) && Enabled(s, a)
    ensures LeavesForAReason(Apply(s, a))
  {
    MoverExists(s, a);
    ReasonsStay(s, a);
  }

  /** The counter is zero exactly when no worker is between its Add and its Done. */
  lemma WaitGroupZero(s: State)
    requires Shape(s) && WaitGroupCounts(s)
    ensures s.pool.wg == 0 <==> forall w :: 0 <= w < |s.pool.workers| ==>
                                  s.pool.workers[w].Unstarted? || s.pool.workers[w].Exited?
  {
    if s.pool.wg == 0 {
      forall w | 0 <= w < |s.pool.workers| ensures s.pool.workers[w].Unstarted? || s.pool.workers[w].Exited? {
        SumSplit(s.pool.workers, IsActive, w);
      }
    } else if forall w :: 0 <= w < |s.pool.workers| ==> s.pool.workers[w].Unstarted? || s.pool.workers[w].Exited? {
      SumZero(s.pool.workers, IsActive);
    }
  }

  lemma OnceStep(s: State, a: Action)
    requires OnceHolds(s.stop) && Enabled(s, a)
    ensures OnceHolds(StepStop(s, a))
  {
    var t, t' := s.stop, StepStop(s, a);
    if a.StopEnter? && t.once.Done? {
      OnceUpdate(t, t', a.k, Returned(true, false));
    } else if a.StopEnter? {
      OnceUpdate(t, t', a.k, InOnce);
    } else if a.StopCancel? {
      OnceUpdate(t, t', a.k, Waiting);
    } else if a.StopReturn? {
      OnceUpdate(t, t', a.k, Returned(true, true));
    } else if a.StopTimeout? {
      OnceUpdate(t, t', a.k, Returned(false, true));
    }
  }

  /** One call of Stop moves on: it enters when no other is in the body, or it was in the body before. */
  lemma OnceUpdate(t: Stopping, t': Stopping, k: nat, v: Stopper)
    requires OnceHolds(t) && k < |t.stops| && t'.stops == t.stops[k := v]
    requires match v
             case InOnce => t.once.Fresh? && t'.once.Busy?
             case Waiting => InBody(t.stops[k]) && t'.once == t.once
             case Returned(nilError, waited) =>
               t'.once.Done? && if waited then InBody(t.stops[k]) else nilError && t.once.Done?
             case Ready => false
    ensures OnceHolds(t')
  {
    assert RanBody(v) ==> RanBody(t.stops[k]) || t.once.Fresh?;
    assert InBody(t.stops[k]) ==> forall j :: 0 <= j < |t.stops| && j != k ==> !RanBody(t.stops[j]);
  }

  lemma RunnerStep(s: State, a: Action)
    requires OnceHolds(s.stop) && RunnerExists(s.stop) && Enabled(s, a)
    ensures RunnerExists(StepStop(s, a))
  {
    var t, t' := s.stop, StepStop(s, a);
    if t.once.Done? {
      var k :| 0 <= k < |t.stops| && t.stops[k].Returned? && t.stops[k].waited;
      assert t'.stops[k] == t.stops[k];
    } else if a.StopReturn? || a.StopTimeout? {
      assert t'.stops[a.k].Returned? && t'.stops[a.k].waited;
    } else if a.StopEnter? || a.StopCancel? {
      assert InBody(t'.stops[a.k]);
    } else if t.once.Busy? {
      var k :| 0 <= k < |t.stops| && InBody(t.stops[k]);
      assert t'.stops[k] == t.stops[k];
    }
  }

  lemma ReportsStep(s: State, a: Action)
    requires OnceHolds(s.stop) && StopReports(s.stop) && Enabled(s, a)
    ensures StopReports(StepStop(s, a))
  {
  }

  lemma IdleStep(s: State, a: Action)
    requires Shape(s) && WaitGroupCounts(s) && StopReports(s.stop) && DoneMeansIdle(s) && Enabled(s, a)
    ensures DoneMeansIdle(Apply(s, a))
  {
    MoverExists(s, a);
    if a.WaitDone? {
      WaitGroupZero(s);
    }
  }

  lemma DoneStep(s: State, a: Action)
    requires Shape(s) && WaitGroupCounts(s) && StopReports(s.stop) && DoneMeansExited(s) && Enabled(s, a)
    ensures DoneMeansExited(Apply(s, a))
  {
    MoverExists(s, a);
    if a.WaitDone? {
      WaitGroupZero(s);
    }
  }

  lemma InvStep(s: State, a: Action)
    requires Inv(s) && Enabled(s, a)
    ensures Inv(Apply(s, a))
  {
    ShapeStep(s, a);
    ClosingStep(s, a);
    FifoStep(s, a);
    ConservedStep(s, a);
    DepthStep(s, a);
    WaitGroupStep(s, a);
    LeavesStep(s, a);
    OnceStep(s, a);
    RunnerStep(s, a);
    ReportsStep(s, a);
    IdleStep(s, a);
    DoneStep(s, a);
  }
}
