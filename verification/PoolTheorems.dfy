/** What the invariants say about whole runs of the queue and worker pool. */
module PoolTheorems {
  import opened Models
  import opened Sums
  import opened PoolProtocol
  import opened PoolInvariants

  // ---- Reachability ----

  lemma InitInv(capacity: nat, workers: nat, producers: nat, stoppers: nat)
    ensures Inv(Init(capacity, workers, producers, stoppers))
  {
    var s := Init(capacity, workers, producers, stoppers);
    SumZero(s.calls, IsSent);
    SumZero(s.pool.workers, IsReceived);
    SumZero(s.pool.workers, IsActive);
    NothingHeld(s.pool.workers);
  }

  lemma {:induction false} NothingHeld(ws: seq<Worker>)
    requires forall w :: 0 <= w < |ws| ==> !ws[w].Received? && !ws[w].Handling?
    ensures InFlight(ws) == multiset{}
  {
    if ws != [] {
      NothingHeld(ws[..|ws| - 1]);
    }
  }

  lemma {:induction false} InvRun(s: State, acts: seq<Action>)
    requires Inv(s) && Run(s, acts)
    ensures Inv(Exec(s, acts))
    decreases |acts|
  {
    if acts != [] {
      InvStep(s, acts[0]);
      InvRun(Apply(s, acts[0]), acts[1..]);
    }
  }

  /** A worker holds at most one request, so the workers bound what is handled at once. */
  lemma {:induction false} OneRequestEach(ws: seq<Worker>)
    ensures |InFlight(ws)| <= |ws|
  {
    if ws != [] {
      OneRequestEach(ws[..|ws| - 1]);
      assert |Holding(ws[|ws| - 1])| <= 1;
    }
  }

  predicate Reachable(s: State, capacity: nat, workers: nat, producers: nat, stoppers: nat, acts: seq<Action>) {
    Run(Init(capacity, workers, producers, stoppers), acts)
    && s == Exec(Init(capacity, workers, producers, stoppers), acts)
  }

  lemma ReachableInv(s: State, capacity: nat, workers: nat, producers: nat, stoppers: nat, acts: seq<Action>)
    requires Reachable(s, capacity, workers, producers, stoppers, acts)
    ensures Inv(s)
  {
    InitInv(capacity, workers, producers, stoppers);
    InvRun(Init(capacity, workers, producers, stoppers), acts);
  }

  // ---- Conservation and order ----

  /** No accepted request is lost, duplicated or reordered, whatever the interleaving: the requests taken
      out are a prefix of those accepted, the channel holds the rest in order, and each request taken out
      is held by one worker or has been handled, panics included. */
  lemma Conservation(s: State, capacity: nat, workers: nat, producers: nat, stoppers: nat, acts: seq<Action>)
    requires Reachable(s, capacity, workers, producers, stoppers, acts)
    ensures s.log.dequeued <= s.log.accepted && s.q.channel == s.log.accepted[|s.log.dequeued|..]
    ensures multiset(s.log.accepted) == InFlight(s.pool.workers) + multiset(s.log.finished) + multiset(s.q.channel)
    ensures |s.q.channel| <= s.q.capacity && |InFlight(s.pool.workers)| <= |s.pool.workers|
  {
    ReachableInv(s, capacity, workers, producers, stoppers, acts);
    OneRequestEach(s.pool.workers);
    AppendBag(s.log.dequeued, s.q.channel);
  }

  /** A sender and a worker that waits on the empty channel can always meet, whatever the capacity.  With a
      buffer the hand-off is a send and a receive in one; without one it is the only way through. */
  lemma HandOffIsSendAndReceive(s: State, c: nat, w: nat)
    requires Inv(s) && c < |s.calls| && s.calls[c].Admitted? && w < |s.pool.workers| && s.pool.workers[w].Dequeuing?
    requires s.q.channel == [] && !s.q.channelClosed
    ensures Enabled(s, HandOff(c, w))
    ensures s.q.capacity == 0 ==> !Enabled(s, Send(c)) && !Enabled(s, Receive(w))
    ensures s.q.capacity > 0 ==> Enabled(s, Send(c)) && Enabled(Apply(s, Send(c)), Receive(w))
                                 && Apply(Apply(s, Send(c)), Receive(w)) == Apply(s, HandOff(c, w))
  {
    if s.q.capacity > 0 {
      assert [s.calls[c].req][1..] == [];
    }
  }

  // ---- The depth counter ----

  /** The counter differs from the real length by exactly the operations that are mid-step, so it may be
      negative or exceed the capacity; it is right whenever as many are mid-step on either side. */
  lemma DepthAgainstLength(s: State, capacity: nat, workers: nat, producers: nat, stoppers: nat, acts: seq<Action>)
    requires Reachable(s, capacity, workers, producers, stoppers, acts)
    ensures s.q.depth == |s.q.channel| - PendingUp(s) + PendingDown(s)
    ensures -PendingUp(s) <= s.q.depth <= s.q.capacity + PendingDown(s)
    ensures s.q.depth == |s.q.channel| <==> PendingUp(s) == PendingDown(s)
    ensures PendingUp(s) >= 0 && PendingDown(s) >= 0
  {
    ReachableInv(s, capacity, workers, producers, stoppers, acts);
    SumNonNegative(s.calls, IsSent);
    SumNonNegative(s.pool.workers, IsReceived);
  }

  /** Between operations, IsEmpty and IsFull tell the truth about the channel. */
  lemma QuietDepthIsLength(s: State)
    requires Inv(s)
    requires forall c :: 0 <= c < |s.calls| ==> !s.calls[c].Sent?
    requires forall w :: 0 <= w < |s.pool.workers| ==> !s.pool.workers[w].Received?
    ensures s.q.depth == |s.q.channel|
    ensures s.q.depth == 0 <==> s.q.channel == []
    ensures s.q.depth >= s.q.capacity <==> |s.q.channel| == s.q.capacity
  {
    SumZero(s.calls, IsSent);
    SumZero(s.pool.workers, IsReceived);
  }

  /** One worker waits inside Dequeue on an empty queue. */
  lemma OneWaiting(stoppers: nat) returns (acts: seq<Action>, t: State)
    ensures Leads(Init(1, 1, 1, stoppers), acts, t)
    ensures t == Init(1, 1, 1, stoppers).(pool := Pool([Dequeuing], 1, 1))
    ensures forall a :: a in acts ==> !a.CloseBegin? && !a.StopEnter?
  {
    var s := Init(1, 1, 1, stoppers);
    acts, t := Extend(s, [], s, SpawnNext);
    hide Leads;
    acts, t := Extend(s, acts, t, WorkerBegin(0));
    acts, t := Extend(s, acts, t, LoopDequeue(0));
  }

  /** A producer has sent a request and not counted it. */
  lemma OneSent(stoppers: nat, r: ScanRequest) returns (acts: seq<Action>, t: State)
    ensures Leads(Init(1, 1, 1, stoppers), acts, t)
    ensures t == Init(1, 1, 1, stoppers).(pool := Pool([Dequeuing], 1, 1), calls := [NoCall, Sent],
                                          q := Queue(1, [r], false, 0, false, false), log := Log([r], [], [], 0))
    ensures forall a :: a in acts ==> !a.CloseBegin? && !a.StopEnter?
  {
    hide Leads;
    var s := Init(1, 1, 1, stoppers);
    acts, t := OneWaiting(stoppers);
    assert t.calls == [NoCall, NoCall];
    acts, t := Extend(s, acts, t, BeginEnqueue(1, r));
    acts, t := Extend(s, acts, t, Send(1));
    assert t.calls == [NoCall, Sent];
  }

  /** One worker holds the only request, which its sender has not counted yet. */
  lemma OneInFlight(stoppers: nat, r: ScanRequest) returns (acts: seq<Action>, t: State)
    ensures Leads(Init(1, 1, 1, stoppers), acts, t)
    ensures t == Init(1, 1, 1, stoppers).(pool := Pool([Handling(r)], 1, 1), calls := [NoCall, Sent],
                                          q := Queue(1, [], false, -1, false, false), log := Log([r], [r], [], 0))
    ensures forall a :: a in acts ==> !a.CloseBegin? && !a.StopEnter?
  {
    hide Leads;
    var s := Init(1, 1, 1, stoppers);
    acts, t := OneSent(stoppers, r);
    acts, t := Extend(s, acts, t, Receive(0));
    acts, t := Extend(s, acts, t, CountDown(0));
  }

  /** A worker can take a request out and subtract before its sender has added: Depth() is then -1. */
  lemma DepthCanBeNegative(r: ScanRequest) returns (acts: seq<Action>, t: State)
    ensures Leads(Init(1, 1, 1, 0), acts, t) && t.q.depth == -1
  {
    acts, t := OneInFlight(0, r);
  }

  // ---- Stop ----

  /** Once a call of Stop has returned, exactly one call ran the body of the Once and it has returned as
      well; the timeout error is its own, so none timed out if and only if that call saw every worker done. */
  lemma OneStopDecides(s: State, k: nat) returns (runner: nat)
    requires Inv(s) && k < |s.stop.stops| && s.stop.stops[k].Returned?
    ensures runner < |s.stop.stops| && s.stop.stops[runner].Returned?
    ensures forall j :: 0 <= j < |s.stop.stops| ==> (RanBody(s.stop.stops[j]) <==> j == runner)
    ensures NoneTimedOut(s.stop) <==> s.stop.stops[runner] == Returned(true, true)
    ensures NoneTimedOut(s.stop) ==> s.stop.doneClosed
  {
    runner :| runner < |s.stop.stops| && s.stop.stops[runner].Returned? && s.stop.stops[runner].waited;
  }

  /** Some call of Stop has returned and none, this or another, with the timeout error.  Then no worker
      waits for a request or holds one and no handler is in a call, even if Start is still spawning: the nil
      of every call can be trusted.  If stopping began after Start, all workers have exited as well. */
  lemma StopWaits(s: State, capacity: nat, workers: nat, producers: nat, stoppers: nat, acts: seq<Action>, k: nat)
    requires Reachable(s, capacity, workers, producers, stoppers, acts)
    requires k < |s.stop.stops| && s.stop.stops[k].Returned? && NoneTimedOut(s.stop)
    ensures NoneBusy(s) && InFlight(s.pool.workers) == multiset{}
    ensures forall w :: 0 <= w < |s.pool.workers| ==> w < |s.calls| && s.calls[w].NoCall?
    ensures multiset(s.log.finished) == multiset(s.log.dequeued)
    ensures s.stop.sawStarted ==> AllExited(s) && s.pool.wg == 0
  {
    ReachableInv(s, capacity, workers, producers, stoppers, acts);
    var runner := OneStopDecides(s, k);
    WaitGroupZero(s);
    NothingHeld(s.pool.workers);
  }

  /** It stays so: after such a return no continuation takes up another request. */
  lemma NoneTakenAfterStop(s: State, acts: seq<Action>, k: nat)
    requires Inv(s) && k < |s.stop.stops| && s.stop.stops[k].Returned? && NoneTimedOut(s.stop) && Run(s, acts)
    ensures Exec(s, acts).log.dequeued == s.log.dequeued && NoneBusy(Exec(s, acts))
  {
    var runner := OneStopDecides(s, k);
    NoneTakenOnceDone(s, acts);
  }

  lemma {:induction false} NoneTakenOnceDone(s: State, acts: seq<Action>)
    requires Inv(s) && s.stop.doneClosed && Run(s, acts)
    ensures Exec(s, acts).log.dequeued == s.log.dequeued && NoneBusy(Exec(s, acts))
    decreases |acts|
  {
    if acts != [] {
      InvStep(s, acts[0]);
      NoneTakenStep(s, acts[0]);
      NoneTakenOnceDone(Apply(s, acts[0]), acts[1..]);
    }
  }

  lemma NoneTakenStep(s: State, a: Action)
    requires NoneBusy(s) && s.stop.doneClosed && Enabled(s, a)
    ensures StepLog(s, a).dequeued == s.log.dequeued && StepStop(s, a).doneClosed
  {
    hide StepQueue, StepCalls, StepPool;
  }

  /** That all workers have exited does take a Start that is over: a Stop before it finds the WaitGroup at zero. */
  lemma StopBeforeStart() returns (acts: seq<Action>, t: State)
    ensures Leads(Init(1, 1, 0, 1), acts, t)
    ensures t.stop.stops == [Returned(true, true)] && !t.stop.sawStarted && !AllExited(t)
  {
    var s := Init(1, 1, 0, 1);
    acts, t := StopOfUnstarted();
    hide Leads;
    acts, t := Extend(s, acts, t, WaitDone(0));
    acts, t := Extend(s, acts, t, StopReturn(0));
    assert t.pool.workers[0].Unstarted?;
  }

  lemma StopOfUnstarted() returns (acts: seq<Action>, t: State)
    ensures Leads(Init(1, 1, 0, 1), acts, t)
    ensures t.stop == Stopping([Waiting], Busy, true, false, false) && t.pool == Pool([Unstarted], 0, 0)
  {
    var s := Init(1, 1, 0, 1);
    assert s.stop.stops == [Ready] && s.pool.workers == [Unstarted];
    acts, t := Extend(s, [], s, StopEnter(0));
    hide Leads;
    assert t.stop.stops == [InOnce];
    acts, t := Extend(s, acts, t, StopCancel(0));
  }

  /** A scan runs, and the one Stop that cancelled is waiting for it. */
  lemma StopWaitsForScan(r: ScanRequest) returns (acts: seq<Action>, t: State)
    ensures Leads(Init(1, 1, 1, 2), acts, t)
    ensures t.stop == Stopping([Waiting, Ready], Busy, true, false, true) && t.pool.workers == [Handling(r)]
  {
    hide Leads;
    var s := Init(1, 1, 1, 2);
    acts, t := OneInFlight(2, r);
    assert t.stop.stops == [Ready, Ready];
    acts, t := Extend(s, acts, t, StopEnter(0));
    assert t.stop.stops == [InOnce, Ready];
    acts, t := Extend(s, acts, t, StopCancel(0));
  }

  /** The error of Stop is local to the call that ran the body of the Once: a second call returns nil
      although the first timed out and a scan is still running. */
  lemma SecondStopReturnsNil(r: ScanRequest) returns (acts: seq<Action>, t: State)
    ensures Leads(Init(1, 1, 1, 2), acts, t)
    ensures t.stop.stops == [Returned(false, true), Returned(true, false)] && t.pool.workers == [Handling(r)]
  {
    hide Leads;
    var s := Init(1, 1, 1, 2);
    acts, t := StopWaitsForScan(r);
    acts, t := Extend(s, acts, t, StopTimeout(0));
    assert t.stop.stops == [Returned(false, true), Ready];
    acts, t := Extend(s, acts, t, StopEnter(1));
  }

  // ---- After cancellation ----

  /** How often worker w takes up a request in a schedule. */
  function Starts(acts: seq<Action>, w: nat): nat {
    if acts == [] then 0
    else (if acts[0] == Receive(w) || (acts[0].HandOff? && acts[0].w == w) then 1 else 0) + Starts(acts[1..], w)
  }

  lemma CancelledStays(s: State, a: Action)
    requires s.stop.cancelled && Enabled(s, a)
    ensures Apply(s, a).stop.cancelled && |Apply(s, a).pool.workers| == |s.pool.workers|
  {
    ReasonsStay(s, a);
    MoverExists(s, a);
  }

  lemma DequeuingStep(s: State, a: Action, w: nat)
    requires s.stop.cancelled && Enabled(s, a) && w < |s.pool.workers| == |Apply(s, a).pool.workers|
    requires Shape(s)
    ensures IsDequeuing(Apply(s, a).pool.workers[w]) + Starts([a], w) <= IsDequeuing(s.pool.workers[w])
  {
    MoverExists(s, a);
    assert [a][1..] == [];
  }

  /** Once the context is cancelled, a worker takes up at most one more request in any continuation,
      and only if it was already inside Dequeue. */
  lemma {:induction false} AtMostOneMore(s: State, acts: seq<Action>, w: nat)
    requires Inv(s) && s.stop.cancelled && w < |s.pool.workers| && Run(s, acts)
    ensures |Exec(s, acts).pool.workers| == |s.pool.workers|
    ensures Starts(acts, w) + IsDequeuing(Exec(s, acts).pool.workers[w]) <= IsDequeuing(s.pool.workers[w])
    decreases |acts|
  {
    if acts != [] {
      var a := acts[0];
      InvStep(s, a);
      CancelledStays(s, a);
      DequeuingStep(s, a, w);
      AtMostOneMore(Apply(s, a), acts[1..], w);
      assert [a][1..] == [];
    }
  }

  lemma TakingLeavesDequeue(s: State, a: Action)
    requires Shape(s) && s.stop.cancelled && Enabled(s, a)
    ensures |s.log.dequeued| <= |StepLog(s, a).dequeued|
    ensures |StepLog(s, a).dequeued| + Sum(StepWorkers(s, a), IsDequeuing)
            <= |s.log.dequeued| + Sum(s.pool.workers, IsDequeuing)
  {
    WorkerSumStep(s, a, IsDequeuing);
  }

  /** The same for the pool: at most as many further requests start as workers were inside Dequeue. */
  lemma {:induction false} AtMostWorkersMore(s: State, acts: seq<Action>)
    requires Inv(s) && s.stop.cancelled && Run(s, acts)
    ensures |s.log.dequeued| <= |Exec(s, acts).log.dequeued|
    ensures |Exec(s, acts).log.dequeued| <= |s.log.dequeued| + Sum(s.pool.workers, IsDequeuing)
    ensures Sum(s.pool.workers, IsDequeuing) <= |s.pool.workers|
    decreases |acts|
  {
    SumBounds(s.pool.workers, IsDequeuing, 1);
    if acts != [] {
      InvStep(s, acts[0]);
      CancelledStays(s, acts[0]);
      TakingLeavesDequeue(s, acts[0]);
      AtMostWorkersMore(Apply(s, acts[0]), acts[1..]);
    }
  }

  /** How many actions a worker can still make once the context is cancelled. */
  function Rank(w: Worker): int {
    match w
    case Unstarted => 4
    case Spawned => 3
    case AtTop => 2
    case Dequeuing => 5
    case Received(_) => 4
    case Handling(_) => 3
    case Leaving(_) => 1
    case Exited(_) => 0
  }

  predicate MovesWorker(a: Action) {
    || a.HandOff? || a.SpawnNext? || a.WorkerBegin? || a.LoopExit? || a.LoopDequeue? || a.Receive?
    || a.ReceiveClosed? || a.ReceiveCancelled? || a.CountDown? || a.FinishHandling? || a.WgDone?
  }

  function WorkerActions(acts: seq<Action>): nat {
    if acts == [] then 0 else (if MovesWorker(acts[0]) then 1 else 0) + WorkerActions(acts[1..])
  }

  lemma RankStep(s: State, a: Action)
    requires Shape(s) && s.stop.cancelled && Enabled(s, a)
    ensures Sum(Apply(s, a).pool.workers, Rank) <= Sum(s.pool.workers, Rank) - (if MovesWorker(a) then 1 else 0)
  {
    hide StepQueue, StepCalls, StepStop, StepLog, Sum;
    WorkerSumStep(s, a, Rank);
  }

  /** Every worker action after cancellation uses up rank, so no continuation has more than five a worker. */
  lemma {:induction false} WorkersRunOut(s: State, acts: seq<Action>)
    requires Inv(s) && s.stop.cancelled && Run(s, acts)
    ensures WorkerActions(acts) + Sum(Exec(s, acts).pool.workers, Rank) <= Sum(s.pool.workers, Rank)
    ensures Sum(s.pool.workers, Rank) <= 5 * |s.pool.workers|
    decreases |acts|
  {
    SumBounds(s.pool.workers, Rank, 5);
    if acts != [] {
      InvStep(s, acts[0]);
      CancelledStays(s, acts[0]);
      RankStep(s, acts[0]);
      WorkersRunOut(Apply(s, acts[0]), acts[1..]);
    }
  }

  /** A worker that has not exited is never stuck: it, or the call its handler is in, can move. */
  lemma WorkerCanMove(s: State, w: nat) returns (a: Action)
    requires Inv(s) && s.stop.cancelled && w < |s.pool.workers| && !s.pool.workers[w].Exited?
    ensures Enabled(s, a)
    ensures Mover(s, a) == Some(w) || a.SpawnNext? || a in {Send(w), RefuseFull(w), SendOnClosed(w), CountUp(w)}
  {
    match s.pool.workers[w]
    case Unstarted => a := SpawnNext;
    case Spawned => a := WorkerBegin(w);
    case AtTop => a := LoopExit(w);
    case Dequeuing => a := ReceiveCancelled(w);
    case Received(_) => a := CountDown(w);
    case Leaving(_) => a := WgDone(w);
    case Handling(_) =>
      match s.calls[w]
      case NoCall => a := FinishHandling(w, Succeeded);
      case Sent => a := CountUp(w);
      case Admitted(_) =>
        a := if s.q.channelClosed then SendOnClosed(w)
             else if |s.q.channel| < s.q.capacity then Send(w) else RefuseFull(w);
  }

  /** Hence a cancelled pool in which no action is left to a worker or a handler has shut down, and the
      goroutine that waits for the WaitGroup can report it. */
  lemma StuckMeansExited(s: State)
    requires Inv(s) && s.stop.cancelled
    requires forall a | MovesWorker(a) || a.Send? || a.RefuseFull? || a.SendOnClosed? || a.CountUp? :: !Enabled(s, a)
    ensures AllExited(s) && s.pool.wg == 0
    ensures forall k :: 0 <= k < |s.stop.stops| && s.stop.stops[k].Waiting? ==> Enabled(s, WaitDone(k))
  {
    forall w | 0 <= w < |s.pool.workers| ensures s.pool.workers[w].Exited? {
      if !s.pool.workers[w].Exited? {
        var a := WorkerCanMove(s, w);
        assert false;
      }
    }
    WaitGroupZero(s);
  }

  // ---- Close and drain ----

  /** Without cancellation a worker leaves only a closed and empty queue; so when all have left, every
      accepted request has been handled. */
  lemma CloseAndDrain(s: State, capacity: nat, workers: nat, producers: nat, stoppers: nat, acts: seq<Action>)
    requires Reachable(s, capacity, workers, producers, stoppers, acts)
    requires !s.stop.cancelled && |s.pool.workers| > 0 && AllExited(s)
    ensures s.q.channelClosed && s.q.channel == []
    ensures s.log.dequeued == s.log.accepted && multiset(s.log.finished) == multiset(s.log.accepted)
  {
    ReachableInv(s, capacity, workers, producers, stoppers, acts);
    assert s.pool.workers[0].Exited?;
    NothingHeld(s.pool.workers);
    assert s.log.dequeued + [] == s.log.dequeued;
  }

  // ---- Sends on a closed channel ----

  /** No Enqueue stands between its check of the closed flag and its send. */
  predicate NoneAdmitted(s: State) {
    forall c :: 0 <= c < |s.calls| ==> !s.calls[c].Admitted?
  }

  lemma NoneAdmittedStays(s: State, a: Action)
    requires s.q.closed && NoneAdmitted(s) && Enabled(s, a)
    ensures Apply(s, a).q.closed && Apply(s, a).log.faults == s.log.faults
    ensures NoneAdmitted(Apply(s, a))
  {
    var s' := Apply(s, a);
    assert |s'.calls| == |s.calls|;
    assert forall c :: 0 <= c < |s'.calls| ==> s'.calls[c] == s.calls[c] || !s'.calls[c].Admitted?;
  }

  lemma {:induction false} NoLateSend(s: State, acts: seq<Action>)
    requires s.q.closed && NoneAdmitted(s) && Run(s, acts)
    ensures Exec(s, acts).log.faults == s.log.faults
    decreases |acts|
  {
    if acts != [] {
      NoneAdmittedStays(s, acts[0]);
      NoLateSend(Apply(s, acts[0]), acts[1..]);
    }
  }

  lemma LateSend(s: State, c: nat) returns (acts: seq<Action>, t: State)
    requires Inv(s) && s.q.closed && c < |s.calls| && s.calls[c].Admitted?
    ensures Leads(s, acts, t) && t.log.faults == s.log.faults + 1
  {
    acts, t := [], s;
    if s.q.writeLocked {
      acts, t := Extend(s, acts, t, CloseEnd);
    }
    acts, t := Extend(s, acts, t, SendOnClosed(c));
  }

  /** No continuation sends on the closed channel. */
  ghost predicate NeverFaults(s: State) {
    forall acts :: Run(s, acts) ==> Exec(s, acts).log.faults == s.log.faults
  }

  /** Once Close has set the flag, no continuation sends on the closed channel if and only if no Enqueue
      is between its check and its send.  The two are separate steps, so the flag alone is not enough. */
  lemma ClosedIsSafeIffNoneAdmitted(s: State)
    requires Inv(s) && s.q.closed
    ensures NoneAdmitted(s) <==> NeverFaults(s)
  {
    if NoneAdmitted(s) {
      forall acts | Run(s, acts) ensures Exec(s, acts).log.faults == s.log.faults {
        NoLateSend(s, acts);
      }
    } else {
      SomeAdmittedFaults(s);
    }
  }

  lemma SomeAdmittedFaults(s: State)
    requires Inv(s) && s.q.closed && !NoneAdmitted(s)
    ensures !NeverFaults(s)
  {
    var c: nat :| c < |s.calls| && s.calls[c].Admitted?;
    var acts, t := LateSend(s, c);
    assert Exec(s, acts).log.faults == s.log.faults + 1;
  }
}
