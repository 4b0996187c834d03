/** The scan queue, its callers, the worker pool and the callers of Stop, as one transition system.

    Every action is one atomic step of the program: a critical section, one channel operation, one
    atomic addition, one WaitGroup operation, or the choice a select makes.  Enqueue and Dequeue are
    therefore several actions each, and actions of different goroutines interleave freely. */
module PoolProtocol {
  import opened Models
  import opened Sums

  /** The fields of a ScanQueue: the bounded channel, the separate depth counter, the closed flag, and
      whether Close holds the write lock. */
  datatype Queue = Queue(capacity: nat, channel: seq<ScanRequest>, channelClosed: bool,
                         depth: int, closed: bool, writeLocked: bool)

  /** Where a call of Enqueue stands: it has seen `closed == false` and released the lock (Admitted),
      or it has sent and has yet to add one to the depth (Sent). */
  datatype Call = NoCall | Admitted(req: ScanRequest) | Sent

  /** Where a worker stands.  Leaving is between its return and the deferred Done of the WaitGroup;
      `drained` records that it returned because it received from a closed and empty channel. */
  datatype Worker =
    | Unstarted
    | Spawned
    | AtTop
    | Dequeuing
    | Received(got: ScanRequest)
    | Handling(scan: ScanRequest)
    | Leaving(drained: bool)
    | Exited(drained: bool)

  /** `started` counts the iterations of Start, `wg` is the WaitGroup's counter. */
  datatype Pool = Pool(workers: seq<Worker>, started: nat, wg: int)

  /** Where a call of Stop stands.  `waited` says that this call ran the body of the Once. */
  datatype Stopper = Ready | InOnce | Waiting | Returned(nilError: bool, waited: bool)

  datatype Once = Fresh | Busy | Done

  /** The context's cancelled flag, the Once, and the `done` channel that Stop's goroutine closes;
      `sawStarted` records whether Start had completed when the body of the Once began. */
  datatype Stopping = Stopping(stops: seq<Stopper>, once: Once, cancelled: bool, doneClosed: bool, sawStarted: bool)

  /** The history that the theorems speak about: requests the channel accepted, requests received from
      it, requests handled, and sends on a closed channel (which panic). */
  datatype Log = Log(accepted: seq<ScanRequest>, dequeued: seq<ScanRequest>, finished: seq<ScanRequest>, faults: nat)

  /** `calls[i]` for i < |workers| is the Enqueue made inside worker i's handler (a retry), the others are
      external producers. */
  datatype State = State(q: Queue, calls: seq<Call>, pool: Pool, stop: Stopping, log: Log)

  /** What the scan handler did; a panic is recovered by processScan. */
  datatype Outcome = Succeeded | Failed | Panicked

  datatype Action =
    // Enqueue
    | BeginEnqueue(c: nat, req: ScanRequest)
    | Send(c: nat)
    | HandOff(c: nat, w: nat)
    | RefuseFull(c: nat)
    | RefuseCancelled(c: nat)
    | SendOnClosed(c: nat)
    | CountUp(c: nat)
    // Close
    | CloseBegin
    | CloseEnd
    // Start and the worker loop
    | SpawnNext
    | WorkerBegin(w: nat)
    | LoopExit(w: nat)
    | LoopDequeue(w: nat)
    | Receive(w: nat)
    | ReceiveClosed(w: nat)
    | ReceiveCancelled(w: nat)
    | CountDown(w: nat)
    | FinishHandling(w: nat, outcome: Outcome)
    | WgDone(w: nat)
    // Stop
    | StopEnter(k: nat)
    | StopCancel(k: nat)
    | WaitDone(k: nat)
    | StopReturn(k: nat)
    | StopTimeout(k: nat)

  function Init(capacity: nat, workers: nat, producers: nat, stoppers: nat): State {
    State(Queue(capacity, [], false, 0, false, false),
          seq(workers + producers, _ => NoCall),
          Pool(seq(workers, _ => Unstarted), 0, 0),
          Stopping(seq(stoppers, _ => Ready), Fresh, false, false, false),
          Log([], [], [], 0))
  }

  // ---- When an action can happen ----

  /** A handler can call Enqueue only while it runs; external producers always can. */
  predicate MayCall(s: State, c: nat) {
    c < |s.calls| && (c < |s.pool.workers| ==> s.pool.workers[c].Handling?)
  }

  predicate IsAdmitted(s: State, c: nat) {
    c < |s.calls| && s.calls[c].Admitted?
  }

  predicate At(s: State, w: nat, pc: Worker) {
    w < |s.pool.workers| && s.pool.workers[w] == pc
  }

  predicate StopperAt(s: State, k: nat, pc: Stopper) {
    k < |s.stop.stops| && s.stop.stops[k] == pc
  }

  /** Sending is possible below the capacity, or straight to a worker that waits on an empty channel;
      on a closed channel it panics.  Refusing as full is the default branch of the select. */
  predicate Enabled(s: State, a: Action) {
    match a
    case BeginEnqueue(c, _) => MayCall(s, c) && s.calls[c].NoCall? && !s.q.writeLocked
    case Send(c) => IsAdmitted(s, c) && !s.q.channelClosed && |s.q.channel| < s.q.capacity
    case HandOff(c, w) => IsAdmitted(s, c) && !s.q.channelClosed && s.q.channel == [] && At(s, w, Dequeuing)
    case RefuseFull(c) => IsAdmitted(s, c) && !s.q.channelClosed && |s.q.channel| >= s.q.capacity
    case RefuseCancelled(c) => IsAdmitted(s, c)
    case SendOnClosed(c) => IsAdmitted(s, c) && s.q.channelClosed
    case CountUp(c) => c < |s.calls| && s.calls[c].Sent?
    case CloseBegin => !s.q.writeLocked
    case CloseEnd => s.q.writeLocked
    case SpawnNext => s.pool.started < |s.pool.workers|
    case WorkerBegin(w) => At(s, w, Spawned)
    case LoopExit(w) => At(s, w, AtTop) && s.stop.cancelled
    case LoopDequeue(w) => At(s, w, AtTop) && !s.stop.cancelled
    case Receive(w) => At(s, w, Dequeuing) && s.q.channel != []
    case ReceiveClosed(w) => At(s, w, Dequeuing) && s.q.channel == [] && s.q.channelClosed
    case ReceiveCancelled(w) => At(s, w, Dequeuing) && s.stop.cancelled
    case CountDown(w) => w < |s.pool.workers| && s.pool.workers[w].Received?
    case FinishHandling(w, _) =>
      w < |s.pool.workers| && s.pool.workers[w].Handling? && w < |s.calls| && s.calls[w].NoCall?
    case WgDone(w) => w < |s.pool.workers| && s.pool.workers[w].Leaving?
    case StopEnter(k) => StopperAt(s, k, Ready) && !s.stop.once.Busy?
    case StopCancel(k) => StopperAt(s, k, InOnce)
    case WaitDone(k) => StopperAt(s, k, Waiting) && s.pool.wg == 0
    case StopReturn(k) => StopperAt(s, k, Waiting) && s.stop.doneClosed
    case StopTimeout(k) => StopperAt(s, k, Waiting)
  }

  // ---- What an action does ----

  function StepQueue(s: State, a: Action): Queue
    requires Enabled(s, a)
  {
    match a
    case Send(c) => s.q.(channel := s.q.channel + [s.calls[c].req])
    case CountUp(_) => s.q.(depth := s.q.depth + 1)
    case Receive(_) => s.q.(channel := s.q.channel[1..])
    case CountDown(_) => s.q.(depth := s.q.depth - 1)
    case CloseBegin => if s.q.closed then s.q else s.q.(closed := true, writeLocked := true)
    case CloseEnd => s.q.(channelClosed := true, writeLocked := false)
    case _ => s.q
  }

  /** The call of Enqueue that an action moves, if any, and where to. */
  function Caller(a: Action): Option<nat> {
    match a
    case BeginEnqueue(c, _) => Some(c)
    case Send(c) => Some(c)
    case HandOff(c, _) => Some(c)
    case RefuseFull(c) => Some(c)
    case RefuseCancelled(c) => Some(c)
    case SendOnClosed(c) => Some(c)
    case CountUp(c) => Some(c)
    case _ => None
  }

  function CallTarget(s: State, a: Action): Call {
    match a
    case BeginEnqueue(_, req) => if s.q.closed then NoCall else Admitted(req)
    case Send(_) => Sent
    case HandOff(_, _) => Sent
    case _ => NoCall
  }

  /** The worker that an action moves, if any, and where to. */
  function Mover(s: State, a: Action): Option<nat> {
    match a
    case HandOff(_, w) => Some(w)
    case SpawnNext => Some(s.pool.started)
    case WorkerBegin(w) => Some(w)
    case LoopExit(w) => Some(w)
    case LoopDequeue(w) => Some(w)
    case Receive(w) => Some(w)
    case ReceiveClosed(w) => Some(w)
    case ReceiveCancelled(w) => Some(w)
    case CountDown(w) => Some(w)
    case FinishHandling(w, _) => Some(w)
    case WgDone(w) => Some(w)
    case _ => None
  }

  function Target(s: State, a: Action): Worker
    requires Enabled(s, a) && Mover(s, a).Some?
  {
    match a
    case HandOff(c, _) => Received(s.calls[c].req)
    case SpawnNext => Spawned
    case WorkerBegin(_) => AtTop
    case LoopExit(_) => Leaving(false)
    case LoopDequeue(_) => Dequeuing
    case Receive(_) => Received(s.q.channel[0])
    case ReceiveClosed(_) => Leaving(true)
    case ReceiveCancelled(_) => Leaving(false)
    case CountDown(w) => Handling(s.pool.workers[w].got)
    case FinishHandling(_, _) => AtTop
    case WgDone(w) => Exited(s.pool.workers[w].drained)
  }

  lemma MoverExists(s: State, a: Action)
    requires Enabled(s, a)
    ensures Mover(s, a).Some? ==> Mover(s, a).value < |s.pool.workers|
    ensures Caller(a).Some? ==> Caller(a).value < |s.calls|
  {
  }

  function StepCalls(s: State, a: Action): seq<Call>
    requires Enabled(s, a)
  {
    MoverExists(s, a);
    match Caller(a)
    case None => s.calls
    case Some(c) => s.calls[c := CallTarget(s, a)]
  }

  function StepWorkers(s: State, a: Action): seq<Worker>
    requires Enabled(s, a)
  {
    MoverExists(s, a);
    match Mover(s, a)
    case None => s.pool.workers
    case Some(w) => s.pool.workers[w := Target(s, a)]
  }

  function StepPool(s: State, a: Action): Pool
    requires Enabled(s, a)
  {
    Pool(StepWorkers(s, a),
         if a.SpawnNext? then s.pool.started + 1 else s.pool.started,
         if a.SpawnNext? then s.pool.wg + 1 else if a.WgDone? then s.pool.wg - 1 else s.pool.wg)
  }

  /** A call of Stop that finds the Once done returns nil at once: its error variable is its own. */
  function StepStop(s: State, a: Action): Stopping
    requires Enabled(s, a)
  {
    var t := s.stop;
    match a
    case StopEnter(k) =>
      if t.once.Done? then t.(stops := t.stops[k := Returned(true, false)])
      else t.(stops := t.stops[k := InOnce], once := Busy, sawStarted := s.pool.started == |s.pool.workers|)
    case StopCancel(k) => t.(stops := t.stops[k := Waiting], cancelled := true)
    case WaitDone(_) => t.(doneClosed := true)
    case StopReturn(k) => t.(stops := t.stops[k := Returned(true, true)], once := Done)
    case StopTimeout(k) => t.(stops := t.stops[k := Returned(false, true)], once := Done)
    case _ => t
  }

  function StepLog(s: State, a: Action): Log
    requires Enabled(s, a)
  {
    var l := s.log;
    match a
    case Send(c) => l.(accepted := l.accepted + [s.calls[c].req])
    case HandOff(c, _) =>
      l.(accepted := l.accepted + [s.calls[c].req], dequeued := l.dequeued + [s.calls[c].req])
    case Receive(_) => l.(dequeued := l.dequeued + [s.q.channel[0]])
    case FinishHandling(w, _) => l.(finished := l.finished + [s.pool.workers[w].scan])
    case SendOnClosed(_) => l.(faults := l.faults + 1)
    case _ => l
  }

  function Apply(s: State, a: Action): State
    requires Enabled(s, a)
  {
    State(StepQueue(s, a), StepCalls(s, a), StepPool(s, a), StepStop(s, a), StepLog(s, a))
  }

  // ---- Runs ----

  /** A schedule is a sequence of actions; it is a run from s when each is enabled in its turn. */
  predicate Run(s: State, acts: seq<Action>)
    decreases |acts|
  {
    acts == [] || (Enabled(s, acts[0]) && Run(Apply(s, acts[0]), acts[1..]))
  }

  function Exec(s: State, acts: seq<Action>): State
    requires Run(s, acts)
    decreases |acts|
  {
    if acts == [] then s else Exec(Apply(s, acts[0]), acts[1..])
  }

  /** One more action at the end of a run. */
  lemma {:induction false} RunSnoc(s: State, acts: seq<Action>, a: Action)
    requires Run(s, acts) && Enabled(Exec(s, acts), a)
    ensures Run(s, acts + [a]) && Exec(s, acts + [a]) == Apply(Exec(s, acts), a)
    decreases |acts|
  {
    if acts == [] {
      assert acts + [a] == [a];
      assert [a][1..] == [];
    } else {
      RunSnoc(Apply(s, acts[0]), acts[1..], a);
      assert (acts + [a])[1..] == acts[1..] + [a];
    }
  }

  /** The schedule is a run from s that ends in t. */
  predicate Leads(s: State, acts: seq<Action>, t: State) {
    Run(s, acts) && Exec(s, acts) == t
  }

  /** Extends a run by an enabled action. */
  lemma Extend(s: State, acts: seq<Action>, t: State, a: Action) returns (more: seq<Action>, next: State)
    requires Leads(s, acts, t) && Enabled(t, a)
    ensures more == acts + [a] && next == Apply(t, a) && Leads(s, more, next)
  {
    more, next := acts + [a], Apply(t, a);
    RunSnoc(s, acts, a);
  }

  // ---- What the invariants count ----

  function IsSent(c: Call): int { if c.Sent? then 1 else 0 }
  function IsReceived(w: Worker): int { if w.Received? then 1 else 0 }
  function IsActive(w: Worker): int { if w.Unstarted? || w.Exited? then 0 else 1 }
  function IsDequeuing(w: Worker): int { if w.Dequeuing? then 1 else 0 }

  /** Enqueues between their send and their increment, and Dequeues between receive and decrement. */
  function PendingUp(s: State): int { Sum(s.calls, IsSent) }
  function PendingDown(s: State): int { Sum(s.pool.workers, IsReceived) }

  function Holding(w: Worker): multiset<ScanRequest> {
    match w
    case Received(r) => multiset{r}
    case Handling(r) => multiset{r}
    case _ => multiset{}
  }

  /** The requests that workers hold, one per busy worker. */
  function InFlight(ws: seq<Worker>): multiset<ScanRequest> {
    if ws == [] then multiset{} else InFlight(ws[..|ws| - 1]) + Holding(ws[|ws| - 1])
  }

  lemma {:induction false} InFlightUpdate(ws: seq<Worker>, i: nat, v: Worker)
    requires i < |ws|
    ensures Holding(ws[i]) <= InFlight(ws)
    ensures InFlight(ws[i := v]) == InFlight(ws) - Holding(ws[i]) + Holding(v)
  {
    hide Holding;
    var n := |ws| - 1;
    if i == n {
      assert ws[i := v][..n] == ws[..n];
      ReplaceLast(InFlight(ws[..n]), Holding(ws[n]), Holding(v));
    } else {
      InFlightUpdate(ws[..n], i, v);
      assert ws[i := v][..n] == ws[..n][i := v];
      RemoveOne(InFlight(ws[..n]), Holding(ws[i]), Holding(v), Holding(ws[n]));
    }
  }

  lemma ReplaceLast<T>(all: multiset<T>, before: multiset<T>, after: multiset<T>)
    ensures before <= all + before && (all + before) - before + after == all + after
  {
  }

  lemma RemoveOne<T>(all: multiset<T>, before: multiset<T>, after: multiset<T>, last: multiset<T>)
    requires before <= all
    ensures before <= all + last
    ensures (all - before + after) + last == (all + last) - before + after
  {
  }
}
