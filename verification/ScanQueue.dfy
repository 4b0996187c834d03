/** ScanQueue and the worker loop as objects, for calls that do not overlap, and the proof that such calls
    are runs of the interleaved protocol. */
module ScanQueues {
  import opened Models
  import opened PoolProtocol

  datatype EnqueueResult = Enqueued | EnqueueClosed | EnqueueCancelled | EnqueueFull
  datatype DequeueResult = Got(req: ScanRequest) | DequeueClosed | DequeueCancelled | Blocked

  /** Utilization is a percentage; Go yields NaN for capacity zero, which is None here. */
  datatype QueueStats = QueueStats(depth: int, capacity: nat, utilization: Option<real>, isFull: bool, isEmpty: bool)

  /** A select takes any ready case: `pickCtx` is its choice when both the channel and ctx.Done are ready. */
  function EnqueueOutcome(q: Queue, ctxDone: bool, pickCtx: bool): EnqueueResult {
    if q.closed then EnqueueClosed
    else if ctxDone && (pickCtx || |q.channel| >= q.capacity) then EnqueueCancelled
    else if |q.channel| >= q.capacity then EnqueueFull
    else Enqueued
  }

  function DequeueOutcome(q: Queue, ctxDone: bool, pickCtx: bool): DequeueResult {
    if ctxDone && (pickCtx || (q.channel == [] && !q.channelClosed)) then DequeueCancelled
    else if q.channel != [] then Got(q.channel[0])
    else if q.channelClosed then DequeueClosed
    else Blocked
  }

  class ScanQueue {
    const capacity: nat
    var channel: seq<ScanRequest>
    var channelClosed: bool
    var depth: int
    var closed: bool

    /** What holds between calls that do not overlap. */
    predicate Valid()
      reads this
    {
      closed == channelClosed && |channel| <= capacity && depth == |channel|
    }

    function View(): Queue
      reads this
    {
      Queue(capacity, channel, channelClosed, depth, closed, false)
    }

    constructor (capacity: nat)
      ensures Valid() && View() == Queue(capacity, [], false, 0, false, false)
    {
      this.capacity := capacity;
      channel, channelClosed, depth, closed := [], false, 0, false;
    }

    /** Only a closed queue answers closed, only a full one full; with room and a live context the request
        is always taken, and where the context is done as well the select may choose. */
    method Enqueue(req: ScanRequest, ctxDone: bool, pickCtx: bool) returns (r: EnqueueResult)
      requires Valid()
      modifies this`channel, this`depth
      ensures Valid()
      ensures r == EnqueueOutcome(old(View()), ctxDone, pickCtx)
      ensures r == EnqueueClosed <==> closed
      ensures r == EnqueueFull <==> !closed && old(|channel|) == capacity && !ctxDone
      ensures r == Enqueued ==> !closed && old(|channel|) < capacity
      ensures !closed && old(|channel|) < capacity ==> (r == Enqueued <==> !(ctxDone && pickCtx))
      ensures r == EnqueueCancelled ==> ctxDone
      ensures channel == if r.Enqueued? then old(channel) + [req] else old(channel)
    {
      if closed {
        return EnqueueClosed;
      }
      var sendReady := |channel| < capacity;
      if sendReady && !(ctxDone && pickCtx) {
        channel := channel + [req];
        depth := depth + 1;
        r := Enqueued;
      } else if ctxDone {
        r := EnqueueCancelled;
      } else {
        r := EnqueueFull;
      }
    }

    /** Blocked stands for a call that waits: nothing is ready.  With a live context the head of the queue
        comes out if there is one, and only a closed and empty queue answers closed. */
    method Dequeue(ctxDone: bool, pickCtx: bool) returns (r: DequeueResult)
      requires Valid()
      modifies this`channel, this`depth
      ensures Valid()
      ensures r == DequeueOutcome(old(View()), ctxDone, pickCtx)
      ensures if r.Got? then old(channel) == [r.req] + channel else channel == old(channel)
      ensures old(channel) != [] ==> (r.Got? <==> !(ctxDone && pickCtx))
      ensures r == DequeueClosed ==> closed && old(channel) == []
      ensures closed && old(channel) == [] ==> (r == DequeueClosed <==> !(ctxDone && pickCtx))
      ensures r == DequeueCancelled ==> ctxDone
      ensures r == Blocked <==> !closed && old(channel) == [] && !ctxDone
    {
      var receiveReady := channel != [] || channelClosed;
      if receiveReady && !(ctxDone && pickCtx) {
        if channel == [] {
          return DequeueClosed;
        }
        r := Got(channel[0]);
        channel := channel[1..];
        depth := depth - 1;
      } else if ctxDone {
        r := DequeueCancelled;
      } else {
        r := Blocked;
      }
    }

    method Close()
      requires Valid()
      modifies this`closed, this`channelClosed
      ensures Valid() && closed && channelClosed
    {
      if !closed {
        closed := true;
        channelClosed := true;
      }
    }

    method Stats() returns (stats: QueueStats)
      requires Valid()
      ensures stats.depth == |channel| && stats.capacity == capacity
      ensures stats.isEmpty <==> channel == []
      ensures stats.isFull <==> |channel| == capacity
      ensures stats.utilization.Some? <==> capacity != 0
      ensures stats.utilization.Some? ==> 0.0 <= stats.utilization.value <= 100.0
      ensures stats.utilization.Some? ==> stats.utilization.value * capacity as real == 100.0 * |channel| as real
      ensures stats.utilization.Some? ==> (stats.utilization.value == 100.0 <==> stats.isFull)
    {
      var utilization := None;
      if capacity != 0 {
        var ratio := depth as real / capacity as real;
        assert ratio * capacity as real == depth as real;
        assert ratio * 100.0 * capacity as real == (ratio * capacity as real) * 100.0;
        utilization := Some(ratio * 100.0);
      }
      stats := QueueStats(depth, capacity, utilization, depth >= capacity, depth == 0);
    }
  }

  /** What the worker's environment does in one turn of its loop. */
  datatype Turn = Turn(cancelledAtTop: bool, cancelledInside: bool, pickCtx: bool, outcome: Outcome)

  /** The turn ends the loop by cancellation: at the top, or inside Dequeue, where it is chosen over a
      ready channel or nothing else is ready. */
  predicate Cancels(turn: Turn, q: Queue) {
    turn.cancelledAtTop || (turn.cancelledInside && (turn.pickCtx || (q.channel == [] && !q.channelClosed)))
  }

  datatype LoopEnd = Stopped | Drained | StillRunning

  class WorkerPool {
    const queue: ScanQueue

    constructor (queue: ScanQueue)
      ensures this.queue == queue
    {
      this.queue := queue;
    }

    /** The worker loop over a script of turns, alone on the queue.  It handles a prefix of the queue in
        order; it ends drained only on a closed and empty queue, stopped only when the context was
        cancelled, and it never makes another turn after either. */
    method Worker(script: seq<Turn>) returns (handled: seq<ScanRequest>, end: LoopEnd)
      requires queue.Valid()
      modifies queue`channel, queue`depth
      ensures queue.Valid()
      ensures old(queue.channel) == handled + queue.channel && |handled| <= |script|
      ensures end.Drained? ==> queue.closed && queue.channel == [] && |handled| < |script|
      ensures end.Stopped? ==> |handled| < |script| && Cancels(script[|handled|], queue.View())
      ensures forall i :: 0 <= i < |handled| ==>
                !script[i].cancelledAtTop && !(script[i].cancelledInside && script[i].pickCtx)
      ensures end.StillRunning? && |handled| < |script| ==>
                queue.channel == [] && !queue.closed && !Cancels(script[|handled|], queue.View())
    {
      handled := [];
      while |handled| < |script|
        invariant queue.Valid() && |handled| <= |script|
        invariant old(queue.channel) == handled + queue.channel
        invariant forall i :: 0 <= i < |handled| ==>
                    !script[i].cancelledAtTop && !(script[i].cancelledInside && script[i].pickCtx)
        decreases |script| - |handled|
      {
        var turn := script[|handled|];
        if turn.cancelledAtTop {
          return handled, Stopped;
        }
        var r := queue.Dequeue(turn.cancelledInside, turn.pickCtx);
        match r {
          case Got(req) => handled := handled + [req];
          case DequeueClosed => return handled, Drained;
          case DequeueCancelled => return handled, Stopped;
          case Blocked => return handled, StillRunning;
        }
      }
      end := StillRunning;
    }
  }

  // ---- Calls that do not overlap are runs of the protocol ----

  /** Enqueue on its own: check, send and count, or check and refuse for the reason it gives. */
  lemma EnqueueIsARun(s: State, c: nat, req: ScanRequest, ctxDone: bool, pickCtx: bool)
    returns (acts: seq<Action>, t: State)
    requires MayCall(s, c) && s.calls[c].NoCall? && !s.q.writeLocked && s.q.closed == s.q.channelClosed
    ensures Leads(s, acts, t)
    ensures if EnqueueOutcome(s.q, ctxDone, pickCtx).Enqueued?
            then t == s.(q := s.q.(channel := s.q.channel + [req], depth := s.q.depth + 1),
                         log := s.log.(accepted := s.log.accepted + [req]))
            else t == s
    ensures acts == match EnqueueOutcome(s.q, ctxDone, pickCtx)
                    case EnqueueClosed => [BeginEnqueue(c, req)]
                    case EnqueueCancelled => [BeginEnqueue(c, req), RefuseCancelled(c)]
                    case EnqueueFull => [BeginEnqueue(c, req), RefuseFull(c)]
                    case Enqueued => [BeginEnqueue(c, req), Send(c), CountUp(c)]
  {
    assert Leads(s, [], s);
    hide Leads;
    acts, t := Extend(s, [], s, BeginEnqueue(c, req));
    match EnqueueOutcome(s.q, ctxDone, pickCtx) {
      case EnqueueClosed =>
        assert s.calls[c := NoCall] == s.calls;
      case EnqueueCancelled =>
        acts, t := Extend(s, acts, t, RefuseCancelled(c));
        assert s.calls[c := Admitted(req)][c := NoCall] == s.calls;
      case EnqueueFull =>
        acts, t := Extend(s, acts, t, RefuseFull(c));
        assert s.calls[c := Admitted(req)][c := NoCall] == s.calls;
      case Enqueued =>
        acts, t := Extend(s, acts, t, Send(c));
        acts, t := Extend(s, acts, t, CountUp(c));
        assert s.calls[c := Admitted(req)][c := Sent][c := NoCall] == s.calls;
    }
  }

  /** Dequeue on its own: receive and count, or return with an error; when it blocks no case is ready. */
  lemma DequeueIsARun(s: State, w: nat, pickCtx: bool) returns (acts: seq<Action>, t: State)
    requires At(s, w, Dequeuing)
    ensures Leads(s, acts, t)
    ensures t.calls == s.calls && t.stop == s.stop
    ensures match DequeueOutcome(s.q, s.stop.cancelled, pickCtx)
            case Got(req) =>
              && t.q == s.q.(channel := s.q.channel[1..], depth := s.q.depth - 1)
              && t.pool == s.pool.(workers := s.pool.workers[w := Handling(req)])
              && t.log == s.log.(dequeued := s.log.dequeued + [req])
            case DequeueClosed => t == s.(pool := s.pool.(workers := s.pool.workers[w := Leaving(true)]))
            case DequeueCancelled => t == s.(pool := s.pool.(workers := s.pool.workers[w := Leaving(false)]))
            case Blocked => t == s
    ensures match DequeueOutcome(s.q, s.stop.cancelled, pickCtx)
            case Got(_) => acts == [Receive(w), CountDown(w)]
            case DequeueClosed => acts == [ReceiveClosed(w)]
            case DequeueCancelled => acts == [ReceiveCancelled(w)]
            case Blocked =>
              acts == [] && !Enabled(s, Receive(w)) && !Enabled(s, ReceiveClosed(w)) && !Enabled(s, ReceiveCancelled(w))
  {
    assert Leads(s, [], s);
    hide Leads;
    match DequeueOutcome(s.q, s.stop.cancelled, pickCtx) {
      case Got(req) => acts, t := ReceiveIsARun(s, w);
      case DequeueClosed => acts, t := Extend(s, [], s, ReceiveClosed(w));
      case DequeueCancelled => acts, t := Extend(s, [], s, ReceiveCancelled(w));
      case Blocked => acts, t := [], s;
    }
  }

  lemma ReceiveIsARun(s: State, w: nat) returns (acts: seq<Action>, t: State)
    requires At(s, w, Dequeuing) && s.q.channel != []
    ensures Leads(s, acts, t) && acts == [Receive(w), CountDown(w)]
    ensures var req := s.q.channel[0];
            t == s.(q := s.q.(channel := s.q.channel[1..], depth := s.q.depth - 1),
                    pool := s.pool.(workers := s.pool.workers[w := Handling(req)]),
                    log := s.log.(dequeued := s.log.dequeued + [req]))
  {
    assert Leads(s, [], s);
    hide Leads;
    var req := s.q.channel[0];
    acts, t := Extend(s, [], s, Receive(w));
    acts, t := Extend(s, acts, t, CountDown(w));
    assert s.pool.workers[w := Received(req)][w := Handling(req)] == s.pool.workers[w := Handling(req)];
  }

  lemma CloseIsARun(s: State) returns (acts: seq<Action>, t: State)
    requires !s.q.writeLocked && s.q.closed == s.q.channelClosed
    ensures Leads(s, acts, t) && t == s.(q := s.q.(closed := true, channelClosed := true))
  {
    acts, t := Extend(s, [], s, CloseBegin);
    if !s.q.closed {
      acts, t := Extend(s, acts, t, CloseEnd);
    }
  }
}
