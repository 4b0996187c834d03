/** shutdown.Manager: handlers run in goroutines of their own, and Shutdown collects their errors. */
module ShutdownManager {
  import opened Models
  import opened Sums

  /** One handler's goroutine: inside the handler, holding an error it has yet to append, past the append
      but before the deferred Done, and past it. */
  datatype Job =
    | InHandler(h: nat)
    | Failing(h: nat, error: string)
    | Ending(h: nat)
    | Gone(h: nat)

  /** A call of Shutdown.  `snapshot` is what the range over the handlers evaluated to. */
  datatype Caller =
    | NotCalled
    | Claimed
    | Spawning(snapshot: seq<nat>)
    | Waiting
    | Skipped
    | Completed(errorCount: nat)
    | TimedOut

  datatype Manager = Manager(handlers: seq<nat>, shuttingDown: bool, callers: seq<Caller>,
                             snapshot: seq<nat>, jobs: seq<Job>, wg: int, errors: seq<string>, doneClosed: bool)

  datatype Action =
    | Register(h: nat)
    | Enter(k: nat)
    | TakeHandlers(k: nat)
    | Spawn(k: nat)
    | AllSpawned(k: nat)
    | HandlerReturns(j: nat, result: Option<string>)
    | AppendError(j: nat)
    | JobDone(j: nat)
    | WaitDone(k: nat)
    | ReturnDone(k: nat)
    | ReturnTimeout(k: nat)

  function Init(callers: nat): Manager {
    Manager([], false, seq(callers, _ => NotCalled), [], [], 0, [], false)
  }

  predicate Enabled(m: Manager, a: Action) {
    match a
    case Register(_) => true
    case Enter(k) => k < |m.callers| && m.callers[k].NotCalled?
    case TakeHandlers(k) => k < |m.callers| && m.callers[k].Claimed?
    case Spawn(k) => k < |m.callers| && m.callers[k].Spawning? && |m.jobs| < |m.callers[k].snapshot|
    case AllSpawned(k) => k < |m.callers| && m.callers[k].Spawning? && |m.jobs| >= |m.callers[k].snapshot|
    case HandlerReturns(j, _) => j < |m.jobs| && m.jobs[j].InHandler?
    case AppendError(j) => j < |m.jobs| && m.jobs[j].Failing?
    case JobDone(j) => j < |m.jobs| && m.jobs[j].Ending?
    case WaitDone(k) => k < |m.callers| && m.callers[k].Waiting? && m.wg == 0
    case ReturnDone(k) => k < |m.callers| && m.callers[k].Waiting? && m.doneClosed
    case ReturnTimeout(k) => k < |m.callers| && m.callers[k].Waiting?
  }

  /** The flag is tested and set in one critical section, so a second call returns at once. */
  function NextCaller(m: Manager, a: Action): seq<Caller>
    requires Enabled(m, a)
  {
    match a
    case Enter(k) => m.callers[k := if m.shuttingDown then Skipped else Claimed]
    case TakeHandlers(k) => m.callers[k := Spawning(m.handlers)]
    case AllSpawned(k) => m.callers[k := Waiting]
    case ReturnDone(k) => m.callers[k := Completed(|m.errors|)]
    case ReturnTimeout(k) => m.callers[k := TimedOut]
    case _ => m.callers
  }

  /** Where an action takes the goroutine that it moves. */
  function NextJob(m: Manager, a: Action, j: nat): Job
    requires Enabled(m, a) && (a.HandlerReturns? || a.AppendError? || a.JobDone?) && j == a.j
  {
    match a
    case HandlerReturns(_, None) => Ending(m.jobs[j].h)
    case HandlerReturns(_, Some(e)) => Failing(m.jobs[j].h, e)
    case AppendError(_) => Ending(m.jobs[j].h)
    case JobDone(_) => Gone(m.jobs[j].h)
  }

  function NextJobs(m: Manager, a: Action): seq<Job>
    requires Enabled(m, a)
  {
    match a
    case Spawn(k) => m.jobs + [InHandler(m.callers[k].snapshot[|m.jobs|])]
    case HandlerReturns(j, _) => m.jobs[j := NextJob(m, a, j)]
    case AppendError(j) => m.jobs[j := NextJob(m, a, j)]
    case JobDone(j) => m.jobs[j := NextJob(m, a, j)]
    case _ => m.jobs
  }

  function Apply(m: Manager, a: Action): Manager
    requires Enabled(m, a)
  {
    Manager(if a.Register? then m.handlers + [a.h] else m.handlers,
            m.shuttingDown || a.Enter?,
            NextCaller(m, a),
            if a.TakeHandlers? then m.handlers else m.snapshot,
            NextJobs(m, a),
            if a.Spawn? then m.wg + 1 else if a.JobDone? then m.wg - 1 else m.wg,
            if a.AppendError? then m.errors + [m.jobs[a.j].error] else m.errors,
            m.doneClosed || a.WaitDone?)
  }

  predicate Run(m: Manager, acts: seq<Action>)
    decreases |acts|
  {
    acts == [] || (Enabled(m, acts[0]) && Run(Apply(m, acts[0]), acts[1..]))
  }

  function Exec(m: Manager, acts: seq<Action>): Manager
    requires Run(m, acts)
    decreases |acts|
  {
    if acts == [] then m else Exec(Apply(m, acts[0]), acts[1..])
  }

  // ---- Invariants ----

  function IsLive(j: Job): int { if j.Gone? then 0 else 1 }

  /** The error a handler has returned and its goroutine has yet to append. */
  function Held(j: Job): multiset<string> {
    match j
    case Failing(_, e) => multiset{e}
    case _ => multiset{}
  }

  function HeldErrors(js: seq<Job>): multiset<string> {
    if js == [] then multiset{} else HeldErrors(js[..|js| - 1]) + Held(js[|js| - 1])
  }

  predicate Owns(c: Caller) {
    c.Claimed? || c.Spawning? || c.Waiting? || c.Completed? || c.TimedOut?
  }

  predicate PastSpawning(c: Caller) {
    c.Waiting? || c.Completed? || c.TimedOut?
  }

  /** One call gets past the flag, whatever the number of calls, and none before it is set. */
  ghost predicate OneOwner(m: Manager) {
    && (m.shuttingDown ==> exists k :: 0 <= k < |m.callers| && Owns(m.callers[k]))
    && (forall k :: 0 <= k < |m.callers| && !m.callers[k].NotCalled? ==> m.shuttingDown)
    && (forall i, k :: 0 <= i < |m.callers| && 0 <= k < |m.callers| ==>
          Owns(m.callers[i]) && Owns(m.callers[k]) ==> i == k)
  }

  /** The goroutines started so far are those of a prefix of the snapshot, one each and in order. */
  predicate JobsFollow(m: Manager) {
    && |m.jobs| <= |m.snapshot|
    && (forall j :: 0 <= j < |m.jobs| ==> m.jobs[j].h == m.snapshot[j])
  }

  /** How far each call has come with starting them. */
  predicate CallersFollow(m: Manager) {
    && (forall k :: 0 <= k < |m.callers| && m.callers[k].Claimed? ==> m.jobs == [])
    && (forall k :: 0 <= k < |m.callers| && m.callers[k].Spawning? ==> m.callers[k].snapshot == m.snapshot)
    && (forall k :: 0 <= k < |m.callers| && PastSpawning(m.callers[k]) ==> |m.jobs| == |m.snapshot|)
    && (!m.shuttingDown ==> m.jobs == [])
  }

  predicate Started(m: Manager) {
    JobsFollow(m) && CallersFollow(m)
  }

  predicate Counted(m: Manager) {
    m.wg == Sum(m.jobs, IsLive)
  }

  predicate DoneMeansGone(m: Manager) {
    && (m.doneClosed ==> forall j :: 0 <= j < |m.jobs| ==> m.jobs[j].Gone?)
    && (m.doneClosed ==> |m.jobs| == |m.snapshot| && m.shuttingDown)
    && (m.doneClosed ==> forall k :: 0 <= k < |m.callers| ==> !m.callers[k].Claimed? && !m.callers[k].Spawning?)
  }

  predicate CompletedMeansDone(m: Manager) {
    forall k :: 0 <= k < |m.callers| && m.callers[k].Completed? ==>
      m.doneClosed && m.callers[k].errorCount == |m.errors|
  }

  ghost predicate Inv(m: Manager) {
    OneOwner(m) && Started(m) && Counted(m) && DoneMeansGone(m) && CompletedMeansDone(m)
  }

  lemma OneOwnerStep(m: Manager, a: Action)
    requires OneOwner(m) && Enabled(m, a)
    ensures OneOwner(Apply(m, a))
  {
    hide NextJobs;
    var cs := NextCaller(m, a);
    if m.shuttingDown {
      var k :| 0 <= k < |m.callers| && Owns(m.callers[k]);
      assert Owns(cs[k]);
    } else if a.Enter? {
      assert Owns(cs[a.k]);
    }
  }

  lemma JobsStep(m: Manager, a: Action)
    requires Started(m) && Enabled(m, a)
    ensures JobsFollow(Apply(m, a))
  {
    hide NextCaller;
  }

  lemma CallersStep(m: Manager, a: Action)
    requires OneOwner(m) && Started(m) && Enabled(m, a)
    ensures CallersFollow(Apply(m, a))
  {
    hide NextJob;
    var cs := NextCaller(m, a);
    if a.Spawn? || a.TakeHandlers? || a.AllSpawned? {
      assert Owns(m.callers[a.k]);
      assert forall i :: 0 <= i < |m.callers| && Owns(m.callers[i]) ==> i == a.k;
      assert forall i :: 0 <= i < |cs| && i != a.k ==> cs[i] == m.callers[i];
    } else {
      assert |NextJobs(m, a)| == |m.jobs|;
    }
  }

  lemma StartedStep(m: Manager, a: Action)
    requires OneOwner(m) && Started(m) && Enabled(m, a)
    ensures Started(Apply(m, a))
  {
    JobsStep(m, a);
    CallersStep(m, a);
  }

  lemma CountedStep(m: Manager, a: Action)
    requires Counted(m) && Enabled(m, a)
    ensures Counted(Apply(m, a))
  {
    hide NextCaller, Sum;
    if a.Spawn? {
      SumSnoc(m.jobs, InHandler(m.callers[a.k].snapshot[|m.jobs|]), IsLive);
    } else if a.HandlerReturns? || a.AppendError? || a.JobDone? {
      SumUpdate(m.jobs, a.j, NextJob(m, a, a.j), IsLive);
    }
  }

  lemma GoneWhenZero(m: Manager)
    requires Counted(m) && m.wg == 0
    ensures forall j :: 0 <= j < |m.jobs| ==> m.jobs[j].Gone?
  {
    forall j | 0 <= j < |m.jobs| ensures m.jobs[j].Gone? {
      SumSplit(m.jobs, IsLive, j);
    }
  }

  lemma NoneSpawning(m: Manager, k: nat)
    requires OneOwner(m) && k < |m.callers| && m.callers[k].Waiting?
    ensures m.shuttingDown && forall i :: 0 <= i < |m.callers| ==> !m.callers[i].Claimed? && !m.callers[i].Spawning?
  {
    assert Owns(m.callers[k]);
  }

  lemma DoneStep(m: Manager, a: Action)
    requires Inv(m) && Enabled(m, a)
    ensures DoneMeansGone(Apply(m, a))
  {
    hide CompletedMeansDone, Sum;
    if a.WaitDone? {
      GoneWhenZero(m);
      NoneSpawning(m, a.k);
      assert PastSpawning(m.callers[a.k]);
    }
  }

  lemma CompletedStep(m: Manager, a: Action)
    requires DoneMeansGone(m) && CompletedMeansDone(m) && Enabled(m, a)
    ensures CompletedMeansDone(Apply(m, a))
  {
  }

  lemma InvStep(m: Manager, a: Action)
    requires Inv(m) && Enabled(m, a)
    ensures Inv(Apply(m, a))
  {
    OneOwnerStep(m, a);
    StartedStep(m, a);
    CountedStep(m, a);
    DoneStep(m, a);
    CompletedStep(m, a);
  }

  lemma {:induction false} InvRun(m: Manager, acts: seq<Action>)
    requires Inv(m) && Run(m, acts)
    ensures Inv(Exec(m, acts))
    decreases |acts|
  {
    if acts != [] {
      InvStep(m, acts[0]);
      InvRun(Apply(m, acts[0]), acts[1..]);
    }
  }

  // ---- What a schedule says by itself ----

  /** The errors that handlers return in a schedule. */
  function ErrorsReturned(acts: seq<Action>): multiset<string> {
    if acts == [] then multiset{} else ErrorReturned(acts[0]) + ErrorsReturned(acts[1..])
  }

  function ErrorReturned(a: Action): multiset<string> {
    if a.HandlerReturns? && a.result.Some? then multiset{a.result.value} else multiset{}
  }

  /** How often handler goroutine j returns in a schedule. */
  function Returns(acts: seq<Action>, j: nat): nat {
    if acts == [] then 0 else (if acts[0].HandlerReturns? && acts[0].j == j then 1 else 0) + Returns(acts[1..], j)
  }

  /** The handlers registered when Shutdown comes to its loop over them. */
  function Found(registered: seq<nat>, acts: seq<Action>): seq<nat>
    decreases |acts|
  {
    if acts == [] then []
    else if acts[0].TakeHandlers? then registered
    else Found(if acts[0].Register? then registered + [acts[0].h] else registered, acts[1..])
  }

  lemma {:induction false} HeldUpdate(js: seq<Job>, i: nat, v: Job)
    requires i < |js|
    ensures HeldErrors(js[i := v]) + Held(js[i]) == HeldErrors(js) + Held(v)
  {
    hide Held;
    var n := |js| - 1;
    if i == n {
      assert js[i := v][..n] == js[..n];
      Swap(HeldErrors(js[..n]), Held(v), Held(js[n]));
    } else {
      HeldUpdate(js[..n], i, v);
      assert js[i := v][..n] == js[..n][i := v];
      Swap(HeldErrors(js[..n][i := v]), Held(js[n]), Held(js[i]));
      Swap(HeldErrors(js[..n]), Held(v), Held(js[n]));
    }
  }

  lemma Swap<T>(a: multiset<T>, b: multiset<T>, c: multiset<T>)
    ensures (a + b) + c == (a + c) + b
  {
  }

  lemma HeldSnoc(js: seq<Job>, j: Job)
    ensures HeldErrors(js + [j]) == HeldErrors(js) + Held(j)
  {
    assert (js + [j])[..|js|] == js;
  }

  lemma {:induction false} NoneHeld(js: seq<Job>)
    requires forall j :: 0 <= j < |js| ==> js[j].Gone?
    ensures HeldErrors(js) == multiset{}
  {
    if js != [] {
      NoneHeld(js[..|js| - 1]);
    }
  }

  lemma HeldStep(m: Manager, a: Action)
    requires Enabled(m, a)
    ensures HeldErrors(NextJobs(m, a)) + (if a.AppendError? then multiset{m.jobs[a.j].error} else multiset{}) ==
            HeldErrors(m.jobs) + ErrorReturned(a)
  {
    hide HeldErrors, NextCaller;
    if a.Spawn? {
      HeldSnoc(m.jobs, InHandler(m.callers[a.k].snapshot[|m.jobs|]));
    } else if a.HandlerReturns? || a.AppendError? || a.JobDone? {
      HeldUpdate(m.jobs, a.j, NextJob(m, a, a.j));
    }
  }

  lemma ErrorsStep(m: Manager, a: Action)
    requires Enabled(m, a)
    ensures multiset(Apply(m, a).errors) ==
            multiset(m.errors) + (if a.AppendError? then multiset{m.jobs[a.j].error} else multiset{})
  {
    hide NextCaller, NextJobs;
  }

  /** No error is lost or made up on the way from a handler to the slice, whatever the interleaving. */
  lemma {:induction false} ErrorsConserved(m: Manager, acts: seq<Action>)
    requires Run(m, acts)
    ensures multiset(Exec(m, acts).errors) + HeldErrors(Exec(m, acts).jobs) ==
            multiset(m.errors) + HeldErrors(m.jobs) + ErrorsReturned(acts)
    decreases |acts|
  {
    hide HeldErrors;
    if acts != [] {
      var a, next := acts[0], Apply(m, acts[0]);
      ErrorsConserved(next, acts[1..]);
      HeldStep(m, a);
      ErrorsStep(m, a);
      Reassociate(multiset(m.errors), HeldErrors(m.jobs), ErrorReturned(a), ErrorsReturned(acts[1..]),
                  if a.AppendError? then multiset{m.jobs[a.j].error} else multiset{}, HeldErrors(next.jobs));
    }
  }

  lemma Reassociate<T>(errors: multiset<T>, held: multiset<T>, one: multiset<T>, more: multiset<T>,
                       appended: multiset<T>, held': multiset<T>)
    requires held' + appended == held + one
    ensures ((errors + appended) + held') + more == (errors + held) + (one + more)
  {
    assert (errors + appended) + held' == errors + (held' + appended);
  }

  predicate HasReturned(m: Manager, j: nat) {
    j < |m.jobs| && !m.jobs[j].InHandler?
  }

  lemma ReturnsStep(m: Manager, a: Action, j: nat)
    requires Enabled(m, a)
    ensures HasReturned(Apply(m, a), j) <==> HasReturned(m, j) || (a.HandlerReturns? && a.j == j)
    ensures a.HandlerReturns? && a.j == j ==> !HasReturned(m, j)
  {
    hide NextCaller;
  }

  /** Each goroutine's handler is called once: it returns once at the most. */
  lemma {:induction false} ReturnsOnce(m: Manager, acts: seq<Action>, j: nat)
    requires Run(m, acts)
    ensures (if HasReturned(m, j) then 1 else 0) + Returns(acts, j) == if HasReturned(Exec(m, acts), j) then 1 else 0
    decreases |acts|
  {
    if acts != [] {
      ReturnsStep(m, acts[0], j);
      ReturnsOnce(Apply(m, acts[0]), acts[1..], j);
    }
  }

  ghost predicate Taken(m: Manager) {
    exists k :: 0 <= k < |m.callers| && (m.callers[k].Spawning? || PastSpawning(m.callers[k]))
  }

  lemma TakenStep(m: Manager, a: Action)
    requires OneOwner(m) && Enabled(m, a)
    ensures Taken(m) ==> Taken(Apply(m, a)) && Apply(m, a).snapshot == m.snapshot
    ensures Taken(Apply(m, a)) ==> Taken(m) || a.TakeHandlers?
    ensures a.TakeHandlers? ==> Taken(Apply(m, a))
  {
    hide NextJobs;
    var cs := NextCaller(m, a);
    if Taken(m) {
      var k :| 0 <= k < |m.callers| && (m.callers[k].Spawning? || PastSpawning(m.callers[k]));
      assert Owns(m.callers[k]);
      assert cs[k].Spawning? || PastSpawning(cs[k]);
    } else if a.TakeHandlers? {
      assert cs[a.k].Spawning?;
    }
  }

  lemma {:induction false} SnapshotStays(m: Manager, acts: seq<Action>)
    requires Inv(m) && Taken(m) && Run(m, acts)
    ensures Exec(m, acts).snapshot == m.snapshot
    decreases |acts|
  {
    if acts != [] {
      InvStep(m, acts[0]);
      TakenStep(m, acts[0]);
      SnapshotStays(Apply(m, acts[0]), acts[1..]);
    }
  }

  /** The handlers that are run are those registered before the loop, in the order of registration. */
  lemma {:induction false} SnapshotIsFound(m: Manager, acts: seq<Action>)
    requires Inv(m) && !Taken(m) && m.snapshot == [] && Run(m, acts)
    ensures Exec(m, acts).snapshot == Found(m.handlers, acts)
    decreases |acts|
  {
    if acts != [] {
      var next := Apply(m, acts[0]);
      InvStep(m, acts[0]);
      TakenStep(m, acts[0]);
      if acts[0].TakeHandlers? {
        SnapshotStays(next, acts[1..]);
      } else {
        SnapshotIsFound(next, acts[1..]);
      }
    }
  }

  // ---- Theorems ----

  /** Over any number of overlapping calls of Shutdown exactly one runs the handlers, once there has been a
      call; and it starts the handlers it found, in order and each in one goroutine of its own. */
  lemma HandlersStartOnce(callers: nat, acts: seq<Action>, i: nat, k: nat)
    requires Run(Init(callers), acts)
    requires var m := Exec(Init(callers), acts); i < |m.callers| && k < |m.callers|
    ensures var m := Exec(Init(callers), acts);
            && (Owns(m.callers[i]) && Owns(m.callers[k]) ==> i == k)
            && (!m.callers[i].NotCalled? ==> exists o :: 0 <= o < |m.callers| && Owns(m.callers[o]))
            && |m.jobs| <= |Found([], acts)|
            && (forall j :: 0 <= j < |m.jobs| ==> m.jobs[j].h == Found([], acts)[j])
            && (forall j :: 0 <= j < |m.jobs| ==> Returns(acts, j) <= 1)
  {
    InvRun(Init(callers), acts);
    SnapshotIsFound(Init(callers), acts);
    var m := Exec(Init(callers), acts);
    forall j | 0 <= j < |m.jobs| ensures Returns(acts, j) <= 1 {
      ReturnsOnce(Init(callers), acts, j);
    }
  }

  /** When Shutdown returns through its done branch, every handler it found registered has run to its end and
      returned once, and the errors it counts are exactly those that the handlers returned. */
  lemma CompletedCollectsAllErrors(callers: nat, acts: seq<Action>, k: nat)
    requires Run(Init(callers), acts)
    requires var m := Exec(Init(callers), acts); k < |m.callers| && m.callers[k].Completed?
    ensures var m := Exec(Init(callers), acts);
            && |m.jobs| == |Found([], acts)|
            && (forall j :: 0 <= j < |m.jobs| ==> m.jobs[j] == Gone(Found([], acts)[j]) && Returns(acts, j) == 1)
            && multiset(m.errors) == ErrorsReturned(acts)
            && m.callers[k].errorCount == |m.errors|
  {
    InvRun(Init(callers), acts);
    SnapshotIsFound(Init(callers), acts);
    AllErrorsCollected(callers, acts, k);
    AllReturnedOnce(callers, acts, k);
  }

  lemma AllErrorsCollected(callers: nat, acts: seq<Action>, k: nat)
    requires Run(Init(callers), acts)
    requires var m := Exec(Init(callers), acts); k < |m.callers| && m.callers[k].Completed?
    ensures multiset(Exec(Init(callers), acts).errors) == ErrorsReturned(acts)
  {
    InvRun(Init(callers), acts);
    ErrorsConserved(Init(callers), acts);
    var m := Exec(Init(callers), acts);
    NoneHeld(m.jobs);
    NothingElse(Init(callers).errors, HeldErrors(Init(callers).jobs), multiset(m.errors), HeldErrors(m.jobs),
                ErrorsReturned(acts));
  }

  lemma NothingElse<T>(none: seq<T>, before: multiset<T>, all: multiset<T>, after: multiset<T>, returned: multiset<T>)
    requires none == [] && before == after == multiset{}
    requires all + after == multiset(none) + before + returned
    ensures all == returned
  {
    assert all + after == all && multiset(none) + before == multiset{};
  }

  lemma AllReturnedOnce(callers: nat, acts: seq<Action>, k: nat)
    requires Run(Init(callers), acts)
    requires var m := Exec(Init(callers), acts); k < |m.callers| && m.callers[k].Completed?
    ensures forall j :: 0 <= j < |Exec(Init(callers), acts).jobs| ==> Returns(acts, j) == 1
  {
    InvRun(Init(callers), acts);
    forall j | 0 <= j < |Exec(Init(callers), acts).jobs| ensures Returns(acts, j) == 1 {
      ReturnsOnce(Init(callers), acts, j);
    }
  }

  /** The call that runs the handlers is never stuck: it, its waiter or a handler's goroutine can move, and a
      handler may return with or without an error. */
  lemma ShutdownCanMove(m: Manager, k: nat) returns (a: Action)
    requires Inv(m) && k < |m.callers| && (m.callers[k].Claimed? || m.callers[k].Spawning? || m.callers[k].Waiting?)
    ensures Enabled(m, a) && !a.ReturnTimeout? && !a.Register? && !a.Enter?
    ensures a.HandlerReturns? ==> forall result :: Enabled(m, HandlerReturns(a.j, result))
  {
    if m.callers[k].Claimed? {
      a := TakeHandlers(k);
    } else if m.callers[k].Spawning? {
      a := if |m.jobs| < |m.callers[k].snapshot| then Spawn(k) else AllSpawned(k);
    } else if m.doneClosed {
      a := ReturnDone(k);
    } else if m.wg == 0 {
      a := WaitDone(k);
    } else {
      if forall j :: 0 <= j < |m.jobs| ==> m.jobs[j].Gone? {
        SumZero(m.jobs, IsLive);
      }
      var j :| 0 <= j < |m.jobs| && !m.jobs[j].Gone?;
      a := match m.jobs[j]
           case InHandler(_) => HandlerReturns(j, None)
           case Failing(_, _) => AppendError(j)
           case Ending(_) => JobDone(j);
    }
  }
}
