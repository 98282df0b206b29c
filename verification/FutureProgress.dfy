/** Every submitted function is run and every waiter that asks gets its outcome, as long as the pool is not stopped. */
module FutureProgress {
  import opened Options
  import opened Counting
  import Pool = PoolProtocol
  import opened FutureProtocol

  /** A step that is neither a new submission, nor a spurious wakeup, nor the end of the pool. */
  predicate Quiet<R>(x: Action<R>) {
    match x
    case Submit(_) => false
    case WakeGetter(_) => false
    case PoolStep(y) => Pool.Quiet(y)
    case _ => true
  }

  /** A step with which somebody starts to wait. */
  predicate Begins<R>(x: Action<R>) { x.Ask? || x.CallGet? }

  /** How many accesses a worker has left before its task is complete; the notification may wake somebody up. */
  function BodyWeight<R>(b: Body<R>): nat {
    match b
    case Started => 8
    case Returned(_) => 6
    case ValueStored => 4
    case GetterNotified => 2
    case EventWritten => 0
  }

  /** How many steps a waiter has left. */
  function WaiterWeight<R>(w: Waiter<R>): nat {
    match w
    case NotAsked => 5
    case Reading => 4
    case Granted(_) => 3
    case Getting => 2
    case Blocked => 1
    case Got(_) => 0
  }

  function Waits<R>(calls: seq<Call<R>>): nat {
    if calls == [] then 0 else Waits(calls[..|calls| - 1]) + WaiterWeight(calls[|calls| - 1].waiter)
  }

  lemma {:induction false} WaitsAfter<R>(calls: seq<Call<R>>, i: nat, c: Call<R>)
    requires i < |calls|
    ensures Waits(calls[i := c]) + WaiterWeight(calls[i].waiter) == Waits(calls) + WaiterWeight(c.waiter)
    decreases |calls|
  {
    var n := |calls| - 1;
    if i < n {
      WaitsAfter(calls[..n], i, c);
      assert calls[i := c][..n] == calls[..n][i := c];
    } else {
      assert calls[i := c][..n] == calls[..n];
    }
  }

  /** A step of the pool is worth all the accesses that a task taken from the queue brings. */
  ghost function Effort<R>(s: State<R>): nat {
    9 * Pool.Effort(s.pool) + Total(s.bodies, BodyWeight) + Waits(s.calls)
  }

  lemma PoolStepEffort<R>(s: State<R>, y: Pool.Action<Id>)
    requires Sound(s) && s.pool.running && CanStep(s, PoolStep(y)) && Pool.Quiet(y)
    ensures Step(s, PoolStep(y)).Some? && Effort(Step(s, PoolStep(y)).value) < Effort(s)
  {
    Pool.EffortFalls(s.pool, y);
    hide Pool.Effort, Pool.Step, Pool.CanStep, Sound;
    var t := Step(s, PoolStep(y)).value;
    if y.Take? { TotalStore(s.bodies, y.w, Started, BodyWeight); }
    if y.Enqueue? && s.pool.pushers[y.p].task < |s.calls| {
      var id := s.pool.pushers[y.p].task;
      WaitsAfter(s.calls, id, t.calls[id]);
    }
  }

  lemma WorkerStepEffort<R>(s: State<R>, x: Action<R>)
    requires CanStep(s, x) && (x.Invoke? || x.StoreValue? || x.NotifyGetter? || x.WriteEvent?) && Step(s, x).Some?
    ensures Effort(Step(s, x).value) < Effort(s) && Step(s, x).value.pool == s.pool
  {
    var t, id := Step(s, x).value, TaskOf(s, x.w).value;
    TotalStore(s.bodies, x.w, t.bodies[x.w], BodyWeight);
    WaitsAfter(s.calls, id, t.calls[id]);
  }

  lemma WaiterStepEffort<R>(s: State<R>, x: Action<R>)
    requires CanStep(s, x) && OfWaiter(x) && !x.WakeGetter? && Step(s, x).Some?
    ensures Effort(Step(s, x).value) < Effort(s) && Step(s, x).value.pool == s.pool
  {
    WaitsAfter(s.calls, x.id, Step(s, x).value.calls[x.id]);
  }

  lemma EffortFalls<R>(s: State<R>, x: Action<R>)
    requires Sound(s) && s.pool.running && CanStep(s, x) && Quiet(x)
    ensures Step(s, x).Some? && Effort(Step(s, x).value) < Effort(s)
    ensures Step(s, x).value.pool.running && Step(s, x).value.pool.workers.Keys == s.pool.workers.Keys
  {
    StepKeepsSound(s, x);
    if x.PoolStep? {
      PoolStepEffort(s, x.x);
      Pool.EffortFalls(s.pool, x.x);
    } else if OfWaiter(x) {
      WaiterStepEffort(s, x);
    } else {
      WorkerStepEffort(s, x);
    }
  }

  /** A worker that executes a task can always go on with it; r is what its function returns, if it has not yet. */
  lemma ExecutorCanStep<R>(s: State<R>, w: Id, r: R) returns (x: Action<R>)
    requires Sound(s) && w in s.pool.workers && s.pool.workers[w].Executing?
    ensures CanStep(s, x) && Quiet(x) && !Begins(x)
  {
    ExecutedCall(s, w);
    x := match s.bodies[w]
         case Started => Invoke(w, r)
         case Returned(_) => StoreValue(w)
         case ValueStored => NotifyGetter(w)
         case GetterNotified => WriteEvent(w)
         case EventWritten => PoolStep(Pool.Complete(w));
  }

  /** A waiter of a call that is over can go on as long as it has not got its result. */
  lemma WaiterCanStep<R>(s: State<R>, id: Id) returns (x: Action<R>)
    requires id < |s.calls| && Delivered(s.calls[id]) && WaiterSound(s.calls[id])
    requires !s.calls[id].waiter.NotAsked? && !s.calls[id].waiter.Got?
    ensures CanStep(s, x) && Quiet(x) && !Begins(x)
  {
    x := if s.calls[id].waiter.Reading? then Grant(id)
         else if s.calls[id].waiter.Granted? then CheckCount(id) else Get(id);
  }

  lemma PoolCanStep<R>(s: State<R>, y: Pool.Action<Id>) returns (x: Action<R>)
    requires Pool.CanStep(s.pool, y) && Pool.Quiet(y) && !y.Complete?
    ensures CanStep(s, x) && Quiet(x) && !Begins(x)
  {
    x := PoolStep(y);
  }

  lemma NobodyExecutes<R>(s: State<R>, w: Id, r: R)
    requires Sound(s) && forall x :: CanStep(s, x) && Quiet(x) ==> Begins(x)
    ensures w in s.pool.workers ==> !s.pool.workers[w].Executing?
  {
    if w in s.pool.workers && s.pool.workers[w].Executing? {
      var _ := ExecutorCanStep(s, w, r);
    }
  }

  lemma PoolIsStuck<R>(s: State<R>, r: R)
    requires Sound(s) && s.pool.running && s.pool.workers != map[]
    requires forall x :: CanStep(s, x) && Quiet(x) ==> Begins(x)
    ensures s.pool.tasks == [] && s.pool.pushers == map[]
  {
    forall y | Pool.CanStep(s.pool, y) ensures !Pool.Quiet(y) {
      if y.Complete? {
        NobodyExecutes(s, y.w, r);
      } else if Pool.Quiet(y) {
        var _ := PoolCanStep(s, y);
      }
    }
    Pool.StuckPool(s.pool);
  }

  /** When nothing can go on, every function has run, and everybody who waits has its outcome. */
  lemma StalledIsDone<R>(s: State<R>, id: Id, r: R)
    requires Sound(s) && s.pool.running && s.pool.workers != map[] && id < |s.calls|
    requires forall x :: CanStep(s, x) && Quiet(x) ==> Begins(x)
    ensures s.calls[id].outcome.Some? && s.calls[id].value == s.calls[id].outcome
    ensures s.calls[id].waiter.NotAsked? || s.calls[id].waiter == Got(s.calls[id].outcome.value)
  {
    PoolIsStuck(s, r);
    assert OriginSound(s, id) && CallSound(s, id) && WaiterSoundAt(s, id);
    var n := s.calls[id].origin.place;
    assert |s.pool.removed| == |s.pool.pushed|;
    NobodyExecutes(s, s.pool.removed[n].worker, r);
    assert Delivered(s.calls[id]);
    if !s.calls[id].waiter.NotAsked? && !s.calls[id].waiter.Got? {
      var _ := WaiterCanStep(s, id);
    }
  }

  /**
   Every run of a pool that is not stopped, without new submissions and spurious wakeups, is finite, with a bound known
   from its start; and when it cannot go on, unless somebody begins to wait, every function has run and everybody who
   waits, in the event loop or in get, has got the outcome of its own function.
   */
  lemma {:induction false} EveryoneIsServed<R>(s: State<R>, xs: seq<Action<R>>, r: R)
    requires Sound(s) && s.pool.running && s.pool.workers != map[] && CanRun(s, xs)
    requires forall i :: 0 <= i < |xs| ==> Quiet(xs[i])
    ensures Run(s, xs).Some? && |xs| <= Effort(s)
    ensures var t := Run(s, xs).value;
            (forall x :: CanStep(t, x) && Quiet(x) ==> Begins(x)) ==>
              forall id :: 0 <= id < |t.calls| ==>
                && t.calls[id].outcome.Some? && t.calls[id].value == t.calls[id].outcome
                && (t.calls[id].waiter.NotAsked? || t.calls[id].waiter == Got(t.calls[id].outcome.value))
    decreases |xs|
  {
    hide Effort, Step, Sound, CanStep;
    if xs == [] {
      if forall x :: CanStep(s, x) && Quiet(x) ==> Begins(x) {
        forall id: Id | id < |s.calls|
          ensures s.calls[id].outcome.Some? && s.calls[id].value == s.calls[id].outcome
          ensures s.calls[id].waiter.NotAsked? || s.calls[id].waiter == Got(s.calls[id].outcome.value)
        {
          StalledIsDone(s, id, r);
        }
      }
    } else {
      EffortFalls(s, xs[0]);
      StepKeepsSound(s, xs[0]);
      var t := Step(s, xs[0]).value;
      assert t.pool.workers != map[] by {
        var w :| w in s.pool.workers;
        assert w in t.pool.workers.Keys;
      }
      EveryoneIsServed(t, xs[1..], r);
    }
  }
}
