/**
 The thread pool: any number of workers and of calls to push, a mutex, a condition variable with spurious
 wakeups, and the two unlocked accesses of the destructor. One step is one access to shared state; what a
 thread does while it holds the mutex is split wherever the atomic flag can change in between.
 */
module PoolProtocol {
  import opened Options
  import opened Counting

  type Id = nat

  /** Where a worker is in its loop. */
  datatype Worker =
    | Testing                        // at the loop condition
    | Locking
    | Deciding                       // holds the mutex, about to evaluate the wait condition
    | Blocking                       // holds the mutex, the wait condition was false
    | Asleep                         // on the condition variable, mutex released
    | Awoken                         // about to take the mutex back
    | Reloading                      // holds the mutex, the wait condition was true
    | Taking                         // holds the mutex, running was true
    | Executing(position: nat)       // a task, by its place in the order of removal
    | Finished
  {
    predicate Holds() { Deciding? || Blocking? || Reloading? || Taking? }

    /** Awake, and going to look at the queue again before it can sleep. */
    predicate Looking() { !Asleep? && !Executing? && !Finished? }
  }

  /** Where a call to push is. */
  datatype Pusher<T> = Entering(task: T) | Holding(task: T) | Notifying

  datatype Owner = Nobody | HeldByWorker(w: Id) | HeldByPusher(p: Id)

  /** Where the destructor is. */
  datatype Stop = NotStopping | Stored | NotifiedAll

  datatype Removal<T> = Removal(worker: Id, task: T)

  datatype State<T> = State(
    running: bool, stop: Stop, mutex: Owner, tasks: seq<T>,
    workers: map<Id, Worker>, pushers: map<Id, Pusher<T>>,
    pushed: seq<T>, removed: seq<Removal<T>>)      // history

  datatype Action<T> =
    | Test(w: Id) | Lock(w: Id) | Decide(w: Id) | Block(w: Id) | Wake(w: Id) | Relock(w: Id)
    | Reload(w: Id) | Take(w: Id) | Complete(w: Id)
    | CallPush(p: Id, task: T) | LockPush(p: Id) | Enqueue(p: Id) | NotifyOne(p: Id, woken: Id)
    | StoreStop | NotifyAll

  predicate At<T>(s: State<T>, w: Id, at: Worker) { w in s.workers && s.workers[w] == at }

  predicate CanStep<T>(s: State<T>, x: Action<T>) {
    match x
    case Test(w) => At(s, w, Testing)
    case Lock(w) => At(s, w, Locking) && s.mutex == Nobody
    case Decide(w) => At(s, w, Deciding)
    case Block(w) => At(s, w, Blocking)
    case Wake(w) => At(s, w, Asleep)
    case Relock(w) => At(s, w, Awoken) && s.mutex == Nobody
    case Reload(w) => At(s, w, Reloading)
    case Take(w) => At(s, w, Taking)
    case Complete(w) => w in s.workers && s.workers[w].Executing?
    case CallPush(p, _) => p !in s.pushers
    case LockPush(p) => p in s.pushers && s.pushers[p].Entering? && s.mutex == Nobody
    case Enqueue(p) => p in s.pushers && s.pushers[p].Holding?
    case NotifyOne(p, w) => p in s.pushers && s.pushers[p].Notifying?
                            && (At(s, w, Asleep) || forall v :: v in s.workers ==> !At(s, v, Asleep))
    case StoreStop => s.stop == NotStopping
    case NotifyAll => s.stop == Stored
  }

  function Move<T>(s: State<T>, w: Id, at: Worker): State<T> {
    s.(workers := s.workers[w := at])
  }

  function Acquire<T>(s: State<T>, w: Id, at: Worker): State<T> {
    Move(s, w, at).(mutex := HeldByWorker(w))
  }

  function Release<T>(s: State<T>, w: Id, at: Worker): State<T> {
    Move(s, w, at).(mutex := Nobody)
  }

  /** One step; None where `front` is called on an empty queue. */
  function Step<T>(s: State<T>, x: Action<T>): Option<State<T>>
    requires CanStep(s, x)
  {
    match x
    case Test(w) => Some(Move(s, w, if s.running then Locking else Finished))
    case Lock(w) => Some(Acquire(s, w, Deciding))
    case Decide(w) => Some(Move(s, w, if s.tasks != [] || !s.running then Reloading else Blocking))
    case Block(w) => Some(Release(s, w, Asleep))
    case Wake(w) => Some(Move(s, w, Awoken))
    case Relock(w) => Some(Acquire(s, w, Deciding))
    case Reload(w) => Some(if s.running then Move(s, w, Taking) else Release(s, w, Testing))
    case Take(w) =>
      if s.tasks == [] then None
      else Some(Release(s, w, Executing(|s.removed|)).(
                  tasks := s.tasks[1..], removed := s.removed + [Removal(w, s.tasks[0])]))
    case Complete(w) => Some(Move(s, w, Testing))
    case CallPush(p, task) => Some(s.(pushers := s.pushers[p := Entering(task)]))
    case LockPush(p) => Some(s.(pushers := s.pushers[p := Holding(s.pushers[p].task)], mutex := HeldByPusher(p)))
    case Enqueue(p) =>
      var task := s.pushers[p].task;
      Some(s.(pushers := s.pushers[p := Notifying], mutex := Nobody,
              tasks := s.tasks + [task], pushed := s.pushed + [task]))
    case NotifyOne(p, w) =>
      var t := s.(pushers := s.pushers - {p});
      Some(if At(s, w, Asleep) then Move(t, w, Awoken) else t)
    case StoreStop => Some(s.(running := false, stop := Stored))
    case NotifyAll =>
      Some(s.(stop := NotifiedAll,
              workers := map w | w in s.workers :: if s.workers[w].Asleep? then Awoken else s.workers[w]))
  }

  predicate CanRun<T>(s: State<T>, xs: seq<Action<T>>)
    decreases |xs|
  {
    xs == [] || (CanStep(s, xs[0]) && (Step(s, xs[0]).Some? ==> CanRun(Step(s, xs[0]).value, xs[1..])))
  }

  function Run<T>(s: State<T>, xs: seq<Action<T>>): Option<State<T>>
    requires CanRun(s, xs)
    decreases |xs|
  {
    if xs == [] then Some(s)
    else if Step(s, xs[0]).None? then None
    else Run(Step(s, xs[0]).value, xs[1..])
  }

  /** A pool as its constructor leaves it: at least one worker. */
  ghost predicate Fresh<T>(s: State<T>) {
    && s.running && s.stop == NotStopping && s.mutex == Nobody && s.tasks == [] && s.pushed == [] && s.removed == []
    && s.pushers == map[] && s.workers != map[] && forall w :: w in s.workers ==> s.workers[w] == Testing
  }

  // ----- What every step keeps -----

  function TasksOf<T>(removed: seq<Removal<T>>): seq<T> {
    seq(|removed|, i requires 0 <= i < |removed| => removed[i].task)
  }

  predicate WorkerSound<T>(s: State<T>, w: Id) {
    w in s.workers ==>
      && (s.workers[w].Holds() <==> s.mutex == HeldByWorker(w))
      && (s.workers[w].Blocking? ==> s.tasks == [])
      && (s.workers[w].Reloading? ==> s.tasks != [] || !s.running)
      && (s.workers[w].Taking? ==> s.tasks != [])
      && (s.workers[w].Executing? ==>
            s.workers[w].position < |s.removed| && s.removed[s.workers[w].position].worker == w)
      && (s.workers[w].Finished? ==> !s.running)
  }

  predicate PusherSound<T>(s: State<T>, p: Id) {
    p in s.pushers ==> (s.pushers[p].Holding? <==> s.mutex == HeldByPusher(p))
  }

  predicate IsNotifying<T>(p: Pusher<T>) { p.Notifying? }
  predicate IsLooking(w: Worker) { w.Looking() }

  function Notifiers<T>(s: State<T>): nat { Count(s.pushers, IsNotifying) }
  function Lookers<T>(s: State<T>): nat { Count(s.workers, IsLooking) }

  /** While the pool runs and someone sleeps, every queued task has a wakeup or an awake worker to come. */
  predicate Covered<T>(s: State<T>) {
    |s.tasks| <= Notifiers(s) + Lookers(s)
  }

  predicate Sleeping<T>(s: State<T>, w: Id) { At(s, w, Asleep) }

  ghost predicate Sound<T>(s: State<T>) {
    && s.pushed == TasksOf(s.removed) + s.tasks
    && (s.running <==> s.stop == NotStopping)
    && (s.mutex.HeldByWorker? ==> s.mutex.w in s.workers) && (s.mutex.HeldByPusher? ==> s.mutex.p in s.pushers)
    && (forall w: Id {:trigger WorkerSound(s, w)} :: WorkerSound(s, w))
    && (forall p: Id {:trigger PusherSound(s, p)} :: PusherSound(s, p))
    && (s.running ==> forall w: Id {:trigger Sleeping(s, w)} :: Sleeping(s, w) ==> Covered(s))
  }

  // ----- Steps of workers -----

  lemma MoveCounts<T>(s: State<T>, w: Id, at: Worker)
    requires w in s.workers
    ensures Lookers(Move(s, w, at)) + One(s.workers[w].Looking()) == Lookers(s) + One(at.Looking())
    ensures Notifiers(Move(s, w, at)) == Notifiers(s)
  {
    CountStore(s.workers, w, at, IsLooking);
  }

  /** A step of one worker that leaves the queue alone. */
  predicate LeavesQueue<T>(x: Action<T>) {
    x.Test? || x.Lock? || x.Decide? || x.Block? || x.Wake? || x.Relock? || x.Reload? || x.Complete?
  }

  lemma WorkerStepKeepsCovered<T>(s: State<T>, x: Action<T>, v: Id)
    requires Sound(s) && CanStep(s, x) && LeavesQueue(x)
    ensures Step(s, x).Some?
    ensures var t := Step(s, x).value; t.running && Sleeping(t, v) ==> Covered(t)
  {
    var t := Step(s, x).value;
    assert WorkerSound(s, x.w) && (Sleeping(s, v) ==> Covered(s) || !s.running);
    hide Sound;
    MoveCounts(s, x.w, t.workers[x.w]);
  }

  lemma WorkerStepKeepsSound<T>(s: State<T>, x: Action<T>)
    requires Sound(s) && CanStep(s, x) && LeavesQueue(x)
    ensures Step(s, x).Some? && Sound(Step(s, x).value)
  {
    var t := Step(s, x).value;
    assert WorkerSound(s, x.w);
    forall v: Id ensures t.running && Sleeping(t, v) ==> Covered(t) { WorkerStepKeepsCovered(s, x, v); }
    hide Covered;
    forall v: Id ensures WorkerSound(t, v) { assert WorkerSound(s, v); }
    forall p: Id ensures PusherSound(t, p) { assert PusherSound(s, p); }
  }

  lemma TakeKeepsSound<T>(s: State<T>, w: Id)
    requires Sound(s) && CanStep(s, Take(w))
    ensures Step(s, Take(w)).Some? && Sound(Step(s, Take(w)).value)
  {
    assert WorkerSound(s, w);
    var t := Step(s, Take(w)).value;
    MoveCounts(s, w, t.workers[w]);
    TasksAfterTake(s.removed, s.tasks, w);
    forall v: Id ensures WorkerSound(t, v) { assert WorkerSound(s, v); }
    forall p: Id ensures PusherSound(t, p) { assert PusherSound(s, p); }
    forall v: Id | t.running && Sleeping(t, v) ensures Covered(t) { assert Sleeping(s, v) ==> Covered(s); }
  }

  lemma TasksAfterTake<T>(removed: seq<Removal<T>>, tasks: seq<T>, w: Id)
    requires tasks != []
    ensures TasksOf(removed + [Removal(w, tasks[0])]) + tasks[1..] == TasksOf(removed) + tasks
  {
    var longer := removed + [Removal(w, tasks[0])];
    assert TasksOf(longer) == TasksOf(removed) + [tasks[0]];
  }

  // ----- Steps of push -----

  lemma PushStepKeepsSound<T>(s: State<T>, x: Action<T>)
    requires Sound(s) && CanStep(s, x) && (x.CallPush? || x.LockPush? || x.Enqueue?)
    ensures Step(s, x).Some? && Sound(Step(s, x).value)
  {
    var t := Step(s, x).value;
    assert PusherSound(s, x.p);
    CountStore(s.pushers, x.p, t.pushers[x.p], IsNotifying);
    forall v: Id ensures WorkerSound(t, v) { assert WorkerSound(s, v); }
    forall p: Id ensures PusherSound(t, p) { assert PusherSound(s, p); }
    forall v: Id | t.running && Sleeping(t, v) ensures Covered(t) { assert Sleeping(s, v) ==> Covered(s); }
  }

  /** A notification goes to a sleeper, if there is one, and makes up for itself. */
  lemma NotifyKeepsSound<T>(s: State<T>, p: Id, w: Id)
    requires Sound(s) && CanStep(s, NotifyOne(p, w))
    ensures Step(s, NotifyOne(p, w)).Some? && Sound(Step(s, NotifyOne(p, w)).value)
  {
    var t := Step(s, NotifyOne(p, w)).value;
    CountRemove(s.pushers, p, IsNotifying);
    if At(s, w, Asleep) { MoveCounts(s, w, Awoken); }
    assert PusherSound(s, p);
    forall v: Id ensures WorkerSound(t, v) { assert WorkerSound(s, v); }
    forall q: Id ensures PusherSound(t, q) { assert PusherSound(s, q); }
    forall v: Id | t.running && Sleeping(t, v) ensures Covered(t) { assert Sleeping(s, v) ==> Covered(s); }
  }

  // ----- The destructor -----

  lemma StopStepKeepsSound<T>(s: State<T>, x: Action<T>)
    requires Sound(s) && CanStep(s, x) && (x.StoreStop? || x.NotifyAll?)
    ensures Step(s, x).Some? && Sound(Step(s, x).value)
  {
    var t := Step(s, x).value;
    forall v: Id ensures WorkerSound(t, v) { assert WorkerSound(s, v); }
    forall q: Id ensures PusherSound(t, q) { assert PusherSound(s, q); }
  }

  lemma StepKeepsSound<T>(s: State<T>, x: Action<T>)
    requires Sound(s) && CanStep(s, x)
    ensures Step(s, x).Some? && Sound(Step(s, x).value)
  {
    hide Sound, CanStep, Step;
    match x
    case Take(w) => TakeKeepsSound(s, w);
    case CallPush(_, _) => PushStepKeepsSound(s, x);
    case LockPush(_) => PushStepKeepsSound(s, x);
    case Enqueue(_) => PushStepKeepsSound(s, x);
    case NotifyOne(p, w) => NotifyKeepsSound(s, p, w);
    case StoreStop => StopStepKeepsSound(s, x);
    case NotifyAll => StopStepKeepsSound(s, x);
    case _ => WorkerStepKeepsSound(s, x);
  }

  lemma FreshIsSound<T>(s: State<T>)
    requires Fresh(s)
    ensures Sound(s)
  {
    forall v: Id ensures WorkerSound(s, v) {}
    forall q: Id ensures PusherSound(s, q) {}
  }

  /** Over every run, `front` is never called on an empty queue, and the invariant holds. */
  lemma {:induction false} RunKeepsSound<T>(s: State<T>, xs: seq<Action<T>>)
    requires Sound(s) && CanRun(s, xs)
    ensures Run(s, xs).Some? && Sound(Run(s, xs).value)
    decreases |xs|
  {
    if xs != [] {
      StepKeepsSound(s, xs[0]);
      RunKeepsSound(Step(s, xs[0]).value, xs[1..]);
    }
  }

  // ----- What follows -----

  /** No wakeup is lost: while someone sleeps, every queued task has a notification or an awake worker to come. */
  lemma NoLostWakeup<T>(s: State<T>, w: Id)
    requires Sound(s) && s.running && At(s, w, Asleep)
    ensures |s.tasks| <= Notifiers(s) + Lookers(s)
    ensures Notifiers(s) == 0 && (forall v :: v in s.workers ==> !s.workers[v].Looking()) ==> s.tasks == []
  {
    assert Sleeping(s, w);
    if Notifiers(s) == 0 && forall v :: v in s.workers ==> !s.workers[v].Looking() {
      CountZero(s.workers, IsLooking);
    }
  }

  lemma HolderCanStep<T>(s: State<T>) returns (x: Action<T>)
    requires Sound(s) && s.mutex != Nobody
    ensures CanStep(s, x) && Quiet(x) && !x.Complete?
  {
    if s.mutex.HeldByWorker? {
      var w := s.mutex.w;
      assert WorkerSound(s, w);
      x := if s.workers[w].Deciding? then Decide(w) else if s.workers[w].Blocking? then Block(w)
           else if s.workers[w].Reloading? then Reload(w) else Take(w);
    } else {
      assert PusherSound(s, s.mutex.p);
      x := Enqueue(s.mutex.p);
    }
  }

  /** Tasks run without the mutex, and whoever holds it can go on without waiting for one to come to its end. */
  lemma TasksRunUnlocked<T>(s: State<T>, w: Id)
    requires Sound(s) && w in s.workers && s.workers[w].Executing?
    ensures s.mutex != HeldByWorker(w)
    ensures s.mutex != Nobody ==> exists x :: CanStep(s, x) && Quiet(x) && !x.Complete?
  {
    assert WorkerSound(s, w);
    if s.mutex != Nobody { var _ := HolderCanStep(s); }
  }

  /** A running pool is stuck only when there is nothing to do. */
  lemma WorkGetsDone<T>(s: State<T>)
    requires Sound(s) && s.running && s.workers != map[] && s.tasks != []
    ensures exists x :: CanStep(s, x) && Quiet(x)
  {
    if w :| w in s.workers && s.workers[w].Executing? {
      assert CanStep(s, Complete(w));
    } else if s.mutex != Nobody {
      var _ := HolderCanStep(s);
    } else if w :| w in s.workers && s.workers[w].Looking() {
      assert WorkerSound(s, w);
      assert CanStep(s, if s.workers[w].Testing? then Test(w)
                        else if s.workers[w].Locking? then Lock(w) else Relock(w));
    } else {
      var w :| w in s.workers;
      assert WorkerSound(s, w) && Sleeping(s, w);
      CountZero(s.workers, IsLooking);
      SomeNotifier(s);
      var p :| p in s.pushers && s.pushers[p].Notifying?;
      assert CanStep(s, NotifyOne(p, w));
    }
  }

  /** A step that is neither a new call, nor a spurious wakeup, nor the end of the pool. */
  predicate Quiet<T>(x: Action<T>) { !x.Wake? && !x.CallPush? && !x.StoreStop? }

  /** How many steps a worker of a running pool has left before it sleeps, if it finds no more tasks. */
  function WorkerWeight(w: Worker): nat {
    match w
    case Executing(_) => 7
    case Testing => 6
    case Locking => 5
    case Awoken => 5
    case Deciding => 4
    case Blocking => 3
    case Reloading => 3
    case Taking => 2
    case Asleep => 0
    case Finished => 0
  }

  function PusherWeight<T>(p: Pusher<T>): nat {
    match p
    case Entering(_) => 18
    case Holding(_) => 17
    case Notifying => 6
  }

  /** A task is worth the turn of the worker that takes it. */
  ghost function Effort<T>(s: State<T>): nat {
    10 * |s.tasks| + Total(s.workers, WorkerWeight) + Total(s.pushers, PusherWeight)
  }

  lemma PushEffortFalls<T>(s: State<T>, x: Action<T>)
    requires CanStep(s, x) && (x.LockPush? || x.Enqueue?)
    ensures Step(s, x).Some? && Effort(Step(s, x).value) < Effort(s)
  {
    TotalStore(s.pushers, x.p, Step(s, x).value.pushers[x.p], PusherWeight);
  }

  lemma NotifyEffortFalls<T>(s: State<T>, p: Id, w: Id)
    requires CanStep(s, NotifyOne(p, w))
    ensures Step(s, NotifyOne(p, w)).Some? && Effort(Step(s, NotifyOne(p, w)).value) < Effort(s)
  {
    TotalRemove(s.pushers, p, PusherWeight);
    if At(s, w, Asleep) { TotalStore(s.workers, w, Awoken, WorkerWeight); }
  }

  lemma WorkerEffortFalls<T>(s: State<T>, x: Action<T>)
    requires CanStep(s, x) && s.running && Step(s, x).Some?
    requires x.Test? || x.Lock? || x.Decide? || x.Block? || x.Relock? || x.Reload? || x.Take? || x.Complete?
    ensures Effort(Step(s, x).value) < Effort(s)
  {
    TotalStore(s.workers, x.w, Step(s, x).value.workers[x.w], WorkerWeight);
  }

  lemma EffortFalls<T>(s: State<T>, x: Action<T>)
    requires Sound(s) && s.running && CanStep(s, x) && Quiet(x)
    ensures Step(s, x).Some? && Step(s, x).value.running && Step(s, x).value.workers.Keys == s.workers.Keys
    ensures Effort(Step(s, x).value) < Effort(s)
  {
    StepKeepsSound(s, x);
    assert s.stop == NotStopping;
    hide Sound, Effort;
    if x.LockPush? || x.Enqueue? {
      PushEffortFalls(s, x);
    } else if x.NotifyOne? {
      NotifyEffortFalls(s, x.p, x.woken);
    } else {
      WorkerEffortFalls(s, x);
    }
  }

  /**
   Every run of a running pool without new calls, spurious wakeups and the end of the pool is finite, with a bound known
   from the start, and when it cannot go on all tasks have been taken.
   */
  lemma {:induction false} QueueEmpties<T>(s: State<T>, xs: seq<Action<T>>)
    requires Sound(s) && s.running && s.workers != map[] && CanRun(s, xs)
    requires forall i :: 0 <= i < |xs| ==> Quiet(xs[i])
    ensures Run(s, xs).Some? && |xs| <= Effort(s)
    ensures (forall x :: CanStep(Run(s, xs).value, x) ==> !Quiet(x)) ==> Run(s, xs).value.tasks == []
    decreases |xs|
  {
    hide Effort, Step, Sound, CanStep;
    if xs == [] {
      if s.tasks != [] { WorkGetsDone(s); }
    } else {
      EffortFalls(s, xs[0]);
      StepKeepsSound(s, xs[0]);
      var t := Step(s, xs[0]).value;
      assert t.workers != map[] by {
        var w :| w in s.workers;
        assert w in t.workers.Keys;
      }
      QueueEmpties(t, xs[1..]);
    }
  }

  /** When a running pool cannot go on, nothing is queued, nobody is pushing and nobody executes a task. */
  lemma StuckPool<T>(s: State<T>)
    requires Sound(s) && s.running && s.workers != map[]
    requires forall x :: CanStep(s, x) ==> !Quiet(x)
    ensures s.tasks == [] && s.pushers == map[]
  {
    if s.tasks != [] { WorkGetsDone(s); }
    if s.mutex != Nobody {
      var _ := HolderCanStep(s);
    } else if p :| p in s.pushers {
      var _ := PusherCanStep(s, p);
    }
  }

  lemma PusherCanStep<T>(s: State<T>, p: Id) returns (x: Action<T>)
    requires Sound(s) && s.mutex == Nobody && p in s.pushers
    ensures CanStep(s, x) && Quiet(x)
  {
    assert PusherSound(s, p);
    var woken := 0;
    if w :| w in s.workers && At(s, w, Asleep) { woken := w; }
    x := if s.pushers[p].Entering? then LockPush(p) else NotifyOne(p, woken);
  }

  lemma SomeNotifier<T>(s: State<T>)
    requires Notifiers(s) > 0
    ensures exists p :: p in s.pushers && s.pushers[p].Notifying?
  {
    if forall p :: p in s.pushers ==> !s.pushers[p].Notifying? { CountZero(s.pushers, IsNotifying); }
  }

  /** Tasks leave in the order they came, and no two workers execute the same one. */
  lemma TasksLeaveInOrder<T>(s: State<T>, v: Id, w: Id)
    requires Sound(s) && v in s.workers && w in s.workers && v != w
    requires s.workers[v].Executing? && s.workers[w].Executing?
    ensures TasksOf(s.removed) <= s.pushed && s.tasks == s.pushed[|s.removed|..]
    ensures s.workers[v].position != s.workers[w].position && s.workers[v].position < |s.removed| <= |s.pushed|
    ensures s.removed[s.workers[v].position] == Removal(v, s.pushed[s.workers[v].position])
  {
    assert WorkerSound(s, v) && WorkerSound(s, w);
    assert TasksOf(s.removed)[s.workers[v].position] == s.pushed[s.workers[v].position];
  }

  /** From a new pool, every run: no failure, first in first out, nobody executes twice, no wakeup lost. */
  lemma EveryRun<T>(s: State<T>, xs: seq<Action<T>>)
    requires Fresh(s) && CanRun(s, xs)
    ensures Run(s, xs).Some?
    ensures var t := Run(s, xs).value;
            && t.pushed == TasksOf(t.removed) + t.tasks
            && (forall v, w :: v in t.workers && w in t.workers && v != w
                               && t.workers[v].Executing? && t.workers[w].Executing?
                               ==> t.workers[v].position != t.workers[w].position)
            && (t.running && (exists w :: At(t, w, Asleep)) ==> |t.tasks| <= Notifiers(t) + Lookers(t))
  {
    FreshIsSound(s);
    RunKeepsSound(s, xs);
    var t := Run(s, xs).value;
    forall v, w | v in t.workers && w in t.workers && v != w && t.workers[v].Executing? && t.workers[w].Executing?
      ensures t.workers[v].position != t.workers[w].position
    {
      TasksLeaveInOrder(t, v, w);
    }
    if t.running && exists w :: At(t, w, Asleep) {
      var w :| At(t, w, Asleep);
      NoLostWakeup(t, w);
    }
  }

  // ----- Stopping -----

  /** No worker sleeps, or is past its decision to sleep. */
  predicate NobodySleeps<T>(s: State<T>) {
    forall w :: w in s.workers ==> !s.workers[w].Asleep? && !s.workers[w].Blocking?
  }

  lemma {:induction false} NobodySleepsAgain<T>(s: State<T>, xs: seq<Action<T>>)
    requires Sound(s) && CanRun(s, xs) && !s.running && NobodySleeps(s)
    ensures Run(s, xs).Some? && NobodySleeps(Run(s, xs).value)
    decreases |xs|
  {
    if xs != [] {
      StepKeepsSound(s, xs[0]);
      NobodySleepsAgain(Step(s, xs[0]).value, xs[1..]);
    }
  }

  predicate Disturbs<T>(x: Action<T>, w: Id) {
    x == Wake(w) || (x.NotifyOne? && x.woken == w) || x.NotifyAll?
  }

  lemma {:induction false} SleepsOn<T>(s: State<T>, xs: seq<Action<T>>, w: Id)
    requires CanRun(s, xs) && Sound(s) && At(s, w, Asleep) && forall i :: 0 <= i < |xs| ==> !Disturbs(xs[i], w)
    ensures Run(s, xs).Some? && At(Run(s, xs).value, w, Asleep)
    decreases |xs|
  {
    if xs != [] {
      StepKeepsSound(s, xs[0]);
      assert At(Step(s, xs[0]).value, w, Asleep);
      SleepsOn(Step(s, xs[0]).value, xs[1..], w);
    }
  }

  /**
   The destructor's wakeup reaches every worker exactly when none has decided to sleep without having done so:
   then nobody ever sleeps again; otherwise that worker goes to sleep and nothing but a spurious wakeup, or a
   later push, wakes it.
   */
  lemma StopReachesAll<T>(s: State<T>)
    requires Sound(s) && s.stop == Stored
    ensures var t := Step(s, NotifyAll).value;
            if forall w :: w in s.workers ==> !s.workers[w].Blocking? then
              forall xs :: CanRun(t, xs) ==> Run(t, xs).Some? && NobodySleeps(Run(t, xs).value)
            else
              exists w ::
                && CanStep(t, Block(w)) && Step(t, Block(w)).Some?
                && var u := Step(t, Block(w)).value;
                   forall xs :: CanRun(u, xs) && (forall i :: 0 <= i < |xs| ==> !Disturbs(xs[i], w))
                                ==> Run(u, xs).Some? && At(Run(u, xs).value, w, Asleep)
  {
    StepKeepsSound(s, NotifyAll);
    var t := Step(s, NotifyAll).value;
    if w :| w in s.workers && s.workers[w].Blocking? {
      assert CanStep(t, Block(w));
      StepKeepsSound(t, Block(w));
      var u := Step(t, Block(w)).value;
      forall xs | CanRun(u, xs) && (forall i :: 0 <= i < |xs| ==> !Disturbs(xs[i], w))
        ensures Run(u, xs).Some? && At(Run(u, xs).value, w, Asleep)
      {
        SleepsOn(u, xs, w);
      }
    } else {
      forall xs | CanRun(t, xs) ensures Run(t, xs).Some? && NobodySleeps(Run(t, xs).value) {
        NobodySleepsAgain(t, xs);
      }
    }
  }

  // ----- Coming to an end -----

  /** A worker at the loop condition is done exactly when the pool has been stopped. */
  lemma TestDecides<T>(s: State<T>, w: Id)
    requires CanStep(s, Test(w))
    ensures Step(s, Test(w)).Some? && w in Step(s, Test(w)).value.workers
    ensures Step(s, Test(w)).value.workers[w].Finished? <==> !s.running
  {
  }

  /** A worker that comes back from a task in a stopped pool is done after one look at the flag. */
  lemma TaskThenDone<T>(s: State<T>, w: Id)
    requires Sound(s) && CanStep(s, Complete(w)) && !s.running
    ensures CanRun(s, [Complete(w), Test(w)]) && Run(s, [Complete(w), Test(w)]).Some?
    ensures At(Run(s, [Complete(w), Test(w)]).value, w, Finished)
  {
    var t := Step(s, Complete(w)).value;
    assert CanStep(t, Test(w)) && !t.running;
    var u := Step(t, Test(w)).value;
    assert At(u, w, Finished) && CanRun(u, []) && Run(u, []) == Some(u);
    hide Sound, Step, CanStep;
    RunOne(t, Test(w), [], u);
    RunOne(s, Complete(w), [Test(w)], t);
  }

  predicate NobodyTakes<T>(s: State<T>) { forall w :: w in s.workers ==> !At(s, w, Taking) }

  lemma {:induction false} NoMoreTasks<T>(s: State<T>, xs: seq<Action<T>>)
    requires Sound(s) && CanRun(s, xs) && !s.running && NobodyTakes(s)
    ensures Run(s, xs).Some? && Run(s, xs).value.removed == s.removed
    decreases |xs|
  {
    if xs != [] {
      StepKeepsSound(s, xs[0]);
      assert !xs[0].Take?;
      TakersStay(s, xs[0]);
      hide Sound, Step, CanStep;
      NoMoreTasks(Step(s, xs[0]).value, xs[1..]);
    }
  }

  /** Once the flag is stored at most one more task is begun, by the worker that is taking it at that moment. */
  lemma {:induction false} AtMostOneMoreTask<T>(s: State<T>, xs: seq<Action<T>>)
    requires Sound(s) && CanRun(s, xs) && !s.running
    ensures Run(s, xs).Some?
    ensures var t := Run(s, xs).value;
            t.removed == s.removed
            || (|t.removed| == |s.removed| + 1 && s.removed <= t.removed
                && At(s, t.removed[|s.removed|].worker, Taking))
    decreases |xs|
  {
    if xs != [] {
      StepKeepsSound(s, xs[0]);
      var t := Step(s, xs[0]).value;
      if xs[0].Take? {
        OneTakes(s, xs[0].w);
        NoMoreTasks(t, xs[1..]);
      } else {
        TakersStay(s, xs[0]);
        hide Sound, Step, CanStep;
        AtMostOneMoreTask(t, xs[1..]);
      }
    }
  }

  /** Taking needs the mutex. */
  lemma OneTakes<T>(s: State<T>, w: Id)
    requires Sound(s) && CanStep(s, Take(w))
    ensures Step(s, Take(w)).Some? && NobodyTakes(Step(s, Take(w)).value)
  {
    StepKeepsSound(s, Take(w));
    var t := Step(s, Take(w)).value;
    forall v | v in t.workers ensures !At(t, v, Taking) { assert WorkerSound(s, v) && WorkerSound(s, w); }
  }

  lemma TakersStay<T>(s: State<T>, x: Action<T>)
    requires Sound(s) && CanStep(s, x) && !s.running && !x.Take?
    ensures Step(s, x).Some? && !Step(s, x).value.running && Step(s, x).value.removed == s.removed
    ensures forall w :: At(Step(s, x).value, w, Taking) ==> At(s, w, Taking)
  {
    StepKeepsSound(s, x);
    hide Sound;
  }

  /** How many steps a worker of a stopped pool takes until it has finished, if it does not sleep. */
  function LastSteps(w: Worker): nat {
    match w
    case Testing => 1
    case Executing(_) => 2
    case Reloading => 2
    case Taking => 3
    case Deciding => 3
    case Locking => 4
    case Awoken => 4
    case _ => 0
  }

  function LastPushSteps<T>(p: Pusher<T>): nat {
    match p
    case Entering(_) => 3
    case Holding(_) => 2
    case Notifying => 1
  }

  ghost function StepsLeft<T>(s: State<T>): nat {
    Total(s.workers, LastSteps) + Total(s.pushers, LastPushSteps)
  }

  lemma EndNearsForWorker<T>(s: State<T>, x: Action<T>)
    requires Sound(s) && CanStep(s, x) && !s.running && Step(s, x).Some?
    requires x.Test? || x.Lock? || x.Decide? || x.Relock? || x.Reload? || x.Take? || x.Complete?
    ensures StepsLeft(Step(s, x).value) < StepsLeft(s)
  {
    hide Sound;
    TotalStore(s.workers, x.w, Step(s, x).value.workers[x.w], LastSteps);
  }

  lemma EndNearsForPusher<T>(s: State<T>, x: Action<T>)
    requires CanStep(s, x) && (x.LockPush? || x.Enqueue? || x.NotifyOne?) && Step(s, x).Some? && NobodySleeps(s)
    ensures StepsLeft(Step(s, x).value) < StepsLeft(s)
  {
    if x.NotifyOne? {
      TotalRemove(s.pushers, x.p, LastPushSteps);
    } else {
      TotalStore(s.pushers, x.p, Step(s, x).value.pushers[x.p], LastPushSteps);
    }
  }

  /** Every step of a stopped pool in which nobody sleeps, other than a new call, brings the end nearer. */
  lemma EndNears<T>(s: State<T>, x: Action<T>)
    requires Sound(s) && s.stop == NotifiedAll && NobodySleeps(s) && CanStep(s, x) && !x.CallPush?
    ensures Step(s, x).Some? && Step(s, x).value.stop == NotifiedAll && NobodySleeps(Step(s, x).value)
    ensures StepsLeft(Step(s, x).value) < StepsLeft(s)
  {
    StepKeepsSound(s, x);
    if x.LockPush? || x.Enqueue? || x.NotifyOne? {
      EndNearsForPusher(s, x);
    } else {
      EndNearsForWorker(s, x);
    }
    hide StepsLeft;
  }

  /** Somebody can go on as long as a worker has not finished or a call to push has not returned. */
  lemma LastStep<T>(s: State<T>) returns (x: Action<T>)
    requires Sound(s) && NobodySleeps(s)
    requires s.pushers != map[] || exists w :: w in s.workers && !s.workers[w].Finished?
    ensures CanStep(s, x) && !x.CallPush?
  {
    if s.mutex != Nobody {
      x := HolderCanStep(s);
    } else if p :| p in s.pushers {
      x := PusherCanStep(s, p);
    } else {
      var w :| w in s.workers && !s.workers[w].Finished?;
      assert WorkerSound(s, w);
      x := match s.workers[w] {
        case Testing => Test(w)
        case Locking => Lock(w)
        case Awoken => Relock(w)
        case _ => Complete(w)
      };
    }
  }

  /**
   Once a pool is stopped and nobody sleeps, every run without new calls is finite, with a bound known from its start,
   and where it cannot go on every worker has finished.
   */
  lemma {:induction false} WorkersFinish<T>(s: State<T>, xs: seq<Action<T>>)
    requires Sound(s) && s.stop == NotifiedAll && NobodySleeps(s) && CanRun(s, xs)
    requires forall i :: 0 <= i < |xs| ==> !xs[i].CallPush?
    ensures Run(s, xs).Some? && |xs| <= StepsLeft(s)
    ensures var t := Run(s, xs).value;
            (forall x :: CanStep(t, x) ==> x.CallPush?)
            ==> t.pushers == map[] && forall w :: w in t.workers ==> t.workers[w].Finished?
    decreases |xs|
  {
    if xs == [] {
      if s.pushers != map[] || exists w :: w in s.workers && !s.workers[w].Finished? { var _ := LastStep(s); }
    } else {
      EndNears(s, xs[0]);
      StepKeepsSound(s, xs[0]);
      hide Sound, CanStep, Step, StepsLeft, NobodySleeps;
      WorkersFinish(Step(s, xs[0]).value, xs[1..]);
    }
  }

  /**
   What the destructor waits for: if nobody is between deciding to sleep and sleeping when it wakes everybody up, the
   workers come to their end, however they and the calls still under way take turns.
   */
  lemma JoinReturns<T>(s: State<T>, xs: seq<Action<T>>)
    requires Sound(s) && s.stop == Stored && forall w :: w in s.workers ==> !s.workers[w].Blocking?
    requires CanRun(s, [NotifyAll] + xs) && forall i :: 0 <= i < |xs| ==> !xs[i].CallPush?
    ensures Run(s, [NotifyAll] + xs).Some? && |xs| <= StepsLeft(Step(s, NotifyAll).value)
    ensures var t := Run(s, [NotifyAll] + xs).value;
            (forall x :: CanStep(t, x) ==> x.CallPush?)
            ==> t.pushers == map[] && forall w :: w in t.workers ==> t.workers[w].Finished?
  {
    var all := [NotifyAll] + xs;
    assert all[0] == NotifyAll && all[1..] == xs;
    StepKeepsSound(s, NotifyAll);
    assert NobodySleeps(Step(s, NotifyAll).value);
    hide Sound, StepsLeft, NobodySleeps;
    WorkersFinish(Step(s, NotifyAll).value, xs);
  }

  /** A pool of one worker, and the run in which its wakeup is missed. */
  function OneWorker<T>(at: Worker, mutex: Owner, stopped: bool): State<T> {
    State(!stopped, if stopped then Stored else NotStopping, mutex, [], map[0 := at], map[], [], [])
  }

  /** The destructor can store the flag while a worker is between its decision and its sleep. */
  lemma StopCanMissWorker<T>()
    ensures var s, xs := OneWorker<T>(Testing, Nobody, false), [Test(0), Lock(0), Decide(0), StoreStop];
            && Fresh(s) && CanRun(s, xs)
            && Run(s, xs) == Some(OneWorker(Blocking, HeldByWorker(0), true))
  {
    var s := OneWorker<T>(Testing, Nobody, false);
    var s1, s2, s3 := OneWorker<T>(Locking, Nobody, false), OneWorker<T>(Deciding, HeldByWorker(0), false),
                      OneWorker<T>(Blocking, HeldByWorker(0), false);
    var s4 := OneWorker<T>(Blocking, HeldByWorker(0), true);
    OneWorkerMoves<T>(Testing, Nobody);
    OneWorkerMoves<T>(Locking, Nobody);
    OneWorkerMoves<T>(Deciding, HeldByWorker(0));
    OneWorkerStops<T>();
    assert Fresh(s);
    hide Step, CanStep, OneWorker, Run, CanRun;
    RunFour(s, Test(0), s1, Lock(0), s2, Decide(0), s3, StoreStop, s4);
  }

  lemma OneWorkerMoves<T>(at: Worker, mutex: Owner)
    ensures at == Testing && mutex == Nobody ==>
              CanStep(OneWorker<T>(at, mutex, false), Test(0))
              && Step(OneWorker<T>(at, mutex, false), Test(0)) == Some(OneWorker<T>(Locking, Nobody, false))
    ensures at == Locking && mutex == Nobody ==>
              CanStep(OneWorker<T>(at, mutex, false), Lock(0))
              && Step(OneWorker<T>(at, mutex, false), Lock(0)) == Some(OneWorker<T>(Deciding, HeldByWorker(0), false))
    ensures at == Deciding && mutex == HeldByWorker(0) ==>
              CanStep(OneWorker<T>(at, mutex, false), Decide(0))
              && Step(OneWorker<T>(at, mutex, false), Decide(0)) == Some(OneWorker<T>(Blocking, HeldByWorker(0), false))
  {
    var s := OneWorker<T>(at, mutex, false);
    assert forall next :: s.workers[0 := next] == map[0 := next];
  }

  lemma OneWorkerStops<T>()
    ensures CanStep(OneWorker<T>(Blocking, HeldByWorker(0), false), StoreStop)
    ensures Step(OneWorker<T>(Blocking, HeldByWorker(0), false), StoreStop)
            == Some(OneWorker<T>(Blocking, HeldByWorker(0), true))
  {
  }

  lemma RunFour<T>(s: State<T>, x1: Action<T>, s1: State<T>, x2: Action<T>, s2: State<T>,
                   x3: Action<T>, s3: State<T>, x4: Action<T>, s4: State<T>)
    requires CanStep(s, x1) && Step(s, x1) == Some(s1)
    requires CanStep(s1, x2) && Step(s1, x2) == Some(s2)
    requires CanStep(s2, x3) && Step(s2, x3) == Some(s3)
    requires CanStep(s3, x4) && Step(s3, x4) == Some(s4)
    ensures CanRun(s, [x1, x2, x3, x4]) && Run(s, [x1, x2, x3, x4]) == Some(s4)
  {
    hide Step, CanStep;
    assert CanRun(s4, []) && Run(s4, []) == Some(s4);
    RunOne(s3, x4, [], s4);
    RunOne(s2, x3, [x4], s3);
    RunOne(s1, x2, [x3, x4], s2);
    RunOne(s, x1, [x2, x3, x4], s1);
  }

  lemma RunOne<T>(s: State<T>, x: Action<T>, xs: seq<Action<T>>, t: State<T>)
    requires CanStep(s, x) && Step(s, x) == Some(t) && CanRun(t, xs)
    ensures CanRun(s, [x] + xs) && Run(s, [x] + xs) == Run(t, xs)
  {
    assert ([x] + xs)[1..] == xs;
  }
}
