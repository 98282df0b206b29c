/**
 The thread pool as the mutable object of the source. Between any two accesses of a thread the others may
 take any steps they can (a schedule; entries that are not possible when their turn comes are skipped).
 */
module ThreadPools {
  import opened Options
  import opened PoolProtocol

  datatype Thread = WorkerThread(w: Id) | PushCall(p: Id)

  /** The thread that takes a step; None for the destructor. */
  function Taker<T>(x: Action<T>): Option<Thread> {
    match x
    case CallPush(p, _) => Some(PushCall(p))
    case LockPush(p) => Some(PushCall(p))
    case Enqueue(p) => Some(PushCall(p))
    case NotifyOne(p, _) => Some(PushCall(p))
    case StoreStop => None
    case NotifyAll => None
    case _ => Some(WorkerThread(x.w))
  }

  /** What the other threads do of a schedule, from the point of view of one thread. */
  function Others<T>(s: State<T>, xs: seq<Action<T>>, me: Thread): State<T>
    decreases |xs|
  {
    if xs == [] then s
    else if Taker(xs[0]) != Some(me) && CanStep(s, xs[0]) && Step(s, xs[0]).Some?
    then Others(Step(s, xs[0]).value, xs[1..], me)
    else Others(s, xs[1..], me)
  }

  /** All steps of a schedule, one entry after the other. */
  function Flat<T>(xss: seq<seq<Action<T>>>): seq<Action<T>> {
    if xss == [] then [] else Flat(xss[..|xss| - 1]) + xss[|xss| - 1]
  }

  lemma {:induction false} OthersJoin<T>(s: State<T>, xs: seq<Action<T>>, ys: seq<Action<T>>, me: Thread)
    ensures Others(s, xs + ys, me) == Others(Others(s, xs, me), ys, me)
    decreases |xs|
  {
    if xs == [] {
      assert xs + ys == ys;
    } else {
      assert (xs + ys)[0] == xs[0] && (xs + ys)[1..] == xs[1..] + ys;
      if Taker(xs[0]) != Some(me) && CanStep(s, xs[0]) && Step(s, xs[0]).Some? {
        OthersJoin(Step(s, xs[0]).value, xs[1..], ys, me);
      } else {
        OthersJoin(s, xs[1..], ys, me);
      }
    }
  }

  lemma OthersNext<T>(s: State<T>, waits: seq<seq<Action<T>>>, i: nat, me: Thread)
    requires i < |waits|
    ensures Others(s, Flat(waits[..i + 1]), me) == Others(Others(s, Flat(waits[..i]), me), waits[i], me)
  {
    assert waits[..i + 1][..i] == waits[..i];
    OthersJoin(s, Flat(waits[..i]), waits[i], me);
  }

  lemma OthersNothing<T>(s: State<T>, me: Thread)
    ensures Others(s, Flat([]), me) == s
  {
  }

  function Then<T>(s: Option<State<T>>, x: Action<T>): Option<State<T>> {
    if s.Some? && CanStep(s.value, x) then Step(s.value, x) else None
  }

  function Meanwhile<T>(s: Option<State<T>>, xs: seq<Action<T>>, me: Thread): Option<State<T>> {
    if s.Some? then Some(Others(s.value, xs, me)) else None
  }

  /** A call to push, step by step, with what others do in between. */
  function PushRun<T>(s: State<T>, p: Id, task: T, waits: seq<Action<T>>, held: seq<Action<T>>,
                      between: seq<Action<T>>, woken: Id): Option<State<T>> {
    var me := PushCall(p);
    var entered := Meanwhile(Then(Some(s), CallPush(p, task)), waits, me);
    var locked := Meanwhile(Then(entered, LockPush(p)), held, me);
    var appended := Meanwhile(Then(locked, Enqueue(p)), between, me);
    Then(appended, NotifyOne(p, woken))
  }

  lemma {:induction false} OthersKeepSound<T>(s: State<T>, xs: seq<Action<T>>, me: Thread)
    requires Sound(s)
    ensures Sound(Others(s, xs, me))
    decreases |xs|
  {
    hide Sound;
    if xs != [] {
      if Taker(xs[0]) != Some(me) && CanStep(s, xs[0]) && Step(s, xs[0]).Some? {
        StepKeepsSound(s, xs[0]);
        OthersKeepSound(Step(s, xs[0]).value, xs[1..], me);
      } else {
        OthersKeepSound(s, xs[1..], me);
      }
    }
  }

  /** The tasks a worker took, in the order it took them. */
  function TakenBy<T>(removed: seq<Removal<T>>, w: Id): seq<T> {
    if removed == [] then []
    else TakenBy(removed[..|removed| - 1], w)
         + (if removed[|removed| - 1].worker == w then [removed[|removed| - 1].task] else [])
  }

  /** Other threads do not move a worker, except that they may wake it, and take no task in its name. */
  ghost predicate SameWorker<T>(s: State<T>, t: State<T>, w: Id) {
    && w in s.workers && w in t.workers
    && (t.workers[w] == s.workers[w] || (s.workers[w].Asleep? && t.workers[w].Awoken?))
    && TakenBy(t.removed, w) == TakenBy(s.removed, w)
    && (!s.running ==> !t.running)
  }

  lemma OtherStepSparesWorker<T>(s: State<T>, x: Action<T>, w: Id)
    requires CanStep(s, x) && Step(s, x).Some? && w in s.workers && Taker(x) != Some(WorkerThread(w))
    ensures SameWorker(s, Step(s, x).value, w)
  {
    var t := Step(s, x).value;
    if x.Take? { assert t.removed[..|t.removed| - 1] == s.removed; }
  }

  lemma {:induction false} OthersSpareWorker<T>(s: State<T>, xs: seq<Action<T>>, w: Id)
    requires w in s.workers
    ensures SameWorker(s, Others(s, xs, WorkerThread(w)), w)
    decreases |xs|
  {
    if xs != [] {
      if Taker(xs[0]) != Some(WorkerThread(w)) && CanStep(s, xs[0]) && Step(s, xs[0]).Some? {
        OtherStepSparesWorker(s, xs[0], w);
        OthersSpareWorker(Step(s, xs[0]).value, xs[1..], w);
      } else {
        OthersSpareWorker(s, xs[1..], w);
      }
    }
  }

  /** Other threads do not move a call to push, and never take a task back. */
  ghost predicate SamePusher<T>(s: State<T>, t: State<T>, p: Id) {
    && p in s.pushers && p in t.pushers && t.pushers[p] == s.pushers[p] && s.pushed <= t.pushed
  }

  lemma {:induction false} OthersSparePusher<T>(s: State<T>, xs: seq<Action<T>>, p: Id)
    requires p in s.pushers
    ensures SamePusher(s, Others(s, xs, PushCall(p)), p)
    decreases |xs|
  {
    if xs != [] {
      if Taker(xs[0]) != Some(PushCall(p)) && CanStep(s, xs[0]) && Step(s, xs[0]).Some? {
        assert SamePusher(s, Step(s, xs[0]).value, p);
        OthersSparePusher(Step(s, xs[0]).value, xs[1..], p);
      } else {
        OthersSparePusher(s, xs[1..], p);
      }
    }
  }

  class ThreadPool<T> {
    var running: bool
    var tasks: seq<T>
    var mutex: Owner
    var workers: map<Id, Worker>      // where each thread is, and who sleeps on the condition variable
    var pushers: map<Id, Pusher<T>>
    var stop: Stop
    var pushed: seq<T>
    var removed: seq<Removal<T>>
    ghost var turns: nat              // how many schedules of other threads have run

    function State(): PoolProtocol.State<T>
      reads this
    {
      PoolProtocol.State.State(running, stop, mutex, tasks, workers, pushers, pushed, removed)
    }

    ghost predicate Valid()
      reads this
    {
      Sound(State())
    }

    constructor (numThreads: nat)
      ensures Fresh(State()) && Valid()
      ensures |workers| == if numThreads == 0 then 1 else numThreads
    {
      var n := if numThreads == 0 then 1 else numThreads;
      running, tasks, mutex, pushers := true, [], Nobody, map[];
      var threads: map<Id, Worker> := map[];
      for i := 0 to n
        invariant forall k: Id :: k in threads <==> k < i
        invariant |threads| == i && forall k :: k in threads ==> threads[k] == Testing
      {
        threads := threads[i := Testing];
      }
      workers := threads;
      stop, pushed, removed := NotStopping, [], [];
      turns := 0;
      new;
      assert 0 in threads;
      FreshIsSound(State());
    }

    /** The other threads' turn. */
    method Interfere(xs: seq<Action<T>>, me: Thread)
      requires Valid()
      modifies this
      ensures Valid() && State() == Others(old(State()), xs, me) && turns == old(turns) + 1
    {
      OthersKeepSound(State(), xs, me);
      var t := Others(State(), xs, me);
      running, stop, mutex, tasks := t.running, t.stop, t.mutex, t.tasks;
      workers, pushers, pushed, removed := t.workers, t.pushers, t.pushed, t.removed;
      turns := turns + 1;
    }

    // ----- push -----

    method EnterPush(p: Id, task: T)
      requires Valid() && p !in pushers
      modifies this`pushers
      ensures Valid() && Some(State()) == Step(old(State()), CallPush(p, task))
    {
      StepKeepsSound(State(), CallPush(p, task));
      pushers := pushers[p := Entering(task)];
    }

    method LockForPush(p: Id)
      requires Valid() && CanStep(State(), LockPush(p))
      modifies this`pushers, this`mutex
      ensures Valid() && Some(State()) == Step(old(State()), LockPush(p))
    {
      StepKeepsSound(State(), LockPush(p));
      mutex := HeldByPusher(p);
      pushers := pushers[p := Holding(pushers[p].task)];
    }

    /** Appends the task and gives the mutex back. */
    method PushTask(p: Id)
      requires Valid() && CanStep(State(), Enqueue(p))
      modifies this`tasks, this`pushed, this`pushers, this`mutex
      ensures Valid() && Some(State()) == Step(old(State()), Enqueue(p))
    {
      StepKeepsSound(State(), Enqueue(p));
      var task := pushers[p].task;
      tasks, pushed := tasks + [task], pushed + [task];
      mutex := Nobody;
      pushers := pushers[p := Notifying];
    }

    /** Wakes one sleeper, of the condition variable's choice, if there is any. */
    method Notify(p: Id, woken: Id)
      requires Valid() && CanStep(State(), NotifyOne(p, woken))
      modifies this`pushers, this`workers
      ensures Valid() && Some(State()) == Step(old(State()), NotifyOne(p, woken))
    {
      StepKeepsSound(State(), NotifyOne(p, woken));
      if woken in workers && workers[woken] == Asleep {
        workers := workers[woken := Awoken];
      }
      pushers := pushers - {p};
    }

    /**
     Waits for the mutex as long as the schedule goes: others take the steps of `waits`, one entry after the other,
     until the mutex is free after one of them. `used` tells how many were taken.
     */
    method WaitToPush(p: Id, waits: seq<seq<Action<T>>>) returns (done: bool, ghost used: nat)
      requires Valid() && p in pushers && pushers[p].Entering?
      modifies this
      ensures Valid() && old(pushed) <= pushed && p in pushers && used <= |waits|
      ensures done ==> CanStep(Others(old(State()), Flat(waits[..used]), PushCall(p)), LockPush(p))
                       && Some(State()) == Step(Others(old(State()), Flat(waits[..used]), PushCall(p)), LockPush(p))
      ensures if done then pushers[p] == Holding(old(pushers[p].task)) else pushers[p] == old(pushers[p])
      ensures !done ==> used == |waits| && mutex != Nobody && State() == Others(old(State()), Flat(waits), PushCall(p))
    {
      hide Sound, Others, Flat;
      ghost var s := State();
      var i := 0;
      OthersNothing(s, PushCall(p));
      while i < |waits| && (i == 0 || mutex != Nobody)
        invariant Valid() && p in pushers && pushers[p] == old(pushers[p]) && old(pushed) <= pushed && i <= |waits|
        invariant State() == Others(s, Flat(waits[..i]), PushCall(p))
      {
        OthersSparePusher(State(), waits[i], p);
        OthersNext(s, waits, i, PushCall(p));
        Interfere(waits[i], PushCall(p));
        i := i + 1;
      }
      used := i;
      done := mutex == Nobody;
      assert i == |waits| ==> waits[..i] == waits;
      if done {
        LockForPush(p);
      }
    }

    method NotifySome(p: Id, choice: Id) returns (woken: Id)
      requires Valid() && p in pushers && pushers[p].Notifying?
      modifies this`pushers, this`workers
      ensures Valid() && pushers == old(pushers) - {p} && pushed == old(pushed)
      ensures CanStep(old(State()), NotifyOne(p, woken)) && Some(State()) == Step(old(State()), NotifyOne(p, woken))
    {
      hide Sound;
      woken := choice;
      if !(choice in workers && workers[choice] == Asleep) {
        if w :| w in workers && workers[w] == Asleep { woken := w; }
      }
      Notify(p, woken);
    }

    /** A call that holds the mutex: it appends, lets go of the mutex, and notifies. */
    method FinishPush(p: Id, held: seq<Action<T>>, between: seq<Action<T>>, choice: Id)
      returns (ghost place: nat, ghost woken: Id)
      requires Valid() && p in pushers && pushers[p].Holding?
      modifies this
      ensures Valid() && old(pushed) <= pushed && p !in pushers
      ensures var locked, me := old(State()), PushCall(p);
              var appended := Then(Meanwhile(Some(locked), held, me), Enqueue(p));
              Some(State()) == Then(Meanwhile(appended, between, me), NotifyOne(p, woken))
      ensures |old(pushed)| <= place < |pushed| && pushed[place] == old(pushers[p].task)
    {
      hide Sound, Others;
      OthersSparePusher(State(), held, p);
      Interfere(held, PushCall(p));
      place := |pushed|;
      PushTask(p);
      OthersSparePusher(State(), between, p);
      Interfere(between, PushCall(p));
      woken := NotifySome(p, choice);
    }

    /**
     A whole call to push, with steps of others before and while it holds the mutex and before it notifies. It waits
     for the mutex as long as the schedule goes; `done` tells whether it got that far. Then the whole new state is that
     of the machine after the four steps of this call, of which one appends, and the steps of others in between: the
     task has been appended exactly once, at `place`, behind everything that was pushed before the call.
     */
    method Push(p: Id, task: T, waits: seq<seq<Action<T>>>, held: seq<Action<T>>, between: seq<Action<T>>, choice: Id)
      returns (done: bool, ghost place: nat, ghost used: nat, ghost woken: Id)
      requires Valid() && p !in pushers
      modifies this
      ensures Valid() && old(pushed) <= pushed && used <= |waits|
      ensures done ==>
                Some(State()) == PushRun(old(State()), p, task, Flat(waits[..used]), held, between, woken)
      ensures done ==> p !in pushers && |old(pushed)| <= place < |pushed| && pushed[place] == task
      ensures !done ==> used == |waits| && mutex != Nobody
                        && Some(State()) == Meanwhile(Then(Some(old(State())), CallPush(p, task)),
                                                      Flat(waits), PushCall(p))
    {
      hide Sound, Others, Flat;
      place, woken := 0, 0;
      EnterPush(p, task);
      done, used := WaitToPush(p, waits);
      if done {
        hide Step, CanStep;
        place, woken := FinishPush(p, held, between, choice);
      }
    }

    // ----- workerFunc -----

    /** The loop condition. */
    method TestRunning(w: Id) returns (r: bool)
      requires Valid() && At(State(), w, Testing)
      modifies this`workers
      ensures Valid() && Some(State()) == Step(old(State()), Test(w)) && r == running
    {
      StepKeepsSound(State(), Test(w));
      r := running;
      workers := workers[w := if r then Locking else Finished];
    }

    method LockForWorker(w: Id)
      requires Valid() && mutex == Nobody && (At(State(), w, Locking) || At(State(), w, Awoken))
      modifies this`workers, this`mutex
      ensures Valid() && Some(State()) == Step(old(State()), if old(workers[w]) == Locking then Lock(w) else Relock(w))
    {
      StepKeepsSound(State(), if workers[w] == Locking then Lock(w) else Relock(w));
      mutex := HeldByWorker(w);
      workers := workers[w := Deciding];
    }

    /** The wait condition: a task, or the end. */
    method DecideToGoOn(w: Id) returns (r: bool)
      requires Valid() && At(State(), w, Deciding)
      modifies this`workers
      ensures Valid() && Some(State()) == Step(old(State()), Decide(w)) && r == (tasks != [] || !running)
    {
      StepKeepsSound(State(), Decide(w));
      r := |tasks| != 0 || !running;
      workers := workers[w := if r then Reloading else Blocking];
    }

    /** Gives the mutex back and sleeps, in one step. */
    method Sleep(w: Id)
      requires Valid() && At(State(), w, Blocking)
      modifies this`workers, this`mutex
      ensures Valid() && Some(State()) == Step(old(State()), Block(w))
    {
      StepKeepsSound(State(), Block(w));
      mutex := Nobody;
      workers := workers[w := Asleep];
    }

    method ReloadRunning(w: Id) returns (r: bool)
      requires Valid() && At(State(), w, Reloading)
      modifies this`workers, this`mutex
      ensures Valid() && Some(State()) == Step(old(State()), Reload(w)) && r == running
    {
      StepKeepsSound(State(), Reload(w));
      r := running;
      if r {
        workers := workers[w := Taking];
      } else {
        mutex := Nobody;
        workers := workers[w := Testing];
      }
    }

    /** Takes the first task and gives the mutex back. */
    method TakeTask(w: Id) returns (task: T)
      requires Valid() && At(State(), w, Taking)
      modifies this`tasks, this`removed, this`workers, this`mutex
      ensures Valid() && Some(State()) == Step(old(State()), Take(w))
      ensures old(tasks) == [task] + tasks && TakenBy(removed, w) == TakenBy(old(removed), w) + [task]
    {
      StepKeepsSound(State(), Take(w));
      task := tasks[0];
      tasks := tasks[1..];
      workers := workers[w := Executing(|removed|)];
      mutex := Nobody;
      removed := removed + [Removal(w, task)];
      assert removed[..|removed| - 1] == old(removed);
    }

    method FinishTask(w: Id)
      requires Valid() && w in workers && workers[w].Executing?
      modifies this`workers
      ensures Valid() && Some(State()) == Step(old(State()), Complete(w))
    {
      StepKeepsSound(State(), Complete(w));
      workers := workers[w := Testing];
    }

    /** The next entry of the schedule, if there is one. */
    method Pause(w: Id, others: seq<seq<Action<T>>>) returns (rest: seq<seq<Action<T>>>)
      requires Valid() && w in workers && !workers[w].Asleep?
      modifies this
      ensures Valid() && w in workers && workers[w] == old(workers[w])
      ensures TakenBy(removed, w) == TakenBy(old(removed), w) && (!old(running) ==> !running)
      ensures rest == if others == [] then [] else others[1..]
      ensures turns + |rest| == old(turns) + |others|
    {
      hide Sound;
      rest := others;
      if others != [] {
        OthersSpareWorker(State(), others[0], w);
        Interfere(others[0], WorkerThread(w));
        rest := others[1..];
      }
    }

    /** Waits for the mutex, and if asleep for a wakeup first, as long as the schedule goes. */
    method AwaitMutex(w: Id, others: seq<seq<Action<T>>>) returns (done: bool, rest: seq<seq<Action<T>>>)
      requires Valid() && w in workers && (workers[w].Locking? || workers[w].Asleep?)
      modifies this
      ensures Valid() && TakenBy(removed, w) == TakenBy(old(removed), w)
      ensures done ==> At(State(), w, Deciding)
      ensures |rest| <= |others| && (done && old(workers[w]).Asleep? ==> |rest| < |others|)
      ensures turns + |rest| == old(turns) + |others| && (!done ==> rest == [])
    {
      hide Sound;
      rest := others;
      while rest != [] && (|rest| == |others| || mutex != Nobody || workers[w].Asleep?)
        invariant Valid() && w in workers && (workers[w].Locking? || workers[w].Asleep? || workers[w].Awoken?)
        invariant TakenBy(removed, w) == TakenBy(old(removed), w) && |rest| <= |others|
        invariant turns + |rest| == old(turns) + |others|
        invariant old(workers[w]).Asleep? && |rest| == |others| ==> workers[w].Asleep?
        decreases |rest|
      {
        OthersSpareWorker(State(), rest[0], w);
        Interfere(rest[0], WorkerThread(w));
        rest := rest[1..];
      }
      done := mutex == Nobody && !workers[w].Asleep?;
      if done {
        LockForWorker(w);
      }
    }

    /** Sleeps on the condition variable, and takes the mutex back after a wakeup, as long as the schedule goes. */
    method SleepOnce(w: Id, others: seq<seq<Action<T>>>) returns (done: bool, rest: seq<seq<Action<T>>>)
      requires Valid() && At(State(), w, Blocking)
      modifies this
      ensures Valid() && TakenBy(removed, w) == TakenBy(old(removed), w)
      ensures done ==> At(State(), w, Deciding) && |rest| < |others|
      ensures |rest| <= |others| && turns + |rest| == old(turns) + |others| && (!done ==> rest == [])
    {
      hide Sound;
      rest := Pause(w, others);
      Sleep(w);
      done, rest := AwaitMutex(w, rest);
    }

    /** Waits on the condition variable until its condition holds, as long as the schedule goes. */
    method AwaitTask(w: Id, others: seq<seq<Action<T>>>) returns (done: bool, rest: seq<seq<Action<T>>>)
      requires Valid() && At(State(), w, Deciding)
      modifies this
      ensures Valid() && TakenBy(removed, w) == TakenBy(old(removed), w)
      ensures done ==> At(State(), w, Reloading)
      ensures |rest| <= |others| && turns + |rest| == old(turns) + |others| && (!done ==> rest == [])
    {
      hide Sound;
      rest := Pause(w, others);
      var goOn := DecideToGoOn(w);
      while !goOn
        invariant Valid() && At(State(), w, if goOn then Reloading else Blocking)
        invariant TakenBy(removed, w) == TakenBy(old(removed), w) && |rest| <= |others|
        invariant turns + |rest| == old(turns) + |others|
        decreases |rest|, !goOn
      {
        done, rest := SleepOnce(w, rest);
        if !done {
          return;
        }
        rest := Pause(w, rest);
        goOn := DecideToGoOn(w);
      }
      done := true;
    }

    method ExecuteTask(w: Id, others: seq<seq<Action<T>>>) returns (rest: seq<seq<Action<T>>>)
      requires Valid() && w in workers && workers[w].Executing?
      modifies this
      ensures Valid() && TakenBy(removed, w) == TakenBy(old(removed), w)
      ensures At(State(), w, Testing) && |rest| <= |others| && turns + |rest| == old(turns) + |others|
    {
      hide Sound;
      rest := Pause(w, others);
      FinishTask(w);
    }

    /** Takes a task, lets go of the mutex and executes the task. */
    method TakeAndExecute(w: Id, others: seq<seq<Action<T>>>) returns (task: T, rest: seq<seq<Action<T>>>)
      requires Valid() && At(State(), w, Taking)
      modifies this
      ensures Valid() && TakenBy(removed, w) == TakenBy(old(removed), w) + [task]
      ensures At(State(), w, Testing) && |rest| <= |others| && turns + |rest| == old(turns) + |others|
    {
      hide Sound;
      rest := Pause(w, others);
      task := TakeTask(w);
      rest := ExecuteTask(w, rest);
    }

    /** One turn of a worker's loop, its condition already found true; the task it took, if the pool still ran. */
    method WorkerTurn(w: Id, others: seq<seq<Action<T>>>) returns (done: bool, taken: seq<T>, rest: seq<seq<Action<T>>>)
      requires Valid() && At(State(), w, Locking)
      modifies this
      ensures Valid() && TakenBy(removed, w) == TakenBy(old(removed), w) + taken && |taken| <= 1
      ensures done ==> At(State(), w, Testing) && (taken == [] ==> !running)
      ensures |rest| <= |others| && turns + |rest| == old(turns) + |others| && (!done ==> rest == [])
    {
      hide Sound;
      taken := [];
      done, rest := AwaitMutex(w, others);
      if done {
        done, rest := AwaitTask(w, rest);
      }
      if done {
        rest := Pause(w, rest);
        var goOn := ReloadRunning(w);
        if goOn {
          var task;
          task, rest := TakeAndExecute(w, rest);
          taken := [task];
        }
      }
    }

    /**
     The loop of a worker, as long as the schedule goes. It finishes only when the pool has stopped, and at once if
     it had stopped before; it comes back unfinished only at the end of the schedule. What it executes are the tasks
     removed in its name, in that order.
     */
    method WorkerFunc(w: Id, others: seq<seq<Action<T>>>) returns (finished: bool, taken: seq<T>)
      requires Valid() && At(State(), w, Testing)
      modifies this
      ensures Valid() && TakenBy(removed, w) == TakenBy(old(removed), w) + taken
      ensures finished ==> At(State(), w, Finished) && !running
      ensures !finished ==> turns == old(turns) + |others|
      ensures !old(running) && others != [] ==> finished && taken == []
    {
      hide Sound;
      var rest := others;
      taken := [];
      while rest != []
        invariant Valid() && At(State(), w, Testing)
        invariant TakenBy(removed, w) == TakenBy(old(removed), w) + taken && turns + |rest| == old(turns) + |others|
        invariant old(running) || (rest == others && taken == [] && !running)
        decreases |rest|
      {
        var left := Pause(w, rest);
        var goOn := TestRunning(w);
        if !goOn {
          return true, taken;
        }
        var done, more;
        done, more, rest := WorkerTurn(w, left);
        taken := taken + more;
        if !done {
          return false, taken;
        }
      }
      return false, taken;
    }

    // ----- The destructor -----

    method StoreNotRunning()
      requires Valid() && stop == NotStopping
      modifies this`running, this`stop
      ensures Valid() && Some(State()) == Step(old(State()), StoreStop)
    {
      StepKeepsSound(State(), StoreStop);
      running, stop := false, Stored;
    }

    method NotifyAllWorkers()
      requires Valid() && stop == Stored
      modifies this`workers, this`stop
      ensures Valid() && Some(State()) == Step(old(State()), NotifyAll)
    {
      StepKeepsSound(State(), NotifyAll);
      workers := map w | w in workers :: if workers[w].Asleep? then Awoken else workers[w];
      stop := NotifiedAll;
    }
  }
}