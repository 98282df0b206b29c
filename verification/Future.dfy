/**
 Futures of functions with a result, over the whole pool: any number of submitted functions, executed by the
 workers, each with one waiter in the event loop. A task of the pool is the number of its call.
 */
module FutureProtocol {
  import opened Options
  import Pool = PoolProtocol

  type Id = nat

  /** How far a worker is with the task it executes. */
  datatype Body<R> = Started | Returned(result: R) | ValueStored | GetterNotified | EventWritten

  /** Where the one that waits for the future is: a coroutine of the event loop, or any thread that calls get. */
  datatype Waiter<R> =
    | NotAsked
    | Reading                        // the event was not ready and a read is under way
    | Granted(count: nat)            // the read has completed with the counter of the eventfd
    | Getting                        // in get, about to look for the value
    | Blocked                        // inside get, waiting for the condition variable
    | Got(result: R)

  datatype Where = WithPusher(p: Id) | Pushed(place: nat)

  datatype Call<R> = Call(
    value: Option<R>, counter: nat, waiter: Waiter<R>,
    direct: bool,                    // history: get was called without waiting in the event loop
    outcome: Option<R>,              // history: what the function returned
    origin: Where)                   // history: how the task was queued

  datatype State<R> = State(pool: Pool.State<Id>, bodies: map<Id, Body<R>>, calls: seq<Call<R>>)

  datatype Action<R> =
    | Submit(p: Id)
    | PoolStep(x: Pool.Action<Id>)
    | Invoke(w: Id, result: R)
    | StoreValue(w: Id) | NotifyGetter(w: Id) | WriteEvent(w: Id)
    | Ask(id: Id) | Grant(id: Id) | CheckCount(id: Id)
    | CallGet(id: Id) | Get(id: Id) | WakeGetter(id: Id)

  /** The call a worker executes. */
  function TaskOf<R>(s: State<R>, w: Id): Option<Id> {
    if w in s.pool.workers && s.pool.workers[w].Executing? && s.pool.workers[w].position < |s.pool.removed|
       && s.pool.removed[s.pool.workers[w].position].task < |s.calls|
    then Some(s.pool.removed[s.pool.workers[w].position].task) else None
  }

  predicate BodyAt<R>(s: State<R>, w: Id) { TaskOf(s, w).Some? && w in s.bodies }

  predicate CanStep<R>(s: State<R>, x: Action<R>) {
    match x
    case Submit(p) => Pool.CanStep(s.pool, Pool.CallPush(p, |s.calls|))
    case PoolStep(y) => !y.CallPush? && Pool.CanStep(s.pool, y)
                        && (y.Complete? ==> BodyAt(s, y.w) && s.bodies[y.w].EventWritten?)
    case Invoke(w, _) => BodyAt(s, w) && s.bodies[w].Started?
    case StoreValue(w) => BodyAt(s, w) && s.bodies[w].Returned?
    case NotifyGetter(w) => BodyAt(s, w) && s.bodies[w].ValueStored?
    case WriteEvent(w) => BodyAt(s, w) && s.bodies[w].GetterNotified?
    case Ask(id) => id < |s.calls| && s.calls[id].waiter.NotAsked?
    case Grant(id) => id < |s.calls| && s.calls[id].waiter.Reading? && s.calls[id].counter > 0
    case CheckCount(id) => id < |s.calls| && s.calls[id].waiter.Granted?
    case CallGet(id) => id < |s.calls| && s.calls[id].waiter.NotAsked?
    case Get(id) => id < |s.calls| && s.calls[id].waiter.Getting?
    case WakeGetter(id) => id < |s.calls| && s.calls[id].waiter.Blocked?
  }

  function SetCall<R>(s: State<R>, id: Id, c: Call<R>): State<R>
    requires id < |s.calls|
  {
    s.(calls := s.calls[id := c])
  }

  // ----- The accesses of promise and future -----

  /** Sets the value; None where it was set already, which is asserted not to happen. */
  function Stored<R>(c: Call<R>, r: R): Option<Call<R>> {
    if c.value.Some? then None else Some(c.(value := Some(r)))
  }

  function Notified<R>(c: Call<R>): Call<R> { if c.waiter.Blocked? then c.(waiter := Getting) else c }

  function Written<R>(c: Call<R>): Call<R> { c.(counter := c.counter + 1) }

  function Asked<R>(c: Call<R>): Call<R> { c.(waiter := if c.value.Some? then Getting else Reading) }

  /** The kernel grants the read: it hands over the counter and resets it. */
  function Read<R>(c: Call<R>): Call<R> { c.(waiter := Granted(c.counter), counter := 0) }

  function Checked<R>(c: Call<R>): Option<Call<R>> {
    if c.waiter == Granted(1) then Some(c.(waiter := Getting)) else None
  }

  function Called<R>(c: Call<R>): Call<R> { c.(waiter := Getting, direct := true) }

  /** Takes the value or, in the same step, lets go of the mutex and sleeps. */
  function Taken<R>(c: Call<R>): Call<R> {
    c.(waiter := if c.value.Some? then Got(c.value.value) else Blocked)
  }

  // ----- Steps -----

  /** A step of the pool; a task that enters the queue or a worker's hands is followed there. */
  function PoolStepped<R>(s: State<R>, x: Pool.Action<Id>): Option<State<R>>
    requires !x.CallPush? && Pool.CanStep(s.pool, x)
  {
    var t := Pool.Step(s.pool, x);
    if t.None? then None
    else if x.Enqueue? && s.pool.pushers[x.p].task < |s.calls| then
      var id := s.pool.pushers[x.p].task;
      Some(SetCall(s, id, s.calls[id].(origin := Pushed(|s.pool.pushed|))).(pool := t.value))
    else if x.Take? then Some(s.(pool := t.value, bodies := s.bodies[x.w := Started]))
    else Some(s.(pool := t.value))
  }

  /** One step; None where the pool fails, or an assertion does: a value set twice, a read of something other than 1. */
  function Step<R>(s: State<R>, x: Action<R>): Option<State<R>>
    requires CanStep(s, x)
  {
    match x
    case Submit(p) =>
      var t := Pool.Step(s.pool, Pool.CallPush(p, |s.calls|));
      if t.None? then None
      else Some(s.(pool := t.value, calls := s.calls + [Call(None, 0, NotAsked, false, None, WithPusher(p))]))
    case PoolStep(y) => PoolStepped(s, y)
    case Invoke(w, r) =>
      var id := TaskOf(s, w).value;
      Some(SetCall(s, id, s.calls[id].(outcome := Some(r))).(bodies := s.bodies[w := Returned(r)]))
    case StoreValue(w) =>
      var id := TaskOf(s, w).value;
      var c := Stored(s.calls[id], s.bodies[w].result);
      if c.None? then None else Some(SetCall(s, id, c.value).(bodies := s.bodies[w := ValueStored]))
    case NotifyGetter(w) =>
      var id := TaskOf(s, w).value;
      Some(SetCall(s, id, Notified(s.calls[id])).(bodies := s.bodies[w := GetterNotified]))
    case WriteEvent(w) =>
      var id := TaskOf(s, w).value;
      Some(SetCall(s, id, Written(s.calls[id])).(bodies := s.bodies[w := EventWritten]))
    case Ask(id) => Some(SetCall(s, id, Asked(s.calls[id])))
    case Grant(id) => Some(SetCall(s, id, Read(s.calls[id])))
    case CheckCount(id) =>
      var c := Checked(s.calls[id]);
      if c.None? then None else Some(SetCall(s, id, c.value))
    case CallGet(id) => Some(SetCall(s, id, Called(s.calls[id])))
    case Get(id) => Some(SetCall(s, id, Taken(s.calls[id])))
    case WakeGetter(id) => Some(SetCall(s, id, Notified(s.calls[id])))
  }

  predicate CanRun<R>(s: State<R>, xs: seq<Action<R>>)
    decreases |xs|
  {
    xs == [] || (CanStep(s, xs[0]) && (Step(s, xs[0]).Some? ==> CanRun(Step(s, xs[0]).value, xs[1..])))
  }

  function Run<R>(s: State<R>, xs: seq<Action<R>>): Option<State<R>>
    requires CanRun(s, xs)
    decreases |xs|
  {
    if xs == [] then Some(s)
    else if Step(s, xs[0]).None? then None
    else Run(Step(s, xs[0]).value, xs[1..])
  }

  ghost predicate Fresh<R>(s: State<R>) { Pool.Fresh(s.pool) && s.bodies == map[] && s.calls == [] }

  // ----- What every step keeps -----

  /** A call is where its history says, and only there. */
  predicate OriginSound<R>(s: State<R>, id: Id) {
    id < |s.calls| ==>
      match s.calls[id].origin
      case WithPusher(p) => p in s.pool.pushers && !s.pool.pushers[p].Notifying? && s.pool.pushers[p].task == id
      case Pushed(n) => n < |s.pool.pushed| && s.pool.pushed[n] == id
  }

  predicate PusherSound<R>(s: State<R>, p: Id) {
    p in s.pool.pushers && !s.pool.pushers[p].Notifying? ==>
      s.pool.pushers[p].task < |s.calls| && s.calls[s.pool.pushers[p].task].origin == WithPusher(p)
  }

  predicate PlaceSound<R>(s: State<R>, n: nat) {
    n < |s.pool.pushed| ==> s.pool.pushed[n] < |s.calls| && s.calls[s.pool.pushed[n]].origin == Pushed(n)
  }

  /** The worker that executes the n-th task right now. */
  predicate ExecutedBy<R>(s: State<R>, n: nat, w: Id) {
    w in s.pool.workers && s.pool.workers[w] == Pool.Executing(n)
  }

  predicate Untouched<R>(c: Call<R>) { c.value.None? && c.counter == 0 && c.outcome.None? }

  ghost predicate Complete<R>(c: Call<R>) { c.value.Some? && c.value == c.outcome && c.counter <= 1 }

  /** The event was written, and is still there for a waiter that has not seen it. */
  ghost predicate Delivered<R>(c: Call<R>) {
    Complete(c) && (c.waiter.NotAsked? || c.waiter.Reading? ==> c.counter == 1) && !c.waiter.Blocked?
  }

  /** What a worker's progress says about the call it executes. */
  ghost predicate BodySound<R>(c: Call<R>, b: Body<R>) {
    match b
    case Started => Untouched(c)
    case Returned(r) => c.value.None? && c.counter == 0 && c.outcome == Some(r)
    case ValueStored => Complete(c) && c.counter == 0
    case GetterNotified => Complete(c) && c.counter == 0 && !c.waiter.Blocked?
    case EventWritten => Delivered(c)
  }

  ghost predicate CallSound<R>(s: State<R>, id: Id) {
    id < |s.calls| ==>
      var c := s.calls[id];
      if c.origin.WithPusher? || c.origin.place >= |s.pool.removed| then Untouched(c)
      else
        var w := s.pool.removed[c.origin.place].worker;
        if ExecutedBy(s, c.origin.place, w) then w in s.bodies && BodySound(c, s.bodies[w]) else Delivered(c)
  }

  /** What the waiter may rely on. */
  ghost predicate WaiterSound<R>(c: Call<R>) {
    match c.waiter
    case Granted(n) => n == 1 && c.value.Some?
    case Getting => c.value.Some? || c.direct
    case Blocked => c.direct
    case Got(r) => c.outcome == Some(r)
    case _ => true
  }

  ghost predicate WaiterSoundAt<R>(s: State<R>, id: Id) { id < |s.calls| ==> WaiterSound(s.calls[id]) }

  ghost predicate Sound<R>(s: State<R>) {
    && Pool.Sound(s.pool)
    && (forall id: Id {:trigger OriginSound(s, id)} :: OriginSound(s, id))
    && (forall p: Id {:trigger PusherSound(s, p)} :: PusherSound(s, p))
    && (forall n: nat {:trigger PlaceSound(s, n)} :: PlaceSound(s, n))
    && (forall id: Id {:trigger CallSound(s, id)} :: CallSound(s, id))
    && (forall id: Id {:trigger WaiterSoundAt(s, id)} :: WaiterSoundAt(s, id))
  }

  // ----- Steps on one call -----

  /** The call a worker executes is the one its place in the queue says. */
  lemma ExecutedCall<R>(s: State<R>, w: Id)
    requires Sound(s) && w in s.pool.workers && s.pool.workers[w].Executing?
    ensures var n := s.pool.workers[w].position;
            && n < |s.pool.removed| && s.pool.removed[n].worker == w && TaskOf(s, w) == Some(s.pool.pushed[n])
            && s.calls[s.pool.pushed[n]].origin == Pushed(n)
            && w in s.bodies && BodySound(s.calls[s.pool.pushed[n]], s.bodies[w])
  {
    var n := s.pool.workers[w].position;
    assert Pool.WorkerSound(s.pool, w) && PlaceSound(s, n);
    assert Pool.TasksOf(s.pool.removed)[n] == s.pool.pushed[n];
    assert CallSound(s, s.pool.pushed[n]);
  }

  /** Changing one call, and the progress of the worker that executes it, when it stays sound. */
  lemma CallStepKeepsSound<R>(s: State<R>, w: Id, c: Call<R>, b: Body<R>)
    requires Sound(s) && w in s.pool.workers && s.pool.workers[w].Executing? && TaskOf(s, w).Some?
    requires c.origin == s.calls[TaskOf(s, w).value].origin && BodySound(c, b) && WaiterSound(c)
    ensures Sound(SetCall(s, TaskOf(s, w).value, c).(bodies := s.bodies[w := b]))
  {
    ExecutedCall(s, w);
    var t := SetCall(s, TaskOf(s, w).value, c).(bodies := s.bodies[w := b]);
    forall i: Id ensures OriginSound(t, i) { assert OriginSound(s, i); }
    forall p: Id ensures PusherSound(t, p) { assert PusherSound(s, p); }
    forall n: nat ensures PlaceSound(t, n) { assert PlaceSound(s, n); }
    forall i: Id ensures CallSound(t, i) { assert CallSound(s, i) && OriginSound(s, i); }
    forall i: Id ensures WaiterSoundAt(t, i) { assert WaiterSoundAt(s, i); }
  }

  lemma WorkerStepKeepsSound<R>(s: State<R>, x: Action<R>)
    requires Sound(s) && CanStep(s, x) && (x.Invoke? || x.StoreValue? || x.NotifyGetter? || x.WriteEvent?)
    ensures Step(s, x).Some? && Sound(Step(s, x).value)
  {
    ExecutedCall(s, x.w);
    var id := TaskOf(s, x.w).value;
    assert WaiterSoundAt(s, id);
    var t := Step(s, x).value;
    CallStepKeepsSound(s, x.w, t.calls[id], t.bodies[x.w]);
  }

  predicate OfWaiter<R>(x: Action<R>) {
    x.Ask? || x.Grant? || x.CheckCount? || x.CallGet? || x.Get? || x.WakeGetter?
  }

  /** What a waiter's step does to its call, with the worker of the call at any point. */
  lemma WaiterStepOfCall<R>(s: State<R>, x: Action<R>)
    requires Sound(s) && CanStep(s, x) && OfWaiter(x)
    ensures Step(s, x).Some?
    ensures var t := Step(s, x).value;
            && t.pool == s.pool && t.bodies == s.bodies && |t.calls| == |s.calls|
            && t == SetCall(s, x.id, t.calls[x.id])
            && t.calls[x.id].origin == s.calls[x.id].origin && CallSound(t, x.id) && WaiterSound(t.calls[x.id])
  {
    assert CallSound(s, x.id) && WaiterSoundAt(s, x.id);
    hide Sound;
  }

  /** A step of a waiter only changes what the worker does not look at, and the counter it has just seen. */
  lemma WaiterStepKeepsSound<R>(s: State<R>, x: Action<R>)
    requires Sound(s) && CanStep(s, x) && OfWaiter(x)
    ensures Step(s, x).Some? && Sound(Step(s, x).value)
  {
    WaiterStepOfCall(s, x);
    var t := Step(s, x).value;
    hide Step, CanStep;
    forall i: Id ensures OriginSound(t, i) { assert OriginSound(s, i); }
    forall p: Id ensures PusherSound(t, p) { assert PusherSound(s, p); }
    forall n: nat ensures PlaceSound(t, n) { assert PlaceSound(s, n); }
    forall i: Id ensures CallSound(t, i) { assert CallSound(s, i); }
    forall i: Id ensures WaiterSoundAt(t, i) { assert WaiterSoundAt(s, i); }
  }

  // ----- Steps of the pool -----

  lemma SubmitKeepsSound<R>(s: State<R>, p: Id)
    requires Sound(s) && CanStep(s, Submit(p))
    ensures Step(s, Submit(p)).Some? && Sound(Step(s, Submit(p)).value)
  {
    Pool.StepKeepsSound(s.pool, Pool.CallPush(p, |s.calls|));
    var t := Step(s, Submit(p)).value;
    forall i: Id ensures OriginSound(t, i) { assert OriginSound(s, i); }
    forall q: Id ensures PusherSound(t, q) { assert PusherSound(s, q); }
    forall n: nat ensures PlaceSound(t, n) { assert PlaceSound(s, n); }
    forall i: Id ensures CallSound(t, i) { assert CallSound(s, i); }
    forall i: Id ensures WaiterSoundAt(t, i) { assert WaiterSoundAt(s, i); }
  }

  lemma EnqueueKeepsSound<R>(s: State<R>, p: Id)
    requires Sound(s) && CanStep(s, PoolStep(Pool.Enqueue(p)))
    ensures Step(s, PoolStep(Pool.Enqueue(p))).Some? && Sound(Step(s, PoolStep(Pool.Enqueue(p))).value)
  {
    Pool.StepKeepsSound(s.pool, Pool.Enqueue(p));
    assert PusherSound(s, p);
    var t := Step(s, PoolStep(Pool.Enqueue(p))).value;
    assert CallSound(s, s.pool.pushers[p].task);
    assert |s.pool.removed| <= |s.pool.pushed|;
    forall i: Id ensures OriginSound(t, i) { assert OriginSound(s, i); }
    forall q: Id ensures PusherSound(t, q) { assert PusherSound(s, q); }
    forall n: nat ensures PlaceSound(t, n) { assert PlaceSound(s, n); }
    forall i: Id ensures CallSound(t, i) { assert CallSound(s, i); }
    forall i: Id ensures WaiterSoundAt(t, i) { assert WaiterSoundAt(s, i); }
  }

  lemma TakeKeepsSound<R>(s: State<R>, w: Id)
    requires Sound(s) && CanStep(s, PoolStep(Pool.Take(w)))
    ensures Step(s, PoolStep(Pool.Take(w))).Some? && Sound(Step(s, PoolStep(Pool.Take(w))).value)
  {
    Pool.StepKeepsSound(s.pool, Pool.Take(w));
    var t := Step(s, PoolStep(Pool.Take(w))).value;
    var n := |s.pool.removed|;
    assert s.pool.pushed[n] == s.pool.tasks[0];
    assert PlaceSound(s, n);
    forall i: Id ensures OriginSound(t, i) { assert OriginSound(s, i); }
    forall q: Id ensures PusherSound(t, q) { assert PusherSound(s, q); }
    forall m: nat ensures PlaceSound(t, m) { assert PlaceSound(s, m); }
    forall i: Id ensures CallSound(t, i) { assert CallSound(s, i) && OriginSound(s, i); }
    forall i: Id ensures WaiterSoundAt(t, i) { assert WaiterSoundAt(s, i); }
  }

  /** The other steps of the pool move no task; a worker that completes one has written its event. */
  lemma OtherPoolStepKeepsSound<R>(s: State<R>, x: Pool.Action<Id>)
    requires Sound(s) && CanStep(s, PoolStep(x)) && !x.Enqueue? && !x.Take?
    ensures Step(s, PoolStep(x)).Some? && Sound(Step(s, PoolStep(x)).value)
  {
    Pool.StepKeepsSound(s.pool, x);
    if x.Complete? { ExecutedCall(s, x.w); }
    var t := Step(s, PoolStep(x)).value;
    PoolStepSpares(s, x);
    forall i: Id ensures OriginSound(t, i) { assert OriginSound(s, i); }
    forall q: Id ensures PusherSound(t, q) { assert PusherSound(s, q); }
    forall m: nat ensures PlaceSound(t, m) { assert PlaceSound(s, m); }
    forall i: Id ensures CallSound(t, i) { assert CallSound(s, i) && OriginSound(s, i); }
    forall i: Id ensures WaiterSoundAt(t, i) { assert WaiterSoundAt(s, i); }
  }

  lemma PoolStepSpares<R>(s: State<R>, x: Pool.Action<Id>)
    requires CanStep(s, PoolStep(x)) && !x.Enqueue? && !x.Take? && Pool.Step(s.pool, x).Some?
    ensures var t := Pool.Step(s.pool, x).value;
            && t.pushed == s.pool.pushed && t.removed == s.pool.removed
            && (forall w, n :: ExecutedBy(s.(pool := t), n, w) <==> ExecutedBy(s, n, w) && x != Pool.Complete(w))
            && (forall p :: p in s.pool.pushers && !s.pool.pushers[p].Notifying? ==>
                  p in t.pushers && !t.pushers[p].Notifying? && t.pushers[p].task == s.pool.pushers[p].task)
            && (forall p :: p in t.pushers ==>
                  p in s.pool.pushers && (t.pushers[p].Notifying? <==> s.pool.pushers[p].Notifying?))
  {
  }

  lemma StepKeepsSound<R>(s: State<R>, x: Action<R>)
    requires Sound(s) && CanStep(s, x)
    ensures Step(s, x).Some? && Sound(Step(s, x).value)
  {
    hide Sound, CanStep, Step;
    match x
    case Submit(p) => SubmitKeepsSound(s, p);
    case PoolStep(y) =>
      if y.Enqueue? { EnqueueKeepsSound(s, y.p); } else if y.Take? { TakeKeepsSound(s, y.w); }
      else { OtherPoolStepKeepsSound(s, y); }
    case Invoke(_, _) => WorkerStepKeepsSound(s, x);
    case StoreValue(_) => WorkerStepKeepsSound(s, x);
    case NotifyGetter(_) => WorkerStepKeepsSound(s, x);
    case WriteEvent(_) => WorkerStepKeepsSound(s, x);
    case _ => WaiterStepKeepsSound(s, x);
  }

  lemma FreshIsSound<R>(s: State<R>)
    requires Fresh(s)
    ensures Sound(s)
  {
    Pool.FreshIsSound(s.pool);
    forall i: Id ensures OriginSound(s, i) && PusherSound(s, i) && PlaceSound(s, i) {}
    forall i: Id ensures CallSound(s, i) && WaiterSoundAt(s, i) {}
  }

  /** Over every run no value is set twice, granted reads see exactly 1, and no task is taken from an empty queue. */
  lemma {:induction false} RunKeepsSound<R>(s: State<R>, xs: seq<Action<R>>)
    requires Sound(s) && CanRun(s, xs)
    ensures Run(s, xs).Some? && Sound(Run(s, xs).value)
    decreases |xs|
  {
    if xs != [] {
      StepKeepsSound(s, xs[0]);
      RunKeepsSound(Step(s, xs[0]).value, xs[1..]);
    }
  }

  // ----- What follows -----

  /** A granted read has seen exactly 1, and only after the value was set. */
  lemma GrantMeansValue<R>(s: State<R>, id: Id)
    requires Sound(s) && id < |s.calls| && s.calls[id].waiter.Granted?
    ensures s.calls[id].waiter.count == 1 && s.calls[id].value.Some? && s.calls[id].value == s.calls[id].outcome
  {
    assert WaiterSoundAt(s, id) && CallSound(s, id);
  }

  /**
   The waiter gets exactly what the function returned. One that has waited in the event loop never blocks in get; one
   that calls get right away blocks exactly if the value is not there yet.
   */
  lemma GetReturnsOutcome<R>(s: State<R>, id: Id)
    requires Sound(s) && id < |s.calls|
    ensures s.calls[id].waiter.Blocked? ==> s.calls[id].direct
    ensures CanStep(s, Get(id)) ==>
              var t := Step(s, Get(id)).value.calls[id].waiter;
              if s.calls[id].direct && s.calls[id].value.None? then t == Blocked
              else s.calls[id].outcome.Some? && t == Got(s.calls[id].outcome.value)
    ensures s.calls[id].waiter.Got? ==> s.calls[id].outcome == Some(s.calls[id].waiter.result)
  {
    assert WaiterSoundAt(s, id) && CallSound(s, id);
  }

  /** Whoever blocks in get is still to be notified: the worker has not got there, or has the notification ahead. */
  lemma BlockedIsNotified<R>(s: State<R>, id: Id)
    requires Sound(s) && id < |s.calls| && s.calls[id].waiter.Blocked?
    ensures var o := s.calls[id].origin;
            || o.WithPusher? || o.place >= |s.pool.removed|
            || (var w := s.pool.removed[o.place].worker;
                && ExecutedBy(s, o.place, w) && w in s.bodies
                && !s.bodies[w].GetterNotified? && !s.bodies[w].EventWritten?)
    ensures forall w :: CanStep(s, NotifyGetter(w)) && TaskOf(s, w) == Some(id) ==>
              Step(s, NotifyGetter(w)).value.calls[id].waiter.Getting? && s.calls[id].value.Some?
  {
    assert CallSound(s, id);
    forall w | CanStep(s, NotifyGetter(w)) && TaskOf(s, w) == Some(id) ensures s.calls[id].value.Some? {
      ExecutedCall(s, w);
    }
  }

  /** A value that is there is got without reading the event, in two steps. */
  lemma ReadyIsFast<R>(s: State<R>, id: Id)
    requires Sound(s) && CanStep(s, Ask(id)) && s.calls[id].value.Some?
    ensures Step(s, Ask(id)).Some? && CanStep(Step(s, Ask(id)).value, Get(id))
    ensures Step(Step(s, Ask(id)).value, Get(id)).Some?
    ensures var c := Step(Step(s, Ask(id)).value, Get(id)).value.calls[id];
            c.waiter == Got(s.calls[id].value.value) && c.counter == s.calls[id].counter
            && c.outcome == s.calls[id].value
  {
    assert CallSound(s, id);
  }

  /** Once a call is over and its waiter reads, the read can be granted: no result is kept from its waiter. */
  lemma ReaderIsServed<R>(s: State<R>, id: Id)
    requires Sound(s) && id < |s.calls| && s.calls[id].waiter.Reading?
    requires s.calls[id].origin.Pushed? && s.calls[id].origin.place < |s.pool.removed|
    requires !ExecutedBy(s, s.calls[id].origin.place, s.pool.removed[s.calls[id].origin.place].worker)
    ensures CanStep(s, Grant(id))
  {
    assert CallSound(s, id);
  }

  /** The function of a call is invoked at most once, and what it returned is never replaced. */
  lemma InvokedOnce<R>(s: State<R>, x: Action<R>, id: Id)
    requires Sound(s) && CanStep(s, x) && id < |s.calls| && s.calls[id].outcome.Some?
    ensures Step(s, x).Some? && id < |Step(s, x).value.calls|
    ensures Step(s, x).value.calls[id].outcome == s.calls[id].outcome
    ensures x.Invoke? ==> TaskOf(s, x.w) != Some(id)
  {
    StepKeepsSound(s, x);
    if x.Invoke? { ExecutedCall(s, x.w); }
  }

  /**
   From a new pool, every run: no value is set twice, every granted read sees exactly 1, no waiter of the event loop
   ever blocks in get, and whoever got a result got the one its function returned.
   */
  lemma EveryRun<R>(s: State<R>, xs: seq<Action<R>>, id: Id)
    requires Fresh(s) && CanRun(s, xs)
    ensures Run(s, xs).Some?
    ensures var t := Run(s, xs).value;
            id < |t.calls| ==>
              && (t.calls[id].waiter.Blocked? ==> t.calls[id].direct)
              && (t.calls[id].waiter.Granted? ==> t.calls[id].waiter.count == 1 && t.calls[id].value.Some?)
              && (t.calls[id].waiter.Got? ==> t.calls[id].outcome == Some(t.calls[id].waiter.result))
  {
    FreshIsSound(s);
    RunKeepsSound(s, xs);
    assert WaiterSoundAt(Run(s, xs).value, id);
  }
}
