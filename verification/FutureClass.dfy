/**
 The state that a promise and its future share, as the mutable object of the source. The worker that sets the
 value and the one that waits for it, a coroutine or a thread that calls get, take turns between any two accesses.
 */
module Futures {
  import opened Options
  import opened FutureProtocol

  /** The worker's next access, if it has one left; `result` is what the function will return. */
  function WorkerMove<R>(c: Call<R>, b: Body<R>, result: R): (Call<R>, Body<R>) {
    match b
    case Started => (c.(outcome := Some(result)), Returned(result))
    case Returned(r) => (if Stored(c, r).Some? then Stored(c, r).value else c, ValueStored)
    case ValueStored => (Notified(c), GetterNotified)
    case GetterNotified => (Written(c), EventWritten)
    case EventWritten => (c, b)
  }

  /** The waiter's next access, if it can make one; `now` tells whether it begins with get itself. */
  function WaiterMove<R>(c: Call<R>, now: bool): Call<R> {
    match c.waiter
    case NotAsked => if now then Called(c) else Asked(c)
    case Reading => if c.counter > 0 then Read(c) else c
    case Granted(_) => if Checked(c).Some? then Checked(c).value else c
    case Getting => Taken(c)
    case _ => c
  }

  ghost predicate SoundCall<R>(c: Call<R>, b: Body<R>) { BodySound(c, b) && WaiterSound(c) }

  /** A move of the worker only moves a waiter that sleeps in get, and never replaces what the function returned. */
  lemma WorkerMoveKeepsSound<R>(c: Call<R>, b: Body<R>, result: R)
    requires SoundCall(c, b)
    ensures var (d, e) := WorkerMove(c, b, result);
            && SoundCall(d, e) && d.origin == c.origin && d.direct == c.direct
            && d.waiter == (if c.waiter.Blocked? && b.ValueStored? then Getting else c.waiter)
            && (if b.Started? then d.outcome == Some(result) else d.outcome == c.outcome)
    ensures b.Returned? ==> Stored(c, b.result).Some?
  {
  }

  lemma WaiterMoveKeepsSound<R>(c: Call<R>, b: Body<R>, now: bool)
    requires SoundCall(c, b)
    ensures var d := WaiterMove(c, now);
            SoundCall(d, b) && d.value == c.value && d.outcome == c.outcome && d.origin == c.origin
  {
  }

  /** What happens while somebody sleeps in get: the worker makes some accesses, or the sleeper wakes for no reason. */
  datatype Nap = Nap(work: nat, spurious: bool)

  class SharedState<R> {
    var value: Option<R>
    var counter: nat                 // of the eventfd
    var waiter: Waiter<R>
    var outcome: Option<R>
    var body: Body<R>                // how far the worker is
    ghost var direct: bool
    ghost const origin: Where

    ghost function State(): Call<R>
      reads this
    {
      Call(value, counter, waiter, direct, outcome, origin)
    }

    ghost predicate Valid()
      reads this
    {
      SoundCall(State(), body)
    }

    constructor (p: Id)
      ensures Valid() && State() == Call(None, 0, NotAsked, false, None, WithPusher(p)) && body == Started
    {
      value, counter, waiter, direct, outcome := None, 0, NotAsked, false, None;
      body, origin := Started, WithPusher(p);
    }

    // ----- Promise -----

    /** The waiter's turn: it makes up to n accesses. */
    method LetWait(n: nat, now: bool)
      requires Valid()
      modifies this`counter, this`waiter, this`direct
      ensures Valid()
    {
      for i := 0 to n
        invariant Valid()
      {
        WaiterMoveKeepsSound(State(), body, now);
        match waiter {
          case NotAsked =>
            direct := now;
            waiter := if now || value.Some? then Getting else Reading;
          case Reading =>
            if counter > 0 {
              waiter, counter := Granted(counter), 0;
            }
          case Granted(count) => waiter := Getting;
          case Getting => waiter := if value.Some? then Got(value.value) else Blocked;
          case _ =>
        }
      }
    }

    /**
     Sets the value, notifies and writes the event, while the waiter takes its turns in between. The waiter may be
     through with all of it before the call returns; if it slept in get, it has been woken.
     */
    method Set(result: R, first: nat, second: nat, third: nat, now: bool)
      requires Valid() && body == Returned(result)
      modifies this
      ensures Valid() && body == EventWritten
      ensures value == outcome == Some(result) && !waiter.Blocked?
    {
      LetWait(first, now);
      WorkerMoveKeepsSound(State(), body, result);
      value, body := Some(result), ValueStored;
      LetWait(second, now);
      WorkerMoveKeepsSound(State(), body, result);
      waiter, body := if waiter.Blocked? then Getting else waiter, GetterNotified;
      LetWait(third, now);
      WorkerMoveKeepsSound(State(), body, result);
      counter, body := counter + 1, EventWritten;
    }

    // ----- Future -----

    /** The worker's turn: it makes up to n accesses; `result` is what its function returns, if it has not yet. */
    method LetWork(n: nat, result: R)
      requires Valid()
      modifies this`value, this`counter, this`outcome, this`body, this`waiter
      ensures Valid()
      ensures waiter == old(waiter) || (old(waiter).Blocked? && waiter.Getting? && value.Some?)
      ensures old(outcome).Some? ==> outcome == old(outcome)
      ensures outcome.Some? && old(outcome).None? ==> outcome == Some(result)
      ensures old(value).Some? ==> value == old(value)
    {
      for i := 0 to n
        invariant Valid()
        invariant waiter == old(waiter) || (old(waiter).Blocked? && waiter.Getting? && value.Some?)
        invariant old(outcome).Some? ==> outcome == old(outcome)
        invariant outcome.Some? && old(outcome).None? ==> outcome == Some(result)
        invariant old(value).Some? ==> value == old(value)
      {
        WorkerMoveKeepsSound(State(), body, result);
        match body {
          case Started => outcome, body := Some(result), Returned(result);
          case Returned(r) => value, body := Some(r), ValueStored;
          case ValueStored => waiter, body := if waiter.Blocked? then Getting else waiter, GetterNotified;
          case GetterNotified => counter, body := counter + 1, EventWritten;
          case EventWritten =>
        }
      }
    }

    method Ready() returns (ready: bool)
      requires Valid() && waiter.NotAsked?
      modifies this`waiter
      ensures Valid() && State() == Asked(old(State())) && ready == value.Some?
    {
      WaiterMoveKeepsSound(State(), body, false);
      ready := value.Some?;
      waiter := if ready then Getting else Reading;
    }

    /** One nap of a sleeper. */
    method TakeNap(nap: Nap, result: R)
      requires Valid() && waiter.Blocked?
      modifies this`value, this`counter, this`outcome, this`body, this`waiter
      ensures Valid() && (waiter.Blocked? || waiter.Getting?)
      ensures old(outcome).Some? ==> outcome == old(outcome)
      ensures outcome.Some? && old(outcome).None? ==> outcome == Some(result)
    {
      LetWork(nap.work, result);
      if nap.spurious && waiter.Blocked? {
        waiter := Getting;
      }
    }

    /**
     Takes the value, sleeping as long as it is not there and looking again after every wakeup. If it is there, nothing
     blocks; None when the schedule ends before the worker has notified.
     */
    method Get(naps: seq<Nap>, result: R) returns (got: Option<R>)
      requires Valid() && waiter.Getting?
      modifies this`value, this`counter, this`outcome, this`body, this`waiter
      ensures Valid()
      ensures got.Some? ==> got == outcome && waiter == Got(got.value)
      ensures got.Some? && old(outcome).None? ==> got == Some(result)
      ensures got.None? ==> waiter.Blocked? && (body.Started? || body.Returned? || body.ValueStored?)
      ensures old(value).Some? ==> got == old(value) && State() == old(State()).(waiter := Got(got.value))
    {
      var i := 0;
      while value.None?
        invariant Valid() && waiter.Getting? && i <= |naps|
        invariant old(outcome).Some? ==> outcome == old(outcome)
        invariant outcome.Some? && old(outcome).None? ==> outcome == Some(result)
        invariant old(value).Some? ==> State() == old(State())
        decreases |naps| - i
      {
        waiter := Blocked;
        ghost var before := i;
        while i < |naps| && waiter.Blocked?
          invariant Valid() && before <= i <= |naps| && (waiter.Blocked? || (waiter.Getting? && before < i))
          invariant old(outcome).Some? ==> outcome == old(outcome)
          invariant outcome.Some? && old(outcome).None? ==> outcome == Some(result)
        {
          TakeNap(naps[i], result);
          i := i + 1;
        }
        if waiter.Blocked? {
          return None;
        }
      }
      got := value;
      waiter := Got(value.value);
    }

    /** Calls get without waiting in the event loop first, at any time. */
    method CallAndGet(naps: seq<Nap>, result: R) returns (got: Option<R>)
      requires Valid() && waiter.NotAsked?
      modifies this
      ensures Valid()
      ensures got.Some? ==> got == outcome && waiter == Got(got.value)
      ensures got.Some? && old(outcome).None? ==> got == Some(result)
      ensures got.None? ==> waiter.Blocked? && (body.Started? || body.Returned? || body.ValueStored?)
    {
      WaiterMoveKeepsSound(State(), body, true);
      direct, waiter := true, Getting;
      got := Get(naps, result);
    }

    /**
     Waits for the future in the event loop: takes the fast path, or reads the eventfd and then gets. The worker takes
     its turns before, between and after all accesses; None when the schedule ends before the read is granted.
     */
    method Wait(turns: seq<nat>, late: nat, later: nat, result: R) returns (got: Option<R>)
      requires Valid() && waiter.NotAsked?
      modifies this
      ensures Valid()
      ensures got.Some? ==> got == outcome && waiter == Got(got.value)
      ensures got.Some? && old(outcome).None? ==> got == Some(result)
      ensures got.None? ==> waiter.Reading? && counter == 0 && !body.EventWritten?
    {
      LetWork(late, result);
      var ready := Ready();
      if !ready {
        var i := 0;
        while i < |turns| && (i == 0 || counter == 0)
          invariant Valid() && waiter.Reading?
          invariant old(outcome).Some? ==> outcome == old(outcome)
          invariant outcome.Some? && old(outcome).None? ==> outcome == Some(result)
        {
          LetWork(turns[i], result);
          i := i + 1;
        }
        if counter == 0 {
          return None;
        }
        GetCount(later, result);
      }
      LetWork(later, result);
      got := Get([], result);
    }

    /** The read is granted, and the count is checked to be 1, with the worker in between. */
    method GetCount(later: nat, result: R)
      requires Valid() && waiter.Reading? && counter > 0
      modifies this
      ensures Valid() && waiter.Getting? && value == old(value) && outcome == old(outcome) && value.Some?
    {
      WaiterMoveKeepsSound(State(), body, false);
      var count := counter;
      waiter, counter := Granted(count), 0;
      LetWork(later, result);
      assert count == 1;
      WaiterMoveKeepsSound(State(), body, false);
      waiter := Getting;
    }
  }
}
