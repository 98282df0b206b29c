/**
 Runs from a new event loop, of any capacity and of any depth of the ring that has enough entries, in which something
 goes wrong that one might think cannot: a handler that is called after its operation was cancelled with it, an
 operation awaited too late, and a timeout the ring has no entry for.
 */
module IoExamples {
  import opened Options
  import opened ProbeSequence
  import opened CompleterTable
  import opened IoProtocol
  import opened IoSoundness
  import opened IoGuarantees
  import opened IoEntries

  predicate StepsTo(s: State, x: Action, t: State) {
    Allowed(s, x) && Step(s, x) == Some(t)
  }

  /** Allowed steps from state to state make an allowed run. */
  lemma {:induction false} Chain(at: nat -> State, xs: seq<Action>, i: nat)
    requires i <= |xs| && forall j: nat :: i <= j < |xs| ==> StepsTo(at(j), xs[j], at(j + 1))
    ensures AllowedRun(at(i), xs[i..]) && Run(at(i), xs[i..]) == Some(at(|xs|))
    decreases |xs| - i
  {
    hide Allowed, Step;
    if i < |xs| {
      assert StepsTo(at(i), xs[i], at(i + 1));
      assert xs[i..][0] == xs[i] && xs[i..][1..] == xs[i + 1..];
      Chain(at, xs, i + 1);
    }
  }

  // ----- A handler cancelled too early -----

  const EARLY_CANCEL: seq<Action> :=
    [Issue, Cancel(0, true), Create(1, 0), Suspend(1, 2), Enter, Submit(2, true), Answer(0, -125), Peek]

  /** The states of this run, after its first i steps. */
  function EarlyCancelState(capacity: nat, depth: nat, i: nat): State {
    var request, cancel := Sqe(0, Request(0), false), Sqe(OPID_IGNORE, AsyncCancel(0), false);
    var sq := if i == 0 then [] else if i == 1 then [request] else [request, cancel];
    var ring := Ring(depth, sq, if i < 6 then 0 else 2, if i == 0 || i >= 6 then None else Some(|sq| - 1),
                     if i < 7 then [] else [Cqe(0, 0, -125)], if i < 8 then 0 else 1,
                     if i < 7 then map[] else map[0 := 0], if i == 0 then [] else [Some(0)]);
    var awaiter := if i < 8 then Awaiter(0, i >= 4, None, false) else Awaiter(OPID_INVALID, false, Some(-125), false);
    var handler := if i < 3 then Unawaited else if i == 3 then Created(1)
                   else if i < 8 then Waiting(1) else Resumed(-125);
    var waits := Waits(if i < 4 || i == 8 then map[] else map[0 := 2], if i < 4 then map[] else map[2 := 1],
                       if i < 3 then map[] else map[1 := awaiter], if i < 8 then None else Some(2),
                       if i == 0 then [] else [handler], if i == 0 then map[] else map[0 := 0]);
    var phase := if i < 5 then Outside else if i == 5 then Head else if i < 8 then Peeking else Inside;
    State(capacity, if i == 0 then 0 else 1, ring, waits, phase)
  }

  lemma EarlyCancelIssues(capacity: nat, depth: nat, i: nat)
    requires capacity >= 1 && depth >= 2
    requires i < 2
    ensures StepsTo(EarlyCancelState(capacity, depth, i), EARLY_CANCEL[i], EarlyCancelState(capacity, depth, i + 1))
  {
    var s, t := EarlyCancelState(capacity, depth, i), EarlyCancelState(capacity, depth, i + 1);
    if i == 0 {
      assert Issued(s).ring.sq == t.ring.sq && Issued(s).ring.requests == t.ring.requests;
      assert Issued(s).waits.handlers == t.waits.handlers;
    } else {
      assert CancelRequested(s, 0, true).value.ring.sq == t.ring.sq;
    }
  }

  lemma EarlyCancelAwaits(capacity: nat, depth: nat, i: nat)
    requires capacity >= 1 && depth >= 2
    requires 2 <= i < 4
    ensures StepsTo(EarlyCancelState(capacity, depth, i), EARLY_CANCEL[i], EarlyCancelState(capacity, depth, i + 1))
  {
    var w, t := EarlyCancelState(capacity, depth, i).waits, EarlyCancelState(capacity, depth, i + 1).waits;
    if i == 2 {
      var v := w.Create(1, 0).value;
      assert v.awaiters == t.awaiters && v.handlers == t.handlers;
    } else {
      assert IsCompleter(2);
      var v := w.Suspend(1, 2).value;
      assert v.completers == t.completers && v.heap == t.heap && v.awaiters == t.awaiters && v.handlers == t.handlers;
    }
  }

  lemma EarlyCancelLoops(capacity: nat, depth: nat, i: nat)
    requires capacity >= 1 && depth >= 2
    requires 4 <= i < 7
    ensures StepsTo(EarlyCancelState(capacity, depth, i), EARLY_CANCEL[i], EarlyCancelState(capacity, depth, i + 1))
  {
    var s, t := EarlyCancelState(capacity, depth, i), EarlyCancelState(capacity, depth, i + 1);
    assert 0 in s.waits.completers;
    if i == 6 {
      assert s.ring.Answer(0, -125).cq == t.ring.cq && s.ring.Answer(0, -125).answers == t.ring.answers;
    }
  }

  lemma EarlyCancelResumes(capacity: nat, depth: nat)
    requires capacity >= 1 && depth >= 2
    ensures StepsTo(EarlyCancelState(capacity, depth, 7), EARLY_CANCEL[7], EarlyCancelState(capacity, depth, 8))
  {
    var s, t := EarlyCancelState(capacity, depth, 7), EarlyCancelState(capacity, depth, 8);
    var w := s.waits.Complete(0, -125).value;
    assert w.completers == t.waits.completers && w.awaiters == t.waits.awaiters && w.handlers == t.waits.handlers;
  }

  /** Cancelling with the handler before anyone waits does not keep a later awaiter from being resumed. */
  lemma EarlyCancelDoesNotStick(capacity: nat, depth: nat)
    requires capacity >= 1 && depth >= 2
    ensures AllowedRun(Start(capacity, depth), EARLY_CANCEL)
    ensures Run(Start(capacity, depth), EARLY_CANCEL) == Some(EarlyCancelState(capacity, depth, 8))
    ensures HandlerOf(EarlyCancelState(capacity, depth, 8), 0) == Resumed(-125)
  {
    assert EarlyCancelState(capacity, depth, 0) == Start(capacity, depth);
    assert HandlerOf(EarlyCancelState(capacity, depth, 8), 0) == Resumed(-125);
    forall j: nat | j < 8
      ensures StepsTo(EarlyCancelState(capacity, depth, j), EARLY_CANCEL[j], EarlyCancelState(capacity, depth, j + 1))
    {
      if j < 2 { EarlyCancelIssues(capacity, depth, j); } else if j < 4 { EarlyCancelAwaits(capacity, depth, j); }
      else if j < 7 { EarlyCancelLoops(capacity, depth, j); } else { EarlyCancelResumes(capacity, depth); }
    }
    hide EarlyCancelState, StepsTo, Run, AllowedRun;
    Chain((i: nat) => EarlyCancelState(capacity, depth, i), EARLY_CANCEL, 0);
    assert EARLY_CANCEL[0..] == EARLY_CANCEL;
  }

  // ----- An operation awaited too late -----

  /** Two operations; the loop looks at the completion of the first, which is awaited only when the second resumes. */
  const LATE_AWAIT: seq<Action> :=
    [Issue, Issue, Create(1, 1), Suspend(1, 2), Enter, Submit(2, true), Answer(0, 7), Peek,
     Submit(0, true), Answer(1, 8), Peek, Create(3, 0), Suspend(3, 4), Return]

  function LateRing(depth: nat, i: nat): Ring {
    var first, second := Sqe(0, Request(0), false), Sqe(1, Request(1), false);
    Ring(depth, if i == 0 then [] else if i == 1 then [first] else [first, second], if i < 6 then 0 else 2,
         if i == 0 || i >= 6 then None else if i == 1 then Some(0) else Some(1),
         if i < 7 then [] else if i < 10 then [Cqe(0, 0, 7)] else [Cqe(0, 0, 7), Cqe(1, 1, 8)],
         if i < 8 then 0 else if i < 11 then 1 else 2,
         if i < 7 then map[] else if i < 10 then map[0 := 0] else map[0 := 0, 1 := 1],
         if i == 0 then [] else if i == 1 then [Some(0)] else [Some(0), Some(1)])
  }

  function LateWaits(i: nat): Waits {
    var first := if i < 12 then Unawaited else if i == 12 then Created(3) else Waiting(3);
    var second := if i < 3 then Unawaited else if i == 3 then Created(1) else if i < 11 then Waiting(1) else Resumed(8);
    var one := if i < 11 then Awaiter(1, i >= 4, None, false) else Awaiter(OPID_INVALID, false, Some(8), false);
    Waits(if i < 4 || i == 11 || i == 12 then map[] else if i < 11 then map[1 := 2] else map[0 := 4],
          if i < 4 then map[] else if i < 13 then map[2 := 1] else if i == 13 then map[2 := 1, 4 := 3] else map[4 := 3],
          if i < 3 then map[] else if i < 12 then map[1 := one]
          else map[1 := one, 3 := Awaiter(0, i >= 13, None, false)],
          if 11 <= i < 14 then Some(2) else None,
          if i == 0 then [] else if i == 1 then [first] else [first, second],
          if i == 0 then map[] else if i == 1 then map[0 := 0] else map[0 := 0, 1 := 1])
  }

  function LateState(capacity: nat, depth: nat, i: nat): State {
    var phase := if i < 5 then Outside else if i == 5 || i == 8 || i == 14 then Head
                 else if i < 11 then Peeking else Inside;
    State(capacity, if i < 2 then i else 2, LateRing(depth, i), LateWaits(i), phase)
  }

  lemma FirstIssues(capacity: nat, depth: nat)
    requires capacity >= 1 && depth >= 2
    ensures StepsTo(LateState(capacity, depth, 0), LATE_AWAIT[0], LateState(capacity, depth, 1))
  {
    var s, t := LateState(capacity, depth, 0), LateState(capacity, depth, 1);
    assert Issued(s).ring.sq == t.ring.sq && Issued(s).ring.requests == t.ring.requests;
    assert Issued(s).waits.handlers == t.waits.handlers && Issued(s).waits.owner == t.waits.owner;
  }

  lemma SecondIssues(capacity: nat, depth: nat)
    requires capacity >= 1 && depth >= 2
    ensures StepsTo(LateState(capacity, depth, 1), LATE_AWAIT[1], LateState(capacity, depth, 2))
  {
    var s, t := LateState(capacity, depth, 1), LateState(capacity, depth, 2);
    assert Issued(s).ring.sq == t.ring.sq && Issued(s).ring.requests == t.ring.requests;
    assert Issued(s).waits.handlers == t.waits.handlers && Issued(s).waits.owner == t.waits.owner;
  }

  lemma LateCreates(capacity: nat, depth: nat, i: nat)
    requires capacity >= 1 && depth >= 2
    requires i == 2 || i == 11
    ensures StepsTo(LateState(capacity, depth, i), LATE_AWAIT[i], LateState(capacity, depth, i + 1))
  {
    var w, t := LateWaits(i), LateWaits(i + 1);
    var v := if i == 2 then w.Create(1, 1).value else w.Create(3, 0).value;
    assert v.awaiters == t.awaiters && v.handlers == t.handlers;
  }

  lemma FirstSuspends(capacity: nat, depth: nat)
    requires capacity >= 1 && depth >= 2
    ensures StepsTo(LateState(capacity, depth, 3), LATE_AWAIT[3], LateState(capacity, depth, 4))
  {
    assert IsCompleter(2);
    var v, t := LateWaits(3).Suspend(1, 2).value, LateWaits(4);
    assert v.completers == t.completers && v.heap == t.heap && v.awaiters == t.awaiters && v.handlers == t.handlers;
  }

  lemma SecondSuspends(capacity: nat, depth: nat)
    requires capacity >= 1 && depth >= 2
    ensures StepsTo(LateState(capacity, depth, 12), LATE_AWAIT[12], LateState(capacity, depth, 13))
  {
    assert IsCompleter(4);
    var v, t := LateWaits(12).Suspend(3, 4).value, LateWaits(13);
    assert v.completers == t.completers && v.heap == t.heap && v.awaiters == t.awaiters && v.handlers == t.handlers;
  }

  lemma LateSubmits(capacity: nat, depth: nat, i: nat)
    requires capacity >= 1 && depth >= 2
    requires i == 5 || i == 8
    ensures StepsTo(LateState(capacity, depth, i), LATE_AWAIT[i], LateState(capacity, depth, i + 1))
  {
    assert 1 in LateWaits(i).completers;
    var count := if i == 5 then 2 else 0;
    assert LateRing(depth, i).Submit(count, true) == LateRing(depth, i + 1) && LateWaits(i) == LateWaits(i + 1);
  }

  lemma LateEnters(capacity: nat, depth: nat)
    requires capacity >= 1 && depth >= 2
    ensures StepsTo(LateState(capacity, depth, 4), LATE_AWAIT[4], LateState(capacity, depth, 5))
  {
    assert LateRing(depth, 4) == LateRing(depth, 5) && LateWaits(4) == LateWaits(5);
  }

  lemma LatePasses(capacity: nat, depth: nat)
    requires capacity >= 1 && depth >= 2
    ensures StepsTo(LateState(capacity, depth, 7), LATE_AWAIT[7], LateState(capacity, depth, 8))
  {
    assert LateRing(depth, 7).(looked := 1) == LateRing(depth, 8) && LateWaits(7) == LateWaits(8);
  }

  lemma LateReturns(capacity: nat, depth: nat)
    requires capacity >= 1 && depth >= 2
    ensures StepsTo(LateState(capacity, depth, 13), LATE_AWAIT[13], LateState(capacity, depth, 14))
  {
    assert LateWaits(13).heap - {2} == LateWaits(14).heap && LateRing(depth, 13) == LateRing(depth, 14);
  }

  lemma LateAnswers(capacity: nat, depth: nat, i: nat)
    requires capacity >= 1 && depth >= 2
    requires i == 6 || i == 9
    ensures StepsTo(LateState(capacity, depth, i), LATE_AWAIT[i], LateState(capacity, depth, i + 1))
  {
    var r := if i == 6 then LateRing(depth, i).Answer(0, 7) else LateRing(depth, i).Answer(1, 8);
    assert r.cq == LateRing(depth, i + 1).cq && r.answers == LateRing(depth, i + 1).answers;
  }

  lemma LateResumes(capacity: nat, depth: nat)
    requires capacity >= 1 && depth >= 2
    ensures StepsTo(LateState(capacity, depth, 10), LATE_AWAIT[10], LateState(capacity, depth, 11))
  {
    var w, t := LateWaits(10).Complete(1, 8).value, LateWaits(11);
    assert w.completers == t.completers && w.awaiters == t.awaiters && w.handlers == t.handlers;
  }

  lemma LateSteps(capacity: nat, depth: nat, i: nat)
    requires capacity >= 1 && depth >= 2
    requires i < 14
    ensures StepsTo(LateState(capacity, depth, i), LATE_AWAIT[i], LateState(capacity, depth, i + 1))
  {
    hide StepsTo, LateState;
    if i == 0 {
      FirstIssues(capacity, depth);
    } else if i == 1 {
      SecondIssues(capacity, depth);
    } else if i == 2 || i == 11 {
      LateCreates(capacity, depth, i);
    } else if i == 3 {
      FirstSuspends(capacity, depth);
    } else if i == 4 {
      LateEnters(capacity, depth);
    } else if i == 5 || i == 8 {
      LateSubmits(capacity, depth, i);
    } else if i == 7 {
      LatePasses(capacity, depth);
    } else if i == 12 {
      SecondSuspends(capacity, depth);
    } else if i == 6 || i == 9 {
      LateAnswers(capacity, depth, i);
    } else if i == 10 {
      LateResumes(capacity, depth);
    } else {
      LateReturns(capacity, depth);
    }
  }

  /** The run ends at the head of the loop, operation 0 awaited too late and nothing more to come from the kernel. */
  lemma LateAwaitHangs(capacity: nat, depth: nat)
    requires capacity >= 1 && depth >= 2
    ensures AllowedRun(Start(capacity, depth), LATE_AWAIT)
    ensures Run(Start(capacity, depth), LATE_AWAIT) == Some(LateState(capacity, depth, 14))
    ensures var s := LateState(capacity, depth, 14);
            && s.phase == Head && s.ring.submitted == |s.ring.sq| && s.ring.looked == |s.ring.cq|
            && HandlerOf(s, 0) == Waiting(3) && !s.ring.Open(0) && !Allowed(s, Leave)
            && forall xs :: AllowedRun(s, xs) && !CutShort(s, xs, 0)
                            ==> Run(s, xs).Some? && !Allowed(Run(s, xs).value, Leave)
  {
    assert LateState(capacity, depth, 0) == Start(capacity, depth);
    LateEnd(capacity, depth);
    hide LateState, StepsTo, Run, AllowedRun, CutShort, Allowed, HandlerOf, Ring.Open;
    forall j: nat | j < 14
      ensures StepsTo(LateState(capacity, depth, j), LATE_AWAIT[j], LateState(capacity, depth, j + 1))
    {
      LateSteps(capacity, depth, j);
    }
    Chain((i: nat) => LateState(capacity, depth, i), LATE_AWAIT, 0);
    assert LATE_AWAIT[0..] == LATE_AWAIT;
    StartIsSound(capacity, depth);
    RunKeepsSound(Start(capacity, depth), LATE_AWAIT);
    var s := LateState(capacity, depth, 14);
    forall xs | AllowedRun(s, xs) && !CutShort(s, xs, 0)
      ensures Run(s, xs).Some? && !Allowed(Run(s, xs).value, Leave)
    {
      LateWaitsForever(s, xs, 0);
    }
  }

  lemma LateEnd(capacity: nat, depth: nat)
    requires capacity >= 1 && depth >= 2
    ensures var s := LateState(capacity, depth, 14);
            && s.phase == Head && s.ring.submitted == |s.ring.sq| && s.ring.looked == |s.ring.cq|
            && HandlerOf(s, 0) == Waiting(3) && !s.ring.Open(0) && !Allowed(s, Leave)
  {
    assert 0 in LateWaits(14).completers;
  }

  // ----- A timeout without an entry -----

  /** A new queue after i operations have been issued. */
  ghost predicate Filled(s: State, depth: nat, i: nat) {
    && s.phase == Outside && s.nextOpId == i && s.ring.depth == depth && s.ring.submitted == 0
    && |s.ring.sq| == |s.ring.requests| == |s.waits.handlers| == i
    && (forall k :: 0 <= k < i ==> s.ring.sq[k] == Sqe(Id(k), Request(k), false) && s.ring.requests[k] == Some(k))
    && (forall id: Word :: id in s.waits.owner <==> id < i)
    && (forall id :: id in s.waits.owner ==> s.waits.owner[id] == id)
    && (i > 0 ==> s.ring.lastSqe == Some(i - 1))
  }

  /** Issues operations until the ring is full. */
  lemma {:induction false} FillRing(s: State, depth: nat, i: nat) returns (t: State)
    requires Filled(s, depth, i) && i <= depth < IDS
    ensures AllowedRun(s, Issues(depth - i)) && Run(s, Issues(depth - i)) == Some(t) && Filled(t, depth, depth)
    decreases depth - i
  {
    t := s;
    if i < depth {
      var xs := Issues(depth - i);
      assert xs[0] == Issue && xs[1..] == Issues(depth - i - 1);
      IssueFills(s, depth, i);
      t := FillRing(Issued(s), depth, i + 1);
    }
  }

  lemma IssueFills(s: State, depth: nat, i: nat)
    requires Filled(s, depth, i) && i < depth < IDS
    ensures Allowed(s, Issue) && Filled(Issued(s), depth, i + 1)
  {
    assert s.FreshId() == i == Id(i);
  }

  lemma {:induction false} RunThen(s: State, xs: seq<Action>, t: State, x: Action)
    requires AllowedRun(s, xs) && Run(s, xs) == Some(t) && Allowed(t, x) && Step(t, x).Some?
    ensures AllowedRun(s, xs + [x]) && Run(s, xs + [x]) == Step(t, x)
    decreases |xs|
  {
    if xs == [] {
      assert [x][0] == x && [x][1..] == [] && xs + [x] == [x];
    } else {
      assert (xs + [x])[0] == xs[0] && (xs + [x])[1..] == xs[1..] + [x];
      RunThen(Step(s, xs[0]).value, xs[1..], t, x);
    }
  }

  /**
   For every capacity and every depth of the ring: when it is full of new operations, a timeout linked to the last of
   them fails and leaves that operation flagged, with nothing behind it.
   */
  lemma FullRingLeavesFlag(capacity: nat, depth: nat)
    requires 0 < depth < IDS
    ensures var xs := Issues(depth) + [Action.LinkTimeout(Id(depth - 1))];
            && AllowedRun(Start(capacity, depth), xs) && Run(Start(capacity, depth), xs).Some?
            && var sq := Run(Start(capacity, depth), xs).value.ring.sq;
               |sq| == depth && sq[depth - 1] == Sqe(Id(depth - 1), Request(depth - 1), true)
  {
    var s := Start(capacity, depth);
    assert forall id: Word :: id in s.waits.owner <==> id < 0;
    var t := FillRing(s, depth, 0);
    FullRingRefuses(t, depth);
    RunThen(s, Issues(depth), t, Action.LinkTimeout(Id(depth - 1)));
  }

  lemma FullRingRefuses(t: State, depth: nat)
    requires Filled(t, depth, depth) && 0 < depth < IDS
    ensures var x := Action.LinkTimeout(Id(depth - 1));
            && Allowed(t, x) && Step(t, x).Some?
            && var sq := Step(t, x).value.ring.sq;
               |sq| == depth && sq[depth - 1] == Sqe(Id(depth - 1), Request(depth - 1), true)
  {
    assert Id(depth - 1) == depth - 1;
  }
}
