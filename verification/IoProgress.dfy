/** The loop gets on: every completion is looked at once, in order, and whoever waits for one in time is resumed. */
module IoProgress {
  import opened Options
  import opened ProbeSequence
  import opened CompleterTable
  import opened IoProtocol
  import opened IoSoundness
  import opened IoGuarantees
  import opened IoEntries
  import opened IoQueues

  function Min(a: nat, b: nat): nat { if a <= b then a else b }

  // ----- What steps do to those who wait -----

  /** The ids that a step registers and those it takes off. */
  function Registers(s: State, x: Action): set<Word> {
    if x.Suspend? && x.awaiter in s.waits.awaiters then {s.waits.awaiters[x.awaiter].operation} else {}
  }

  function TakesOff(s: State, x: Action): set<Word> {
    match x
    case Destroy(a) => if a in s.waits.awaiters then {s.waits.awaiters[a].operation} else {}
    case Cancel(id, dropHandler) => if dropHandler then {id} else {}
    case Peek => if s.ring.looked < |s.ring.cq| then {s.ring.cq[s.ring.looked].userData} else {}
    case _ => {}
  }

  /** How a step changes the set of ids somebody waits for. */
  lemma WaitedForChanges(s: State, x: Action)
    requires s.Sound() && Allowed(s, x)
    ensures Step(s, x).Some?
    ensures WaitedFor(Step(s, x).value.waits) == WaitedFor(s.waits) + Registers(s, x) - TakesOff(s, x)
  {
    StepKeepsSound(s, x);
    KeysAreWaitedFor(s);
    KeysAreWaitedFor(Step(s, x).value);
    hide Step, Allowed, Registers, TakesOff, WaitedFor;
    match x {
      case Suspend(a, p) => SuspendRegisters(s, a, p);
      case Destroy(a) => DestroyTakesOff(s, a);
      case _ => KeysChange(s, x);
    }
  }

  lemma KeysChange(s: State, x: Action)
    requires s.Sound() && Allowed(s, x) && !x.Suspend? && !x.Destroy? && Step(s, x).Some?
    ensures Step(s, x).value.waits.completers.Keys == s.waits.completers.Keys + Registers(s, x) - TakesOff(s, x)
  {
    MagicIsNotAwaited(s);
    hide State.Sound, Allowed;
  }

  lemma SuspendRegisters(s: State, a: Word, p: Word)
    requires s.Sound() && Allowed(s, Suspend(a, p)) && Step(s, Suspend(a, p)).Some?
    ensures Step(s, Suspend(a, p)).value.waits.completers.Keys
            == s.waits.completers.Keys + Registers(s, Suspend(a, p)) - TakesOff(s, Suspend(a, p))
  {
    hide State.Sound;
  }

  lemma DestroyTakesOff(s: State, a: Word)
    requires s.Sound() && a in s.waits.awaiters && Step(s, Destroy(a)).Some?
    ensures Step(s, Destroy(a)).value.waits.completers.Keys
            == s.waits.completers.Keys + Registers(s, Destroy(a)) - TakesOff(s, Destroy(a))
  {
    MagicIsNotAwaited(s);
    hide State.Sound;
  }

  lemma MagicIsNotAwaited(s: State)
    requires s.Sound()
    ensures OPID_INVALID !in s.waits.completers && OPID_IGNORE !in s.waits.completers
  {
    forall id | id in s.waits.completers ensures id < IDS { RegisteredIsAwaited(s.waits, id); }
  }

  // ----- Looking -----

  /** Looking consumes: what was looked at is passed, whether or not somebody waits for it. */
  lemma LookAdvances(s: State)
    requires s.Sound() && s.phase == Peeking
    ensures Step(s, Peek).Some? && Step(s, Peek).value.ring.cq == s.ring.cq
    ensures Step(s, Peek).value.ring.looked == Min(s.ring.looked + 1, |s.ring.cq|)
    ensures Step(s, Peek).value.phase != Peeking
  {
    PeekKeepsSound(s);
  }

  function Peeks(xs: seq<Action>): nat {
    if xs == [] then 0 else (if xs[0].Peek? then 1 else 0) + Peeks(xs[1..])
  }

  lemma {:induction false} PeeksOfSum(xs: seq<Action>, ys: seq<Action>)
    ensures Peeks(xs + ys) == Peeks(xs) + Peeks(ys)
    decreases |xs|
  {
    if xs == [] {
      assert xs + ys == ys;
    } else {
      assert (xs + ys)[1..] == xs[1..] + ys;
      PeeksOfSum(xs[1..], ys);
    }
  }

  /** Only looking moves the loop on in the completion queue. */
  lemma LooksOfStep(s: State, x: Action)
    requires s.Sound() && Allowed(s, x)
    ensures Step(s, x).Some? && s.ring.looked <= |s.ring.cq| <= |Step(s, x).value.ring.cq|
    ensures Step(s, x).value.ring.looked == if x.Peek? then Min(s.ring.looked + 1, |s.ring.cq|) else s.ring.looked
  {
    StepKeepsSound(s, x);
    SubmittedIsFixed(s, x);
    if x.Peek? { LookAdvances(s); }
    assert s.ring.LastSound();
    hide State.Sound;
  }

  lemma RunUnfolds(s: State, xs: seq<Action>)
    requires s.Sound() && AllowedRun(s, xs) && xs != []
    ensures Allowed(s, xs[0]) && Step(s, xs[0]).Some? && Step(s, xs[0]).value.Sound()
    ensures AllowedRun(Step(s, xs[0]).value, xs[1..]) && Run(s, xs) == Run(Step(s, xs[0]).value, xs[1..])
  {
    StepKeepsSound(s, xs[0]);
  }

  lemma LookedInside(s: State)
    requires s.Sound()
    ensures s.ring.looked <= |s.ring.cq| && s.ring.submitted <= |s.ring.sq|
  {
    assert s.ring.LastSound();
  }

  /** Over every run each look passes one completion, if there is one, and none is skipped. */
  lemma {:induction false} LooksOfRun(s: State, xs: seq<Action>)
    requires s.Sound() && AllowedRun(s, xs)
    ensures Run(s, xs).Some?
    ensures Min(s.ring.looked + Peeks(xs), |s.ring.cq|) <= Run(s, xs).value.ring.looked <= s.ring.looked + Peeks(xs)
    decreases |xs|
  {
    hide State.Sound, Step, Allowed, AllowedRun;
    LookedInside(s);
    if xs != [] {
      RunUnfolds(s, xs);
      LooksOfStep(s, xs[0]);
      hide Run;
      LooksOfRun(Step(s, xs[0]).value, xs[1..]);
    }
  }

  // ----- Being served -----

  /** The completion of an operation, once the kernel has posted it. */
  predicate AnsweredAt(s: State, k: nat, j: nat) {
    && k < |s.ring.requests| && s.ring.requests[k].Some? && s.ring.requests[k].value in s.ring.answers
    && s.ring.answers[s.ring.requests[k].value] == j && j < |s.ring.cq|
  }

  lemma AnswerStays(s: State, x: Action, k: nat, j: nat)
    requires s.Sound() && Allowed(s, x) && AnsweredAt(s, k, j)
    ensures Step(s, x).Some? && AnsweredAt(Step(s, x).value, k, j)
  {
    StepKeepsSound(s, x);
    SubmittedIsFixed(s, x);
    assert s.ring.LastSound();
    hide State.Sound;
  }

  lemma {:induction false} AnsweredForever(s: State, xs: seq<Action>, k: nat, j: nat)
    requires s.Sound() && AllowedRun(s, xs) && AnsweredAt(s, k, j)
    ensures Run(s, xs).Some? && AnsweredAt(Run(s, xs).value, k, j)
    decreases |xs|
  {
    if xs != [] {
      StepKeepsSound(s, xs[0]);
      AnswerStays(s, xs[0], k, j);
      hide State.Sound, Step, Allowed, AnsweredAt;
      AnsweredForever(Step(s, xs[0]).value, xs[1..], k, j);
    }
  }

  /** Whoever is resumed is handed what the kernel posted for its operation. */
  lemma ServedWithOwn(s: State, xs: seq<Action>, k: nat, j: nat)
    requires s.Sound() && AllowedRun(s, xs) && AnsweredAt(s, k, j)
    requires Run(s, xs).Some? && HandlerOf(Run(s, xs).value, k).Resumed?
    ensures HandlerOf(Run(s, xs).value, k) == Resumed(s.ring.cq[j].res)
  {
    RunKeepsSound(s, xs);
    SubmittedForever(s, xs);
    AnsweredForever(s, xs, k, j);
    ResultIsOwn(Run(s, xs).value, k);
    hide State.Sound, Run, AllowedRun;
  }

  /** Whoever waits in time waits on, or has been resumed, unless a step has taken the handler away. */
  lemma {:induction false} StillInTime(s: State, xs: seq<Action>, k: nat)
    requires s.Sound() && AllowedRun(s, xs) && WaitsInTime(s, k) && !CutShort(s, xs, k)
    ensures Run(s, xs).Some? && (WaitsInTime(Run(s, xs).value, k) || HandlerOf(Run(s, xs).value, k).Resumed?)
    decreases |xs|
  {
    if xs != [] {
      RunUnfolds(s, xs);
      StepOfWaiter(s, xs[0], k);
      var t := Step(s, xs[0]).value;
      hide State.Sound, Step, Allowed, AllowedRun, Run;
      if WaitsInTime(t, k) { StillInTime(t, xs[1..], k); } else { ResumedForever(t, xs[1..], k); }
    }
  }

  /**
   Over every run in which the loop looks often enough to get to its completion, an operation that somebody waits for
   in time completes with the result the kernel posted, unless a step takes its handler away first.
   */
  lemma LooksServe(s: State, xs: seq<Action>, k: nat, j: nat)
    requires s.Sound() && AllowedRun(s, xs) && WaitsInTime(s, k) && AnsweredAt(s, k, j)
    requires Peeks(xs) > j - s.ring.looked
    ensures Run(s, xs).Some?
    ensures if CutShort(s, xs, k) then !HandlerOf(Run(s, xs).value, k).Resumed?
            else HandlerOf(Run(s, xs).value, k) == Resumed(s.ring.cq[j].res)
  {
    Fate(s, xs, k);
    LooksOfRun(s, xs);
    AnsweredForever(s, xs, k, j);
    assert Run(s, xs).value.ring.Seen(k);
    hide State.Sound, Run, AllowedRun;
    if !CutShort(s, xs, k) { ServedWithOwn(s, xs, k, j); }
  }

  // ----- The loop -----

  /** Rounds whose submit succeeds. */
  function Looking(rounds: seq<Round>): nat {
    if rounds == [] then 0 else (if rounds[0].ok then 1 else 0) + Looking(rounds[1..])
  }

  lemma {:induction false} NoPeeks(xs: seq<Action>)
    requires forall i :: 0 <= i < |xs| ==> !xs[i].Peek?
    ensures Peeks(xs) == 0
    decreases |xs|
  {
    if xs != [] { NoPeeks(xs[1..]); }
  }

  /** A turn looks exactly once, unless its submit fails. */
  lemma TurnLooks(s: State, r: Round)
    requires r.Proper()
    ensures Peeks(Turn(s, r)) == if r.ok then 1 else 0
  {
    var submit := [Submit(r.count, r.ok)];
    NoPeeks(submit);
    if r.ok {
      var peek := submit + r.kernel + [Peek];
      NoPeeks(submit + r.kernel);
      PeeksOfSum(submit + r.kernel, [Peek]);
      NoPeeks(r.client + [Return]);
      PeeksOfSum(peek, r.client + [Return]);
      assert peek + (r.client + [Return]) == peek + r.client + [Return];
    }
  }

  lemma TurnEndsAtHead(s: State, r: Round)
    requires s.Sound() && s.phase == Head && r.Proper() && AllowedRun(s, Turn(s, r))
    ensures Run(s, Turn(s, r)).Some? && Run(s, Turn(s, r)).value.Sound() && Run(s, Turn(s, r)).value.phase == Head
  {
    RunKeepsSound(s, Turn(s, r));
    TurnFacts(s, r);
    var s1 := Step(s, Submit(r.count, r.ok)).value;
    SubmitPhase(s, r.count, r.ok);
    hide State.Sound, Turn, Run, AllowedRun, Allowed, Step, Round.Proper;
    if r.ok {
      var s2 := Run(s1, r.kernel).value;
      RunKeepsSound(s1, r.kernel);
      PeekOutcome(s2);
      var s3 := Step(s2, Peek).value;
      if s3.phase == Inside { ReturnPhase(Run(s3, r.client).value); }
    }
  }

  lemma SubmitPhase(s: State, count: nat, ok: bool)
    ensures Step(s, Submit(count, ok)).Some?
    ensures Step(s, Submit(count, ok)).value.phase == if ok then Peeking else Head
  {
  }

  lemma ReturnPhase(s: State)
    ensures Step(s, Return).Some? ==> Step(s, Return).value.phase == Head
  {
  }

  /** The loop goes on, with a look in every round that submits, until nothing is registered. */
  lemma {:induction false} TurnsLook(s: State, rounds: seq<Round>)
    requires s.Sound() && s.phase == Head && (forall i :: 0 <= i < |rounds| ==> rounds[i].Proper())
    requires AllowedRun(s, Turns(s, rounds))
    ensures Run(s, Turns(s, rounds)).Some?
    ensures var t := Run(s, Turns(s, rounds)).value;
            || (t.phase == Outside && t.waits.completers == map[])
            || (t.phase == Head && t.waits.completers != map[] && Peeks(Turns(s, rounds)) == Looking(rounds))
    decreases |rounds|
  {
    if s.waits.completers == map[] || rounds == [] {
      TurnsEnd(s, rounds);
    } else {
      TurnsUnfold(s, rounds);
      TurnEndsAtHead(s, rounds[0]);
      TurnLooks(s, rounds[0]);
      var t := Run(s, Turn(s, rounds[0])).value;
      PeeksOfSum(Turn(s, rounds[0]), Turns(t, rounds[1..]));
      assert Turns(s, rounds) == Turn(s, rounds[0]) + Turns(t, rounds[1..]);
      hide State.Sound, Turn, Turns, Run, AllowedRun, Round.Proper;
      TurnsLook(t, rounds[1..]);
    }
  }

  /**
   The loop serves: with rounds enough to get to its completion, in which clients and kernel do what they like, an
   operation that somebody waits for in time completes, unless a step takes its handler away first. If the loop is
   left before, it has completed already.
   */
  lemma LoopServes(s: State, rounds: seq<Round>, k: nat, j: nat)
    requires s.Sound() && s.phase == Head && (forall i :: 0 <= i < |rounds| ==> rounds[i].Proper())
    requires AllowedRun(s, Turns(s, rounds)) && WaitsInTime(s, k) && AnsweredAt(s, k, j)
    requires Looking(rounds) > j - s.ring.looked
    ensures Run(s, Turns(s, rounds)).Some?
    ensures if CutShort(s, Turns(s, rounds), k) then !HandlerOf(Run(s, Turns(s, rounds)).value, k).Resumed?
            else HandlerOf(Run(s, Turns(s, rounds)).value, k) == Resumed(s.ring.cq[j].res)
  {
    var xs := Turns(s, rounds);
    TurnsLook(s, rounds);
    RunKeepsSound(s, xs);
    var t := Run(s, xs).value;
    hide Run, AllowedRun, Turns, State.Sound;
    if t.phase == Head {
      LooksServe(s, xs, k, j);
    } else {
      Fate(s, xs, k);
      if !CutShort(s, xs, k) {
        StillInTime(s, xs, k);
        if WaitsInTime(t, k) { WaiterFacts(t, k); }
        ServedWithOwn(s, xs, k, j);
      }
    }
  }

  // ----- A loop left to itself -----

  const QUIET: Round := Round(0, true, [], [])

  /** Rounds in which the kernel posts nothing new and coroutines come back at once. */
  function QuietRounds(n: nat): seq<Round> { seq(n, _ => QUIET) }

  predicate OfLoop(x: Action) { x.Submit? || x.Peek? || x.Return? || x.Leave? }

  lemma {:induction false} LoopCutsNobody(s: State, xs: seq<Action>, k: nat)
    requires forall i :: 0 <= i < |xs| ==> OfLoop(xs[i])
    ensures !CutShort(s, xs, k)
    decreases |xs|
  {
    if xs != [] {
      assert OfLoop(xs[0]);
      if Step(s, xs[0]).Some? { LoopCutsNobody(Step(s, xs[0]).value, xs[1..], k); }
    }
  }

  lemma {:induction false} JoinRuns(s: State, xs: seq<Action>, ys: seq<Action>)
    requires AllowedRun(s, xs) && Run(s, xs).Some? && AllowedRun(Run(s, xs).value, ys)
    ensures AllowedRun(s, xs + ys)
    decreases |xs|
  {
    hide Allowed, Step;
    if xs == [] {
      assert xs + ys == ys;
    } else {
      assert (xs + ys)[0] == xs[0] && (xs + ys)[1..] == xs[1..] + ys;
      JoinRuns(Step(s, xs[0]).value, xs[1..], ys);
    }
  }

  lemma StepThen(s: State, x: Action, ys: seq<Action>)
    requires Allowed(s, x) && Step(s, x).Some? && AllowedRun(Step(s, x).value, ys)
    ensures AllowedRun(s, [x] + ys) && Run(s, [x] + ys) == Run(Step(s, x).value, ys)
  {
    hide Allowed, Step;
    assert ([x] + ys)[0] == x && ([x] + ys)[1..] == ys;
  }

  lemma QuietPeek(s: State)
    requires s.Sound() && s.phase == Head && s.waits.completers != map[]
    ensures Allowed(s, Submit(0, true)) && Step(s, Submit(0, true)).Some?
    ensures var s1 := Step(s, Submit(0, true)).value;
            && s1.Sound() && Allowed(s1, Peek) && Step(s1, Peek).Some?
            && Step(s1, Peek).value.Sound() && Step(s1, Peek).value.phase in {Head, Inside}
  {
    var s1 := Step(s, Submit(0, true)).value;
    SubmitKeepsSound(s, 0, true);
    SubmitPhase(s, 0, true);
    PeekKeepsSound(s1);
    PeekOutcome(s1);
    hide State.Sound;
  }

  /** What the loop does in a turn of its own. */
  lemma QuietTurn(s: State)
    requires s.Sound() && s.phase == Head && s.waits.completers != map[]
    ensures AllowedRun(s, Turn(s, QUIET))
    ensures Turn(s, QUIET) == [Submit(0, true), Peek] || Turn(s, QUIET) == [Submit(0, true), Peek, Return]
  {
    hide State.Sound, Allowed, Step;
    QuietPeek(s);
    var s1 := Step(s, Submit(0, true)).value;
    var s2 := Step(s1, Peek).value;
    assert AllowedRun(s2, []) && Run(s2, []) == Some(s2);
    StepThen(s1, Peek, []);
    StepThen(s, Submit(0, true), [Peek]);
    assert [Submit(0, true)] + [] + [Peek] == [Submit(0, true)] + [Peek] == [Submit(0, true), Peek];
    if s2.phase == Inside {
      ReturnsAtOnce(s2);
      StepThen(s1, Peek, [Return]);
      StepThen(s, Submit(0, true), [Peek, Return]);
      assert [Peek] + [Return] == [Peek, Return];
      assert [Submit(0, true)] + [Peek, Return] == [Submit(0, true), Peek, Return];
      assert [Submit(0, true), Peek] + [] + [Return] == [Submit(0, true), Peek, Return];
    }
  }

  lemma ReturnsAtOnce(s: State)
    requires s.Sound() && s.phase == Inside
    ensures AllowedRun(s, [Return])
  {
    ReturnKeepsSound(s);
    assert [Return][1..] == [];
  }

  /** The loop can always go on by itself, for as many rounds as it likes, until nothing is registered. */
  lemma {:induction false} QuietTurns(s: State, n: nat)
    requires s.Sound() && s.phase == Head
    ensures AllowedRun(s, Turns(s, QuietRounds(n)))
    ensures forall i :: 0 <= i < |Turns(s, QuietRounds(n))| ==> OfLoop(Turns(s, QuietRounds(n))[i])
    decreases n
  {
    var rounds := QuietRounds(n);
    if s.waits.completers == map[] {
      assert [Leave][1..] == [];
    } else if n > 0 {
      assert rounds[0] == QUIET && rounds[1..] == QuietRounds(n - 1);
      QuietTurn(s);
      TurnEndsAtHead(s, QUIET);
      var t := Run(s, Turn(s, QUIET)).value;
      hide State.Sound, Turn, Run, AllowedRun, QuietRounds;
      QuietTurns(t, n - 1);
      JoinRuns(s, Turn(s, QUIET), Turns(t, QuietRounds(n - 1)));
    }
  }

  /**
   A loop left to itself resumes, within as many rounds as there are completions it has not looked at, everybody who
   waits in time for an operation the kernel has completed, each with the result of its own operation.
   */
  lemma EverybodyIsServed(s: State, n: nat)
    requires s.Sound() && s.phase == Head && s.ring.looked + n >= |s.ring.cq|
    ensures AllowedRun(s, Turns(s, QuietRounds(n))) && Run(s, Turns(s, QuietRounds(n))).Some?
    ensures forall k: nat, j: nat :: WaitsInTime(s, k) && AnsweredAt(s, k, j) ==>
              HandlerOf(Run(s, Turns(s, QuietRounds(n))).value, k) == Resumed(s.ring.cq[j].res)
  {
    var rounds := QuietRounds(n);
    QuietTurns(s, n);
    RunKeepsSound(s, Turns(s, rounds));
    QuietRoundsLook(n);
    hide State.Sound, Run, AllowedRun, Turns;
    forall k: nat, j: nat | WaitsInTime(s, k) && AnsweredAt(s, k, j)
      ensures HandlerOf(Run(s, Turns(s, rounds)).value, k) == Resumed(s.ring.cq[j].res)
    {
      LoopCutsNobody(s, Turns(s, rounds), k);
      LoopServes(s, rounds, k, j);
    }
  }

  lemma {:induction false} QuietRoundsLook(n: nat)
    ensures Looking(QuietRounds(n)) == n && forall i :: 0 <= i < n ==> QuietRounds(n)[i].Proper()
    decreases n
  {
    if n > 0 {
      assert QuietRounds(n)[1..] == QuietRounds(n - 1);
      QuietRoundsLook(n - 1);
    }
  }
}
