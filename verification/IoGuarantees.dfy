/** What the event loop guarantees its clients, in every reachable state and over every run. */
module IoGuarantees {
  import opened Options
  import opened ProbeSequence
  import opened CompleterTable
  import opened IoProtocol
  import opened IoSoundness

  // ----- Awaiters and completers -----

  predicate StillWaiting(w: Waits, a: Word) {
    a in w.awaiters && w.awaiters[a].suspended && !w.awaiters[a].cancelled
  }

  ghost function WaitedFor(w: Waits): set<Word> {
    set a | a in w.awaiters && StillWaiting(w, a) :: w.awaiters[a].operation
  }

  /** An awaiter that is suspended, and not cancelled, is the one its operation's completer points to. */
  lemma WaiterIsRegistered(w: Waits, a: Word)
    requires w.Sound() && StillWaiting(w, a)
    ensures var id := w.awaiters[a].operation;
            id in w.completers && w.completers[id] in w.heap && w.heap[w.completers[id]] == a
  {
    var id := w.awaiters[a].operation;
    assert w.AwaiterSound(a) && w.OwnerSound(id) && w.HandlerSound(w.owner[id]);
  }

  /** The registered ids are exactly those of the suspended awaiters whose handler was not cancelled. */
  lemma KeysAreWaitedFor(s: State)
    requires s.Sound()
    ensures s.waits.completers.Keys == WaitedFor(s.waits)
    ensures forall a, b :: StillWaiting(s.waits, a) && StillWaiting(s.waits, b) && a != b
                           ==> s.waits.awaiters[a].operation != s.waits.awaiters[b].operation
  {
    var w := s.waits;
    forall id | id in w.completers ensures id in WaitedFor(w) {
      RegisteredIsAwaited(w, id);
      assert StillWaiting(w, w.heap[w.completers[id]]);
    }
    forall a | StillWaiting(w, a)
      ensures w.awaiters[a].operation in w.completers
      ensures w.completers[w.awaiters[a].operation] in w.heap && w.heap[w.completers[w.awaiters[a].operation]] == a
    {
      WaiterIsRegistered(w, a);
    }
  }

  /** The loop can be left exactly when no awaiter is still waiting. */
  lemma LeavesWhenNobodyWaits(s: State)
    requires s.Sound()
    ensures Allowed(s, Leave) <==> s.phase == Head && forall a :: !StillWaiting(s.waits, a)
    ensures s.waits.completers == map[] <==> forall a :: !StillWaiting(s.waits, a)
  {
    var w := s.waits;
    KeysAreWaitedFor(s);
    if w.completers == map[] {
      forall a ensures !StillWaiting(w, a) {
        if StillWaiting(w, a) { WaiterIsRegistered(w, a); }
      }
    } else {
      var id :| id in w.completers;
      RegisteredIsAwaited(w, id);
      assert StillWaiting(w, w.heap[w.completers[id]]);
    }
  }

  /** A completer is allocated exactly while it is registered or its coroutine runs. */
  lemma AllocatedIsRegistered(s: State)
    requires s.Sound()
    ensures s.waits.heap.Keys
            == s.waits.completers.Values + (if s.waits.resuming.Some? then {s.waits.resuming.value} else {})
    ensures |s.waits.heap| == |s.waits.completers| + (if s.waits.resuming.Some? then 1 else 0)
  {
    var w := s.waits;
    forall p | p in w.heap && w.resuming != Some(p) ensures p in w.completers.Values { assert w.HeapSound(p); }
    forall id | id in w.completers
      ensures w.completers[id] in w.heap && w.resuming != Some(w.completers[id])
      ensures w.heap[w.completers[id]] in w.awaiters && w.awaiters[w.heap[w.completers[id]]].operation == id
    {
      RegisteredIsAwaited(w, id);
    }
    InjectiveSize(w.completers);
    var extra: set<Word> := if w.resuming.Some? then {w.resuming.value} else {};
    assert w.completers.Values !! extra;
    assert w.heap.Keys == w.completers.Values + extra;
  }

  lemma {:induction false} InjectiveSize(m: map<Word, Word>)
    requires forall i, j :: i in m && j in m && m[i] == m[j] ==> i == j
    ensures |m.Values| == |m|
    decreases |m|
  {
    if i :| i in m {
      InjectiveSize(m - {i});
      forall v | v in m.Values ensures v in (m - {i}).Values + {m[i]} {
        var j :| j in m && m[j] == v;
        assert j != i ==> (m - {i})[j] == v;
      }
      assert m.Values == (m - {i}).Values + {m[i]};
    }
  }

  // ----- The fate of one operation -----

  function HandlerOf(s: State, k: nat): Handler {
    if k < |s.waits.handlers| then s.waits.handlers[k] else Unawaited
  }

  predicate Settled(h: Handler) { h.Cancelled? || h.Dropped? || h.Resumed? }

  /** Someone waits for an operation whose completion the loop has not looked at. */
  predicate WaitsInTime(s: State, k: nat) { HandlerOf(s, k).Waiting? && s.ring.Open(k) }

  /** A step that takes the handler of an operation away. */
  predicate Cuts(s: State, x: Action, k: nat) {
    HandlerOf(s, k).Waiting? && (x == Cancel(Id(k), true) || x == Destroy(HandlerOf(s, k).awaiter))
  }

  ghost predicate AwaitedInTime(s: State, xs: seq<Action>, k: nat)
    decreases |xs|
  {
    WaitsInTime(s, k) || (xs != [] && Step(s, xs[0]).Some? && AwaitedInTime(Step(s, xs[0]).value, xs[1..], k))
  }

  ghost predicate CutShort(s: State, xs: seq<Action>, k: nat)
    decreases |xs|
  {
    xs != [] && (Cuts(s, xs[0], k) || (Step(s, xs[0]).Some? && CutShort(Step(s, xs[0]).value, xs[1..], k)))
  }

  /** The loop looks at the completion of this very operation. */
  predicate Looks(s: State, x: Action, k: nat) {
    && x.Peek? && s.ring.looked < |s.ring.cq|
    && k < |s.ring.requests| && s.ring.requests[k] == Some(s.ring.cq[s.ring.looked].sqe)
  }

  /** The facts about an operation someone waits for that the next lemmas use. */
  lemma WaiterFacts(s: State, k: nat)
    requires s.Sound() && HandlerOf(s, k).Waiting?
    ensures Id(k) in s.waits.owner && s.waits.owner[Id(k)] == k && Id(k) in s.waits.completers
    ensures s.waits.completers[Id(k)] in s.waits.heap
    ensures var a := s.waits.handlers[k].awaiter;
            && s.waits.heap[s.waits.completers[Id(k)]] == a
            && a in s.waits.awaiters && s.waits.awaiters[a] == Awaiter(Id(k), true, None, false)
  {
    assert s.waits.HandlerSound(k) && s.waits.HeldSound(k);
  }

  lemma WaiterUnderDestroy(s: State, b: Word, k: nat)
    requires s.Sound() && HandlerOf(s, k).Waiting? && b in s.waits.awaiters
    ensures s.waits.Destroy(b).Some?
    ensures k < |s.waits.Destroy(b).value.handlers|
    ensures s.waits.Destroy(b).value.handlers[k]
            == if b == HandlerOf(s, k).awaiter then Dropped else HandlerOf(s, k)
  {
    WaiterFacts(s, k);
    DestroyKeepsWaits(s.waits, b);
    assert s.waits.AwaiterSound(b) && s.waits.OwnerSound(s.waits.awaiters[b].operation);
  }

  lemma WaiterUnderCancel(s: State, id: Word, k: nat)
    requires s.Sound() && HandlerOf(s, k).Waiting?
    ensures s.waits.DropHandler(id).Some?
    ensures k < |s.waits.DropHandler(id).value.handlers|
    ensures s.waits.DropHandler(id).value.handlers[k]
            == if id == Id(k) then Cancelled(HandlerOf(s, k).awaiter) else HandlerOf(s, k)
  {
    WaiterFacts(s, k);
    DropKeepsWaits(s.waits, id);
    assert s.waits.OwnerSound(id);
  }

  /** The awaiter has the result and no operation any more, and its coroutine is the one that runs now. */
  predicate Receives(w: Waits, a: Word, res: int) {
    && a in w.awaiters && w.awaiters[a] == Awaiter(OPID_INVALID, false, Some(res), false)
    && w.resuming.Some? && w.resuming.value in w.heap && w.heap[w.resuming.value] == a
  }

  lemma WaiterUnderPeek(s: State, k: nat)
    requires s.Sound() && s.phase == Peeking && WaitsInTime(s, k)
    ensures Step(s, Peek).Some?
    ensures var t := Step(s, Peek).value;
            if Looks(s, Peek, k) then
              && HandlerOf(t, k) == Resumed(s.ring.cq[s.ring.looked].res) && t.ring.Seen(k)
              && Receives(t.waits, HandlerOf(s, k).awaiter, s.ring.cq[s.ring.looked].res)
            else HandlerOf(t, k) == HandlerOf(s, k) && t.ring.Open(k)
  {
    PeekKeepsSound(s);
    if s.ring.looked < |s.ring.cq| {
      var c := s.ring.cq[s.ring.looked];
      WaiterFacts(s, k);
      assert s.ring.CqSound(s.ring.looked) && s.ring.SqSound(c.sqe) && s.ring.RequestSound(k);
      assert s.ring.AnswerSound(s.ring.requests[k].value);
      if c.userData != OPID_IGNORE { NextCompletionIsOwn(s); assert s.waits.OwnerSound(c.userData); }
    }
  }

  /** What one step does to an operation someone waits for in time. */
  lemma StepOfWaiter(s: State, x: Action, k: nat)
    requires s.Sound() && Allowed(s, x) && WaitsInTime(s, k)
    ensures Step(s, x).Some?
    ensures var t := Step(s, x).value;
            if Cuts(s, x, k) then HandlerOf(t, k).Cancelled? || HandlerOf(t, k).Dropped?
            else if Looks(s, x, k) then
              && HandlerOf(t, k) == Resumed(s.ring.cq[s.ring.looked].res) && t.ring.Seen(k)
              && Receives(t.waits, HandlerOf(s, k).awaiter, s.ring.cq[s.ring.looked].res)
            else HandlerOf(t, k) == HandlerOf(s, k) && t.ring.Open(k)
  {
    WaiterFacts(s, k);
    if {
      case x.Destroy? => WaiterUnderDestroy(s, x.awaiter, k);
      case x.Cancel? => WaiterUnderCancel(s, x.id, k);
      case x.Peek? => WaiterUnderPeek(s, k);
      case x.Create? => assert s.waits.OwnerSound(x.id); CreateKeepsSound(s, x.awaiter, x.id);
      case x.Suspend? => SuspendLeavesWaiter(s, x.awaiter, x.completer, k);
      case !x.Destroy? && !x.Cancel? && !x.Peek? && !x.Create? && !x.Suspend? =>
        assert s.ring.LastSound();
        StepKeepsSound(s, x);
    }
  }

  /** No coroutine is resumed but that of the awaiter whose operation's own completion the loop looks at. */
  lemma OnlyCompletionsResume(s: State, x: Action) returns (k: nat)
    requires s.Sound() && Allowed(s, x) && s.waits.resuming.None?
    requires Step(s, x).Some? && Step(s, x).value.waits.resuming.Some?
    ensures WaitsInTime(s, k) && Looks(s, x, k) && s.ring.requests[k].value < |s.ring.sq|
    ensures s.ring.sq[s.ring.requests[k].value].kind == Request(k)
    ensures Receives(Step(s, x).value.waits, HandlerOf(s, k).awaiter, s.ring.cq[s.ring.looked].res)
  {
    OnlyPeekResumes(s, x);
    NextCompletionIsOwn(s);
    RegisteredIsAwaited(s.waits, s.ring.cq[s.ring.looked].userData);
    k := s.waits.owner[s.ring.cq[s.ring.looked].userData];
    assert s.ring.RequestSound(k);
    WaiterUnderPeek(s, k);
  }

  lemma OnlyPeekResumes(s: State, x: Action)
    requires s.Sound() && s.waits.resuming.None? && Step(s, x).Some? && Step(s, x).value.waits.resuming.Some?
    ensures x.Peek? && s.ring.looked < |s.ring.cq|
    ensures var id := s.ring.cq[s.ring.looked].userData; id != OPID_IGNORE && id in s.waits.completers
  {
  }

  lemma SuspendLeavesWaiter(s: State, b: Word, p: Word, k: nat)
    requires s.Sound() && Allowed(s, Suspend(b, p)) && HandlerOf(s, k).Waiting?
    ensures s.waits.Suspend(b, p).Some? && HandlerOf(Step(s, Suspend(b, p)).value, k) == HandlerOf(s, k)
  {
    WaiterFacts(s, k);
    SuspendKeepsWaits(s.waits, b, p);
    assert s.waits.AwaiterSound(b) && s.waits.OwnerSound(s.waits.awaiters[b].operation);
  }

  /** An operation nobody has suspended on so far. */
  predicate Ahead(s: State, k: nat) { HandlerOf(s, k).Unawaited? || HandlerOf(s, k).Created? }

  /** An operation whose handler was taken away, or that was awaited after the loop had looked at its completion. */
  predicate Missed(s: State, k: nat) {
    HandlerOf(s, k).Cancelled? || HandlerOf(s, k).Dropped? || (HandlerOf(s, k).Waiting? && !s.ring.Open(k))
  }

  lemma SeenStays(s: State, x: Action, k: nat)
    requires s.Sound() && Allowed(s, x) && s.ring.Seen(k)
    ensures Step(s, x).Some? && Step(s, x).value.ring.Seen(k)
  {
    StepKeepsSound(s, x);
    assert s.ring.RequestSound(k) && s.ring.AnswerSound(s.ring.requests[k].value);
  }

  lemma SettledStays(s: State, x: Action, k: nat)
    requires s.Sound() && Allowed(s, x) && (HandlerOf(s, k).Dropped? || HandlerOf(s, k).Resumed?)
    ensures Step(s, x).Some? && HandlerOf(Step(s, x).value, k) == HandlerOf(s, k)
  {
    StepKeepsSound(s, x);
    if {
      case x.Destroy? =>
        assert s.waits.AwaiterSound(x.awaiter);
        DropSparesOthers(s.waits, s.waits.awaiters[x.awaiter].operation, k);
      case x.Cancel? => DropSparesOthers(s.waits, x.id, k);
      case x.Peek? => CompleteSparesOthers(s, k);
      case x.Suspend? => assert s.waits.AwaiterSound(x.awaiter);
      case !x.Destroy? && !x.Cancel? && !x.Peek? && !x.Suspend? =>
    }
  }

  /** Dropping a handler only changes an operation that someone waits for. */
  lemma DropSparesOthers(w: Waits, id: Word, k: nat)
    requires w.Sound() && k < |w.handlers| && !w.handlers[k].Waiting?
    ensures w.DropHandler(id).Some? && |w.DropHandler(id).value.handlers| == |w.handlers|
    ensures w.DropHandler(id).value.handlers[k] == w.handlers[k]
  {
    DropKeepsWaits(w, id);
    if id in w.completers { RegisteredIsAwaited(w, id); }
  }

  lemma CompleteSparesOthers(s: State, k: nat)
    requires s.Sound() && s.phase == Peeking && k < |s.waits.handlers| && !WaitsInTime(s, k)
    ensures Step(s, Peek).Some? && HandlerOf(Step(s, Peek).value, k) == HandlerOf(s, k)
  {
    PeekKeepsSound(s);
    if s.ring.looked < |s.ring.cq| {
      var c := s.ring.cq[s.ring.looked];
      if c.userData != OPID_IGNORE && c.userData in s.waits.completers {
        NextCompletionIsOwn(s);
        RegisteredIsAwaited(s.waits, c.userData);
      }
    }
  }

  lemma CancelledStays(s: State, x: Action, k: nat)
    requires s.Sound() && Allowed(s, x) && HandlerOf(s, k).Cancelled?
    ensures Step(s, x).Some?
    ensures HandlerOf(Step(s, x).value, k).Cancelled? || HandlerOf(Step(s, x).value, k).Dropped?
  {
    StepKeepsSound(s, x);
    assert s.waits.HandlerSound(k) && s.waits.HeldSound(k);
    if {
      case x.Destroy? => DropSparesOthers(s.waits, s.waits.awaiters[x.awaiter].operation, k);
      case x.Cancel? => DropSparesOthers(s.waits, x.id, k);
      case x.Peek? => CompleteSparesOthers(s, k);
      case x.Suspend? => assert s.waits.AwaiterSound(x.awaiter);
      case !x.Destroy? && !x.Cancel? && !x.Peek? && !x.Suspend? =>
    }
  }

  lemma LateStays(s: State, x: Action, k: nat)
    requires s.Sound() && Allowed(s, x) && HandlerOf(s, k).Waiting? && !s.ring.Open(k)
    ensures Step(s, x).Some? && Missed(Step(s, x).value, k)
    ensures !Cuts(s, x, k) ==> HandlerOf(Step(s, x).value, k) == HandlerOf(s, k)
  {
    StepKeepsSound(s, x);
    WaiterFacts(s, k);
    assert s.OutcomeSound(k) && s.ring.Seen(k);
    SeenStays(s, x, k);
    if {
      case x.Destroy? => WaiterUnderDestroy(s, x.awaiter, k);
      case x.Cancel? => WaiterUnderCancel(s, x.id, k);
      case x.Peek? => CompleteSparesOthers(s, k);
      case x.Suspend? => SuspendLeavesWaiter(s, x.awaiter, x.completer, k);
      case !x.Destroy? && !x.Cancel? && !x.Peek? && !x.Suspend? =>
    }
  }

  lemma AheadNeverJumps(s: State, x: Action, k: nat)
    requires s.Sound() && Allowed(s, x) && Ahead(s, k)
    ensures Step(s, x).Some?
    ensures var t := Step(s, x).value; Ahead(t, k) || WaitsInTime(t, k) || Missed(t, k)
  {
    StepKeepsSound(s, x);
    if k < |s.waits.handlers| {
      assert s.waits.HandlerSound(k) && s.waits.HeldSound(k);
      if {
        case x.Destroy? => DropSparesOthers(s.waits, s.waits.awaiters[x.awaiter].operation, k);
        case x.Cancel? => DropSparesOthers(s.waits, x.id, k);
        case x.Peek? => CompleteSparesOthers(s, k);
        case x.Suspend? => assert s.waits.AwaiterSound(x.awaiter);
        case !x.Destroy? && !x.Cancel? && !x.Peek? && !x.Suspend? =>
      }
    }
  }

  lemma {:induction false} MissedForever(s: State, xs: seq<Action>, k: nat)
    requires s.Sound() && AllowedRun(s, xs) && Missed(s, k)
    ensures Run(s, xs).Some? && Missed(Run(s, xs).value, k) && !AwaitedInTime(s, xs, k)
    decreases |xs|
  {
    if xs != [] {
      StepKeepsSound(s, xs[0]);
      if {
        case HandlerOf(s, k).Cancelled? => CancelledStays(s, xs[0], k);
        case HandlerOf(s, k).Dropped? => SettledStays(s, xs[0], k);
        case HandlerOf(s, k).Waiting? => LateStays(s, xs[0], k);
      }
      MissedForever(Step(s, xs[0]).value, xs[1..], k);
    }
  }

  /** Whoever awaits too late stays registered, and the loop cannot be left, until a step takes the handler away. */
  lemma {:induction false} LateWaitsForever(s: State, xs: seq<Action>, k: nat)
    requires s.Sound() && AllowedRun(s, xs) && HandlerOf(s, k).Waiting? && !s.ring.Open(k) && !CutShort(s, xs, k)
    ensures Run(s, xs).Some? && HandlerOf(Run(s, xs).value, k) == HandlerOf(s, k)
    ensures Id(k) in Run(s, xs).value.waits.completers && !Allowed(Run(s, xs).value, Leave)
    decreases |xs|
  {
    if xs == [] {
      WaiterFacts(s, k);
    } else {
      LateStays(s, xs[0], k);
      StepKeepsSound(s, xs[0]);
      LateWaitsForever(Step(s, xs[0]).value, xs[1..], k);
    }
  }

  lemma {:induction false} ResumedForever(s: State, xs: seq<Action>, k: nat)
    requires s.Sound() && AllowedRun(s, xs) && HandlerOf(s, k).Resumed?
    ensures Run(s, xs).Some? && HandlerOf(Run(s, xs).value, k) == HandlerOf(s, k)
    ensures Run(s, xs).value.ring.Seen(k) && !AwaitedInTime(s, xs, k) && !CutShort(s, xs, k)
    decreases |xs|
  {
    assert s.OutcomeSound(k);
    if xs != [] {
      StepKeepsSound(s, xs[0]);
      SettledStays(s, xs[0], k);
      ResumedForever(Step(s, xs[0]).value, xs[1..], k);
    }
  }

  /**
   The fate of an operation over any run: its awaiter is resumed exactly when it was awaited before the
   loop looked at its completion, the loop has looked at it since, and no step took the handler away first.
   Nothing is resumed twice: once resumed, an operation stays as it is.
   */
  lemma {:induction false} Fate(s: State, xs: seq<Action>, k: nat)
    requires s.Sound() && AllowedRun(s, xs) && (Ahead(s, k) || WaitsInTime(s, k))
    ensures Run(s, xs).Some?
    ensures HandlerOf(Run(s, xs).value, k).Resumed?
            <==> AwaitedInTime(s, xs, k) && Run(s, xs).value.ring.Seen(k) && !CutShort(s, xs, k)
    decreases |xs|
  {
    if xs != [] {
      StepKeepsSound(s, xs[0]);
      var x, t := xs[0], Step(s, xs[0]).value;
      if WaitsInTime(s, k) {
        StepOfWaiter(s, x, k);
        if Cuts(s, x, k) {
          MissedForever(t, xs[1..], k);
        } else if Looks(s, x, k) {
          ResumedForever(t, xs[1..], k);
        } else {
          Fate(t, xs[1..], k);
        }
      } else {
        AheadNeverJumps(s, x, k);
        if Missed(t, k) { MissedForever(t, xs[1..], k); } else { Fate(t, xs[1..], k); }
      }
    }
  }

  /** A resumed awaiter got the result of the completion the kernel posted for its own submission. */
  lemma ResultIsOwn(s: State, k: nat)
    requires s.Sound() && HandlerOf(s, k).Resumed?
    ensures s.ring.Seen(k)
    ensures var c := s.ring.cq[s.ring.answers[s.ring.requests[k].value]];
            && c.res == HandlerOf(s, k).res && c.sqe == s.ring.requests[k].value && c.sqe < |s.ring.sq|
            && s.ring.sq[c.sqe].kind == Request(k)
            && forall j: nat :: j < |s.ring.cq| && s.ring.cq[j].sqe == c.sqe ==> j == s.ring.answers[c.sqe]
  {
    assert s.OutcomeSound(k) && s.ring.RequestSound(k) && s.ring.AnswerSound(s.ring.requests[k].value);
    forall j: nat | j < |s.ring.cq| && s.ring.cq[j].sqe == s.ring.requests[k].value
      ensures j == s.ring.answers[s.ring.requests[k].value]
    {
      assert s.ring.CqSound(j);
    }
  }

  /**
   What a cancel with its handler is worth: it is final for whoever waits already, and means nothing
   for whoever awaits the operation afterwards.
   */
  lemma CancelledOutcome(s: State, k: nat, xs: seq<Action>)
    requires s.Sound() && AllowedRun(s, [Cancel(Id(k), true)] + xs) && !Settled(HandlerOf(s, k))
    requires Id(k) in s.waits.owner && s.waits.owner[Id(k)] == k
    ensures Step(s, Cancel(Id(k), true)).Some? && Run(s, [Cancel(Id(k), true)] + xs).Some?
    ensures var t := Step(s, Cancel(Id(k), true)).value;
            HandlerOf(Run(s, [Cancel(Id(k), true)] + xs).value, k).Resumed?
            <==> Ahead(s, k) && AwaitedInTime(t, xs, k) && Run(t, xs).value.ring.Seen(k) && !CutShort(t, xs, k)
  {
    var x := Cancel(Id(k), true);
    assert ([x] + xs)[0] == x && ([x] + xs)[1..] == xs;
    StepKeepsSound(s, x);
    if Ahead(s, k) {
      DropSparesOthers(s.waits, Id(k), k);
      Fate(Step(s, x).value, xs, k);
    } else {
      WaiterUnderCancel(s, Id(k), k);
      MissedForever(Step(s, x).value, xs, k);
    }
  }

  /** When the kernel has nothing more to report, whoever still waits came too late and keeps the loop running. */
  lemma QuietLoop(s: State)
    requires s.Sound() && s.phase == Head
    requires s.ring.submitted == |s.ring.sq| && s.ring.looked == |s.ring.cq|
    requires forall i: nat :: i < |s.ring.sq| ==> i in s.ring.answers
    ensures forall k: nat :: HandlerOf(s, k).Waiting? ==> Missed(s, k)
    ensures Allowed(s, Leave) <==> forall k: nat :: !HandlerOf(s, k).Waiting?
  {
    forall k: nat | HandlerOf(s, k).Waiting? ensures Missed(s, k) && s.waits.completers != map[] {
      WaiterFacts(s, k);
      assert s.ring.RequestSound(k) && s.OutcomeSound(k);
      assert s.ring.AnswerSound(s.ring.requests[k].value);
    }
    if s.waits.completers != map[] {
      var id :| id in s.waits.completers;
      RegisteredIsAwaited(s.waits, id);
      assert HandlerOf(s, s.waits.owner[id]).Waiting?;
    }
  }

  /**
   From a new queue, every run: nothing fails, the registered ids are those of awaiters still waiting, their
   completers are the ones allocated, and the operations that completed are those whose fate says so.
   */
  lemma EveryRun(capacity: nat, depth: nat, xs: seq<Action>)
    requires AllowedRun(Start(capacity, depth), xs)
    ensures Run(Start(capacity, depth), xs).Some?
    ensures var t := Run(Start(capacity, depth), xs).value;
            && t.waits.completers.Keys == WaitedFor(t.waits)
            && |t.waits.heap| == |t.waits.completers| + (if t.waits.resuming.Some? then 1 else 0)
            && (forall k: nat :: HandlerOf(t, k).Resumed? <==>
                  AwaitedInTime(Start(capacity, depth), xs, k) && t.ring.Seen(k)
                  && !CutShort(Start(capacity, depth), xs, k))
  {
    var s := Start(capacity, depth);
    StartIsSound(capacity, depth);
    RunKeepsSound(s, xs);
    var t := Run(s, xs).value;
    KeysAreWaitedFor(t);
    AllocatedIsRegistered(t);
    forall k: nat
      ensures HandlerOf(t, k).Resumed? <==> AwaitedInTime(s, xs, k) && t.ring.Seen(k) && !CutShort(s, xs, k)
    {
      Fate(s, xs, k);
    }
  }

  // ----- Ids -----

  /** Ids are never magic, and any IDS consecutive ones are distinct. */
  lemma IdsAreDistinct(j: nat, k: nat)
    requires j < k < j + IDS
    ensures Id(j) != Id(k) && Id(k) != OPID_INVALID && Id(k) != OPID_IGNORE
  {
    assert k == IDS * (k / IDS) + Id(k) && j == IDS * (j / IDS) + Id(j);
    var q := k / IDS - j / IDS;
    assert Id(j) == Id(k) ==> k - j == IDS * q;
  }

  /** While every operation in use is among the last IDS, no id is recycled too early. */
  lemma WindowKeepsIdsFree(s: State)
    requires s.Sound() && s.ClientRuns()
    requires forall k: nat :: s.InUse(k) ==> |s.ring.requests| < k + IDS
    ensures Allowed(s, Issue)
  {
    var id := s.FreshId();
    FreshIdIsNext(s);
    if id in s.waits.owner {
      assert s.waits.OwnerSound(id);
      var k := s.waits.owner[id];
      if s.InUse(k) { IdsAreDistinct(k, |s.ring.requests|); }
    }
  }

  /** The ids that the allocations of a run return. */
  function IdsIssued(s: State, xs: seq<Action>): seq<Word>
    decreases |xs|
  {
    if xs == [] || Step(s, xs[0]).None? then []
    else (if xs[0].Issue? then [s.FreshId()] else []) + IdsIssued(Step(s, xs[0]).value, xs[1..])
  }

  /** The k-th allocation of any sequence of steps returns Id(k), whatever clients do. */
  lemma {:induction false} KthIdIsK(s: State, xs: seq<Action>, k: nat)
    requires s.NextIdSound() && k < |IdsIssued(s, xs)|
    ensures IdsIssued(s, xs)[k] == Id(|s.ring.requests| + k)
    decreases |xs|
  {
    FreshIdIsNext(s);
    var t := Step(s, xs[0]).value;
    AllocationsAreIssues(s, xs[0]);
    if xs[0].Issue? {
      if k > 0 { KthIdIsK(t, xs[1..], k - 1); }
    } else {
      KthIdIsK(t, xs[1..], k);
    }
  }

  lemma AllocationsAreIssues(s: State, x: Action)
    requires s.NextIdSound() && Step(s, x).Some?
    ensures |Step(s, x).value.ring.requests| == |s.ring.requests| + (if x.Issue? then 1 else 0)
    ensures Step(s, x).value.NextIdSound()
  {
    FreshIdIsNext(s);
    IdAfter(|s.ring.requests|);
  }

  // ----- Linked timeouts -----

  /**
   A timeout is linked to the newest entry, which is the operation's own and not yet submitted. It is placed
   right behind it exactly when the ring has room; otherwise the operation stays flagged with nothing behind it.
   */
  lemma TimeoutFollowsItsOperation(s: State, id: Word)
    requires s.Sound() && Allowed(s, Action.LinkTimeout(id))
    ensures Step(s, Action.LinkTimeout(id)).Some?
    ensures var t, i := Step(s, Action.LinkTimeout(id)).value, |s.ring.sq| - 1;
            && s.ring.submitted <= i && s.ring.sq[i].kind == Request(s.waits.owner[id])
            && t.ring.submitted == s.ring.submitted
            && t.ring.sq[..i] == s.ring.sq[..i] && t.ring.sq[i] == s.ring.sq[i].(link := true)
            && (if |s.ring.sq| - s.ring.submitted >= s.ring.depth then |t.ring.sq| == i + 1
                else t.ring.sq[i + 1..] == [Sqe(OPID_IGNORE, Kind.LinkTimeout, false)])
  {
    LinkTargetIsNewest(s, id);
    assert s.ring.RequestSound(s.waits.owner[id]);
  }

  /** Every timeout in the log stands right behind the flagged operation it belongs to. */
  lemma TimeoutsAreBehindOperations(s: State, i: nat)
    requires s.Sound() && i < |s.ring.sq| && s.ring.sq[i].kind.LinkTimeout?
    ensures i > 0 && s.ring.sq[i - 1].kind.Request? && s.ring.sq[i - 1].link
  {
    assert s.ring.SqSound(i);
  }
}
