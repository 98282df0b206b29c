/** The event loop as the mutable object of the source, proved against the state machine step by step. */
module IoQueues {
  import opened Options
  import opened ProbeSequence
  import opened CompleterTable
  import opened CompleterMaps
  import opened IoProtocol
  import opened IoSoundness
  import opened IoGuarantees

  /**
   One turn of the loop as its environment sees it: how much is submitted, what the kernel completes before
   the loop peeks, and what the resumed coroutine does, if one is resumed.
   */
  datatype Round = Round(count: nat, ok: bool, kernel: seq<Action>, client: seq<Action>) {
    predicate Proper() {
      && (forall i :: 0 <= i < |kernel| ==> kernel[i].Answer?)
      && (forall i :: 0 <= i < |client| ==> client[i].Answer? || ClientAction(client[i]))
    }
  }

  function After(s: State, xs: seq<Action>): State {
    if Run(s, xs).Some? then Run(s, xs).value else s
  }

  /** What one turn does: submit, peek unless the submit failed, and let a resumed coroutine run. */
  function Turn(s: State, r: Round): seq<Action> {
    var submit := [Submit(r.count, r.ok)];
    if !r.ok then submit
    else
      var peek := submit + r.kernel + [Peek];
      if After(s, peek).phase == Inside then peek + r.client + [Return] else peek
  }

  /** Everything the loop does in the given rounds; it leaves as soon as nothing is registered. */
  function Turns(s: State, rounds: seq<Round>): seq<Action>
    decreases |rounds|
  {
    if s.waits.completers == map[] then [Leave]
    else if rounds == [] then []
    else Turn(s, rounds[0]) + Turns(After(s, Turn(s, rounds[0])), rounds[1..])
  }

  lemma {:induction false} SplitRun(s: State, xs: seq<Action>, ys: seq<Action>)
    requires s.Sound() && AllowedRun(s, xs + ys)
    ensures AllowedRun(s, xs) && Run(s, xs).Some? && Run(s, xs).value.Sound()
    ensures AllowedRun(Run(s, xs).value, ys) && Run(s, xs + ys) == Run(Run(s, xs).value, ys)
    decreases |xs|
  {
    if xs == [] {
      assert xs + ys == ys;
    } else {
      assert (xs + ys)[0] == xs[0] && (xs + ys)[1..] == xs[1..] + ys;
      StepKeepsSound(s, xs[0]);
      SplitRun(Step(s, xs[0]).value, xs[1..], ys);
    }
  }

  /** Steps of coroutines and of the kernel leave the loop where it is. */
  lemma {:induction false} ClientKeepsPhase(s: State, xs: seq<Action>)
    requires Run(s, xs).Some? && forall i :: 0 <= i < |xs| ==> ClientAction(xs[i]) || xs[i].Answer?
    ensures Run(s, xs).value.phase == s.phase && Run(s, xs).value.waits.resuming == s.waits.resuming
    decreases |xs|
  {
    if xs != [] {
      ClientKeepsPhase(Step(s, xs[0]).value, xs[1..]);
    }
  }

  lemma RunOne(s: State, x: Action)
    requires AllowedRun(s, [x])
    ensures Allowed(s, x) && Run(s, [x]) == Step(s, x)
  {
    assert [x][0] == x && [x][1..] == [];
  }

  /** A turn up to its peek. */
  lemma TurnPeeks(s: State, r: Round)
    requires s.Sound() && s.phase == Head && r.ok && r.Proper()
    requires AllowedRun(s, [Submit(r.count, r.ok)] + r.kernel + [Peek])
    ensures var s1 := Step(s, Submit(r.count, r.ok)).value;
            && Allowed(s, Submit(r.count, r.ok)) && s1.Sound() && AllowedRun(s1, r.kernel)
            && Run(s1, r.kernel).Some? && Run(s1, r.kernel).value.phase == Peeking
            && Step(Run(s1, r.kernel).value, Peek).Some?
            && Run(s, [Submit(r.count, r.ok)] + r.kernel + [Peek]) == Step(Run(s1, r.kernel).value, Peek)
  {
    var submit := [Submit(r.count, r.ok)];
    RunKeepsSound(s, submit + r.kernel + [Peek]);
    SplitRun(s, submit + r.kernel, [Peek]);
    SplitRun(s, submit, r.kernel);
    RunOne(s, Submit(r.count, r.ok));
    var s1 := Step(s, Submit(r.count, r.ok)).value;
    ClientKeepsPhase(s1, r.kernel);
    RunOne(Run(s1, r.kernel).value, Peek);
  }

  /** The rest of a turn that resumes a coroutine. */
  lemma TurnReturns(s: State, peek: seq<Action>, r: Round)
    requires s.Sound() && r.Proper() && AllowedRun(s, peek + r.client + [Return])
    requires Run(s, peek).Some? && Run(s, peek).value.phase == Inside
    ensures var s3 := Run(s, peek).value;
            && s3.Sound() && AllowedRun(s3, r.client) && Run(s3, r.client).Some?
            && Run(s3, r.client).value.phase == Inside
            && Run(s3, r.client).value.waits.resuming == s3.waits.resuming
            && Run(s, peek + r.client + [Return]) == Step(Run(s3, r.client).value, Return)
  {
    SplitRun(s, peek + r.client, [Return]);
    SplitRun(s, peek, r.client);
    ClientKeepsPhase(Run(s, peek).value, r.client);
    RunOne(Run(Run(s, peek).value, r.client).value, Return);
  }

  /** A turn, taken apart. */
  lemma TurnFacts(s: State, r: Round)
    requires s.Sound() && s.phase == Head && r.Proper() && AllowedRun(s, Turn(s, r))
    ensures Allowed(s, Submit(r.count, r.ok)) && Step(s, Submit(r.count, r.ok)).value.Sound()
    ensures var s1 := Step(s, Submit(r.count, r.ok)).value;
            if !r.ok then Run(s, Turn(s, r)) == Some(s1)
            else
              && AllowedRun(s1, r.kernel) && Run(s1, r.kernel).Some? && Run(s1, r.kernel).value.phase == Peeking
              && Step(Run(s1, r.kernel).value, Peek).Some?
              && var s3 := Step(Run(s1, r.kernel).value, Peek).value;
                 if s3.phase != Inside then Run(s, Turn(s, r)) == Some(s3)
                 else
                   && AllowedRun(s3, r.client) && Run(s3, r.client).Some?
                   && Run(s3, r.client).value.phase == Inside
                   && Run(s3, r.client).value.waits.resuming == s3.waits.resuming
                   && Run(s, Turn(s, r)) == Step(Run(s3, r.client).value, Return)
  {
    var peek := [Submit(r.count, r.ok)] + r.kernel + [Peek];
    if !r.ok {
      RunOne(s, Submit(r.count, r.ok));
      SubmitKeepsSound(s, r.count, r.ok);
    } else {
      if After(s, peek).phase == Inside {
        assert peek + (r.client + [Return]) == Turn(s, r);
        SplitRun(s, peek, r.client + [Return]);
      }
      TurnPeeks(s, r);
      if After(s, peek).phase == Inside { TurnReturns(s, peek, r); }
    }
  }

  lemma PeekOutcome(s: State)
    requires s.Sound() && s.phase == Peeking && Step(s, Peek).Some?
    ensures var t := Step(s, Peek).value;
            (t.phase == Head || t.phase == Inside) && (t.phase == Inside <==> t.waits.resuming.Some?)
  {
  }

  /** The rounds of a loop that has something registered, one turn and the rest. */
  lemma TurnsUnfold(s: State, rounds: seq<Round>)
    requires s.Sound() && s.phase == Head && s.waits.completers != map[] && rounds != []
    requires AllowedRun(s, Turns(s, rounds))
    ensures AllowedRun(s, Turn(s, rounds[0])) && Run(s, Turn(s, rounds[0])).Some?
    ensures var t := Run(s, Turn(s, rounds[0])).value;
            && AllowedRun(t, Turns(t, rounds[1..]))
            && Run(s, Turns(s, rounds)) == Run(t, Turns(t, rounds[1..]))
  {
    SplitRun(s, Turn(s, rounds[0]), Turns(After(s, Turn(s, rounds[0])), rounds[1..]));
  }

  lemma TurnsEnd(s: State, rounds: seq<Round>)
    requires s.waits.completers == map[] || rounds == []
    ensures Run(s, Turns(s, rounds)) == if s.waits.completers == map[] then Step(s, Leave) else Some(s)
  {
    if s.waits.completers == map[] {
      assert [Leave][0] == Leave && [Leave][1..] == [];
    }
  }

  lemma DropFacts(s: State, id: Word)
    requires s.Sound()
    ensures s.waits.DropHandler(id).Some? && s.(waits := s.waits.DropHandler(id).value).Sound()
    ensures id in s.waits.completers ==>
      && s.waits.Known(id) && s.waits.completers[id] != EMPTY
      && s.waits.completers[id] in s.waits.heap && s.waits.heap[s.waits.completers[id]] in s.waits.awaiters
      && s.waits.awaiters[s.waits.heap[s.waits.completers[id]]].suspended
  {
    DropKeepsSound(s, id);
    if id in s.waits.completers {
      RegisteredIsAwaited(s.waits, id);
      assert s.waits.HeapSound(s.waits.completers[id]);
    }
  }

  lemma AwaiterFacts(s: State, a: Word)
    requires s.Sound() && a in s.waits.awaiters
    ensures var id := s.waits.awaiters[a].operation; id != OPID_INVALID ==> s.waits.Known(id)
  {
    assert s.waits.AwaiterSound(a);
  }

  /** What the loop finds in the completion queue: None for nothing to dispatch. */
  predicate Dispatches(s: State) {
    s.ring.looked < |s.ring.cq| && s.ring.cq[s.ring.looked].userData != OPID_IGNORE
    && s.ring.cq[s.ring.looked].userData in s.waits.completers
  }

  lemma DispatchFacts(s: State)
    requires s.Sound() && s.phase == Peeking
    ensures Step(s, Peek).Some? && Step(s, Peek).value.Sound() && s.waits.resuming.None?
    ensures Dispatches(s) ==>
      var id := s.ring.cq[s.ring.looked].userData;
      && s.waits.Known(id) && s.waits.completers[id] != EMPTY
      && s.waits.completers[id] in s.waits.heap && s.waits.heap[s.waits.completers[id]] in s.waits.awaiters
      && s.waits.awaiters[s.waits.heap[s.waits.completers[id]]].suspended
  {
    PeekKeepsSound(s);
    if Dispatches(s) { DropFacts(s, s.ring.cq[s.ring.looked].userData); }
  }

  /** Below this many operations no id is near 2^64, where the probes of the table wrap. */
  const MANY: nat := 0x8000_0000_0000_0000

  /** The id of an operation that is not among the first MANY may be large; all others fit into any table. */
  lemma EarlyIdsFit(s: State, a: Word, hash: Hash, n: nat)
    requires s.Sound() && a in s.waits.awaiters && s.waits.awaiters[a].operation != OPID_INVALID
    requires TableSize(n) && n >= 2 && |s.ring.requests| <= MANY
    ensures var id := s.waits.awaiters[a].operation; NoWrap(id, Stride(hash, id, n), n)
  {
    var id := s.waits.awaiters[a].operation;
    assert s.waits.AwaiterSound(a) && s.waits.OwnerSound(id);
    IdIsSmall(s.waits.owner[id]);
    TableSizesArePrime(n);
    StepBound(n - 1, Stride(hash, id, n), n);
  }

  lemma IdIsSmall(k: nat)
    ensures Id(k) <= k
  {
  }

  class IoQueue {
    const completers: CompleterMap
    var nextOpId: Word
    var ring: Ring
    var heap: map<Word, Word>
    var awaiters: map<Word, Awaiter>
    ghost var resuming: Option<Word>
    ghost var handlers: seq<Handler>
    ghost var owner: map<Word, nat>
    ghost var phase: Phase

    ghost function State(): State
      requires completers.Valid()
      reads this, completers, completers.entries
    {
      IoProtocol.State.State(
        completers.entries.Length, nextOpId, ring,
        Waits(completers.Model(), heap, awaiters, resuming, handlers, owner), phase)
    }

    ghost predicate Valid()
      reads this, completers, completers.entries
    {
      completers.Valid() && State().Sound()
    }

    constructor (size: nat, depth: nat)
      requires size < 196613
      ensures Valid() && fresh(completers) && fresh(completers.entries)
      ensures State() == Start(completers.entries.Length, depth)
    {
      completers := new CompleterMap(size);
      nextOpId := 0;
      ring := Ring(depth, [], 0, None, [], 0, map[], []);
      heap, awaiters := map[], map[];
      resuming, handlers, owner, phase := None, [], map[], Outside;
      new;
      StartIsSound(completers.entries.Length, depth);
    }

    /** Takes the next id, skipping the magic values. */
    method GetNextOpId() returns (id: Word)
      modifies this`nextOpId
      ensures id == if old(nextOpId) == OPID_INVALID || old(nextOpId) == OPID_IGNORE then 0 else old(nextOpId)
      ensures nextOpId == id + 1
    {
      if nextOpId == OPID_INVALID || nextOpId == OPID_IGNORE {
        nextOpId := 0;
      }
      id := nextOpId;
      nextOpId := nextOpId + 1;
    }

    /** Puts an entry into the ring and gives it its user data; the empty handle when the ring is full. */
    method FinalizeSqe(kind: Kind, userData: Word) returns (handle: Option<Word>)
      modifies this`ring
      ensures var r := old(ring);
              if |r.sq| - r.submitted >= r.depth then handle == None && ring == r
              else handle == Some(userData)
                   && ring == r.(sq := r.sq + [Sqe(userData, kind, false)], lastSqe := Some(|r.sq|))
    {
      if |ring.sq| - ring.submitted >= ring.depth {
        return None;
      }
      ring := ring.(sq := ring.sq + [Sqe(userData, kind, false)]);
      ring := ring.(lastSqe := Some(|ring.sq| - 1));
      return Some(userData);
    }

    /** Any operation with a result; the handle names it by its id. */
    method Issue() returns (handle: Option<Word>)
      requires Valid() && Allowed(State(), Action.Issue)
      modifies this
      ensures Valid() && Some(State()) == Step(old(State()), Action.Issue)
      ensures var r := old(ring);
              handle == if |r.sq| - r.submitted >= r.depth then None else Some(Id(|r.requests|))
    {
      ghost var s := State();
      FreshIdIsNext(s);
      IssueKeepsSound(s);
      hide IoProtocol.State.Sound, CompleterMap.Valid, CompleterMap.Model;
      var n := |ring.requests|;
      var request := if ring.Full() then None else Some(|ring.sq|);
      var id := GetNextOpId();
      handle := FinalizeSqe(Request(n), id);
      ring := ring.(requests := ring.requests + [request]);
      assert ring == s.ring.PrepareRequest(id);
      handlers, owner := handlers + [Unawaited], owner[id := n];
      assert State() == Issued(s);
    }

    method LinkTimeout(id: Word) returns (handle: Option<Word>)
      requires Valid() && Allowed(State(), Action.LinkTimeout(id))
      modifies this`ring
      ensures Valid() && Some(State()) == Step(old(State()), Action.LinkTimeout(id))
      ensures handle == if |old(ring).sq| - old(ring).submitted >= old(ring).depth then None else Some(id)
    {
      StepKeepsSound(State(), Action.LinkTimeout(id));
      var last := ring.lastSqe.value;
      ring := ring.(sq := ring.sq[last := ring.sq[last].(link := true)]);
      var timeout := FinalizeSqe(Kind.LinkTimeout, OPID_IGNORE);
      if timeout.None? {
        return None;
      }
      return Some(id);
    }

    /** Removes and deletes the completer of an id, if there is one. */
    method DeleteCompleter(id: Word)
      requires Valid()
      modifies this`heap, this`awaiters, this`handlers, completers`size, completers.entries
      ensures Valid() && Some(State()) == Waited(old(State()), old(State()).waits.DropHandler(id))
    {
      ghost var s := State();
      DropFacts(s, id);
      ghost var t := s.(waits := s.waits.DropHandler(id).value);
      hide IoProtocol.State.Sound, CompleterMap.Valid, CompleterMap.Model, IsCompleter;
      var ptr := completers.Remove(id);
      assert completers.Model() == t.waits.completers;
      if ptr != EMPTY {
        var a := heap[ptr];
        heap := heap - {ptr};
        awaiters := awaiters[a := awaiters[a].(cancelled := true)];
        handlers := handlers[owner[id] := Cancelled(a)];
      }
      assert State() == t;
    }

    method Cancel(id: Word, dropHandler: bool) returns (handle: Option<Word>)
      requires Valid()
      modifies this`ring, this`heap, this`awaiters, this`handlers, completers`size, completers.entries
      ensures Valid() && Some(State()) == Step(old(State()), Action.Cancel(id, dropHandler))
      ensures handle == if |old(ring).sq| - old(ring).submitted >= old(ring).depth then None else Some(OPID_IGNORE)
    {
      CancelKeepsSound(State(), id, dropHandler);
      if dropHandler {
        DeleteCompleter(id);
      }
      handle := FinalizeSqe(AsyncCancel(id), OPID_IGNORE);
    }

    /** Makes an awaiter for a handle; nothing is registered before it is suspended. */
    method Await(a: Word, id: Word)
      requires Valid() && Allowed(State(), Action.Create(a, id))
      modifies this`awaiters, this`handlers
      ensures Valid() && Some(State()) == Step(old(State()), Action.Create(a, id))
    {
      CreateKeepsSound(State(), a, id);
      awaiters := awaiters[a := Awaiter(id, false, None, false)];
      handlers := handlers[owner[id] := Created(a)];
    }

    /** Registers a completer; false where the table aborts because the probes of the id wrap. */
    method SetCompleter(id: Word, ptr: Word) returns (ok: bool)
      requires completers.Valid() && completers.size < completers.entries.Length
      requires id !in completers.Model() && IsCompleter(ptr)
      modifies completers`size, completers.entries
      ensures completers.Valid()
      ensures completers.Model() == if ok then old(completers.Model())[id := ptr] else old(completers.Model())
      ensures var n := completers.entries.Length; NoWrap(id, Stride(completers.hash, id, n), n) ==> ok
    {
      ok := completers.Insert(id, ptr);
    }

    /** Suspends an awaiter on its operation, with a new completer; false where the table aborts. */
    method Suspend(a: Word, ptr: Word) returns (ok: bool)
      requires Valid() && Allowed(State(), Action.Suspend(a, ptr))
      modifies this`heap, this`awaiters, this`handlers, completers`size, completers.entries
      ensures ok ==> Valid() && Some(State()) == Step(old(State()), Action.Suspend(a, ptr))
      ensures !ok ==> |ring.requests| > MANY
    {
      ghost var s := State();
      SuspendKeepsSound(s, a, ptr);
      AwaiterFacts(s, a);
      if |ring.requests| <= MANY { EarlyIdsFit(s, a, completers.hash, completers.entries.Length); }
      ghost var t := Step(s, Action.Suspend(a, ptr)).value;
      var id := awaiters[a].operation;
      assert id !in s.waits.completers;
      assert completers.size == |s.waits.completers| < completers.entries.Length;
      hide IoProtocol.State.Sound, CompleterMap.Valid, CompleterMap.Model;
      awaiters := awaiters[a := awaiters[a].(suspended := true)];
      heap := heap[ptr := a];
      ok := SetCompleter(id, ptr);
      handlers := handlers[owner[id] := Waiting(a)];
      assert ok ==> State() == t;
    }

    method DestroyAwaiter(a: Word)
      requires Valid() && a in awaiters
      modifies this`ring, this`heap, this`awaiters, this`handlers, completers`size, completers.entries
      ensures Valid() && Some(State()) == Step(old(State()), Action.Destroy(a))
    {
      ghost var s := State();
      DestroyKeepsSound(s, a);
      AwaiterFacts(s, a);
      ghost var t := Step(s, Action.Destroy(a)).value;
      hide IoProtocol.State.Sound, CompleterMap.Valid, CompleterMap.Model;
      var id := awaiters[a].operation;
      if id != OPID_INVALID {
        var _ := Cancel(id, true);
        handlers := handlers[owner[id] := Dropped];
      }
      awaiters := awaiters - {a};
      assert State().waits == t.waits;
      assert State() == t;
    }

    /** The kernel's turn: one submitted entry gets its completion. */
    method KernelAnswers(i: nat, res: int)
      requires Valid() && Allowed(State(), Action.Answer(i, res))
      modifies this`ring
      ensures Valid() && Some(State()) == Step(old(State()), Action.Answer(i, res))
    {
      AnswerKeepsSound(State(), i, res);
      ring := ring.Answer(i, res);
    }

    /** Hands a result to the awaiter of a completer and resumes its coroutine. */
    method Complete(ptr: Word, id: Word, res: int)
      requires ptr in heap && heap[ptr] in awaiters && id in owner && owner[id] < |handlers|
      modifies this`awaiters, this`handlers, this`resuming, this`phase
      ensures awaiters == old(awaiters)[heap[ptr] := Awaiter(OPID_INVALID, false, Some(res), false)]
      ensures handlers == old(handlers)[owner[id] := Resumed(res)] && resuming == Some(ptr) && phase == Inside
    {
      var a := heap[ptr];
      awaiters := awaiters[a := awaiters[a].(result := Some(res))];
      awaiters := awaiters[a := awaiters[a].(operation := OPID_INVALID, cancelled := false)];
      awaiters := awaiters[a := awaiters[a].(suspended := false)];
      handlers := handlers[owner[id] := Resumed(res)];
      resuming, phase := Some(ptr), Inside;
    }

    /** Removes the completer of an id, if there is one, and completes it. */
    method CompleteId(id: Word, res: int) returns (ptr: Word)
      requires completers.Valid() && resuming.None?
      requires id in completers.Model() ==>
        && State().waits.Known(id) && completers.Model()[id] != EMPTY
        && completers.Model()[id] in heap && heap[completers.Model()[id]] in awaiters
        && awaiters[heap[completers.Model()[id]]].suspended
      modifies this`awaiters, this`handlers, this`resuming, this`phase, completers`size, completers.entries
      ensures completers.Valid()
      ensures Some(State()) == Waited(old(State()).(phase := phase), old(State()).waits.Complete(id, res))
      ensures if id in old(completers.Model())
              then ptr == old(completers.Model())[id] && phase == Inside && resuming == Some(ptr)
              else ptr == EMPTY && phase == old(phase)
    {
      ghost var s := State();
      hide CompleterMap.Valid, CompleterMap.Model;
      ptr := completers.Remove(id);
      if ptr != EMPTY {
        Complete(ptr, id, res);
      }
      assert completers.Model() == s.waits.Complete(id, res).value.completers;
      assert State().waits == s.waits.Complete(id, res).value;
    }

    /** Looks at the next completion and dispatches it; returns the completer whose coroutine now runs. */
    method Dispatch() returns (ptr: Word)
      requires Valid() && phase == Peeking
      modifies this`ring, this`awaiters, this`handlers, this`resuming, this`phase, completers`size, completers.entries
      ensures Valid() && Some(State()) == Step(old(State()), Peek)
      ensures ptr == if resuming.Some? then resuming.value else EMPTY
      ensures resuming.Some? ==> ptr != EMPTY && phase == Inside
    {
      ghost var s := State();
      DispatchFacts(s);
      ghost var t := Step(s, Peek).value;
      assert ring.looked <= |ring.cq|;
      hide IoProtocol.State.Sound, CompleterMap.Valid, CompleterMap.Model, IsCompleter;
      phase := Head;
      if ring.looked == |ring.cq| {
        assert State() == t;
        return EMPTY;
      }
      var cqe := ring.cq[ring.looked];
      ptr := EMPTY;
      if cqe.userData != OPID_IGNORE {
        ptr := CompleteId(cqe.userData, cqe.res);
      }
      ring := ring.(looked := ring.looked + 1);
      assert State() == t;
    }

    /** Forgets the last entry and hands entries to the kernel. */
    method Submit(count: nat, ok: bool)
      requires Valid() && Allowed(State(), Action.Submit(count, ok))
      modifies this`ring, this`phase
      ensures Valid() && Some(State()) == Step(old(State()), Action.Submit(count, ok))
      ensures phase == if ok then Peeking else Head
    {
      SubmitKeepsSound(State(), count, ok);
      ring := ring.(lastSqe := None);
      ring := ring.Submit(count, ok);
      phase := if ok then Peeking else Head;
    }

    /** The coroutine has come back: its completer is deleted. */
    method Release(ptr: Word)
      requires Valid() && phase == Inside && resuming == Some(ptr)
      modifies this`heap, this`resuming, this`phase
      ensures Valid() && phase == Head && Some(State()) == Step(old(State()), Return)
    {
      ReturnKeepsSound(State());
      heap := heap - {ptr};
      resuming, phase := None, Head;
    }

    /** One step of a coroutine, or of the kernel while it runs; false where the table aborts. */
    method Perform(x: Action) returns (ok: bool)
      requires Valid() && Allowed(State(), x) && (ClientAction(x) || x.Answer?)
      modifies this, completers`size, completers.entries
      ensures ok ==> Valid() && Some(State()) == Step(old(State()), x)
      ensures !ok ==> |ring.requests| > MANY
    {
      hide IoProtocol.State.Sound, CompleterMap.Valid, CompleterMap.Model;
      ok := true;
      match x {
        case Issue => var _ := Issue();
        case Create(a, id) => Await(a, id);
        case Suspend(a, p) => ok := Suspend(a, p);
        case Destroy(a) => DestroyAwaiter(a);
        case Cancel(id, dropHandler) => var _ := Cancel(id, dropHandler);
        case LinkTimeout(id) => var _ := LinkTimeout(id);
        case Answer(i, res) => KernelAnswers(i, res);
      }
    }

    /** A run of steps of a coroutine and the kernel. */
    method PerformAll(xs: seq<Action>) returns (ok: bool)
      requires Valid() && AllowedRun(State(), xs)
      requires forall i :: 0 <= i < |xs| ==> ClientAction(xs[i]) || xs[i].Answer?
      modifies this, completers`size, completers.entries
      ensures ok ==> Valid() && Some(State()) == IoProtocol.Run(old(State()), xs)
      ensures !ok ==> |ring.requests| > MANY
    {
      ghost var s := State();
      var i := 0;
      while i < |xs|
        invariant 0 <= i <= |xs| && Valid()
        invariant AllowedRun(State(), xs[i..]) && IoProtocol.Run(s, xs) == IoProtocol.Run(State(), xs[i..])
      {
        hide IoProtocol.State.Sound, CompleterMap.Valid, CompleterMap.Model, Allowed, Step;
        assert xs[i..][0] == xs[i] && xs[i..][1..] == xs[i + 1..];
        ok := Perform(xs[i]);
        if !ok {
          return false;
        }
        i := i + 1;
      }
      return true;
    }

    /** Lets a resumed coroutine run until it comes back. */
    method LetRun(ptr: Word, client: seq<Action>) returns (ok: bool)
      requires Valid() && AllowedRun(State(), client) && phase == Inside && resuming == Some(ptr)
      requires forall i :: 0 <= i < |client| ==> ClientAction(client[i]) || client[i].Answer?
      modifies this, completers`size, completers.entries
      ensures ok ==> Valid() && phase == Head && IoProtocol.Run(old(State()), client).Some?
                     && Some(State()) == Step(IoProtocol.Run(old(State()), client).value, Return)
      ensures !ok ==> |ring.requests| > MANY
    {
      ghost var s := State();
      ok := PerformAll(client);
      if ok {
        ClientKeepsPhase(s, client);
        Release(ptr);
      }
    }

    /** Dispatches one completion and lets the coroutine it resumes run. */
    method DispatchAndRun(client: seq<Action>) returns (ok: bool)
      requires Valid() && phase == Peeking && Step(State(), Peek).Some?
      requires Step(State(), Peek).value.phase == Inside ==> AllowedRun(Step(State(), Peek).value, client)
      requires forall i :: 0 <= i < |client| ==> ClientAction(client[i]) || client[i].Answer?
      modifies this, completers`size, completers.entries
      ensures !ok ==> |ring.requests| > MANY
      ensures ok ==> Valid() && phase == Head
      ensures ok ==> var t := Step(old(State()), Peek).value;
                     if t.phase != Inside then State() == t
                     else IoProtocol.Run(t, client).Some?
                          && Some(State()) == Step(IoProtocol.Run(t, client).value, Return)
    {
      PeekOutcome(State());
      var ptr := Dispatch();
      ok := true;
      if ptr != EMPTY {
        ok := LetRun(ptr, client);
      }
    }

    /** One turn of the loop. */
    method TakeTurn(r: Round) returns (ok: bool)
      requires Valid() && phase == Head && r.Proper() && completers.Model() != map[]
      requires AllowedRun(State(), Turn(State(), r))
      modifies this, completers`size, completers.entries
      ensures ok ==> Valid() && phase == Head && Some(State()) == IoProtocol.Run(old(State()), Turn(old(State()), r))
      ensures !ok ==> |ring.requests| > MANY
    {
      ghost var s := State();
      ghost var end := IoProtocol.Run(s, Turn(s, r));
      hide IoProtocol.State.Sound, CompleterMap.Valid, CompleterMap.Model;
      hide Turn, Step, Allowed, AllowedRun, IoProtocol.Run;
      TurnFacts(s, r);
      Submit(r.count, r.ok);
      ok := true;
      if r.ok {
        ok := PerformAll(r.kernel);
        if ok {
          ok := DispatchAndRun(r.client);
        }
      }
      assert ok ==> Some(State()) == end;
    }

    method Leave()
      requires Valid() && phase == Head && completers.Model() == map[]
      modifies this`phase
      ensures Valid() && phase == Outside && Some(State()) == Step(old(State()), Action.Leave)
      ensures forall a :: !StillWaiting(State().waits, a)
    {
      LeavesWhenNobodyWaits(State());
      PhaseKeepsSound(State(), Outside);
      phase := Outside;
    }

    /** The condition of the loop. */
    method Registered() returns (any: bool)
      requires completers.Valid()
      ensures any <==> completers.Model() != map[]
    {
      assert completers.size == |completers.Model()|;
      return completers.size > 0;
    }

    method TakeFirstTurn(rounds: seq<Round>) returns (ok: bool)
      requires Valid() && phase == Head && (forall i :: 0 <= i < |rounds| ==> rounds[i].Proper())
      requires completers.Model() != map[] && rounds != [] && AllowedRun(State(), Turns(State(), rounds))
      modifies this, completers`size, completers.entries
      ensures !ok ==> |ring.requests| > MANY
      ensures ok ==> Valid() && phase == Head && AllowedRun(State(), Turns(State(), rounds[1..]))
      ensures ok ==> IoProtocol.Run(old(State()), Turns(old(State()), rounds))
                     == IoProtocol.Run(State(), Turns(State(), rounds[1..]))
    {
      hide IoProtocol.State.Sound, CompleterMap.Valid, CompleterMap.Model;
      hide Turns, Turn, Step, AllowedRun, IoProtocol.Run;
      TurnsUnfold(State(), rounds);
      ok := TakeTurn(rounds[0]);
    }

    /** The end of the loop: it is left if nothing is registered, and goes on later if the rounds are used up. */
    method ExitLoop(any: bool, ghost rounds: seq<Round>)
      requires Valid() && phase == Head && (any <==> completers.Model() != map[]) && (any ==> rounds == [])
      modifies this`phase
      ensures Valid() && Some(State()) == IoProtocol.Run(old(State()), Turns(old(State()), rounds))
      ensures phase == if any then Head else Outside
    {
      hide IoProtocol.State.Sound, CompleterMap.Valid, CompleterMap.Model, Turns, Step, IoProtocol.Run;
      TurnsEnd(State(), rounds);
      if !any {
        Leave();
      }
    }

    /** Turns of the loop until nothing is registered or the rounds are used up. */
    method Loop(rounds: seq<Round>) returns (left: bool, ok: bool)
      requires Valid() && phase == Head && (forall i :: 0 <= i < |rounds| ==> rounds[i].Proper())
      requires AllowedRun(State(), Turns(State(), rounds))
      modifies this, completers`size, completers.entries
      ensures ok ==> Valid() && Some(State()) == IoProtocol.Run(old(State()), Turns(old(State()), rounds))
      ensures !ok ==> |ring.requests| > MANY
      ensures ok ==> (left <==> completers.Model() == map[]) && phase == if left then Outside else Head
    {
      ghost var end := IoProtocol.Run(State(), Turns(State(), rounds));
      hide IoProtocol.State.Sound, CompleterMap.Valid, CompleterMap.Model;
      hide Turns, Turn, Step, AllowedRun, IoProtocol.Run;
      var i := 0;
      var any := Registered();
      while any && i < |rounds|
        invariant 0 <= i <= |rounds| && Valid() && phase == Head && (any <==> completers.Model() != map[])
        invariant AllowedRun(State(), Turns(State(), rounds[i..]))
        invariant end == IoProtocol.Run(State(), Turns(State(), rounds[i..]))
      {
        assert rounds[i..][1..] == rounds[i + 1..];
        ok := TakeFirstTurn(rounds[i..]);
        if !ok {
          return false, false;
        }
        i := i + 1;
        any := Registered();
      }
      ExitLoop(any, rounds[i..]);
      return !any, true;
    }

    /**
     Runs the loop for the given rounds. It leaves exactly when nothing is registered any more, that is,
     when no awaiter is suspended on a handler that was not cancelled; `ok` is false where the table aborts,
     which takes more than MANY operations.
     */
    method Run(rounds: seq<Round>) returns (left: bool, ok: bool)
      requires Valid() && phase == Outside && (forall i :: 0 <= i < |rounds| ==> rounds[i].Proper())
      requires var s := State().(phase := Head); AllowedRun(s, Turns(s, rounds))
      modifies this, completers`size, completers.entries
      ensures !ok ==> |ring.requests| > MANY
      ensures ok ==> Valid() && (left <==> phase == Outside)
      ensures ok ==> var s := old(State()).(phase := Head); Some(State()) == IoProtocol.Run(s, Turns(s, rounds))
      ensures ok ==> (left <==> forall a :: !StillWaiting(State().waits, a))
    {
      PhaseKeepsSound(State(), Head);
      phase := Head;
      left, ok := Loop(rounds);
      if ok {
        LeavesWhenNobodyWaits(State());
      }
    }
  }
}
