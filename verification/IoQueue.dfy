/**
 The event loop as a state machine: allocation of operation ids, the submission and completion queues,
 awaiters with their completers, and the loop that dispatches completions. Kernel steps may come at any
 time; a resumed coroutine may take any client steps before it suspends again.

 The submission and completion queues are logs that only grow, with counters for what has been submitted
 and what the loop has looked at. `answers`, `requests`, `handlers` and `owner` are history: no operation
 reads them to decide what it does. A step on an id that no operation ever had has no result, as there is
 no history to extend; the invariant excludes such ids from handles, awaiters and completers.
 */
module IoProtocol {
  import opened Options
  import opened ProbeSequence
  import opened CompleterTable

  const OPID_INVALID: Word := TWO64 - 2
  const OPID_IGNORE: Word := TWO64 - 1

  /** How many ids there are before they repeat. */
  const IDS: nat := TWO64 - 2

  /** The id of the k-th allocation. */
  function Id(k: nat): Word { k % IDS }

  // ----- The ring -----

  datatype Kind = Request(op: nat) | LinkTimeout | AsyncCancel(target: Word)

  datatype Sqe = Sqe(userData: Word, kind: Kind, link: bool)
  datatype Cqe = Cqe(sqe: nat, userData: Word, res: int)

  datatype Ring = Ring(
    depth: nat,
    sq: seq<Sqe>, submitted: nat, lastSqe: Option<nat>,
    cq: seq<Cqe>, looked: nat,
    answers: map<nat, nat>,          // from a submission to its completion
    requests: seq<Option<nat>>)      // from an operation to its submission; None when the ring was full
  {
    predicate Full() { |sq| - submitted >= depth }

    /** Takes a submission entry, or leaves everything alone when there is none. */
    function Prepare(userData: Word, kind: Kind): Ring {
      if Full() then this else this.(sq := sq + [Sqe(userData, kind, false)], lastSqe := Some(|sq|))
    }

    function PrepareRequest(id: Word): Ring {
      Prepare(id, Request(|requests|)).(
        requests := requests + [if Full() then None else Some(|sq|)])
    }

    function Linked(i: nat): Ring
      requires i < |sq|
    {
      this.(sq := sq[i := sq[i].(link := true)])
    }

    function Submit(count: nat, ok: bool): Ring {
      this.(lastSqe := None, submitted := if ok && submitted + count <= |sq| then submitted + count else submitted)
    }

    /** The kernel completes a submitted entry that has no completion yet. */
    predicate CanAnswer(i: nat) { i < submitted && i < |sq| && i !in answers }

    function Answer(i: nat, res: int): Ring {
      if !CanAnswer(i) then this
      else this.(cq := cq + [Cqe(i, sq[i].userData, res)], answers := answers[i := |cq|])
    }

    predicate Seen(k: nat) {
      k < |requests| && requests[k].Some? && requests[k].value in answers && answers[requests[k].value] < looked
    }

    /** An operation with an entry whose completion the loop has not looked at. */
    predicate Open(k: nat) {
      k < |requests| && requests[k].Some? && !Seen(k)
    }

    predicate SqSound(i: nat) {
      i < |sq| ==>
        match sq[i].kind
        case Request(k) => k < |requests| && requests[k] == Some(i) && sq[i].userData == Id(k)
        case LinkTimeout => sq[i].userData == OPID_IGNORE && AfterLinked(i)
        case AsyncCancel(_) => sq[i].userData == OPID_IGNORE
    }

    /** The entry before is a request that carries the link flag. */
    predicate AfterLinked(i: nat) {
      0 < i <= |sq| && sq[i - 1].link && sq[i - 1].kind.Request?
    }

    predicate RequestSound(k: nat) {
      k < |requests| && requests[k].Some? ==>
        requests[k].value < |sq| && sq[requests[k].value].kind == Request(k)
    }

    predicate CqSound(j: nat) {
      j < |cq| ==>
        var i := cq[j].sqe;
        i < submitted && i < |sq| && i in answers && answers[i] == j && cq[j].userData == sq[i].userData
    }

    predicate AnswerSound(i: nat) {
      i in answers ==> i < submitted && answers[i] < |cq| && cq[answers[i]].sqe == i
    }

    /** The last prepared entry is null, or the newest entry, prepared since the last submit. */
    predicate LastSound() {
      && submitted <= |sq| && looked <= |cq|
      && (lastSqe.Some? ==> lastSqe.value + 1 == |sq| && submitted <= lastSqe.value)
    }

    ghost predicate Sound() {
      && LastSound()
      && (forall i: nat {:trigger SqSound(i)} :: SqSound(i))
      && (forall k: nat {:trigger RequestSound(k)} :: RequestSound(k))
      && (forall j: nat {:trigger CqSound(j)} :: CqSound(j))
      && (forall i: nat {:trigger AnswerSound(i)} :: AnswerSound(i))
    }
  }

  // ----- Awaiters and completers -----

  /** `operation` is OPID_INVALID for an empty handle; `cancelled` records an explicit cancel of the handler. */
  datatype Awaiter = Awaiter(operation: Word, suspended: bool, result: Option<int>, cancelled: bool)

  datatype Handler =
    | Unawaited
    | Created(awaiter: Word)
    | Waiting(awaiter: Word)
    | Cancelled(awaiter: Word)       // the handler is gone, the awaiter not yet
    | Dropped                        // the awaiter was destroyed before completion
    | Resumed(res: int)

  datatype Waits = Waits(
    completers: map<Word, Word>,     // from an operation id to a completer
    heap: map<Word, Word>,           // the allocated completers, each with the awaiter it points to
    awaiters: map<Word, Awaiter>,
    resuming: Option<Word>,          // the completer whose coroutine is running
    handlers: seq<Handler>,
    owner: map<Word, nat>)           // the newest operation with an id
  {
    predicate Known(id: Word) { id in owner && owner[id] < |handlers| }

    /** The awaiter that holds the handle of an operation. */
    function Holder(k: nat): Option<Word> {
      if k < |handlers| && (handlers[k].Created? || handlers[k].Waiting? || handlers[k].Cancelled?)
      then Some(handlers[k].awaiter) else None
    }

    function WithHandler(id: Word, h: Handler): Waits
      requires Known(id)
    {
      this.(handlers := handlers[owner[id] := h])
    }

    /** Removes and deletes the completer of an id, if there is one; None where its memory is not allocated. */
    function DropHandler(id: Word): Option<Waits> {
      if id !in completers then Some(this)
      else if completers[id] !in heap || heap[completers[id]] !in awaiters || !Known(id) then None
      else
        var p := completers[id];
        var a := heap[p];
        Some(this.(completers := completers - {id}, heap := heap - {p},
                   awaiters := awaiters[a := awaiters[a].(cancelled := true)],
                   handlers := handlers[owner[id] := Cancelled(a)]))
    }

    function Create(a: Word, id: Word): Option<Waits> {
      if !Known(id) then None
      else Some(this.(awaiters := awaiters[a := Awaiter(id, false, None, false)]).WithHandler(id, Created(a)))
    }

    /** Registers a new completer; None where the operation is invalid or its id is registered already. */
    function Suspend(a: Word, p: Word): Option<Waits> {
      if a !in awaiters || awaiters[a].operation == OPID_INVALID then None
      else
        var id := awaiters[a].operation;
        if id in completers || !Known(id) then None
        else Some(this.(completers := completers[id := p], heap := heap[p := a],
                        awaiters := awaiters[a := awaiters[a].(suspended := true)]).WithHandler(id, Waiting(a)))
    }

    /** Destroys an awaiter; one that still holds an operation first removes and deletes its completer. */
    function Destroy(a: Word): Option<Waits> {
      if a !in awaiters then None
      else
        var id := awaiters[a].operation;
        if id == OPID_INVALID then Some(this.(awaiters := awaiters - {a}))
        else
          var w := DropHandler(id);
          if w.None? || !w.value.Known(id) then None
          else Some(w.value.(awaiters := w.value.awaiters - {a}).WithHandler(id, Dropped))
    }

    /**
     Removes a completer and completes its awaiter; None where the completer or its awaiter is not allocated, or the
     coroutine is not suspended. An id without a completer is left alone.
     */
    function Complete(id: Word, res: int): Option<Waits> {
      if id !in completers then Some(this)
      else
        var p := completers[id];
        if p !in heap || heap[p] !in awaiters || !awaiters[heap[p]].suspended || !Known(id) then None
        else Some(this.(completers := completers - {id}, resuming := Some(p),
                        awaiters := awaiters[heap[p] := Awaiter(OPID_INVALID, false, Some(res), false)])
                      .WithHandler(id, Resumed(res)))
    }

    /** Deletes the completer whose coroutine has returned; None where it is not allocated. */
    function Finish(): Option<Waits> {
      if resuming.None? || resuming.value !in heap then None
      else Some(this.(heap := heap - {resuming.value}, resuming := None))
    }

    predicate HandlerSound(k: nat) {
      k < |handlers| ==>
        match handlers[k]
        case Waiting(a) =>
          && Id(k) in completers && completers[Id(k)] in heap && heap[completers[Id(k)]] == a
          && a in awaiters && awaiters[a] == Awaiter(Id(k), true, None, false)
        case Created(a) => a in awaiters && awaiters[a] == Awaiter(Id(k), false, None, false)
        case Cancelled(a) => a in awaiters && awaiters[a] == Awaiter(Id(k), true, None, true)
        case _ => true
    }

    predicate CompleterSound(id: Word) {
      id in completers ==> Known(id) && handlers[owner[id]].Waiting? && resuming != Some(completers[id])
    }

    predicate AwaiterSound(a: Word) {
      a in awaiters ==>
        var id := awaiters[a].operation;
        if id == OPID_INVALID then !awaiters[a].suspended && !awaiters[a].cancelled
        else Known(id) && Holder(owner[id]) == Some(a)
    }

    predicate HeapSound(p: Word) {
      p in heap ==>
        && IsCompleter(p)
        && (resuming == Some(p)
            || (heap[p] in awaiters
                && awaiters[heap[p]].operation in completers && completers[awaiters[heap[p]].operation] == p))
    }

    predicate OwnerSound(id: Word) {
      id in owner ==> owner[id] < |handlers| && Id(owner[id]) == id
    }

    /** An operation whose handle an awaiter holds is the newest one with its id. */
    predicate HeldSound(k: nat) {
      Holder(k).Some? ==> Id(k) in owner && owner[Id(k)] == k
    }

    ghost predicate Sound() {
      && (resuming.Some? ==> resuming.value in heap)
      && (forall k: nat {:trigger HandlerSound(k)} :: HandlerSound(k))
      && (forall k: nat {:trigger HeldSound(k)} :: HeldSound(k))
      && (forall id: Word {:trigger CompleterSound(id)} :: CompleterSound(id))
      && (forall a: Word {:trigger AwaiterSound(a)} :: AwaiterSound(a))
      && (forall p: Word {:trigger HeapSound(p)} :: HeapSound(p))
      && (forall id: Word {:trigger OwnerSound(id)} :: OwnerSound(id))
    }
  }

  // ----- The whole queue -----

  /** Where the loop is: not running, at its condition, about to peek, or inside a resumed coroutine. */
  datatype Phase = Outside | Head | Peeking | Inside

  datatype State = State(capacity: nat, nextOpId: Word, ring: Ring, waits: Waits, phase: Phase) {
    /** Client code runs between the calls of run and inside the coroutines that run resumes. */
    predicate ClientRuns() { phase == Outside || phase == Inside }

    /** The id the next allocation returns. */
    function FreshId(): Word {
      if nextOpId == OPID_INVALID || nextOpId == OPID_IGNORE then 0 else nextOpId
    }

    /** A handle that some allocation returned with a submission entry behind it. */
    predicate ValidHandle(id: Word) {
      waits.Known(id) && waits.owner[id] < |ring.requests| && ring.requests[waits.owner[id]].Some?
    }

    /** An operation that a later completion, or an awaiter, will still name by its id. */
    predicate InUse(k: nat) { ring.Open(k) || waits.Holder(k).Some? }

    ghost predicate OwnsWhileInUse(k: nat) {
      InUse(k) ==> Id(k) in waits.owner && waits.owner[Id(k)] == k
    }

    predicate OutcomeSound(k: nat) {
      k < |waits.handlers| && k < |ring.requests| && waits.handlers[k] != Unawaited ==>
        && ring.requests[k].Some?
        && (waits.handlers[k].Resumed? ==>
              ring.Seen(k) && ring.answers[ring.requests[k].value] < |ring.cq|
              && ring.cq[ring.answers[ring.requests[k].value]].res == waits.handlers[k].res)
    }

    /** The counter is the number of allocations, modulo IDS. */
    predicate NextIdSound() { nextOpId <= IDS && nextOpId % IDS == Id(|ring.requests|) }

    predicate CountersSound() {
      && |ring.requests| == |waits.handlers| && NextIdSound()
      && (phase == Inside <==> waits.resuming.Some?)
    }

    ghost predicate Sound() {
      && CountersSound()
      && ring.Sound()
      && waits.Sound()
      && (forall k: nat {:trigger OwnsWhileInUse(k)} :: OwnsWhileInUse(k))
      && (forall k: nat {:trigger OutcomeSound(k)} :: OutcomeSound(k))
    }
  }

  datatype Action =
    | Issue
    | Create(awaiter: Word, id: Word)
    | Suspend(awaiter: Word, completer: Word)
    | Destroy(awaiter: Word)
    | Cancel(id: Word, dropHandler: bool)
    | LinkTimeout(id: Word)
    | Enter
    | Leave
    | Submit(count: nat, ok: bool)
    | Peek
    | Return
    | Answer(sqe: nat, res: int)

  predicate ClientAction(x: Action) {
    x.Issue? || x.Create? || x.Suspend? || x.Destroy? || x.Cancel? || x.LinkTimeout?
  }

  /**
   What the environment promises: an id comes round again only when its last operation is not in use any more, a
   handle is awaited at most once, new objects get unused addresses, the table is not full, a timeout is linked to the
   operation just prepared, and the kernel completes what was submitted, once.
   */
  predicate Allowed(s: State, x: Action) {
    && (ClientAction(x) ==> s.ClientRuns())
    && match x
       case Issue => s.FreshId() in s.waits.owner ==> !s.InUse(s.waits.owner[s.FreshId()])
       case Create(a, id) => a !in s.waits.awaiters && s.ValidHandle(id)
                             && s.waits.handlers[s.waits.owner[id]] == Unawaited
       case Suspend(a, p) => p !in s.waits.heap && IsCompleter(p) && a in s.waits.awaiters
                             && !s.waits.awaiters[a].suspended && s.waits.awaiters[a].operation != OPID_INVALID
                             && |s.waits.completers| < s.capacity
       case Destroy(a) => a in s.waits.awaiters
       case Cancel(id, _) => s.ValidHandle(id)
       case LinkTimeout(id) => s.ValidHandle(id) && s.ring.lastSqe.Some? && s.ring.lastSqe.value < |s.ring.sq|
                               && s.ring.sq[s.ring.lastSqe.value].userData == id
       case Enter => s.phase == Outside
       case Leave => s.phase == Head && s.waits.completers == map[]
       case Submit(_, _) => s.phase == Head && s.waits.completers != map[]
       case Peek => s.phase == Peeking
       case Return => s.phase == Inside
       case Answer(i, _) => s.ring.CanAnswer(i)
  }

  // ----- The operations -----

  /** Issues an operation: the id is used up even when the ring has no entry left for it. */
  function Issued(s: State): State {
    s.(nextOpId := if s.FreshId() + 1 < TWO64 then s.FreshId() + 1 else 0,
       ring := s.ring.PrepareRequest(s.FreshId()),
       waits := s.waits.(handlers := s.waits.handlers + [Unawaited],
                         owner := s.waits.owner[s.FreshId() := |s.waits.handlers|]))
  }

  /** Optionally removes the handler, then asks the kernel to cancel. */
  function CancelRequested(s: State, id: Word, dropHandler: bool): Option<State> {
    var w := if dropHandler then s.waits.DropHandler(id) else Some(s.waits);
    if w.None? then None
    else Some(s.(waits := w.value, ring := s.ring.Prepare(OPID_IGNORE, AsyncCancel(id))))
  }

  /** Flags the newest entry and appends the timeout; the flag stays when the ring has no entry left. */
  function TimeoutLinked(s: State, id: Word): Option<State> {
    if s.ring.lastSqe.None? || s.ring.lastSqe.value >= |s.ring.sq| then None
    else if s.ring.sq[s.ring.lastSqe.value].userData != id then None
    else Some(s.(ring := s.ring.Linked(s.ring.lastSqe.value).Prepare(OPID_IGNORE, Kind.LinkTimeout)))
  }

  function Destroyed(s: State, a: Word): Option<State> {
    var w := s.waits.Destroy(a);
    if w.None? then None
    else if s.waits.awaiters[a].operation == OPID_INVALID then Some(s.(waits := w.value))
    else Some(s.(waits := w.value,
                 ring := s.ring.Prepare(OPID_IGNORE, AsyncCancel(s.waits.awaiters[a].operation))))
  }

  /** Looks at the next completion and, if it has a completer, completes it. */
  function Peeked(s: State): Option<State> {
    if s.ring.looked >= |s.ring.cq| then Some(s.(phase := Head))
    else
      var c := s.ring.cq[s.ring.looked];
      var ring := s.ring.(looked := s.ring.looked + 1);
      if c.userData == OPID_IGNORE || c.userData !in s.waits.completers then Some(s.(ring := ring, phase := Head))
      else
        var w := s.waits.Complete(c.userData, c.res);
        if w.None? then None else Some(s.(ring := ring, waits := w.value, phase := Inside))
  }

  function Waited(s: State, w: Option<Waits>): Option<State> {
    if w.None? then None else Some(s.(waits := w.value))
  }

  /** One step; None where the source would use freed memory, fail an assertion or insert a key twice. */
  function Step(s: State, x: Action): Option<State> {
    match x
    case Issue => Some(Issued(s))
    case Create(a, id) => Waited(s, s.waits.Create(a, id))
    case Suspend(a, p) => Waited(s, s.waits.Suspend(a, p))
    case Destroy(a) => Destroyed(s, a)
    case Cancel(id, dropHandler) => CancelRequested(s, id, dropHandler)
    case LinkTimeout(id) => TimeoutLinked(s, id)
    case Enter => Some(s.(phase := Head))
    case Leave => Some(s.(phase := Outside))
    case Submit(count, ok) => Some(s.(ring := s.ring.Submit(count, ok), phase := if ok then Peeking else Head))
    case Peek => Peeked(s)
    case Return => Waited(s.(phase := Head), s.waits.Finish())
    case Answer(i, res) => Some(s.(ring := s.ring.Answer(i, res)))
  }

  /** The state after a run; None where a step fails. */
  function Run(s: State, xs: seq<Action>): Option<State>
    decreases |xs|
  {
    if xs == [] then Some(s)
    else if Step(s, xs[0]).None? then None
    else Run(Step(s, xs[0]).value, xs[1..])
  }

  predicate AllowedRun(s: State, xs: seq<Action>)
    decreases |xs|
  {
    xs == [] || (Allowed(s, xs[0]) && (Step(s, xs[0]).Some? ==> AllowedRun(Step(s, xs[0]).value, xs[1..])))
  }

  function Start(capacity: nat, depth: nat): State {
    State(capacity, 0, Ring(depth, [], 0, None, [], 0, map[], []), Waits(map[], map[], map[], None, [], map[]), Outside)
  }
}
