/**
 The queue refines a sequential first-in first-out queue: an exchange of produceEnd_ enqueues, and the
 store that moves consumeEnd_ past a node with a value dequeues. No other step acts on the sequential queue.
 */
module MpscRefinement {
  import opened Options
  import opened MpscProtocol
  import opened MpscGuarantees

  datatype Queue<T> = Queue(
    given: map<nat, T>,   // the values producers are about to enqueue
    items: seq<T>,
    taken: seq<T>)

  datatype QueueOp<T> = Give(p: nat, v: T) | Enqueue(p: nat) | Dequeue | Nothing

  function Apply<T>(q: Queue<T>, op: QueueOp<T>): Queue<T> {
    match op
    case Give(p, v) => q.(given := q.given[p := v])
    case Enqueue(p) =>
      if p in q.given then q.(given := q.given - {p}, items := q.items + [q.given[p]]) else q
    case Dequeue => if q.items == [] then q else q.(items := q.items[1..], taken := q.taken + [q.items[0]])
    case Nothing => q
  }

  function ApplyAll<T>(q: Queue<T>, ops: seq<QueueOp<T>>): Queue<T>
    decreases |ops|
  {
    if ops == [] then q else ApplyAll(Apply(q, ops[0]), ops[1..])
  }

  /** The effect of a step on the sequential queue. */
  function OpOf<T>(s: Shared<T>, a: Action<T>): QueueOp<T> {
    if !Enabled(s, a) then Nothing
    else
      match a
      case Allocate(p, _, v) => Give(p, v)
      case Exchange(p) => Enqueue(p)
      case Link(_) => Nothing
      case Consume => if s.consumer.Advance? then Dequeue else Nothing
  }

  function OpsOf<T>(s: Shared<T>, actions: seq<Action<T>>): seq<QueueOp<T>>
    decreases |actions|
  {
    if actions == [] then [] else [OpOf(s, actions[0])] + OpsOf(Step(s, actions[0]), actions[1..])
  }

  // ----- The queue a state stands for -----

  ghost function Given<T>(s: Shared<T>): map<nat, T>
    requires RegistersAllocated(s)
  {
    map p | p in s.producers && s.producers[p].Holding? :: s.mem.heap[s.producers[p].node].value
  }

  ghost function Abstraction<T>(s: Shared<T>, h: History<T>): Queue<T>
    requires RegistersAllocated(s) && h.head <= |h.order|
  {
    Queue(Given(s), Values(s.mem, h.order[h.head..]), h.returned + InHand(s))
  }

  lemma ProducerChainIsStable<T>(s: Shared<T>, h: History<T>, a: Action<T>)
    requires Shape(s.mem, h) && !a.Consume? && !OpOf(s, a).Enqueue?
    requires a.Allocate? && Enabled(s, a) ==> a.node !in h.at
    ensures var s', h' := Step(s, a), Record(s, h, a);
            h'.head <= |h'.order| && Values(s'.mem, h'.order[h'.head..]) == Values(s.mem, h.order[h.head..])
  {
    if Enabled(s, a) {
      match a
      case Allocate(_, node, v) => OutsideKeepsValues(s.mem, h, New(s.mem, node, v), node);
      case Link(p) => StoreKeepsValues(s.mem, s.producers[p].prev, Some(s.producers[p].node), h.order[h.head..]);
    }
  }

  lemma ConsumerChainIsStable<T>(s: Shared<T>, h: History<T>)
    requires Shape(s.mem, h) && !s.consumer.Advance?
    requires s.consumer.EnterList? ==> s.mem.consumeEnd == STUB
    requires s.consumer.Unpack? ==> s.consumer.node !in h.at
    ensures var s', h' := ConsumerStep(s), Record(s, h, Consume);
            h'.head <= |h'.order| && Values(s'.mem, h'.order[h'.head..]) == Values(s.mem, h.order[h.head..])
  {
    hide Shape, ConsumerStep, Record, Values;
    match s.consumer
    case EnterList(first) => EnterListKeepsChain(s, h, first);
    case Unpack(node) => UnpackKeepsChain(s, h, node);
    case SwapStub(_) => SwapStubKeepsChain(s, h);
    case ResetStub(_) => ResetKeepsChain(s, h);
    case LinkStub(_, _) => LinkStubKeepsChain(s, h);
    case _ => LoadKeepsChain(s, h);
  }

  /** The stub has no value, so entering the list and appending the stub change no values. */
  lemma EnterListKeepsChain<T>(s: Shared<T>, h: History<T>, first: Addr)
    requires Shape(s.mem, h) && s.consumer == EnterList(first) && s.mem.consumeEnd == STUB
    ensures var s', h' := ConsumerStep(s), Record(s, h, Consume);
            h'.head <= |h'.order| && Values(s'.mem, h'.order[h'.head..]) == Values(s.mem, h.order[h.head..])
  {
    PassedValues(s.mem, h, first);
    var rest := Values(s.mem.(consumeEnd := first), Passed(s.mem, h).order[h.head + 1..]);
    assert [] + rest == rest;
  }

  lemma SwapStubKeepsChain<T>(s: Shared<T>, h: History<T>)
    requires Shape(s.mem, h) && s.consumer.SwapStub?
    ensures var s', h' := ConsumerStep(s), Record(s, h, Consume);
            h'.head <= |h'.order| && Values(s'.mem, h'.order[h'.head..]) == Values(s.mem, h.order[h.head..])
  {
    AppendedValues(s.mem, h, CONSUMER, STUB);
    var all := Values(s.mem, h.order[h.head..]);
    assert all + [] == all;
  }

  lemma UnpackKeepsChain<T>(s: Shared<T>, h: History<T>, node: Addr)
    requires Shape(s.mem, h) && s.consumer == Unpack(node) && node !in h.at
    ensures var s', h' := ConsumerStep(s), Record(s, h, Consume);
            h'.head <= |h'.order| && Values(s'.mem, h'.order[h'.head..]) == Values(s.mem, h.order[h.head..])
  {
    OutsideKeepsValues(s.mem, h, Delete(s.mem, node), node);
  }

  lemma LoadKeepsChain<T>(s: Shared<T>, h: History<T>)
    requires Shape(s.mem, h)
    requires s.consumer.Idle? || s.consumer.LoadNext? || s.consumer.ReloadNext? || s.consumer.CheckEnd?
             || s.consumer.FinalLoad?
    ensures ConsumerStep(s).mem == s.mem && Record(s, h, Consume) == h && h.head <= |h.order|
  {
  }

  lemma ResetKeepsChain<T>(s: Shared<T>, h: History<T>)
    requires s.consumer.ResetStub? && Shape(s.mem, h)
    ensures var s', h' := ConsumerStep(s), Record(s, h, Consume);
            h'.head <= |h'.order| && Values(s'.mem, h'.order[h'.head..]) == Values(s.mem, h.order[h.head..])
  {
    hide Values;
    StoreKeepsValues(s.mem, STUB, None, h.order[h.head..]);
  }

  lemma LinkStubKeepsChain<T>(s: Shared<T>, h: History<T>)
    requires s.consumer.LinkStub? && Shape(s.mem, h)
    ensures var s', h' := ConsumerStep(s), Record(s, h, Consume);
            h'.head <= |h'.order| && Values(s'.mem, h'.order[h'.head..]) == Values(s.mem, h.order[h.head..])
  {
    hide Values;
    StoreKeepsValues(s.mem, s.consumer.prev, Some(STUB), h.order[h.head..]);
  }

  lemma ProducerGiven<T>(s: Shared<T>, a: Action<T>)
    requires RegistersAllocated(s) && RegistersAllocated(Step(s, a)) && !a.Consume?
    ensures Given(Step(s, a)) == Apply(Queue(Given(s), [], []), OpOf(s, a)).given
  {
  }

  lemma ConsumerGiven<T>(s: Shared<T>)
    requires RegistersAllocated(s) && RegistersAllocated(ConsumerStep(s))
    requires s.consumer.Unpack? ==> forall p :: p in s.producers ==> s.producers[p] != Holding(s.consumer.node)
    ensures Given(ConsumerStep(s)) == Given(s)
  {
    var s' := ConsumerStep(s);
    assert s'.producers == s.producers;
    forall p | p in s.producers && s.producers[p].Holding?
      ensures s'.mem.heap[s.producers[p].node].value == s.mem.heap[s.producers[p].node].value
    {
    }
  }

  lemma ProducerTakesNothing<T>(s: Shared<T>, h: History<T>, a: Action<T>)
    requires !a.Consume? && (a.Allocate? && Enabled(s, a) && s.consumer.Unpack? ==> a.node != s.consumer.node)
    ensures Record(s, h, a).returned == h.returned && InHand(Step(s, a)) == InHand(s)
  {
  }

  lemma ConsumerTakesNothing<T>(s: Shared<T>, h: History<T>)
    requires !s.consumer.Advance?
    requires s.consumer.Unpack? ==> s.consumer.node in s.mem.heap && s.consumer.node != STUB
    ensures Record(s, h, Consume).returned + InHand(ConsumerStep(s)) == h.returned + InHand(s)
  {
  }

  lemma AdvanceDequeues<T>(s: Shared<T>, h: History<T>)
    requires Shape(s.mem, h) && s.consumer.Advance? && s.consumer.node == s.mem.consumeEnd
    requires s.consumer.node in s.mem.heap && s.consumer.node != STUB
    ensures var s', h' := ConsumerStep(s), Record(s, h, Consume);
            && h'.head <= |h'.order|
            && Values(s.mem, h.order[h.head..]) == InHand(s') + Values(s'.mem, h'.order[h'.head..])
            && |InHand(s')| == 1 && h'.returned == h.returned && InHand(s) == []
  {
    PassedValues(s.mem, h, s.consumer.succ);
  }

  lemma ExchangeEnqueues<T>(s: Shared<T>, h: History<T>, p: nat)
    requires Shape(s.mem, h) && Enabled(s, Exchange(p)) && RegistersAllocated(s) && s.producers[p].node != STUB
    ensures var s', h' := Step(s, Exchange(p)), Record(s, h, Exchange(p));
            && h'.head <= |h'.order|
            && Values(s'.mem, h'.order[h'.head..]) == Values(s.mem, h.order[h.head..]) + [Given(s)[p]]
            && h'.returned == h.returned && InHand(s') == InHand(s)
  {
    AppendedValues(s.mem, h, p, s.producers[p].node);
  }

  /** What the invariant says about the node a step is about to touch. */
  lemma TouchedNodes<T>(s: Shared<T>, h: History<T>, a: Action<T>)
    requires Sound(s, h) && Enabled(s, a)
    ensures Shape(s.mem, h)
    ensures a.Allocate? ==> a.node !in h.at && (s.consumer.Unpack? ==> a.node != s.consumer.node)
    ensures a.Exchange? ==> s.producers[a.p].node != STUB
    ensures s.consumer.EnterList? ==> s.mem.consumeEnd == STUB
    ensures s.consumer.Unpack? ==>
              && s.consumer.node in s.mem.heap && s.consumer.node != STUB && s.consumer.node !in h.at
              && forall p :: p in s.producers ==> s.producers[p] != Holding(s.consumer.node)
    ensures s.consumer.Advance? ==>
              s.consumer.node == s.mem.consumeEnd && s.consumer.node != STUB && s.consumer.node in s.mem.heap
  {
  }

  /** The step acts on the sequential queue as OpOf says, and a dequeue finds a value. */
  ghost predicate Refines<T>(s: Shared<T>, h: History<T>, s': Shared<T>, h': History<T>, op: QueueOp<T>) {
    && RegistersAllocated(s) && RegistersAllocated(s') && h.head <= |h.order| && h'.head <= |h'.order|
    && Abstraction(s', h') == Apply(Abstraction(s, h), op)
    && (op.Dequeue? ==> Abstraction(s, h).items != [])
  }

  lemma StepRefinesQueue<T>(s: Shared<T>, h: History<T>, a: Action<T>)
    requires Sound(s, h) && RegistersAllocated(s)
    ensures Sound(Step(s, a), Record(s, h, a)) && Refines(s, h, Step(s, a), Record(s, h, a), OpOf(s, a))
  {
    StepKeepsSound(s, h, a);
    SoundRegistersAllocated(Step(s, a), Record(s, h, a));
    if Enabled(s, a) {
      TouchedNodes(s, h, a);
      hide Refines, Step, Record, Sound, RegistersAllocated;
      if a.Consume? {
        ConsumerRefines(s, h);
      } else if a.Exchange? {
        ExchangeRefines(s, h, a.p);
      } else {
        ProducerRefines(s, h, a);
      }
    }
  }

  lemma ProducerRefines<T>(s: Shared<T>, h: History<T>, a: Action<T>)
    requires Shape(s.mem, h) && Enabled(s, a) && (a.Allocate? || a.Link?)
    requires a.Allocate? ==> a.node !in h.at && (s.consumer.Unpack? ==> a.node != s.consumer.node)
    requires RegistersAllocated(s) && RegistersAllocated(Step(s, a))
    ensures Refines(s, h, Step(s, a), Record(s, h, a), OpOf(s, a))
  {
    ProducerGiven(s, a);
    ProducerChainIsStable(s, h, a);
    ProducerTakesNothing(s, h, a);
    assert h.head <= |h.order|;
    hide Shape, RegistersAllocated, Given, Step, Record;
  }

  lemma ExchangeRefines<T>(s: Shared<T>, h: History<T>, p: nat)
    requires Shape(s.mem, h) && Enabled(s, Exchange(p)) && s.producers[p].node != STUB
    requires RegistersAllocated(s) && RegistersAllocated(Step(s, Exchange(p)))
    ensures Refines(s, h, Step(s, Exchange(p)), Record(s, h, Exchange(p)), Enqueue(p))
  {
    ProducerGiven(s, Exchange(p));
    ExchangeEnqueues(s, h, p);
    assert p in Given(s) && OpOf(s, Exchange(p)) == Enqueue(p) && h.head <= |h.order|;
    hide Shape, RegistersAllocated, Given, Step, Record;
  }

  lemma DequeueOf<T>(q: Queue<T>, q': Queue<T>, first: seq<T>)
    requires |first| == 1 && q.items == first + q'.items
    requires q'.given == q.given && q'.taken == q.taken + first
    ensures q.items != [] && q' == Apply(q, Dequeue)
  {
    assert q.items[1..] == q'.items && [q.items[0]] == first;
  }

  lemma ConsumerRefines<T>(s: Shared<T>, h: History<T>)
    requires Sound(s, h) && RegistersAllocated(s) && RegistersAllocated(Step(s, Consume))
    ensures Refines(s, h, Step(s, Consume), Record(s, h, Consume), OpOf(s, Consume))
  {
    TouchedNodes(s, h, Consume);
    ConsumerGiven(s);
    assert Step(s, Consume) == ConsumerStep(s);
    hide Sound, RegistersAllocated, Given, Step, ConsumerStep, Record, Refines;
    if s.consumer.Advance? {
      AdvanceRefines(s, h);
    } else {
      QuietRefines(s, h);
    }
  }

  lemma AdvanceRefines<T>(s: Shared<T>, h: History<T>)
    requires Shape(s.mem, h) && s.consumer.Advance? && s.consumer.node == s.mem.consumeEnd
    requires s.consumer.node in s.mem.heap && s.consumer.node != STUB
    requires RegistersAllocated(s) && RegistersAllocated(ConsumerStep(s)) && Given(ConsumerStep(s)) == Given(s)
    ensures Refines(s, h, ConsumerStep(s), Record(s, h, Consume), OpOf(s, Consume))
  {
    AdvanceDequeues(s, h);
    assert h.head <= |h.order| && OpOf(s, Consume) == Dequeue;
    var s', h' := ConsumerStep(s), Record(s, h, Consume);
    assert h.returned + InHand(s) == h.returned;
    hide Shape, RegistersAllocated, Given, ConsumerStep, Record, Values, InHand, Apply, OpOf;
    DequeueOf(Abstraction(s, h), Abstraction(s', h'), InHand(s'));
  }

  lemma QuietRefines<T>(s: Shared<T>, h: History<T>)
    requires Shape(s.mem, h) && !s.consumer.Advance?
    requires s.consumer.EnterList? ==> s.mem.consumeEnd == STUB
    requires s.consumer.Unpack? ==>
               s.consumer.node !in h.at && s.consumer.node in s.mem.heap && s.consumer.node != STUB
    requires RegistersAllocated(s) && RegistersAllocated(ConsumerStep(s)) && Given(ConsumerStep(s)) == Given(s)
    ensures Refines(s, h, ConsumerStep(s), Record(s, h, Consume), OpOf(s, Consume))
  {
    assert h.head <= |h.order|;
    hide Shape, RegistersAllocated, Given, ConsumerStep, Record, Values, InHand;
    ConsumerChainIsStable(s, h);
    ConsumerTakesNothing(s, h);
  }

  lemma {:induction false} RunRefines<T>(s: Shared<T>, h: History<T>, actions: seq<Action<T>>)
    requires Sound(s, h) && RegistersAllocated(s)
    ensures var r := Run(s, h, actions);
            && Sound(r.0, r.1) && RegistersAllocated(r.0)
            && Abstraction(r.0, r.1) == ApplyAll(Abstraction(s, h), OpsOf(s, actions))
    decreases |actions|
  {
    hide Sound, RegistersAllocated, Abstraction, Step, Record;
    if actions != [] {
      StepRefinesQueue(s, h, actions[0]);
      RunRefines(Step(s, actions[0]), Record(s, h, actions[0]), actions[1..]);
    }
  }

  lemma InitialQueue<T>(blank: T)
    ensures var s, h := Initial(blank), NoHistory();
            RegistersAllocated(s) && Abstraction(s, h) == Queue(map[], [], [])
  {
    var m, c := Initial(blank).mem, [STUB];
    assert NoHistory<T>().order[0..] == c && c[1..] == [];
    assert Values(m, c) == ValueOf(m, STUB) + Values(m, []);
  }

  /** Every interleaving is, at its linearization points, a run of the sequential queue. */
  lemma RunRefinesQueue<T>(blank: T, actions: seq<Action<T>>)
    ensures var (s, h) := Run(Initial(blank), NoHistory(), actions);
            && RegistersAllocated(s) && h.head <= |h.order|
            && Abstraction(s, h) == ApplyAll(Queue(map[], [], []), OpsOf(Initial(blank), actions))
  {
    InitialSound(blank);
    InitialQueue(blank);
    RunRefines(Initial(blank), NoHistory(), actions);
  }

  // ----- Nothing is lost, duplicated or reordered -----

  /** Everything ever enqueued, oldest first. */
  function Contents<T>(q: Queue<T>): seq<T> {
    q.taken + q.items
  }

  function NewContents<T>(q: Queue<T>, op: QueueOp<T>): seq<T> {
    if op.Enqueue? && op.p in q.given then [q.given[op.p]] else []
  }

  lemma ApplyAccounts<T>(q: Queue<T>, op: QueueOp<T>)
    ensures Contents(Apply(q, op)) == Contents(q) + NewContents(q, op)
  {
  }

  /** The log of exchanges grows by the enqueued value, and only then. */
  lemma LogAfter<T>(s: Shared<T>, h: History<T>, a: Action<T>)
    requires RegistersAllocated(s) && h.head <= |h.order|
    requires a.Exchange? && Enabled(s, a) ==> s.producers[a.p].node != STUB
    ensures Record(s, h, a).exchanged == h.exchanged + NewContents(Abstraction(s, h), OpOf(s, a))
  {
    assert h.exchanged + [] == h.exchanged;
  }

  /** The log of exchanges is what was taken followed by what is in the queue. */
  ghost predicate Accounted<T>(s: Shared<T>, h: History<T>) {
    RegistersAllocated(s) && h.head <= |h.order| && h.exchanged == Contents(Abstraction(s, h))
  }

  ghost predicate Inv<T>(s: Shared<T>, h: History<T>) {
    Sound(s, h) && Accounted(s, h)
  }

  lemma StepKeepsInv<T>(s: Shared<T>, h: History<T>, a: Action<T>)
    requires Inv(s, h)
    ensures Inv(Step(s, a), Record(s, h, a))
  {
    StepRefinesQueue(s, h, a);
    if Enabled(s, a) { TouchedNodes(s, h, a); }
    LogAfter(s, h, a);
    hide Sound, RegistersAllocated, Abstraction, Step, Record, Contents, OpOf;
    ApplyAccounts(Abstraction(s, h), OpOf(s, a));
  }

  lemma {:induction false} RunKeepsInv<T>(s: Shared<T>, h: History<T>, actions: seq<Action<T>>)
    requires Inv(s, h)
    ensures var r := Run(s, h, actions); Inv(r.0, r.1)
    decreases |actions|
  {
    hide Inv;
    if actions != [] {
      StepKeepsInv(s, h, actions[0]);
      RunKeepsInv(Step(s, actions[0]), Record(s, h, actions[0]), actions[1..]);
    }
  }

  /** The values returned are a prefix of those exchanged, and the rest is still in the queue, in order. */
  lemma Linearizable<T>(blank: T, actions: seq<Action<T>>)
    ensures var (s, h) := Run(Initial(blank), NoHistory(), actions);
            && h.head <= |h.order|
            && h.exchanged == h.returned + Pending(s, h)
            && h.returned <= h.exchanged
  {
    InitialSound(blank);
    InitialQueue(blank);
    RunKeepsInv(Initial(blank), NoHistory(), actions);
    var (s, h) := Run(Initial(blank), NoHistory(), actions);
    ContentsArePending(s, h);
  }

  lemma ContentsArePending<T>(s: Shared<T>, h: History<T>)
    requires RegistersAllocated(s) && h.head <= |h.order|
    ensures Contents(Abstraction(s, h)) == h.returned + Pending(s, h)
  {
  }
}
