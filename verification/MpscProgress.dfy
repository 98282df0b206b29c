/**
 What a call of consume that no other thread interrupts returns, and why the check of produceEnd_ before the
 stub is enqueued again is needed.
 */
module MpscProgress {
  import opened Options
  import opened MpscProtocol
  import opened MpscGuarantees
  import opened MpscRefinement

  // ----- One undisturbed call -----

  function Rank(c: Consumer): nat {
    match c
    case Idle => 0
    case Unpack(_) => 1
    case Advance(_, _) => 2
    case FinalLoad(_) => 3
    case LinkStub(_, _) => 4
    case SwapStub(_) => 5
    case ResetStub(_) => 6
    case CheckEnd(_) => 7
    case ReloadNext(_) => 8
    case EnterList(_) => 9
    case LoadNext(_) => 10
  }

  /** The consumer runs alone to the end of its call. */
  function Finish<T>(s: Shared<T>, h: History<T>): (Shared<T>, History<T>)
    decreases Rank(s.consumer), !s.faulted
  {
    if s.faulted || s.consumer.Idle? then (s, h) else Finish(ConsumerStep(s), Record(s, h, Consume))
  }

  /** A whole call of consume with nobody else taking a step. */
  function Call<T>(s: Shared<T>, h: History<T>): (Shared<T>, History<T>) {
    Finish(ConsumerStep(s), Record(s, h, Consume))
  }

  function Calls<T>(s: Shared<T>, h: History<T>, k: nat): (Shared<T>, History<T>)
    decreases k
  {
    if k == 0 then (s, h) else var r := Call(s, h); Calls(r.0, r.1, k - 1)
  }

  function NextOf<T>(m: Memory<T>, node: Addr): Option<Addr> {
    if node in m.heap then m.heap[node].next else None
  }

  /** The first node with a value is linked from the stub, if the stub is in front of it, and is last or linked on. */
  predicate Ready<T>(m: Memory<T>) {
    var first := if m.consumeEnd == STUB then NextOf(m, STUB) else Some(m.consumeEnd);
    first.Some? && Takes(m, first.value)
  }

  predicate Takes<T>(m: Memory<T>, node: Addr) {
    node == m.produceEnd || NextOf(m, node).Some?
  }

  /** The rest of the call will return a value. */
  predicate Delivers<T>(m: Memory<T>, c: Consumer) {
    match c
    case Idle => false
    case LoadNext(node) =>
      if node == STUB then NextOf(m, STUB).Some? && Takes(m, NextOf(m, STUB).value) else Takes(m, node)
    case EnterList(first) => Takes(m, first)
    case ReloadNext(node) => Takes(m, node)
    case Advance(_, _) => true
    case Unpack(_) => true
    case CheckEnd(node) => node == m.produceEnd
    case ResetStub(node) => Takes(m, node)
    case SwapStub(node) => Takes(m, node)
    case LinkStub(node, prev) => prev == node || NextOf(m, node).Some?
    case FinalLoad(node) => NextOf(m, node).Some?
  }

  /** The nodes in the consumer's registers are allocated, and from CheckEnd on the current one is not the stub. */
  predicate CanStep<T>(s: Shared<T>) {
    && !s.faulted
    && match s.consumer
       case Idle => true
       case EnterList(_) => true
       case LoadNext(node) => node in s.mem.heap
       case Unpack(node) => node in s.mem.heap && node != STUB
       case LinkStub(node, prev) => node in s.mem.heap && prev in s.mem.heap
       case other => other.node in s.mem.heap && other.node != STUB
  }

  lemma SoundCanStep<T>(s: Shared<T>, h: History<T>)
    requires Sound(s, h)
    ensures CanStep(s)
  {
    assert s.mem.consumeEnd in h.at;
  }

  lemma DeliversStep<T>(s: Shared<T>, h: History<T>)
    requires CanStep(s) && !s.consumer.Idle?
    ensures var s', h' := ConsumerStep(s), Record(s, h, Consume);
            && Rank(s'.consumer) < Rank(s.consumer)
            && s'.producers == s.producers && h'.exchanged == h.exchanged
            && |h'.returned| + (if Delivers(s'.mem, s'.consumer) then 1 else 0)
               == |h.returned| + (if Delivers(s.mem, s.consumer) then 1 else 0)
  {
  }

  lemma CallStep<T>(s: Shared<T>, h: History<T>)
    requires Inv(s, h)
    ensures !s.faulted && Inv(ConsumerStep(s), Record(s, h, Consume)) && CanStep(s)
  {
    SoundCanStep(s, h);
    hide Inv;
    StepKeepsInv(s, h, Consume);
    assert Step(s, Consume) == ConsumerStep(s);
  }

  lemma {:induction false} FinishDelivers<T>(s: Shared<T>, h: History<T>)
    requires Inv(s, h)
    ensures var (s', h') := Finish(s, h);
            && Inv(s', h') && s'.consumer.Idle? && s'.producers == s.producers && h'.exchanged == h.exchanged
            && |h'.returned| == |h.returned| + if Delivers(s.mem, s.consumer) then 1 else 0
    decreases Rank(s.consumer)
  {
    hide Inv, Record, ConsumerStep, CanStep;
    CallStep(s, h);
    if !s.consumer.Idle? {
      hide Delivers;
      DeliversStep(s, h);
      FinishDelivers(ConsumerStep(s), Record(s, h, Consume));
    }
  }

  lemma PrefixesGrow<T>(all: seq<T>, returned: seq<T>, pending: seq<T>, returned': seq<T>, pending': seq<T>)
    requires all == returned + pending == returned' + pending'
    ensures |returned'| == |returned| ==> returned' == returned && pending' == pending
    ensures |returned'| == |returned| + 1 ==>
              pending != [] && returned' == returned + [pending[0]] && pending' == pending[1..]
  {
    if |returned'| == |returned| {
      assert returned == all[..|returned|] && pending == all[|returned|..];
      assert returned' == all[..|returned|] && pending' == all[|returned|..];
    }
    if |returned'| == |returned| + 1 {
      assert |pending| == |pending'| + 1;
      assert returned' == all[..|returned| + 1] && pending' == all[|returned| + 1..];
      assert returned == all[..|returned|] && pending == all[|returned|..];
    }
  }

  /** An undisturbed call returns the oldest pending value exactly when the queue is ready, and otherwise nothing. */
  lemma CallReturnsOldest<T>(s: Shared<T>, h: History<T>)
    requires Inv(s, h) && s.consumer.Idle?
    ensures var (s', h') := Call(s, h);
            && Inv(s', h') && s'.consumer.Idle? && s'.producers == s.producers
            && (Ready(s.mem) ==> Pending(s, h) != [] && h'.returned == h.returned + [Pending(s, h)[0]]
                                 && Pending(s', h') == Pending(s, h)[1..])
            && (!Ready(s.mem) ==> h'.returned == h.returned && Pending(s', h') == Pending(s, h))
  {
    StepKeepsInv(s, h, Consume);
    SoundCanStep(s, h);
    assert ConsumerStep(s) == s.(consumer := LoadNext(s.mem.consumeEnd)) == Step(s, Consume);
    assert Record(s, h, Consume) == h;
    assert Delivers(s.mem, LoadNext(s.mem.consumeEnd)) == Ready(s.mem);
    FinishDelivers(ConsumerStep(s), h);
    var (s', h') := Call(s, h);
    ContentsArePending(s, h);
    ContentsArePending(s', h');
    PrefixesGrow(h.exchanged, h.returned, Pending(s, h), h'.returned, Pending(s', h'));
  }

  // ----- Quiescence -----

  /** No producer is between its exchange and its store. */
  predicate Quiescent<T>(s: Shared<T>) {
    s.consumer.Idle? && forall p :: p in s.producers ==> s.producers[p].Holding?
  }

  lemma QuiescentOwesNothing<T>(s: Shared<T>, h: History<T>)
    requires Sound(s, h) && Quiescent(s)
    ensures h.owed == map[]
  {
    forall a ensures a !in h.owed { }
  }

  /** A node of the chain that is not last and not owed points to its successor, which is not the node itself. */
  lemma ChainNext<T>(s: Shared<T>, h: History<T>, k: nat)
    requires Sound(s, h) && InChain(h, k)
    ensures h.order[k] in s.mem.heap
    ensures InChain(h, k + 1) && h.order[k] !in h.owed ==> NextOf(s.mem, h.order[k]) == Some(h.order[k + 1])
    ensures InChain(h, k + 1) && h.order[k] in h.owed ==> NextOf(s.mem, h.order[k]) == None
    ensures InChain(h, k + 1) ==> h.order[k] != h.order[k + 1] && h.order[k] != s.mem.produceEnd
    ensures !InChain(h, k + 1) ==> h.order[k] == s.mem.produceEnd && NextOf(s.mem, h.order[k]) == None
  {
    assert h.at[h.order[k]] == k;
    if InChain(h, k + 1) {
      assert h.at[h.order[k + 1]] == k + 1;
      assert Linked(s.mem, h, h.order[k]);
    }
  }

  /** The position of the first node with a value. */
  function First<T>(m: Memory<T>, h: History<T>): nat {
    if m.consumeEnd == STUB then h.head + 1 else h.head
  }

  lemma PendingIffFirst<T>(s: Shared<T>, h: History<T>)
    requires Sound(s, h) && s.consumer.Idle?
    ensures Pending(s, h) != [] <==> InChain(h, First(s.mem, h))
  {
    var c := h.order[h.head..];
    ChainNext(s, h, h.head);
    assert Values(s.mem, c) == ValueOf(s.mem, c[0]) + Values(s.mem, c[1..]);
    if InChain(h, h.head + 1) {
      ChainNext(s, h, h.head + 1);
      assert c[1..][0] == h.order[h.head + 1];
    } else {
      assert c[1..] == [];
    }
  }

  /** Ready means that the first node with a value exists, is linked from the stub, and is last or linked on. */
  lemma ReadyMeans<T>(s: Shared<T>, h: History<T>)
    requires Sound(s, h)
    ensures var k := First(s.mem, h);
            Ready(s.mem) <==> InChain(h, k)
                              && (s.mem.consumeEnd == STUB ==> STUB !in h.owed)
                              && (InChain(h, k + 1) ==> h.order[k] !in h.owed)
  {
    var k := First(s.mem, h);
    ChainNext(s, h, h.head);
    if InChain(h, k) { ChainNext(s, h, k); }
  }

  /** The producer has yet to store the link of the stub in front or of the first node with a value. */
  ghost predicate Blocks<T>(s: Shared<T>, h: History<T>, p: nat) {
    && p in s.producers && s.producers[p].Linking?
    && (s.producers[p].prev == s.mem.consumeEnd
        || (InChain(h, First(s.mem, h)) && s.producers[p].prev == h.order[First(s.mem, h)]))
  }

  /** If values are pending and a call returns nothing, a producer between exchange and store blocks it. */
  lemma OnlyProducersBlock<T>(s: Shared<T>, h: History<T>)
    requires Inv(s, h) && s.consumer.Idle? && Pending(s, h) != [] && !Ready(s.mem)
    ensures exists p :: Blocks(s, h, p)
  {
    PendingIffFirst(s, h);
    ReadyMeans(s, h);
    var k := First(s.mem, h);
    var a := if s.mem.consumeEnd == STUB && STUB in h.owed then STUB else h.order[k];
    assert a in h.owed;
    assert s.producers[h.owed[a].who] == Linking(a, h.owed[a].node);
    assert Blocks(s, h, h.owed[a].who);
  }

  lemma QuiescentReady<T>(s: Shared<T>, h: History<T>)
    requires Sound(s, h) && Quiescent(s)
    ensures Ready(s.mem) <==> Pending(s, h) != []
  {
    QuiescentOwesNothing(s, h);
    PendingIffFirst(s, h);
    ReadyMeans(s, h);
  }

  /** From (s, h) to (s', h') everything pending was returned in order, and one more call returns nothing. */
  ghost predicate Drained<T>(s: Shared<T>, h: History<T>, s': Shared<T>, h': History<T>) {
    && Inv(s, h) && Inv(s', h') && Quiescent(s')
    && h'.returned == h.returned + Pending(s, h)
    && Pending(s', h') == []
    && Call(s', h').1.returned == h'.returned
  }

  lemma DrainedAfterCall<T>(s: Shared<T>, h: History<T>, s1: Shared<T>, h1: History<T>, s': Shared<T>, h': History<T>)
    requires Inv(s, h) && Drained(s1, h1, s', h') && Pending(s, h) != []
    requires h1.returned == h.returned + [Pending(s, h)[0]] && Pending(s1, h1) == Pending(s, h)[1..]
    ensures Drained(s, h, s', h')
  {
    assert h.head <= |h.order|;
    hide Inv, Pending, Quiescent, Call;
    MoveFirst(h.returned, Pending(s, h));
  }

  lemma MoveFirst<T>(a: seq<T>, b: seq<T>)
    requires b != []
    ensures (a + [b[0]]) + b[1..] == a + b
  {
  }

  lemma DrainedAtOnce<T>(s: Shared<T>, h: History<T>)
    requires Inv(s, h) && Quiescent(s) && Pending(s, h) == []
    ensures Drained(s, h, s, h)
  {
    QuiescentReady(s, h);
    CallReturnsOldest(s, h);
  }

  lemma CallsUnfold<T>(s: Shared<T>, h: History<T>, k: nat)
    requires k > 0
    ensures Calls(s, h, k) == Calls(Call(s, h).0, Call(s, h).1, k - 1)
  {
  }

  /** At rest with something pending, one call returns the oldest value and leaves the queue at rest. */
  lemma QuiescentCall<T>(s: Shared<T>, h: History<T>)
    requires Inv(s, h) && Quiescent(s) && Pending(s, h) != []
    ensures var (s', h') := Call(s, h);
            && Inv(s', h') && Quiescent(s')
            && h'.returned == h.returned + [Pending(s, h)[0]] && Pending(s', h') == Pending(s, h)[1..]
  {
    QuiescentReady(s, h);
    CallReturnsOldest(s, h);
  }

  /** With producers quiescent and k values pending, k calls return them in order, and the next returns nothing. */
  lemma {:induction false} Drains<T>(s: Shared<T>, h: History<T>)
    requires Inv(s, h) && Quiescent(s)
    ensures var r := Calls(s, h, |Pending(s, h)|); Drained(s, h, r.0, r.1)
    decreases |Pending(s, h)|
  {
    hide Inv, Call, Pending, Drained, Quiescent, Calls;
    HeadInOrder(s, h);
    if Pending(s, h) == [] {
      DrainedAtOnce(s, h);
      CallsOfNone(s, h);
    } else {
      QuiescentCall(s, h);
      var r, k := Call(s, h), |Pending(s, h)|;
      HeadInOrder(r.0, r.1);
      Drains(r.0, r.1);
      CallsUnfold(s, h, k);
      DrainedAfterCall(s, h, r.0, r.1, Calls(s, h, k).0, Calls(s, h, k).1);
    }
  }

  lemma HeadInOrder<T>(s: Shared<T>, h: History<T>)
    requires Inv(s, h)
    ensures h.head <= |h.order|
  {
  }

  lemma CallsOfNone<T>(s: Shared<T>, h: History<T>)
    ensures Calls(s, h, 0) == (s, h)
  {
  }

  // ----- Why a call under interference returns nothing -----

  /** A producer has yet to store the link of the node at the consume end. */
  ghost predicate HeldUp<T>(s: Shared<T>) {
    exists p :: p in s.producers && s.producers[p].Linking? && s.producers[p].prev == s.mem.consumeEnd
  }

  /** Nothing is pending, or a producer between its exchange and its store holds the consumer up. */
  ghost predicate Excused<T>(s: Shared<T>, h: History<T>) {
    h.head <= |h.order| && (Pending(s, h) == [] || HeldUp(s))
  }

  /** The node at the consume end has no successor yet, and is the stub or not the last one. */
  lemma NoLinkExcuses<T>(s: Shared<T>, h: History<T>)
    requires Inv(s, h) && !s.consumer.LinkStub? && !s.consumer.Unpack? && NextOf(s.mem, s.mem.consumeEnd) == None
    requires s.mem.consumeEnd == STUB || s.mem.consumeEnd != s.mem.produceEnd
    ensures Excused(s, h)
  {
    var end := s.mem.consumeEnd;
    ChainNext(s, h, h.head);
    if InChain(h, h.head + 1) {
      assert end in h.owed;
      assert s.producers[h.owed[end].who] == Linking(end, h.owed[end].node);
    } else {
      var c := h.order[h.head..];
      assert c == [STUB];
      assert Values(s.mem, c) == ValueOf(s.mem, STUB) + Values(s.mem, []);
    }
  }

  /** An exchange behind the node at the consume end holds the consumer up. */
  lemma ExchangeHoldsUp<T>(s: Shared<T>, h: History<T>, a: Action<T>)
    requires Inv(s, h) && !a.Consume? && s.mem.consumeEnd == s.mem.produceEnd
    ensures Step(s, a).mem.produceEnd != s.mem.consumeEnd ==> Excused(Step(s, a), Record(s, h, a))
  {
    StepKeepsInv(s, h, a);
    if Step(s, a).mem.produceEnd != s.mem.consumeEnd {
      assert Step(s, a).producers[a.p] == Linking(s.mem.consumeEnd, s.producers[a.p].node);
    }
  }

  /** A node that has a successor does not become the last one again while it is at the consume end. */
  lemma LastStaysBehind<T>(s: Shared<T>, h: History<T>, a: Action<T>)
    requires Inv(s, h) && !a.Consume? && s.mem.consumeEnd != s.mem.produceEnd
    ensures Step(s, a).mem.produceEnd != s.mem.consumeEnd
  {
    assert h.at[s.mem.consumeEnd] == h.head;
  }

  // ----- The check of produceEnd_ -----

  /** The step of the queue without the check that node is still the last one. */
  function UncheckedStep<T>(s: Shared<T>, a: Action<T>): Shared<T> {
    if a.Consume? && s.consumer.CheckEnd? then s.(consumer := ResetStub(s.consumer.node)) else Step(s, a)
  }

  /**
   The check protects exactly this: without it, a step from it keeps the invariant if and only if the stub is not in the
   chain. Finding the node at the end of the chain shows that the stub is not behind it.
   */
  lemma CheckProtectsStub<T>(s: Shared<T>, h: History<T>)
    requires Sound(s, h) && s.consumer.CheckEnd?
    ensures Sound(UncheckedStep(s, Consume), h) <==> STUB !in h.at
    ensures s.consumer.node == s.mem.produceEnd ==> STUB !in h.at
  {
    assert h.at[s.consumer.node] == h.head;
    assert s.consumer.node == s.mem.produceEnd ==> |h.order| == h.head + 1;
  }

  /** Where following n links leads. */
  function Walk<T>(m: Memory<T>, node: Addr, n: nat): Option<Addr>
    decreases n
  {
    if n == 0 then Some(node)
    else if NextOf(m, node).None? then None
    else Walk(m, NextOf(m, node).value, n - 1)
  }

  /** Memory after the stub was enqueued again although it is in the chain, in front of the last node. */
  ghost predicate StubEnqueuedTwice<T>(s: Shared<T>, h: History<T>, m: Memory<T>) {
    && STUB in h.at && s.mem.produceEnd != STUB && m.consumeEnd == s.mem.consumeEnd
    && m == Store(Store(s.mem, STUB, None), s.mem.produceEnd, Some(STUB)).(produceEnd := STUB)
  }

  /** From the consume end the links lead along the chain at most to the stub, which has no link any more. */
  lemma {:induction false} WalkEndsAtStub<T>(s: Shared<T>, h: History<T>, m: Memory<T>, i: nat, n: nat)
    requires Sound(s, h) && StubEnqueuedTwice(s, h, m) && h.head <= i <= h.at[STUB]
    ensures Walk(m, h.order[i], n) == None
            || (i + n <= h.at[STUB] && Walk(m, h.order[i], n) == Some(h.order[i + n]))
    decreases n
  {
    ChainNext(s, h, h.at[STUB]);
    if n > 0 {
      ChainNext(s, h, i);
      if i < h.at[STUB] {
        assert h.at[h.order[i]] == i;
        assert NextOf(m, h.order[i]) == NextOf(s.mem, h.order[i]);
        if NextOf(s.mem, h.order[i]).Some? { WalkEndsAtStub(s, h, m, i + 1, n - 1); }
      } else {
        assert NextOf(m, STUB) == None;
      }
    }
  }

  lemma UncheckedFour<T>(s: Shared<T>, s1: Shared<T>, s2: Shared<T>, s3: Shared<T>, s4: Shared<T>)
    requires UncheckedStep(s, Consume) == s1 && UncheckedStep(s1, Consume) == s2
    requires UncheckedStep(s2, Consume) == s3 && UncheckedStep(s3, Consume) == s4
    ensures Unchecked(s, 4) == s4
  {
    hide UncheckedStep;
    assert Unchecked(s3, 1) == Unchecked(s4, 0);
    assert Unchecked(s1, 3) == Unchecked(s2, 2) == Unchecked(s3, 1);
  }

  /** The four accesses that enqueue the stub, from the check that is left out. */
  lemma UncheckedEnqueue<T>(s: Shared<T>)
    requires !s.faulted && s.consumer.CheckEnd? && s.consumer.node in s.mem.heap
    requires s.mem.produceEnd in s.mem.heap && STUB in s.mem.heap
    ensures Unchecked(s, 4).mem == Store(Store(s.mem, STUB, None), s.mem.produceEnd, Some(STUB)).(produceEnd := STUB)
  {
    var node, end := s.consumer.node, s.mem.produceEnd;
    var s1 := s.(consumer := ResetStub(node));
    var s2 := s.(mem := Store(s.mem, STUB, None), consumer := SwapStub(node));
    var s3 := s2.(mem := s2.mem.(produceEnd := STUB), consumer := LinkStub(node, end));
    var s4 := s3.(mem := Store(s3.mem, end, Some(STUB)), consumer := FinalLoad(node));
    UncheckedFour(s, s1, s2, s3, s4);
  }

  /**
   What goes wrong without the check, in every sound state in which the stub is in the chain: going on makes the stub
   its own successor if it is the last node; otherwise no node behind it can be reached from the consume end any more.
   */
  lemma StubInChainGoesWrong<T>(s: Shared<T>, h: History<T>)
    requires Sound(s, h) && s.consumer.CheckEnd? && STUB in h.at
    ensures var m := Unchecked(s, 4).mem;
            && (s.mem.produceEnd == STUB ==> NextOf(m, STUB) == Some(STUB))
            && (s.mem.produceEnd != STUB ==>
                  && h.at[STUB] + 1 < |h.order|
                  && forall n: nat, j: nat ::
                       h.at[STUB] < j < |h.order| ==> Walk(m, m.consumeEnd, n) != Some(h.order[j]))
  {
    SoundCanStep(s, h);
    UncheckedEnqueue(s);
    var m := Unchecked(s, 4).mem;
    var k := h.at[STUB];
    ChainNext(s, h, k);
    if s.mem.produceEnd != STUB {
      forall n: nat, j: nat | k < j < |h.order| ensures Walk(m, m.consumeEnd, n) != Some(h.order[j]) {
        WalkEndsAtStub(s, h, m, h.head, n);
        assert h.at[h.order[j]] == j;
        if h.head + n <= k { assert h.at[h.order[h.head + n]] == h.head + n; }
      }
    }
  }

  function RunUnchecked<T>(s: Shared<T>, actions: seq<Action<T>>): Shared<T>
    decreases |actions|
  {
    if actions == [] then s else RunUnchecked(UncheckedStep(s, actions[0]), actions[1..])
  }

  lemma {:induction false} RunUncheckedConcat<T>(s: Shared<T>, a: seq<Action<T>>, b: seq<Action<T>>)
    ensures RunUnchecked(s, a + b) == RunUnchecked(RunUnchecked(s, a), b)
    decreases |a|
  {
    if a == [] {
      assert a + b == b;
    } else {
      assert (a + b)[1..] == a[1..] + b;
      RunUncheckedConcat(UncheckedStep(s, a[0]), a[1..], b);
    }
  }

  function ConsumerSteps<T>(k: nat): seq<Action<T>> {
    seq(k, _ => Consume)
  }

  function Unchecked<T>(s: Shared<T>, k: nat): Shared<T>
    decreases k
  {
    if k == 0 then s else Unchecked(UncheckedStep(s, Consume), k - 1)
  }

  lemma {:induction false} UncheckedRuns<T>(s: Shared<T>, k: nat)
    ensures RunUnchecked(s, ConsumerSteps(k)) == Unchecked(s, k)
    decreases k
  {
    if k > 0 {
      assert ConsumerSteps<T>(k)[1..] == ConsumerSteps(k - 1);
      UncheckedRuns(UncheckedStep(s, Consume), k - 1);
    }
  }

  /** Producer 1 has produced 10 at address 1; producer 2 has exchanged 20 at address 2 and not linked it. */
  const HALF_LINKED: Shared<int> :=
    Shared(Memory(map[STUB := Node(0, Some(1)), 1 := Node(10, None), 2 := Node(20, None)], STUB, 2),
           map[2 := Linking(1, 2)], Idle, false)

  /** After one call, the stub is linked behind the second node. */
  const STUB_BEHIND: Shared<int> :=
    Shared(Store(Store(HALF_LINKED.mem, STUB, None), 2, Some(STUB)).(consumeEnd := 1, produceEnd := STUB),
           HALF_LINKED.producers, Idle, false)

  /** After another call, the stub is linked behind itself. */
  const STUB_LOOP: Shared<int> := STUB_BEHIND.(mem := Store(Store(STUB_BEHIND.mem, STUB, None), STUB, Some(STUB)))

  /** Producer 2 stores its link, and two calls return both values. */
  const BOTH_LINKED: Shared<int> := STUB_LOOP.(mem := Store(STUB_LOOP.mem, 1, Some(2)), producers := map[])

  const ONLY_STUB: Shared<int> := BOTH_LINKED.(mem := Delete(Delete(BOTH_LINKED.mem, 1), 2).(consumeEnd := STUB))

  const HALF_LINKED_RUN: seq<Action<int>> :=
    [Allocate(1, 1, 10), Exchange(1), Link(1), Allocate(2, 2, 20), Exchange(2)]

  lemma ReachHalfLinked()
    ensures RunUnchecked(Initial(0), HALF_LINKED_RUN) == HALF_LINKED
  {
    var s1 := UncheckedStep(Initial(0), Allocate(1, 1, 10));
    var s2 := UncheckedStep(s1, Exchange(1));
    var s3 := UncheckedStep(s2, Link(1));
    var s4 := UncheckedStep(s3, Allocate(2, 2, 20));
    var s5 := UncheckedStep(s4, Exchange(2));
    assert s3.mem.heap == map[STUB := Node(0, Some(1)), 1 := Node(10, None)] && s3.producers == map[];
    assert s5 == HALF_LINKED;
    assert RunUnchecked(s4, [Exchange(2)]) == RunUnchecked(s5, []);
    assert RunUnchecked(s3, [Allocate(2, 2, 20), Exchange(2)]) == RunUnchecked(s4, [Exchange(2)]);
    assert RunUnchecked(s2, [Link(1), Allocate(2, 2, 20), Exchange(2)]) == s5;
    assert RunUnchecked(s1, HALF_LINKED_RUN[1..]) == s5;
  }

  /** In the first call, at the check that is left out. */
  const FIRST_CHECK: Shared<int> :=
    HALF_LINKED.(mem := HALF_LINKED.mem.(consumeEnd := 1), consumer := CheckEnd(1))

  lemma ReachFirstCheck()
    ensures Unchecked(HALF_LINKED, 9) == Unchecked(FIRST_CHECK, 5)
  {
    var s0 := HALF_LINKED;
    var s1 := s0.(consumer := LoadNext(STUB));
    var s2 := s0.(consumer := EnterList(1));
    var s3 := s0.(mem := s0.mem.(consumeEnd := 1), consumer := ReloadNext(1));
    assert Unchecked(s2, 7) == Unchecked(s3, 6) == Unchecked(FIRST_CHECK, 5);
    assert Unchecked(s0, 9) == Unchecked(s1, 8) == Unchecked(s2, 7);
  }

  lemma PassFirstCheck()
    ensures Unchecked(FIRST_CHECK, 5) == STUB_BEHIND
  {
    var s4 := FIRST_CHECK;
    var s5 := s4.(consumer := ResetStub(1));
    var s6 := s4.(mem := Store(s4.mem, STUB, None), consumer := SwapStub(1));
    var s7 := s6.(mem := s6.mem.(produceEnd := STUB), consumer := LinkStub(1, 2));
    var s8 := s7.(mem := Store(s7.mem, 2, Some(STUB)), consumer := FinalLoad(1));
    assert Unchecked(s8, 1) == Unchecked(STUB_BEHIND, 0);
    assert Unchecked(s6, 3) == Unchecked(s7, 2) == Unchecked(s8, 1);
    assert Unchecked(s4, 5) == Unchecked(s5, 4) == Unchecked(s6, 3);
  }

  /** In the second call, at the same check. */
  const SECOND_CHECK: Shared<int> := STUB_BEHIND.(consumer := CheckEnd(1))

  lemma ReachSecondCheck()
    ensures Unchecked(STUB_BEHIND, 7) == Unchecked(SECOND_CHECK, 5)
  {
    var s1 := STUB_BEHIND.(consumer := LoadNext(1));
    assert Unchecked(STUB_BEHIND, 7) == Unchecked(s1, 6) == Unchecked(SECOND_CHECK, 5);
  }

  lemma PassSecondCheck()
    ensures Unchecked(SECOND_CHECK, 5) == STUB_LOOP
  {
    var s0 := STUB_BEHIND;
    var s3 := s0.(consumer := ResetStub(1));
    var s4 := s0.(consumer := SwapStub(1));
    var s5 := s0.(consumer := LinkStub(1, STUB));
    var s6 := s0.(mem := Store(s0.mem, STUB, Some(STUB)), consumer := FinalLoad(1));
    assert s4.mem == Store(s3.mem, STUB, None);
    assert Unchecked(s6, 1) == Unchecked(STUB_LOOP, 0);
    assert Unchecked(s4, 3) == Unchecked(s5, 2) == Unchecked(s6, 1);
    assert Unchecked(SECOND_CHECK, 5) == Unchecked(s3, 4) == Unchecked(s4, 3);
  }

  lemma ReachBothLinked()
    ensures UncheckedStep(STUB_LOOP, Link(2)) == BOTH_LINKED
  {
  }

  lemma ReachOnlyStub()
    ensures Unchecked(BOTH_LINKED, 8) == ONLY_STUB
  {
    var s0 := BOTH_LINKED;
    var s1 := s0.(consumer := LoadNext(1));
    var s2 := s0.(consumer := Advance(1, 2));
    var s3 := s0.(mem := s0.mem.(consumeEnd := 2), consumer := Unpack(1));
    var s4 := s3.(mem := Delete(s3.mem, 1), consumer := Idle);
    var s5 := s4.(consumer := LoadNext(2));
    var s6 := s4.(consumer := Advance(2, STUB));
    var s7 := s4.(mem := s4.mem.(consumeEnd := STUB), consumer := Unpack(2));
    assert Unchecked(s7, 1) == Unchecked(ONLY_STUB, 0);
    assert Unchecked(s4, 4) == Unchecked(s5, 3) == Unchecked(s6, 2) == Unchecked(s7, 1);
    assert Unchecked(s0, 8) == Unchecked(s1, 7) == Unchecked(s2, 6) == Unchecked(s3, 5) == Unchecked(s4, 4);
  }

  lemma OnlyStubFaults()
    ensures Unchecked(ONLY_STUB, 6).faulted
  {
    var s0 := ONLY_STUB;
    var s1 := s0.(consumer := LoadNext(STUB));
    var s2 := s0.(consumer := EnterList(STUB));
    var s3 := s0.(consumer := ReloadNext(STUB));
    var s4 := s0.(consumer := Advance(STUB, STUB));
    var s5 := s0.(consumer := Unpack(STUB));
    assert UncheckedStep(s5, Consume) == Fault(s5);
    assert Unchecked(s5, 1) == Unchecked(Fault(s5), 0);
    assert Unchecked(s3, 3) == Unchecked(s4, 2) == Unchecked(s5, 1);
    assert Unchecked(s0, 6) == Unchecked(s1, 5) == Unchecked(s2, 4) == Unchecked(s3, 3);
  }

  const LOOP_RUN: seq<Action<int>> := HALF_LINKED_RUN + ConsumerSteps(9) + ConsumerSteps(7)
  const FAULT_RUN: seq<Action<int>> := LOOP_RUN + [Link(2)] + ConsumerSteps(8) + ConsumerSteps(6)

  lemma RunToLoop()
    ensures RunUnchecked(Initial(0), LOOP_RUN) == STUB_LOOP
  {
    hide UncheckedStep, Unchecked, ConsumerSteps, RunUnchecked;
    ReachHalfLinked();
    ReachFirstCheck();
    PassFirstCheck();
    ReachSecondCheck();
    PassSecondCheck();
    UncheckedRuns(HALF_LINKED, 9);
    UncheckedRuns(STUB_BEHIND, 7);
    RunUncheckedConcat(Initial(0), HALF_LINKED_RUN, ConsumerSteps(9));
    RunUncheckedConcat(Initial(0), HALF_LINKED_RUN + ConsumerSteps(9), ConsumerSteps(7));
  }

  lemma RunOneUnchecked<T>(s: Shared<T>, a: Action<T>)
    ensures RunUnchecked(s, [a]) == UncheckedStep(s, a)
  {
    assert RunUnchecked(s, [a]) == RunUnchecked(UncheckedStep(s, a), []);
  }

  lemma RunToFault()
    ensures RunUnchecked(Initial(0), FAULT_RUN).faulted
  {
    hide UncheckedStep, Unchecked, ConsumerSteps, RunUnchecked;
    RunToLoop();
    ReachBothLinked();
    ReachOnlyStub();
    OnlyStubFaults();
    RunOneUnchecked(STUB_LOOP, Link(2));
    UncheckedRuns(BOTH_LINKED, 8);
    UncheckedRuns(ONLY_STUB, 6);
    RunUncheckedConcat(Initial(0), LOOP_RUN, [Link(2)]);
    RunUncheckedConcat(Initial(0), LOOP_RUN + [Link(2)], ConsumerSteps(8));
    RunUncheckedConcat(Initial(0), LOOP_RUN + [Link(2)] + ConsumerSteps(8), ConsumerSteps(6));
  }

  /** Without the check two calls during a pending link put the stub behind itself, and a later call frees the stub. */
  lemma CheckIsNeeded()
    ensures exists actions :: NextOf(RunUnchecked(Initial(0), actions).mem, STUB) == Some(STUB)
    ensures exists actions :: RunUnchecked(Initial(0), actions).faulted
  {
    RunToLoop();
    RunToFault();
    assert NextOf(STUB_LOOP.mem, STUB) == Some(STUB);
  }
}
