/**
 The queue as the mutable object of the source. Every method body does its accesses in the order of the
 source; between two accesses the caller's schedule lets any other threads take any steps. Each access is
 one step of the protocol, so all that is proved of every run of the protocol holds of these methods.
 */
module MpscQueues {
  import opened Options
  import opened MpscProtocol
  import opened MpscRefinement
  import opened MpscProgress

  class MpscQueue<T> {
    var heap: map<Addr, Node<T>>
    var consumeEnd: Addr
    var produceEnd: Addr
    var producers: map<nat, Producer>
    ghost var consumer: Consumer
    ghost var history: History<T>
    ghost var trace: seq<Action<T>>   // the steps taken so far, of all threads
    ghost const blank: T              // the value inside the stub

    ghost function Now(): Shared<T>
      reads this
    {
      Shared(Memory(heap, consumeEnd, produceEnd), producers, consumer, false)
    }

    /** The queue is in a state of the protocol, namely where the trace leads. */
    ghost predicate Valid()
      reads this
    {
      Inv(Now(), history) && (Now(), history) == Run(Initial(blank), NoHistory(), trace)
    }

    /** The method took this step of the protocol and no other. */
    twostate predicate Took(a: Action<T>)
      reads this
    {
      && Now() == Step(old(Now()), a) && history == Record(old(Now()), old(history), a)
      && trace == old(trace) + [a]
    }

    constructor (blank: T)
      ensures Valid() && Now() == Initial(blank) && history == NoHistory()
    {
      heap := map[STUB := Node(blank, None)];
      consumeEnd, produceEnd := STUB, STUB;
      producers := map[];
      consumer := Idle;
      history := NoHistory();
      trace := [];
      this.blank := blank;
      new;
      InitialInv(blank);
    }

    // ----- The accesses of produce -----

    method AllocateNode(p: nat, node: Addr, v: T)
      requires Valid() && Enabled(Now(), Allocate(p, node, v))
      modifies this`heap, this`producers, this`history, this`trace
      ensures Valid() && Took(Allocate(p, node, v))
    {
      hide Inv;
      StepKeepsInv(Now(), history, Allocate(p, node, v));
      RunAppend(Initial(blank), NoHistory(), trace, Allocate(p, node, v));
      trace := trace + [Allocate(p, node, v)];
      history := Record(Now(), history, Allocate(p, node, v));
      heap := heap[node := Node(v, None)];
      producers := producers[p := Holding(node)];
    }

    method ExchangeProduceEnd(p: nat)
      requires Valid() && Enabled(Now(), Exchange(p))
      modifies this`produceEnd, this`producers, this`history, this`trace
      ensures Valid() && Took(Exchange(p))
    {
      hide Inv;
      StepKeepsInv(Now(), history, Exchange(p));
      RunAppend(Initial(blank), NoHistory(), trace, Exchange(p));
      trace := trace + [Exchange(p)];
      history := Record(Now(), history, Exchange(p));
      var node := producers[p].node;
      producers := producers[p := Linking(produceEnd, node)];
      produceEnd := node;
    }

    method StoreLink(p: nat)
      requires Valid() && Enabled(Now(), Link(p))
      modifies this`heap, this`producers, this`history, this`trace
      ensures Valid() && Took(Link(p))
    {
      hide Inv;
      LinkTarget(Now(), history, p);
      StepKeepsInv(Now(), history, Link(p));
      RunAppend(Initial(blank), NoHistory(), trace, Link(p));
      trace := trace + [Link(p)];
      history := Record(Now(), history, Link(p));
      var prev, node := producers[p].prev, producers[p].node;
      heap := heap[prev := heap[prev].(next := Some(node))];
      producers := producers - {p};
    }

    // ----- The accesses of consume -----

    /** Ghost bookkeeping of the consumer's next access; the fields of the queue follow. */
    ghost method Account()
      requires Valid()
      modifies this`history, this`trace, this`consumer
      ensures consumer == ConsumerStep(old(Now())).consumer && history == Record(old(Now()), old(history), Consume)
      ensures trace == old(trace) + [Consume]
      ensures (ConsumerStep(old(Now())), history) == Run(Initial(blank), NoHistory(), trace)
      ensures Inv(ConsumerStep(old(Now())), history) && CanStep(old(Now())) && !ConsumerStep(old(Now())).faulted
    {
      hide Inv, Run;
      CallStep(Now(), history);
      NoFault(ConsumerStep(Now()), Record(Now(), history, Consume));
      RunAppend(Initial(blank), NoHistory(), trace, Consume);
      trace := trace + [Consume];
      history := Record(Now(), history, Consume);
      consumer := ConsumerStep(Now()).consumer;
    }

    method LoadConsumeEnd() returns (node: Addr)
      requires Valid() && consumer.Idle?
      modifies this`history, this`trace, this`consumer
      ensures Valid() && Took(Consume) && node == consumeEnd
      ensures history.returned == old(history).returned && consumer == LoadNext(node)
    {
      hide Inv;
      Account();
      node := consumeEnd;
    }

    method LoadNextOf(node: Addr) returns (next: Option<Addr>)
      requires Valid() && (consumer == LoadNext(node) || consumer == ReloadNext(node) || consumer == FinalLoad(node))
      modifies this`history, this`trace, this`consumer
      ensures Valid() && Took(Consume) && node in heap && next == heap[node].next
      ensures history.returned == old(history).returned
      ensures consumer == AfterLoad(old(consumer), next)
    {
      hide Inv;
      Account();
      next := heap[node].next;
    }

    method StoreConsumeEnd(succ: Addr)
      requires Valid() && (consumer == EnterList(succ) || (consumer.Advance? && consumer.succ == succ))
      modifies this`history, this`trace, this`consumer, this`consumeEnd
      ensures Valid() && Took(Consume)
      ensures history.returned == old(history).returned
      ensures consumer == if old(consumer).EnterList? then ReloadNext(succ) else Unpack(old(consumer).node)
      ensures consumeEnd == succ
    {
      hide Inv;
      Account();
      consumeEnd := succ;
    }

    method UnpackNode(node: Addr) returns (value: T)
      requires Valid() && consumer == Unpack(node)
      modifies this`history, this`trace, this`consumer, this`heap
      ensures Valid() && Took(Consume) && history.returned == old(history).returned + [value]
      ensures consumer.Idle?
    {
      hide Inv;
      Account();
      value := heap[node].value;
      heap := heap - {node};
    }

    method LoadProduceEnd() returns (node: Addr)
      requires Valid() && consumer.CheckEnd?
      modifies this`history, this`trace, this`consumer
      ensures Valid() && Took(Consume) && node == produceEnd
      ensures history.returned == old(history).returned
      ensures consumer == if old(consumer).node != node then Idle else ResetStub(node)
    {
      hide Inv;
      Account();
      node := produceEnd;
    }

    method ResetStubNext()
      requires Valid() && consumer.ResetStub?
      modifies this`history, this`trace, this`consumer, this`heap
      ensures Valid() && Took(Consume)
      ensures history.returned == old(history).returned && consumer == SwapStub(old(consumer).node)
    {
      hide Inv;
      StubAllocated(Now(), history);
      Account();
      heap := heap[STUB := heap[STUB].(next := None)];
    }

    method ExchangeStub() returns (prev: Addr)
      requires Valid() && consumer.SwapStub?
      modifies this`history, this`trace, this`consumer, this`produceEnd
      ensures Valid() && Took(Consume) && prev == old(produceEnd) && produceEnd == STUB
      ensures history.returned == old(history).returned && consumer == LinkStub(old(consumer).node, prev)
    {
      hide Inv;
      Account();
      prev := produceEnd;
      produceEnd := STUB;
    }

    method StoreStubLink(prev: Addr)
      requires Valid() && consumer.LinkStub? && consumer.prev == prev
      modifies this`history, this`trace, this`consumer, this`heap
      ensures Valid() && Took(Consume)
      ensures history.returned == old(history).returned && consumer == FinalLoad(old(consumer).node)
    {
      hide Inv;
      Account();
      heap := heap[prev := heap[prev].(next := Some(STUB))];
    }

    // ----- The public operations -----

    /** At some moment since the trace had n steps the consumer was excused for returning nothing. */
    ghost predicate ExcusedSince(n: nat)
      reads this
    {
      Excuse(blank, trace, n)
    }

    /** One step of a producer, or nothing where it cannot take that step. */
    method ProducerStep(a: Action<T>)
      requires Valid() && !a.Consume?
      modifies this`heap, this`produceEnd, this`producers, this`history, this`trace
      ensures Valid() && Now() == Step(old(Now()), a) && history == Record(old(Now()), old(history), a)
      ensures history.returned == old(history).returned && old(trace) <= trace
    {
      hide Inv, Run;
      match a
      case Allocate(p, node, v) =>
        if p != CONSUMER && p !in producers && node !in heap { AllocateNode(p, node, v); }
      case Exchange(p) =>
        if p in producers && producers[p].Holding? { ExchangeProduceEnd(p); }
      case Link(p) =>
        if p in producers && producers[p].Linking? { StoreLink(p); }
    }

    /** One step of a producer; if it appends to the last node, that node holds the consumer up from then on. */
    method InterfereOnce(a: Action<T>, ghost n: nat)
      requires Valid() && !a.Consume? && n <= |trace|
      modifies this`heap, this`produceEnd, this`producers, this`history, this`trace
      ensures Valid() && Now() == Step(old(Now()), a) && history == Record(old(Now()), old(history), a)
      ensures history.returned == old(history).returned && old(trace) <= trace
      ensures if old(produceEnd) == consumeEnd then produceEnd == consumeEnd || ExcusedSince(n)
              else produceEnd != consumeEnd
    {
      hide Inv, Run, Step, Record, Excused, Excuse;
      ghost var s, h := Now(), history;
      if produceEnd == consumeEnd {
        ExchangeHoldsUp(s, h, a);
      } else {
        LastStaysBehind(s, h, a);
      }
      ProducerStep(a);
      if s.mem.produceEnd == consumeEnd && produceEnd != consumeEnd {
        ExcuseNow(blank, trace, Now(), history, n);
      }
    }

    /** Any steps of any producers. */
    method Interfere(others: seq<Action<T>>, ghost n: nat)
      requires Valid() && NoConsume(others) && n <= |trace|
      modifies this`heap, this`produceEnd, this`producers, this`history, this`trace
      ensures Valid() && (Now(), history) == Run(old(Now()), old(history), others)
      ensures history.returned == old(history).returned && old(trace) <= trace
      ensures if old(produceEnd) == consumeEnd then produceEnd == consumeEnd || ExcusedSince(n)
              else produceEnd != consumeEnd
      ensures old(ExcusedSince(n)) ==> ExcusedSince(n)
    {
      hide Inv, Step, Record, Excused, Excuse;
      for i := 0 to |others|
        invariant Valid() && history.returned == old(history).returned && old(trace) <= trace
        invariant Run(Now(), history, others[i..]) == Run(old(Now()), old(history), others)
        invariant if old(produceEnd) == consumeEnd then produceEnd == consumeEnd || ExcusedSince(n)
                  else produceEnd != consumeEnd
      {
        ghost var s, h, t := Now(), history, trace;
        assert others[i..][1..] == others[i + 1..];
        InterfereOnce(others[i], n);
        ExcuseStays(blank, t, trace, n);
        assert Run(s, h, others[i..]) == Run(Now(), history, others[i + 1..]);
      }
      ExcuseStays(blank, old(trace), trace, n);
      assert others[|others|..] == [];
    }

    /**
     A call of consume during which producers take the steps others[0], others[1], ... between its accesses. If it
     returns nothing, then at some moment of the call nothing was pending or a producer held the consumer up.
     */
    method ConsumeValue(others: seq<seq<Action<T>>>) returns (value: Option<T>)
      requires Valid() && consumer.Idle?
      requires |others| == 13 && forall i :: 0 <= i < 13 ==> NoConsume(others[i])
      modifies this
      ensures Valid() && consumer.Idle? && old(trace) <= trace
      ensures history.returned == old(history).returned + (if value.Some? then [value.value] else [])
      ensures value.None? ==> ExcusedSince(|old(trace)|)
    {
      hide Inv, Run, NoConsume, Step, Record, Excused, Excuse;
      ghost var n := |trace|;
      Interfere(others[0], n);
      var node := LoadConsumeEnd();
      Interfere(others[1], n);
      var next := LoadNextOf(node);
      if node == STUB {
        if next.None? {
          ExcuseMissingLink(blank, trace, Now(), history, n);
          return None;
        }
        node := next.value;
        next := EnterListAt(node, others[2..4]);
      }
      if next.Some? {
        value := AdvanceAndUnpack(node, next.value, others[4..6]);
        return;
      }
      value := ConsumeLast(node, others[6..], n);
    }

    /** The first node behind the stub becomes the consume end. */
    method EnterListAt(first: Addr, others: seq<seq<Action<T>>>) returns (next: Option<Addr>)
      requires Valid() && consumer == EnterList(first)
      requires |others| == 2 && forall i :: 0 <= i < 2 ==> NoConsume(others[i])
      modifies this
      ensures Valid() && consumer == Chosen(first, next, CheckEnd(first)) && old(trace) <= trace
      ensures history.returned == old(history).returned
      ensures consumeEnd == first && first in heap && heap[first].next == next
    {
      hide Inv, Run, NoConsume, Step, Record, Excused, Excuse;
      Interfere(others[0], |trace|);
      StoreConsumeEnd(first);
      Interfere(others[1], |trace|);
      next := LoadNextOf(first);
    }

    /** The node has no link: if it is the last one, it is taken after the stub has been enqueued behind it. */
    method ConsumeLast(node: Addr, others: seq<seq<Action<T>>>, ghost n: nat) returns (value: Option<T>)
      requires Valid() && consumer == CheckEnd(node) && n <= |trace|
      requires consumeEnd == node && node in heap && heap[node].next == None
      requires |others| == 7 && forall i :: 0 <= i < 7 ==> NoConsume(others[i])
      modifies this
      ensures Valid() && consumer.Idle? && old(trace) <= trace
      ensures history.returned == old(history).returned + (if value.Some? then [value.value] else [])
      ensures value.None? ==> ExcusedSince(n)
    {
      hide Inv, Run, NoConsume, Step, Record, Excused, Excuse;
      if node != produceEnd {
        ExcuseMissingLink(blank, trace, Now(), history, n);
      }
      Interfere(others[0], n);
      var last := LoadProduceEnd();
      if node != last {
        ExcuseStays(blank, trace[..|trace| - 1], trace, n);
        return None;
      }
      var next := EnqueueStub(node, others[1..5]);
      if next.Some? {
        value := AdvanceAndUnpack(node, next.value, others[5..]);
        return;
      }
      ExcuseMissingLink(blank, trace, Now(), history, n);
      return None;
    }

    /** Enqueues the stub again and loads the link of the node once more. */
    method EnqueueStub(node: Addr, others: seq<seq<Action<T>>>) returns (next: Option<Addr>)
      requires Valid() && consumer == ResetStub(node) && consumeEnd == node
      requires |others| == 4 && forall i :: 0 <= i < 4 ==> NoConsume(others[i])
      modifies this
      ensures Valid() && consumer == Chosen(node, next, Idle) && history.returned == old(history).returned
      ensures old(trace) <= trace && consumeEnd == node && produceEnd != node
      ensures node in heap && heap[node].next == next
    {
      hide Inv, Run, NoConsume, Step, Record, Excused, Excuse;
      NodeIsNotStub(Now(), history);
      ProduceStub(node, others[..3]);
      Interfere(others[3], |trace|);
      next := LoadNextOf(node);
    }

    /** The consumer's own call of produce, with the stub. */
    method ProduceStub(node: Addr, others: seq<seq<Action<T>>>)
      requires Valid() && consumer == ResetStub(node) && consumeEnd == node && node != STUB
      requires |others| == 3 && forall i :: 0 <= i < 3 ==> NoConsume(others[i])
      modifies this
      ensures Valid() && consumer == FinalLoad(node) && history.returned == old(history).returned
      ensures old(trace) <= trace && consumeEnd == node && produceEnd != node
    {
      hide Inv, Run, NoConsume, Step, Record, Excused, Excuse;
      Interfere(others[0], |trace|);
      ResetStubNext();
      Interfere(others[1], |trace|);
      var prev := ExchangeStub();
      Interfere(others[2], |trace|);
      StoreStubLink(prev);
    }

    /** The two places where consume moves past a node and unpacks it. */
    method AdvanceAndUnpack(node: Addr, succ: Addr, others: seq<seq<Action<T>>>) returns (value: Option<T>)
      requires Valid() && consumer == Advance(node, succ)
      requires |others| == 2 && forall i :: 0 <= i < 2 ==> NoConsume(others[i])
      modifies this
      ensures Valid() && consumer.Idle? && value.Some? && old(trace) <= trace
      ensures history.returned == old(history).returned + [value.value]
    {
      hide Inv, Run, NoConsume, Step, Record, Excused, Excuse;
      Interfere(others[0], |trace|);
      StoreConsumeEnd(succ);
      Interfere(others[1], |trace|);
      var v := UnpackNode(node);
      return Some(v);
    }
  }

  /** After the first k steps of a trace nothing was pending, or a producer held the consumer up. */
  ghost predicate ExcusedAt<T>(blank: T, trace: seq<Action<T>>, k: nat) {
    k <= |trace| && var (s, h) := Run(Initial(blank), NoHistory(), trace[..k]); Excused(s, h)
  }

  ghost predicate Excuse<T>(blank: T, trace: seq<Action<T>>, n: nat) {
    exists k :: n <= k && ExcusedAt(blank, trace, k)
  }

  lemma ExcuseNow<T>(blank: T, trace: seq<Action<T>>, s: Shared<T>, h: History<T>, n: nat)
    requires (s, h) == Run(Initial(blank), NoHistory(), trace) && n <= |trace| && Excused(s, h)
    ensures Excuse(blank, trace, n)
  {
    assert trace[..|trace|] == trace;
    assert ExcusedAt(blank, trace, |trace|);
  }

  /** The consumer has just found no link behind the node at the consume end, which is the stub or not the last. */
  lemma ExcuseMissingLink<T>(blank: T, trace: seq<Action<T>>, s: Shared<T>, h: History<T>, n: nat)
    requires Inv(s, h) && (s, h) == Run(Initial(blank), NoHistory(), trace) && n <= |trace|
    requires !s.consumer.LinkStub? && !s.consumer.Unpack? && NextOf(s.mem, s.mem.consumeEnd) == None
    requires s.mem.consumeEnd == STUB || s.mem.consumeEnd != s.mem.produceEnd
    ensures Excuse(blank, trace, n)
  {
    NoLinkExcuses(s, h);
    ExcuseNow(blank, trace, s, h, n);
  }

  lemma ExcuseStays<T>(blank: T, trace: seq<Action<T>>, longer: seq<Action<T>>, n: nat)
    requires trace <= longer
    ensures Excuse(blank, trace, n) ==> Excuse(blank, longer, n)
  {
    hide Run, Excused;
    if k :| n <= k && ExcusedAt(blank, trace, k) {
      assert longer[..k] == trace[..k];
      assert ExcusedAt(blank, longer, k);
    }
  }

  lemma NodeIsNotStub<T>(s: Shared<T>, h: History<T>)
    requires Inv(s, h) && s.consumer.ResetStub?
    ensures s.consumer.node != STUB
  {
  }

  /** Where consume goes on after it loaded the link of the node in its register. */
  function AfterLoad(c: Consumer, next: Option<Addr>): Consumer
    requires c.LoadNext? || c.ReloadNext? || c.FinalLoad?
  {
    if c.FinalLoad? then Chosen(c.node, next, Idle)
    else if c.LoadNext? && c.node == STUB then (if next.None? then Idle else EnterList(next.value))
    else Chosen(c.node, next, CheckEnd(c.node))
  }

  predicate NoConsume<T>(actions: seq<Action<T>>) {
    forall i :: 0 <= i < |actions| ==> !actions[i].Consume?
  }

  lemma {:induction false} RunAppend<T>(s: Shared<T>, h: History<T>, actions: seq<Action<T>>, a: Action<T>)
    ensures var r := Run(s, h, actions);
            Run(s, h, actions + [a]) == (Step(r.0, a), Record(r.0, r.1, a))
    decreases |actions|
  {
    hide Step, Record;
    if actions == [] {
      assert Run(s, h, [a]) == Run(Step(s, a), Record(s, h, a), []);
    } else {
      assert (actions + [a])[1..] == actions[1..] + [a];
      RunAppend(Step(s, actions[0]), Record(s, h, actions[0]), actions[1..], a);
    }
  }

  lemma StubAllocated<T>(s: Shared<T>, h: History<T>)
    requires Inv(s, h)
    ensures STUB in s.mem.heap
  {
  }

  lemma NoFault<T>(s: Shared<T>, h: History<T>)
    requires Inv(s, h)
    ensures !s.faulted
  {
  }

  lemma InitialInv<T>(blank: T)
    ensures Inv(Initial(blank), NoHistory())
  {
    InitialSound(blank);
    InitialQueue(blank);
  }

  lemma LinkTarget<T>(s: Shared<T>, h: History<T>, p: nat)
    requires Inv(s, h) && Enabled(s, Link(p))
    ensures s.producers[p].prev in s.mem.heap
  {
  }
}
