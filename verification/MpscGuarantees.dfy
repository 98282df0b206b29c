/**
 What the queue guarantees in every interleaving of any number of producers with the one consumer.
 */
module MpscGuarantees {
  import opened Options
  import opened MpscProtocol

  // ----- Safety of every run -----

  /** The thread still has to store node into prev's link. */
  ghost predicate Owes<T>(s: Shared<T>, thread: nat, prev: Addr, node: Addr) {
    if thread == CONSUMER then s.consumer.LinkStub? && s.consumer.prev == prev && node == STUB
    else thread in s.producers && s.producers[thread] == Linking(prev, node)
  }

  /** The positions of the chain, from consumeEnd to produceEnd. */
  ghost predicate InChain<T>(h: History<T>, k: nat) {
    h.head <= k < |h.order|
  }

  /** Every address in the two ends and in the links of the chain is allocated. */
  ghost predicate ChainAllocated<T>(m: Memory<T>, h: History<T>) {
    && m.consumeEnd in m.heap && m.produceEnd in m.heap
    && forall k: nat :: InChain(h, k) ==>
         && h.order[k] in m.heap
         && (m.heap[h.order[k]].next.Some? ==> m.heap[h.order[k]].next.value in m.heap)
  }

  /** Every address in a thread's registers is allocated. */
  ghost predicate RegistersAllocated<T>(s: Shared<T>) {
    && (forall p :: p in s.producers ==>
          && s.producers[p].node in s.mem.heap
          && (s.producers[p].Linking? ==> s.producers[p].prev in s.mem.heap))
    && (match s.consumer
        case Idle => true
        case EnterList(first) => first in s.mem.heap
        case Advance(node, succ) => node in s.mem.heap && succ in s.mem.heap
        case LinkStub(node, prev) => node in s.mem.heap && prev in s.mem.heap
        case other => other.node in s.mem.heap)
  }

  lemma SaneChainAllocated<T>(m: Memory<T>, h: History<T>)
    requires Sane(m, h)
    ensures ChainAllocated(m, h)
  {
    forall k: nat | InChain(h, k)
      ensures h.order[k] in m.heap
      ensures m.heap[h.order[k]].next.Some? ==> m.heap[h.order[k]].next.value in m.heap
    {
      var a := h.order[k];
      assert h.at[a] == k;
      if a != m.produceEnd {
        assert Linked(m, h, a);
        assert h.order[k + 1] in h.at;
      }
    }
    assert m.consumeEnd in h.at;
  }

  lemma SoundRegistersAllocated<T>(s: Shared<T>, h: History<T>)
    requires Sound(s, h)
    ensures RegistersAllocated(s)
  {
    SaneChainAllocated(s.mem, h);
    assert InChain(h, h.head);
    forall a | a in h.owed ensures a in s.mem.heap && h.owed[a].node in s.mem.heap {
      assert Linked(s.mem, h, a);
      assert InChain(h, h.at[a] + 1);
    }
  }

  /** No run touches freed memory, frees the stub, or keeps an address of a freed node. */
  lemma NoUseAfterFree<T>(blank: T, actions: seq<Action<T>>)
    ensures var r := Run(Initial(blank), NoHistory(), actions);
            !r.0.faulted && ChainAllocated(r.0.mem, r.1) && RegistersAllocated(r.0)
  {
    var r := Run(Initial(blank), NoHistory(), actions);
    ReachableIsSound(blank, actions);
    SaneChainAllocated(r.0.mem, r.1);
    SoundRegistersAllocated(r.0, r.1);
  }

  /** Every allocated node is in the chain, held by a producer, being unpacked, or the stub: none leaks. */
  lemma NoLeak<T>(blank: T, actions: seq<Action<T>>, node: Addr)
    requires node in Run(Initial(blank), NoHistory(), actions).0.mem.heap && node != STUB
    ensures var (s, h) := Run(Initial(blank), NoHistory(), actions);
            || (exists k: nat :: InChain(h, k) && h.order[k] == node)
            || (exists p :: p in s.producers && s.producers[p] == Holding(node))
            || s.consumer == Unpack(node)
  {
    var (s, h) := Run(Initial(blank), NoHistory(), actions);
    ReachableIsSound(blank, actions);
    if node in h.at {
      assert InChain(h, h.at[node]) && h.order[h.at[node]] == node;
    }
  }

  /** The stub is at most once in the chain, is never unpacked, and is reset only when nobody will store to it. */
  ghost predicate StubSafe<T>(s: Shared<T>, h: History<T>) {
    && (forall j: nat, k: nat :: InChain(h, j) && InChain(h, k) && h.order[j] == STUB && h.order[k] == STUB ==> j == k)
    && s.consumer != Unpack(STUB)
    && (s.consumer.ResetStub? ==>
          && (forall k: nat :: InChain(h, k) ==> h.order[k] != STUB)
          && (forall thread: nat, node: Addr :: !Owes(s, thread, STUB, node)))
  }

  lemma StubIsSafe<T>(blank: T, actions: seq<Action<T>>)
    ensures var r := Run(Initial(blank), NoHistory(), actions); StubSafe(r.0, r.1)
  {
    var r := Run(Initial(blank), NoHistory(), actions);
    ReachableIsSound(blank, actions);
    SoundStub(r.0, r.1);
  }

  lemma SoundStub<T>(s: Shared<T>, h: History<T>)
    requires Sound(s, h)
    ensures StubSafe(s, h)
  {
    if s.consumer.ResetStub? {
      assert STUB !in h.at && STUB !in h.owed;
      forall thread: nat, node: Addr ensures !Owes(s, thread, STUB, node) { OwesIsOwed(s, h, thread, STUB, node); }
    }
  }

  lemma OwesIsOwed<T>(s: Shared<T>, h: History<T>, thread: nat, prev: Addr, node: Addr)
    requires ProducersMatch(s.producers, h) && ConsumerMatches(s.consumer, h)
    ensures Owes(s, thread, prev, node) <==> prev in h.owed && h.owed[prev] == Debt(thread, node)
  {
  }

  /** Neighbours in the chain are linked and nobody will store that link, or exactly one thread owes it. */
  ghost predicate LinkedOrOwed<T>(s: Shared<T>, prev: Addr, node: Addr) {
    && prev in s.mem.heap
    && ((s.mem.heap[prev].next == Some(node) && forall thread: nat, x: Addr :: !Owes(s, thread, prev, x))
        || (s.mem.heap[prev].next == None
            && exists thread: nat ::
                 Owes(s, thread, prev, node)
                 && forall t: nat, x: Addr :: Owes(s, t, prev, x) ==> t == thread && x == node))
  }

  lemma EveryLinkIsStoredOrOwed<T>(blank: T, actions: seq<Action<T>>, k: nat)
    requires var h := Run(Initial(blank), NoHistory(), actions).1; InChain(h, k) && InChain(h, k + 1)
    ensures var (s, h) := Run(Initial(blank), NoHistory(), actions); LinkedOrOwed(s, h.order[k], h.order[k + 1])
  {
    var (s, h) := Run(Initial(blank), NoHistory(), actions);
    ReachableIsSound(blank, actions);
    SoundLink(s, h, k);
  }

  lemma SoundLink<T>(s: Shared<T>, h: History<T>, k: nat)
    requires Sound(s, h) && InChain(h, k) && InChain(h, k + 1)
    ensures LinkedOrOwed(s, h.order[k], h.order[k + 1])
  {
    var prev, node := h.order[k], h.order[k + 1];
    assert h.at[prev] == k && prev != s.mem.produceEnd;
    assert Linked(s.mem, h, prev);
    forall t: nat, x: Addr ensures Owes(s, t, prev, x) <==> prev in h.owed && h.owed[prev] == Debt(t, x) {
      OwesIsOwed(s, h, t, prev, x);
    }
    if prev in h.owed { assert Owes(s, h.owed[prev].who, prev, node); }
  }
}
