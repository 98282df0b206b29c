/**
 The lock-free multi-producer single-consumer queue, one atomic access a step. Addresses of freed nodes
 may be handed out again by the allocator. What the threads share and hold in registers (Shared) is kept
 apart from the history the proofs carry (History); no step reads the history.
 */
module MpscProtocol {
  import opened Options

  type Addr = nat
  const STUB: Addr := 0

  /** Threads are numbered; the consumer is thread 0. */
  const CONSUMER: nat := 0

  datatype Node<T> = Node(value: T, next: Option<Addr>)

  datatype Memory<T> = Memory(
    heap: map<Addr, Node<T>>,        // the stub and the allocated nodes
    consumeEnd: Addr,
    produceEnd: Addr)

  /** A producer between its allocation and its exchange, or between its exchange and its store of the link. */
  datatype Producer = Holding(node: Addr) | Linking(prev: Addr, node: Addr)

  /** The consumer's next atomic access, with the registers that are still needed. */
  datatype Consumer =
    | Idle
    | LoadNext(node: Addr)
    | EnterList(first: Addr)
    | ReloadNext(node: Addr)
    | Advance(node: Addr, succ: Addr)
    | Unpack(node: Addr)
    | CheckEnd(node: Addr)
    | ResetStub(node: Addr)
    | SwapStub(node: Addr)
    | LinkStub(node: Addr, prev: Addr)
    | FinalLoad(node: Addr)

  datatype Shared<T> = Shared(
    mem: Memory<T>,
    producers: map<nat, Producer>,
    consumer: Consumer,
    faulted: bool)                   // some thread touched memory that is not allocated, or freed the stub

  /** Thread `who` still has to store node into the link. */
  datatype Debt = Debt(who: nat, node: Addr)

  datatype History<T> = History(
    order: seq<Addr>,                // all nodes ever exchanged, in order; the stub counts at each of its exchanges
    head: nat,                       // the position of consumeEnd; the chain is order[head..]
    at: map<Addr, nat>,              // the positions of the chain's nodes
    owed: map<Addr, Debt>,           // the links of the chain that are still to be stored
    held: map<Addr, nat>,            // the nodes outside the chain, with the only thread that can reach them
    exchanged: seq<T>,               // the produced values in the order of their exchanges
    returned: seq<T>)                // the values consume has returned

  datatype Action<T> = Allocate(p: nat, node: Addr, v: T) | Exchange(p: nat) | Link(p: nat) | Consume

  function Initial<T>(blank: T): Shared<T> {
    Shared(Memory(map[STUB := Node(blank, None)], STUB, STUB), map[], Idle, false)
  }

  function NoHistory<T>(): History<T> {
    History([STUB], 0, map[STUB := 0], map[], map[], [], [])
  }

  // ----- The accesses to memory -----

  /** node->next.store(next) */
  function Store<T>(m: Memory<T>, node: Addr, next: Option<Addr>): Memory<T> {
    if node in m.heap then m.(heap := m.heap[node := m.heap[node].(next := next)]) else m
  }

  function New<T>(m: Memory<T>, node: Addr, v: T): Memory<T> {
    m.(heap := m.heap[node := Node(v, None)])
  }

  function Delete<T>(m: Memory<T>, node: Addr): Memory<T> {
    m.(heap := m.heap - {node})
  }

  // ----- The steps -----

  function Fault<T>(s: Shared<T>): Shared<T> {
    s.(faulted := true)
  }

  /** The consumer after it loaded the successor of a node that holds a value. */
  function Chosen(node: Addr, succ: Option<Addr>, otherwise: Consumer): Consumer {
    if succ.Some? then Advance(node, succ.value) else otherwise
  }

  /** The consumer loads the node's link and goes on as the branch says. */
  function Loaded<T>(m: Memory<T>, node: Addr, otherwise: Consumer): Consumer
    requires node in m.heap
  {
    if node != STUB then Chosen(node, m.heap[node].next, otherwise)
    else if m.heap[STUB].next.None? then Idle
    else EnterList(m.heap[STUB].next.value)
  }

  function ConsumerStep<T>(s: Shared<T>): Shared<T> {
    match s.consumer
    case Idle => s.(consumer := LoadNext(s.mem.consumeEnd))
    case LoadNext(node) =>
      if node !in s.mem.heap then Fault(s) else s.(consumer := Loaded(s.mem, node, CheckEnd(node)))
    case EnterList(first) => s.(mem := s.mem.(consumeEnd := first), consumer := ReloadNext(first))
    case ReloadNext(node) =>
      if node !in s.mem.heap then Fault(s)
      else s.(consumer := Chosen(node, s.mem.heap[node].next, CheckEnd(node)))
    case Advance(node, succ) => s.(mem := s.mem.(consumeEnd := succ), consumer := Unpack(node))
    case Unpack(node) =>
      if node !in s.mem.heap || node == STUB then Fault(s)
      else s.(mem := Delete(s.mem, node), consumer := Idle)
    case CheckEnd(node) => s.(consumer := if node != s.mem.produceEnd then Idle else ResetStub(node))
    case ResetStub(node) => s.(mem := Store(s.mem, STUB, None), consumer := SwapStub(node))
    case SwapStub(node) =>
      s.(mem := s.mem.(produceEnd := STUB), consumer := LinkStub(node, s.mem.produceEnd))
    case LinkStub(node, prev) =>
      if prev !in s.mem.heap then Fault(s)
      else s.(mem := Store(s.mem, prev, Some(STUB)), consumer := FinalLoad(node))
    case FinalLoad(node) =>
      if node !in s.mem.heap then Fault(s) else s.(consumer := Chosen(node, s.mem.heap[node].next, Idle))
  }

  /** A step that its thread cannot take now changes nothing. */
  predicate Enabled<T>(s: Shared<T>, a: Action<T>) {
    match a
    case Allocate(p, node, v) => p != CONSUMER && p !in s.producers && node !in s.mem.heap
    case Exchange(p) => p in s.producers && s.producers[p].Holding?
    case Link(p) => p in s.producers && s.producers[p].Linking?
    case Consume => true
  }

  function Step<T>(s: Shared<T>, a: Action<T>): Shared<T> {
    if !Enabled(s, a) then s
    else
      match a
      case Allocate(p, node, v) => s.(mem := New(s.mem, node, v), producers := s.producers[p := Holding(node)])
      case Exchange(p) =>
        var node := s.producers[p].node;
        s.(mem := s.mem.(produceEnd := node), producers := s.producers[p := Linking(s.mem.produceEnd, node)])
      case Link(p) =>
        var prev, node := s.producers[p].prev, s.producers[p].node;
        if prev !in s.mem.heap then Fault(s)
        else s.(mem := Store(s.mem, prev, Some(node)), producers := s.producers - {p})
      case Consume => ConsumerStep(s)
  }

  // ----- What the steps add to the history -----

  /** The value of a node, as a sequence; the stub has none. */
  function ValueOf<T>(m: Memory<T>, node: Addr): seq<T> {
    if node in m.heap && node != STUB then [m.heap[node].value] else []
  }

  function Acquired<T>(h: History<T>, who: nat, node: Addr): History<T> {
    h.(held := h.held[node := who])
  }

  function Appended<T>(m: Memory<T>, h: History<T>, who: nat, node: Addr): History<T> {
    h.(order := h.order + [node],
       at := h.at[node := |h.order|],
       owed := h.owed[m.produceEnd := Debt(who, node)],
       held := h.held - {node},
       exchanged := h.exchanged + ValueOf(m, node))
  }

  function Paid<T>(h: History<T>, prev: Addr): History<T> {
    h.(owed := h.owed - {prev})
  }

  function Passed<T>(m: Memory<T>, h: History<T>): History<T> {
    h.(head := h.head + 1, at := h.at - {m.consumeEnd}, held := h.held[m.consumeEnd := CONSUMER])
  }

  function Returned<T>(m: Memory<T>, h: History<T>, node: Addr): History<T> {
    h.(returned := h.returned + ValueOf(m, node), held := h.held - {node})
  }

  function Record<T>(s: Shared<T>, h: History<T>, a: Action<T>): History<T> {
    if !Enabled(s, a) then h
    else
      match a
      case Allocate(p, node, _) => Acquired(h, p, node)
      case Exchange(p) => Appended(s.mem, h, p, s.producers[p].node)
      case Link(p) => Paid(h, s.producers[p].prev)
      case Consume =>
        match s.consumer
        case EnterList(_) => Passed(s.mem, h)
        case Advance(_, _) => Passed(s.mem, h)
        case Unpack(node) => Returned(s.mem, h, node)
        case SwapStub(_) => Appended(s.mem, h, CONSUMER, STUB)
        case LinkStub(_, prev) => Paid(h, prev)
        case _ => h
  }

  function Run<T>(s: Shared<T>, h: History<T>, actions: seq<Action<T>>): (Shared<T>, History<T>)
    decreases |actions|
  {
    if actions == [] then (s, h)
    else Run(Step(s, actions[0]), Record(s, h, actions[0]), actions[1..])
  }

  // ----- The invariant of the memory -----

  predicate LinksTo<T>(m: Memory<T>, node: Addr, next: Option<Addr>) {
    node in m.heap && m.heap[node].next == next
  }

  /** The chain runs from consumeEnd to produceEnd, holds no node twice, and all its nodes are allocated. */
  ghost predicate Shape<T>(m: Memory<T>, h: History<T>) {
    && h.head < |h.order|
    && h.order[h.head] == m.consumeEnd
    && h.order[|h.order| - 1] == m.produceEnd
    && (forall k :: h.head <= k < |h.order| ==> h.order[k] in h.at && h.at[h.order[k]] == k)
    && (forall a :: a in h.at ==> h.head <= h.at[a] < |h.order| && h.order[h.at[a]] == a)
  }

  /** The link of a chain node that is not the last is stored, or it is empty and owed. */
  ghost predicate Linked<T>(m: Memory<T>, h: History<T>, a: Addr) {
    && a in m.heap && a in h.at && h.at[a] + 1 < |h.order|
    && (a in h.owed ==> m.heap[a].next == None && h.owed[a].node == h.order[h.at[a] + 1])
    && (a !in h.owed ==> m.heap[a].next == Some(h.order[h.at[a] + 1]))
  }

  /** All links of the chain; the last is empty and not owed. */
  ghost predicate Links<T>(m: Memory<T>, h: History<T>)
    requires Shape(m, h)
  {
    && m.produceEnd !in h.owed
    && (forall a :: a in h.owed ==> a in h.at)
    && m.produceEnd in m.heap && m.heap[m.produceEnd].next == None
    && forall a {:trigger Linked(m, h, a)} :: a in h.at && a != m.produceEnd ==> Linked(m, h, a)
  }

  /** Every allocated node is in the chain or reachable by one thread only. */
  ghost predicate Partition<T>(m: Memory<T>, h: History<T>) {
    && STUB in m.heap
    && (forall a :: a in h.at ==> a in m.heap)
    && (forall a :: a in m.heap ==> a in h.at || a in h.held)
    && (forall a :: a in h.held ==> a in m.heap && a !in h.at)
    && (forall a :: a in h.held && h.held[a] != CONSUMER ==> a != STUB && m.heap[a].next == None)
  }

  ghost predicate Sane<T>(m: Memory<T>, h: History<T>) {
    Shape(m, h) && Links(m, h) && Partition(m, h)
  }

  lemma NewKeepsSane<T>(m: Memory<T>, h: History<T>, p: nat, node: Addr, v: T)
    requires Sane(m, h) && node !in m.heap
    ensures Sane(New(m, node, v), Acquired(h, p, node))
  {
    var m', h' := New(m, node, v), Acquired(h, p, node);
    forall a | a in h.at && a != m.produceEnd ensures Linked(m', h', a) { assert Linked(m, h, a); }
  }

  lemma ExchangeKeepsShape<T>(m: Memory<T>, h: History<T>, who: nat, node: Addr)
    requires Shape(m, h) && node !in h.at
    ensures Shape(m.(produceEnd := node), Appended(m, h, who, node))
  {
  }

  lemma ExchangeKeepsLinks<T>(m: Memory<T>, h: History<T>, who: nat, node: Addr)
    requires Shape(m, h) && Links(m, h) && node !in h.at && node in m.heap && m.heap[node].next == None
    ensures Shape(m.(produceEnd := node), Appended(m, h, who, node))
    ensures Links(m.(produceEnd := node), Appended(m, h, who, node))
  {
    ExchangeKeepsShape(m, h, who, node);
    var m', h' := m.(produceEnd := node), Appended(m, h, who, node);
    assert h.at[m.produceEnd] == |h.order| - 1;
    forall a | a in h'.at && a != node ensures Linked(m', h', a) {
      if a != m.produceEnd { assert Linked(m, h, a); }
    }
  }

  lemma ExchangeKeepsSane<T>(m: Memory<T>, h: History<T>, who: nat, node: Addr)
    requires Sane(m, h) && node in h.held && m.heap[node].next == None
    ensures Sane(m.(produceEnd := node), Appended(m, h, who, node))
  {
    ExchangeKeepsLinks(m, h, who, node);
  }

  lemma StoreKeepsLinks<T>(m: Memory<T>, h: History<T>, prev: Addr)
    requires Shape(m, h) && Links(m, h) && prev in h.owed && prev in m.heap
    ensures var m', h' := Store(m, prev, Some(h.owed[prev].node)), Paid(h, prev); Shape(m', h') && Links(m', h')
  {
    var m', h' := Store(m, prev, Some(h.owed[prev].node)), Paid(h, prev);
    forall a | a in h.at && a != m.produceEnd ensures Linked(m', h', a) { assert Linked(m, h, a); }
  }

  lemma StoreKeepsSane<T>(m: Memory<T>, h: History<T>, prev: Addr)
    requires Sane(m, h) && prev in h.owed
    ensures Sane(Store(m, prev, Some(h.owed[prev].node)), Paid(h, prev)) && LinksTo(m, prev, None)
  {
    assert Linked(m, h, prev);
    StoreKeepsLinks(m, h, prev);
  }

  lemma PassKeepsShape<T>(m: Memory<T>, h: History<T>, succ: Addr)
    requires Shape(m, h) && Linked(m, h, m.consumeEnd) && m.heap[m.consumeEnd].next == Some(succ)
    ensures Shape(m.(consumeEnd := succ), Passed(m, h))
  {
    assert h.at[m.consumeEnd] == h.head;
  }

  lemma PassKeepsSane<T>(m: Memory<T>, h: History<T>, succ: Addr)
    requires Sane(m, h) && LinksTo(m, m.consumeEnd, Some(succ))
    ensures Sane(m.(consumeEnd := succ), Passed(m, h))
  {
    assert Linked(m, h, m.consumeEnd);
    PassKeepsShape(m, h, succ);
    var m', h' := m.(consumeEnd := succ), Passed(m, h);
    forall a | a in h'.at && a != m.produceEnd ensures Linked(m', h', a) { assert Linked(m, h, a); }
  }

  lemma DeleteKeepsSane<T>(m: Memory<T>, h: History<T>, node: Addr)
    requires Sane(m, h) && node in h.held && node != STUB
    ensures Sane(Delete(m, node), Returned(m, h, node))
  {
    var m', h' := Delete(m, node), Returned(m, h, node);
    forall a | a in h.at && a != m.produceEnd ensures Linked(m', h', a) { assert Linked(m, h, a); }
  }

  lemma ResetKeepsSane<T>(m: Memory<T>, h: History<T>)
    requires Sane(m, h) && STUB in h.held
    ensures Sane(Store(m, STUB, None), h) && LinksTo(Store(m, STUB, None), STUB, None)
  {
    var m' := Store(m, STUB, None);
    forall a | a in h.at && a != m.produceEnd ensures Linked(m', h, a) { assert Linked(m, h, a); }
  }

  // ----- The invariant of the threads -----

  /** What the producers hold in registers is what the history says they hold and owe. */
  ghost predicate ProducersMatch<T>(producers: map<nat, Producer>, h: History<T>) {
    && CONSUMER !in producers
    && (forall p :: p in producers && producers[p].Holding? ==>
          producers[p].node in h.held && h.held[producers[p].node] == p)
    && (forall p :: p in producers && producers[p].Linking? ==>
          producers[p].prev in h.owed && h.owed[producers[p].prev] == Debt(p, producers[p].node))
    && (forall a :: a in h.held && h.held[a] != CONSUMER ==>
          h.held[a] in producers && producers[h.held[a]] == Holding(a))
    && (forall a :: a in h.owed && h.owed[a].who != CONSUMER ==>
          h.owed[a].who in producers && producers[h.owed[a].who] == Linking(a, h.owed[a].node))
  }

  /** The consumer holds nothing but the stub and the node it unpacks, and owes nothing but the stub's link. */
  ghost predicate ConsumerMatches<T>(consumer: Consumer, h: History<T>) {
    && (consumer.Unpack? ==> consumer.node != STUB && consumer.node in h.held && h.held[consumer.node] == CONSUMER)
    && (consumer.LinkStub? ==> consumer.prev in h.owed && h.owed[consumer.prev] == Debt(CONSUMER, STUB))
    && (forall a :: a in h.held && h.held[a] == CONSUMER ==> a == STUB || consumer == Unpack(a))
    && (forall a :: a in h.owed && h.owed[a].who == CONSUMER ==> consumer.LinkStub? && consumer.prev == a)
  }

  /** What the consumer knows at each of its steps. */
  ghost predicate Knows<T>(m: Memory<T>, h: History<T>, consumer: Consumer) {
    match consumer
    case Idle => true
    case LoadNext(node) => node == m.consumeEnd
    case EnterList(first) => m.consumeEnd == STUB && LinksTo(m, STUB, Some(first))
    case Advance(node, succ) => node == m.consumeEnd && node != STUB && LinksTo(m, node, Some(succ))
    case Unpack(node) => true
    case ResetStub(node) => node == m.consumeEnd && node != STUB && STUB in h.held
    case SwapStub(node) => node == m.consumeEnd && node != STUB && STUB in h.held && LinksTo(m, STUB, None)
    case other => other.node == m.consumeEnd && other.node != STUB
  }

  /** No thread has gone wrong, and everything in memory and registers is accounted for. */
  ghost predicate Sound<T>(s: Shared<T>, h: History<T>) {
    && !s.faulted
    && Sane(s.mem, h)
    && ProducersMatch(s.producers, h)
    && ConsumerMatches(s.consumer, h)
    && Knows(s.mem, h, s.consumer)
  }

  // ----- Registers after each step -----

  lemma AllocateKeepsMatch<T>(producers: map<nat, Producer>, h: History<T>, p: nat, node: Addr)
    requires ProducersMatch(producers, h) && p != CONSUMER && p !in producers && node !in h.held
    ensures ProducersMatch(producers[p := Holding(node)], Acquired(h, p, node))
  {
  }

  lemma ExchangeKeepsMatch<T>(producers: map<nat, Producer>, m: Memory<T>, h: History<T>, p: nat, node: Addr)
    requires ProducersMatch(producers, h) && m.produceEnd !in h.owed
    requires p in producers && producers[p] == Holding(node)
    ensures ProducersMatch(producers[p := Linking(m.produceEnd, node)], Appended(m, h, p, node))
  {
  }

  lemma LinkKeepsMatch<T>(producers: map<nat, Producer>, h: History<T>, p: nat)
    requires ProducersMatch(producers, h) && p in producers && producers[p].Linking?
    ensures ProducersMatch(producers - {p}, Paid(h, producers[p].prev))
  {
  }

  lemma PassKeepsMatch<T>(producers: map<nat, Producer>, m: Memory<T>, h: History<T>)
    requires ProducersMatch(producers, h) && m.consumeEnd !in h.held
    ensures ProducersMatch(producers, Passed(m, h))
  {
  }

  lemma ReturnKeepsMatch<T>(producers: map<nat, Producer>, m: Memory<T>, h: History<T>, node: Addr)
    requires ProducersMatch(producers, h) && node in h.held && h.held[node] == CONSUMER
    ensures ProducersMatch(producers, Returned(m, h, node))
  {
  }

  lemma SwapKeepsMatch<T>(producers: map<nat, Producer>, m: Memory<T>, h: History<T>)
    requires ProducersMatch(producers, h) && m.produceEnd !in h.owed && STUB in h.held && h.held[STUB] == CONSUMER
    ensures ProducersMatch(producers, Appended(m, h, CONSUMER, STUB))
  {
  }

  lemma PayKeepsMatch<T>(producers: map<nat, Producer>, h: History<T>, prev: Addr)
    requires ProducersMatch(producers, h) && prev in h.owed && h.owed[prev].who == CONSUMER
    ensures ProducersMatch(producers, Paid(h, prev))
  {
  }

  lemma ExchangeKeepsConsumer<T>(consumer: Consumer, m: Memory<T>, h: History<T>, p: nat, node: Addr)
    requires ConsumerMatches(consumer, h) && Knows(m, h, consumer) && m.produceEnd !in h.owed
    requires p != CONSUMER && node in h.held && h.held[node] == p && node != STUB
    ensures ConsumerMatches(consumer, Appended(m, h, p, node))
    ensures Knows(m.(produceEnd := node), Appended(m, h, p, node), consumer)
  {
  }

  lemma SwapKeepsConsumer<T>(m: Memory<T>, h: History<T>, node: Addr)
    requires ConsumerMatches(SwapStub(node), h) && Knows(m, h, SwapStub(node)) && m.produceEnd !in h.owed
    ensures ConsumerMatches(LinkStub(node, m.produceEnd), Appended(m, h, CONSUMER, STUB))
    ensures Knows(m.(produceEnd := STUB), Appended(m, h, CONSUMER, STUB), LinkStub(node, m.produceEnd))
  {
  }

  lemma StoreKeepsConsumer<T>(consumer: Consumer, m: Memory<T>, h: History<T>, p: nat, prev: Addr, node: Addr)
    requires ConsumerMatches(consumer, h) && Knows(m, h, consumer) && LinksTo(m, prev, None)
    requires p != CONSUMER && prev in h.owed && h.owed[prev] == Debt(p, node) && prev !in h.held
    ensures ConsumerMatches(consumer, Paid(h, prev)) && Knows(Store(m, prev, Some(node)), Paid(h, prev), consumer)
  {
  }

  // ----- Each step keeps the invariant -----

  lemma AllocateKeepsSound<T>(s: Shared<T>, h: History<T>, p: nat, node: Addr, v: T)
    requires Sound(s, h) && Enabled(s, Allocate(p, node, v))
    ensures Sound(s.(mem := New(s.mem, node, v), producers := s.producers[p := Holding(node)]), Acquired(h, p, node))
  {
    NewKeepsSane(s.mem, h, p, node, v);
    AllocateKeepsMatch(s.producers, h, p, node);
  }

  lemma ExchangeKeepsSound<T>(s: Shared<T>, h: History<T>, p: nat, node: Addr)
    requires Sound(s, h) && p in s.producers && s.producers[p] == Holding(node)
    ensures Sound(s.(mem := s.mem.(produceEnd := node), producers := s.producers[p := Linking(s.mem.produceEnd, node)]),
                  Appended(s.mem, h, p, node))
  {
    ExchangeKeepsSane(s.mem, h, p, node);
    ExchangeKeepsMatch(s.producers, s.mem, h, p, node);
    ExchangeKeepsConsumer(s.consumer, s.mem, h, p, node);
  }

  lemma LinkKeepsSound<T>(s: Shared<T>, h: History<T>, p: nat, prev: Addr, node: Addr)
    requires Sound(s, h) && p in s.producers && s.producers[p] == Linking(prev, node)
    ensures prev in s.mem.heap
    ensures Sound(s.(mem := Store(s.mem, prev, Some(node)), producers := s.producers - {p}), Paid(h, prev))
  {
    StoreKeepsSane(s.mem, h, prev);
    LinkKeepsMatch(s.producers, h, p);
    StoreKeepsConsumer(s.consumer, s.mem, h, p, prev, node);
  }

  /** The consumer's loads change only its own registers. */
  lemma LoadKeepsSound<T>(s: Shared<T>, h: History<T>, next: Consumer)
    requires Sound(s, h) && !s.consumer.LinkStub? && !s.consumer.Unpack?
    requires Knows(s.mem, h, next) && !next.LinkStub? && !next.Unpack?
    ensures Sound(s.(consumer := next), h)
  {
  }

  lemma ConsumerLoadKeepsSound<T>(s: Shared<T>, h: History<T>)
    requires Sound(s, h)
    requires s.consumer.Idle? || s.consumer.LoadNext? || s.consumer.ReloadNext? || s.consumer.CheckEnd?
             || s.consumer.FinalLoad?
    ensures Sound(ConsumerStep(s), Record(s, h, Consume))
  {
    if s.consumer.CheckEnd? { CheckEndKnows(s, h); }
    assert s.mem.consumeEnd in h.at;
    LoadKeepsSound(s, h, ConsumerStep(s).consumer);
  }

  lemma CheckEndKnows<T>(s: Shared<T>, h: History<T>)
    requires Sound(s, h) && s.consumer.CheckEnd?
    ensures Knows(s.mem, h, ConsumerStep(s).consumer)
  {
    if s.mem.consumeEnd == s.mem.produceEnd {
      assert h.at[s.mem.consumeEnd] == h.head == |h.order| - 1;
    }
  }

  lemma EnterListKeepsSound<T>(s: Shared<T>, h: History<T>, first: Addr)
    requires Sound(s, h) && s.consumer == EnterList(first)
    ensures Sound(s.(mem := s.mem.(consumeEnd := first), consumer := ReloadNext(first)), Passed(s.mem, h))
  {
    PassKeepsSane(s.mem, h, first);
    PassKeepsMatch(s.producers, s.mem, h);
  }

  lemma AdvanceKeepsSound<T>(s: Shared<T>, h: History<T>, node: Addr, succ: Addr)
    requires Sound(s, h) && s.consumer == Advance(node, succ)
    ensures Sound(s.(mem := s.mem.(consumeEnd := succ), consumer := Unpack(node)), Passed(s.mem, h))
  {
    PassKeepsSane(s.mem, h, succ);
    PassKeepsMatch(s.producers, s.mem, h);
  }

  lemma UnpackKeepsSound<T>(s: Shared<T>, h: History<T>, node: Addr)
    requires Sound(s, h) && s.consumer == Unpack(node)
    ensures node in s.mem.heap && node != STUB
    ensures Sound(s.(mem := Delete(s.mem, node), consumer := Idle), Returned(s.mem, h, node))
  {
    DeleteKeepsSane(s.mem, h, node);
    ReturnKeepsMatch(s.producers, s.mem, h, node);
  }

  lemma ResetStubKeepsSound<T>(s: Shared<T>, h: History<T>, node: Addr)
    requires Sound(s, h) && s.consumer == ResetStub(node)
    ensures Sound(s.(mem := Store(s.mem, STUB, None), consumer := SwapStub(node)), h)
  {
    ResetKeepsSane(s.mem, h);
  }

  lemma SwapStubKeepsSound<T>(s: Shared<T>, h: History<T>, node: Addr)
    requires Sound(s, h) && s.consumer == SwapStub(node)
    ensures Sound(s.(mem := s.mem.(produceEnd := STUB), consumer := LinkStub(node, s.mem.produceEnd)),
                  Appended(s.mem, h, CONSUMER, STUB))
  {
    assert s.mem.produceEnd !in h.owed && h.held[STUB] == CONSUMER && s.mem.heap[STUB].next == None;
    SwapKeepsConsumer(s.mem, h, node);
    hide Sane, ProducersMatch, ConsumerMatches, Knows;
    ExchangeKeepsSane(s.mem, h, CONSUMER, STUB);
    SwapKeepsMatch(s.producers, s.mem, h);
  }

  lemma LinkStubKeepsSound<T>(s: Shared<T>, h: History<T>, node: Addr, prev: Addr)
    requires Sound(s, h) && s.consumer == LinkStub(node, prev)
    ensures prev in s.mem.heap
    ensures Sound(s.(mem := Store(s.mem, prev, Some(STUB)), consumer := FinalLoad(node)), Paid(h, prev))
  {
    StoreKeepsSane(s.mem, h, prev);
    PayKeepsMatch(s.producers, h, prev);
  }

  lemma StepKeepsSound<T>(s: Shared<T>, h: History<T>, a: Action<T>)
    requires Sound(s, h)
    ensures Sound(Step(s, a), Record(s, h, a))
  {
    hide Sound;
    if Enabled(s, a) {
      match a
      case Allocate(p, node, v) => AllocateKeepsSound(s, h, p, node, v);
      case Exchange(p) => ExchangeKeepsSound(s, h, p, s.producers[p].node);
      case Link(p) => LinkKeepsSound(s, h, p, s.producers[p].prev, s.producers[p].node);
      case Consume => ConsumerKeepsSound(s, h);
    }
  }

  lemma ConsumerPopKeepsSound<T>(s: Shared<T>, h: History<T>)
    requires Sound(s, h) && (s.consumer.EnterList? || s.consumer.Advance?)
    ensures Sound(ConsumerStep(s), Record(s, h, Consume))
  {
    hide Sound;
    match s.consumer
    case EnterList(first) => EnterListKeepsSound(s, h, first);
    case Advance(node, succ) => AdvanceKeepsSound(s, h, node, succ);
  }

  lemma ConsumerUnpackKeepsSound<T>(s: Shared<T>, h: History<T>)
    requires Sound(s, h) && s.consumer.Unpack?
    ensures Sound(ConsumerStep(s), Record(s, h, Consume))
  {
    hide Sound;
    UnpackKeepsSound(s, h, s.consumer.node);
  }

  lemma ConsumerSwapKeepsSound<T>(s: Shared<T>, h: History<T>)
    requires Sound(s, h) && s.consumer.SwapStub?
    ensures Sound(ConsumerStep(s), Record(s, h, Consume))
  {
    hide Sound;
    SwapStubKeepsSound(s, h, s.consumer.node);
  }

  lemma ConsumerStoreKeepsSound<T>(s: Shared<T>, h: History<T>)
    requires Sound(s, h) && (s.consumer.ResetStub? || s.consumer.LinkStub?)
    ensures Sound(ConsumerStep(s), Record(s, h, Consume))
  {
    hide Sound;
    match s.consumer
    case ResetStub(node) => ResetStubKeepsSound(s, h, node);
    case LinkStub(node, prev) => LinkStubKeepsSound(s, h, node, prev);
  }

  lemma ConsumerKeepsSound<T>(s: Shared<T>, h: History<T>)
    requires Sound(s, h)
    ensures Sound(ConsumerStep(s), Record(s, h, Consume))
  {
    hide Sound;
    match s.consumer
    case EnterList(_) => ConsumerPopKeepsSound(s, h);
    case Advance(_, _) => ConsumerPopKeepsSound(s, h);
    case Unpack(_) => ConsumerUnpackKeepsSound(s, h);
    case SwapStub(_) => ConsumerSwapKeepsSound(s, h);
    case ResetStub(_) => ConsumerStoreKeepsSound(s, h);
    case LinkStub(_, _) => ConsumerStoreKeepsSound(s, h);
    case _ => ConsumerLoadKeepsSound(s, h);
  }

  // ----- First in, first out -----

  /** The values of the chain, in order. */
  ghost function Values<T>(m: Memory<T>, c: seq<Addr>): seq<T> {
    if c == [] then [] else ValueOf(m, c[0]) + Values(m, c[1..])
  }

  /** The value the consumer has taken off the chain and not returned yet. */
  ghost function InHand<T>(s: Shared<T>): seq<T> {
    if s.consumer.Unpack? then ValueOf(s.mem, s.consumer.node) else []
  }

  /** The values exchanged and not yet returned, oldest first. */
  ghost function Pending<T>(s: Shared<T>, h: History<T>): seq<T>
    requires h.head <= |h.order|
  {
    InHand(s) + Values(s.mem, h.order[h.head..])
  }

  lemma {:induction false} ValuesAppend<T>(m: Memory<T>, c: seq<Addr>, node: Addr)
    ensures Values(m, c + [node]) == Values(m, c) + ValueOf(m, node)
  {
    if c == [] {
      assert c + [node] == [node] && [node][1..] == [];
    } else {
      assert (c + [node])[1..] == c[1..] + [node];
      ValuesAppend(m, c[1..], node);
    }
  }

  lemma {:induction false} ValuesFrame<T>(m: Memory<T>, m': Memory<T>, c: seq<Addr>)
    requires forall i :: 0 <= i < |c| ==> ValueOf(m, c[i]) == ValueOf(m', c[i])
    ensures Values(m, c) == Values(m', c)
  {
    if c != [] { ValuesFrame(m, m', c[1..]); }
  }

  lemma StoreKeepsValues<T>(m: Memory<T>, node: Addr, next: Option<Addr>, c: seq<Addr>)
    ensures Values(Store(m, node, next), c) == Values(m, c)
  {
    ValuesFrame(m, Store(m, node, next), c);
  }

  /** Changing memory outside the chain does not change the chain's values. */
  lemma OutsideKeepsValues<T>(m: Memory<T>, h: History<T>, m': Memory<T>, node: Addr)
    requires Shape(m, h) && node !in h.at
    requires forall a :: a != node ==> ValueOf(m, a) == ValueOf(m', a)
    ensures Values(m', h.order[h.head..]) == Values(m, h.order[h.head..])
  {
    ValuesFrame(m, m', h.order[h.head..]);
  }

  lemma AppendedValues<T>(m: Memory<T>, h: History<T>, who: nat, node: Addr)
    requires Shape(m, h)
    ensures var m', h' := m.(produceEnd := node), Appended(m, h, who, node);
            Values(m', h'.order[h'.head..]) == Values(m, h.order[h.head..]) + ValueOf(m, node)
  {
    var c := h.order[h.head..];
    assert (h.order + [node])[h.head..] == c + [node];
    ValuesAppend(m, c, node);
    ValuesFrame(m, m.(produceEnd := node), c + [node]);
  }

  lemma PassedValues<T>(m: Memory<T>, h: History<T>, succ: Addr)
    requires Shape(m, h)
    ensures var m', h' := m.(consumeEnd := succ), Passed(m, h);
            Values(m, h.order[h.head..]) == ValueOf(m, m.consumeEnd) + Values(m', h'.order[h'.head..])
  {
    assert h.order[h.head..][1..] == h.order[h.head + 1..];
    ValuesFrame(m, m.(consumeEnd := succ), h.order[h.head + 1..]);
  }

  // ----- Runs -----

  lemma InitialSound<T>(blank: T)
    ensures Sound(Initial(blank), NoHistory())
  {
  }

  lemma {:induction false} RunKeepsSound<T>(s: Shared<T>, h: History<T>, actions: seq<Action<T>>)
    requires Sound(s, h)
    ensures var r := Run(s, h, actions); Sound(r.0, r.1)
    decreases |actions|
  {
    hide Sound;
    if actions != [] {
      StepKeepsSound(s, h, actions[0]);
      RunKeepsSound(Step(s, actions[0]), Record(s, h, actions[0]), actions[1..]);
    }
  }

  lemma ReachableIsSound<T>(blank: T, actions: seq<Action<T>>)
    ensures var r := Run(Initial(blank), NoHistory(), actions); Sound(r.0, r.1)
  {
    InitialSound(blank);
    RunKeepsSound(Initial(blank), NoHistory(), actions);
  }
}
