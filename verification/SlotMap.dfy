/**
 The index allocator and its storage. The first module gives a slot map as a value and what its runs guarantee;
 the second has the two mutable containers, proved against it.
 */
module SlotSpec {
  /** `leaked` counts the indices that explicit resizes skipped, `peak` is the largest number of live entries so far. */
  datatype Slots<T> = Slots(
    live: map<nat, T>, storage: nat, next: nat, free: seq<nat>,
    leaked: nat, peak: nat)                        // history

  datatype Op<T> = Insert(value: T) | Remove(index: nat) | Resize(size: nat)

  /** What the assertions of the source ask for. */
  predicate Proper<T>(s: Slots<T>, op: Op<T>) {
    match op
    case Insert(_) => true
    case Remove(i) => i in s.live
    case Resize(n) => n > s.storage
  }

  /** The index an insertion gets: the oldest freed one, or the next new one. */
  function NewIndex<T>(s: Slots<T>): nat { if s.free != [] then s.free[0] else s.next }

  function Max(a: nat, b: nat): nat { if a >= b then a else b }

  /** The size of the storage after an entry has been put at an index. */
  function Grown(storage: nat, index: nat): nat {
    if index < storage then storage else Max(2 * storage, index + 1)
  }

  function Inserted<T>(s: Slots<T>, value: T): Slots<T> {
    var i := NewIndex(s);
    s.(live := s.live[i := value], storage := Grown(s.storage, i),
       next := if s.free != [] then s.next else s.next + 1,
       free := if s.free != [] then s.free[1..] else [],
       peak := Max(s.peak, |s.live[i := value]|))
  }

  function Removed<T>(s: Slots<T>, i: nat): Slots<T> {
    s.(live := s.live - {i}, free := s.free + [i])
  }

  function Resized<T>(s: Slots<T>, size: nat): Slots<T> {
    s.(storage := size, next := s.storage,
       leaked := if s.storage >= s.next then s.leaked + (s.storage - s.next) else s.leaked)
  }

  function Step<T>(s: Slots<T>, op: Op<T>): Slots<T> {
    match op
    case Insert(v) => Inserted(s, v)
    case Remove(i) => Removed(s, i)
    case Resize(n) => Resized(s, n)
  }

  function Fresh<T>(): Slots<T> { Slots(map[], 0, 0, [], 0, 0) }

  predicate FreeAt<T>(s: Slots<T>, k: nat) { k < |s.free| ==> s.free[k] !in s.live && s.free[k] < s.next }

  predicate Apart(free: seq<nat>) { forall i, j :: 0 <= i < j < |free| ==> free[i] != free[j] }

  /**
   Freed indices are distinct, dead and below the next new one, as live ones are; every index handed out is live,
   free or leaked, and there are as many live and free ones together as were ever live at once.
   */
  ghost predicate Sound<T>(s: Slots<T>) {
    && s.next <= s.storage
    && (forall i :: i in s.live ==> i < s.next)
    && (forall k: nat {:trigger FreeAt(s, k)} :: FreeAt(s, k)) && Apart(s.free)
    && |s.live| + |s.free| + s.leaked == s.next
    && |s.live| + |s.free| == s.peak
  }

  lemma FreshIndexIsFree<T>(s: Slots<T>)
    requires Sound(s)
    ensures NewIndex(s) !in s.live
  {
    assert FreeAt(s, 0);
  }

  lemma InsertKeepsSound<T>(s: Slots<T>, value: T)
    requires Sound(s)
    ensures Sound(Inserted(s, value))
  {
    FreshIndexIsFree(s);
    var t := Inserted(s, value);
    assert |t.live| == |s.live| + 1;
    if s.free != [] {
      assert FreeAt(s, 0);
      assert forall k: nat :: k < |t.free| ==> t.free[k] == s.free[k + 1];
    }
    forall k: nat ensures FreeAt(t, k) { assert FreeAt(s, k + 1); }
  }

  lemma RemoveKeepsSound<T>(s: Slots<T>, i: nat)
    requires Sound(s) && i in s.live
    ensures Sound(Removed(s, i))
  {
    var t := Removed(s, i);
    assert s.live == t.live[i := s.live[i]];
    forall k: nat ensures FreeAt(t, k) { assert FreeAt(s, k); }
    forall j, k | 0 <= j < k < |t.free| ensures t.free[j] != t.free[k] { assert FreeAt(s, j); }
  }

  lemma ResizeKeepsSound<T>(s: Slots<T>, size: nat)
    requires Sound(s) && size > s.storage
    ensures Sound(Resized(s, size))
  {
    var t := Resized(s, size);
    forall k: nat ensures FreeAt(t, k) { assert FreeAt(s, k); }
  }

  // ----- Runs -----

  /** The state after a run and the indices its insertions returned. */
  function Run<T>(s: Slots<T>, ops: seq<Op<T>>): (r: (Slots<T>, seq<nat>))
    decreases |ops|
  {
    if ops == [] then (s, [])
    else
      var (t, ids) := Run(Step(s, ops[0]), ops[1..]);
      (t, (if ops[0].Insert? then [NewIndex(s)] else []) + ids)
  }

  predicate ProperRun<T>(s: Slots<T>, ops: seq<Op<T>>)
    decreases |ops|
  {
    ops == [] || (Proper(s, ops[0]) && ProperRun(Step(s, ops[0]), ops[1..]))
  }

  /** What a finite map does in the same run, given the indices the slot map chose. */
  function MapRun<T>(m: map<nat, T>, ops: seq<Op<T>>, ids: seq<nat>): map<nat, T>
    decreases |ops|
  {
    if ops == [] then m
    else
      match ops[0]
      case Insert(v) => if ids == [] then m else MapRun(m[ids[0] := v], ops[1..], ids[1..])
      case Remove(i) => MapRun(m - {i}, ops[1..], ids)
      case Resize(_) => MapRun(m, ops[1..], ids)
  }

  /** No insertion of the run gets an index that is live at the time. */
  predicate NeverReused<T>(m: map<nat, T>, ops: seq<Op<T>>, ids: seq<nat>)
    decreases |ops|
  {
    ops == [] ||
      match ops[0]
      case Insert(v) => ids != [] && ids[0] !in m && NeverReused(m[ids[0] := v], ops[1..], ids[1..])
      case Remove(i) => NeverReused(m - {i}, ops[1..], ids)
      case Resize(_) => NeverReused(m, ops[1..], ids)
  }

  lemma RunUnfolds<T>(s: Slots<T>, ops: seq<Op<T>>)
    requires ops != []
    ensures var (t, ids) := Run(s, ops);
            var (u, rest) := Run(Step(s, ops[0]), ops[1..]);
            t == u && if ops[0].Insert? then ids != [] && ids[0] == NewIndex(s) && ids[1..] == rest else ids == rest
  {
  }

  /** Over every run a slot map holds what a finite map holds, and never hands out a live index. */
  lemma {:induction false} RunAgrees<T>(s: Slots<T>, ops: seq<Op<T>>)
    requires Sound(s) && ProperRun(s, ops)
    ensures var (t, ids) := Run(s, ops);
            Sound(t) && t.live == MapRun(s.live, ops, ids) && NeverReused(s.live, ops, ids)
    decreases |ops|
  {
    if ops != [] {
      match ops[0] {
        case Insert(v) => InsertKeepsSound(s, v); FreshIndexIsFree(s);
        case Remove(i) => RemoveKeepsSound(s, i);
        case Resize(n) => ResizeKeepsSound(s, n);
      }
      RunAgrees(Step(s, ops[0]), ops[1..]);
      RunUnfolds(s, ops);
    }
  }

  /** The largest number of live entries at any point of a run. */
  function PeakOf<T>(s: Slots<T>, ops: seq<Op<T>>): nat
    decreases |ops|
  {
    if ops == [] then |s.live| else Max(|s.live|, PeakOf(Step(s, ops[0]), ops[1..]))
  }

  lemma {:induction false} PeakIsTracked<T>(s: Slots<T>, ops: seq<Op<T>>)
    requires Sound(s) && ProperRun(s, ops) && s.peak >= |s.live|
    ensures Run(s, ops).0.peak == Max(s.peak, PeakOf(s, ops))
    decreases |ops|
  {
    if ops != [] {
      match ops[0] {
        case Insert(v) => InsertKeepsSound(s, v);
        case Remove(i) => RemoveKeepsSound(s, i);
        case Resize(n) => ResizeKeepsSound(s, n);
      }
      PeakIsTracked(Step(s, ops[0]), ops[1..]);
    }
  }

  /** Storage bounds, as long as the storage only grew on demand. */
  predicate Tight<T>(s: Slots<T>) { s.leaked == 0 && (if s.storage == 0 then s.peak == 0 else s.storage < 2 * s.peak) }

  lemma {:induction false} RunStaysTight<T>(s: Slots<T>, ops: seq<Op<T>>)
    requires Sound(s) && ProperRun(s, ops) && Tight(s) && forall i :: 0 <= i < |ops| ==> !ops[i].Resize?
    ensures Tight(Run(s, ops).0)
    decreases |ops|
  {
    if ops != [] {
      match ops[0] {
        case Insert(v) =>
          InsertKeepsSound(s, v);
          assert FreeAt(s, 0);
        case Remove(i) => RemoveKeepsSound(s, i);
      }
      RunStaysTight(Step(s, ops[0]), ops[1..]);
    }
  }

  /**
   Space: without explicit resizes the next new index is the peak number of live entries, all of them are live or
   free, and the storage is below twice that peak once anything was inserted.
   */
  lemma SpaceIsBoundedByPeak<T>(ops: seq<Op<T>>)
    requires ProperRun(Fresh<T>(), ops) && forall i :: 0 <= i < |ops| ==> !ops[i].Resize?
    ensures var t := Run(Fresh<T>(), ops).0;
            && t.next == PeakOf(Fresh<T>(), ops) == |t.live| + |t.free|
            && (if t.next == 0 then t.storage == 0 else t.next <= t.storage < 2 * t.next)
  {
    FreshIsSound<T>(Fresh());
    RunAgrees(Fresh<T>(), ops);
    PeakIsTracked(Fresh<T>(), ops);
    RunStaysTight(Fresh<T>(), ops);
  }

  lemma FreshIsSound<T>(s: Slots<T>)
    requires s == Fresh()
    ensures Sound(s) && Tight(s)
  {
    forall k: nat ensures FreeAt(s, k) {}
  }

  /** An index below the next new one that is neither live nor free. */
  predicate Leaked<T>(s: Slots<T>, i: nat) { i < s.next && i !in s.live && i !in s.free }

  /** An explicit resize loses exactly the indices between the next new one and the old size. */
  lemma ResizeLeaks<T>(s: Slots<T>, size: nat, i: nat)
    requires Sound(s) && Proper(s, Resize(size))
    ensures Leaked(Resized(s, size), i) <==> Leaked(s, i) || s.next <= i < s.storage
    ensures Resized(s, size).leaked == s.leaked + (s.storage - s.next)
  {
    forall k: nat | k < |s.free| ensures s.free[k] < s.next { assert FreeAt(s, k); }
  }

  /** Two resizes of a new slot map lose index 0 before anything was inserted. */
  lemma TwoResizesLeak<T>()
    ensures ProperRun(Fresh<T>(), [Resize(1), Resize(2)])
    ensures Leaked(Run(Fresh<T>(), [Resize(1), Resize(2)]).0, 0)
  {
    var s1 := Resized(Fresh<T>(), 1);
    assert Run(s1, [Resize(2)]).0 == Run(Resized(s1, 2), []).0;
    assert Run(Fresh<T>(), [Resize(1), Resize(2)]).0 == Run(s1, [Resize(2)]).0;
  }

  /** A skipped index is lost for good: no later insertion gets it. */
  lemma {:induction false} LeakedNeverReturn<T>(s: Slots<T>, ops: seq<Op<T>>, i: nat)
    requires Sound(s) && ProperRun(s, ops) && Leaked(s, i)
    ensures Leaked(Run(s, ops).0, i) && i !in Run(s, ops).1
    decreases |ops|
  {
    if ops != [] {
      match ops[0] {
        case Insert(v) => InsertKeepsSound(s, v);
        case Remove(j) => RemoveKeepsSound(s, j);
        case Resize(n) => ResizeKeepsSound(s, n);
      }
      LeakedNeverReturn(Step(s, ops[0]), ops[1..], i);
    }
  }

  // ----- The order of indices -----

  function Insertions<T>(values: seq<T>): seq<Op<T>> {
    seq(|values|, i requires 0 <= i < |values| => Insert(values[i]))
  }

  function Removals<T>(indices: seq<nat>): seq<Op<T>> {
    seq(|indices|, i requires 0 <= i < |indices| => Remove(indices[i]))
  }

  /** Indices that were never handed out. */
  function NewOnes(next: nat, n: nat): seq<nat> { seq(n, i requires 0 <= i < n => next + i) }

  /** Insertions get the freed indices from the front of the list, and then new ones in order. */
  lemma {:induction false} InsertionsTakeInOrder<T>(s: Slots<T>, values: seq<T>)
    ensures ProperRun(s, Insertions(values))
    ensures Run(s, Insertions(values)).1 == (s.free + NewOnes(s.next, |values|))[..|values|]
    decreases |values|
  {
    if values != [] {
      var t := Inserted(s, values[0]);
      var n := |values| - 1;
      assert Insertions(values)[1..] == Insertions(values[1..]);
      InsertionsTakeInOrder(t, values[1..]);
      RunUnfolds(s, Insertions(values));
      NextInOrder(s.free, s.next, n);
      hide NewOnes, Insertions, Run;
      assert Run(s, Insertions(values)).1 == [NewIndex(s)] + Run(t, Insertions(values[1..])).1;
    }
  }

  lemma NextInOrder(free: seq<nat>, next: nat, n: nat)
    ensures (free + NewOnes(next, n + 1))[..n + 1]
            == if free != [] then [free[0]] + (free[1..] + NewOnes(next, n))[..n]
               else [next] + ([] + NewOnes(next + 1, n))[..n]
  {
  }

  /**
   First in, first out: after any live indices have been removed, insertions get the indices that were free before, then
   the removed ones in the order of their removal, and then new ones.
   */
  lemma {:induction false} FreedComeBackInOrder<T>(s: Slots<T>, indices: seq<nat>, values: seq<T>)
    requires Sound(s) && Apart(indices) && forall i :: 0 <= i < |indices| ==> indices[i] in s.live
    ensures ProperRun(s, Removals(indices) + Insertions(values))
    ensures Run(s, Removals(indices) + Insertions(values)).1
            == (s.free + indices + NewOnes(s.next, |values|))[..|values|]
    decreases |indices|
  {
    var ops := Removals<T>(indices) + Insertions(values);
    if indices == [] {
      assert ops == Insertions(values) && s.free + indices == s.free;
      InsertionsTakeInOrder(s, values);
    } else {
      assert ops[0] == Remove(indices[0]);
      assert ops[1..] == Removals(indices[1..]) + Insertions(values);
      RemoveKeepsSound(s, indices[0]);
      FreedComeBackInOrder(Removed(s, indices[0]), indices[1..], values);
      assert (s.free + [indices[0]]) + indices[1..] == s.free + indices;
    }
  }

  // ----- The cost of growing -----

  /** How many places a run moves to new storage on its own account. */
  function Moves<T>(s: Slots<T>, ops: seq<Op<T>>): nat
    decreases |ops|
  {
    if ops == [] then 0
    else
      var t := Step(s, ops[0]);
      (if ops[0].Insert? && t.storage != s.storage then s.storage else 0) + Moves(t, ops[1..])
  }

  /** All the moving that insertions of a run cause together is paid for by the storage gained: it is linear. */
  lemma {:induction false} MovesArePaidFor<T>(s: Slots<T>, ops: seq<Op<T>>)
    requires ProperRun(s, ops)
    ensures Run(s, ops).0.storage >= s.storage + Moves(s, ops)
    decreases |ops|
  {
    if ops != [] {
      MovesArePaidFor(Step(s, ops[0]), ops[1..]);
      RunUnfolds(s, ops);
    }
  }

  /** From a new slot map, all insertions together move fewer places than twice the peak number of live entries. */
  lemma MovesAreLinear<T>(ops: seq<Op<T>>)
    requires ProperRun(Fresh<T>(), ops) && forall i :: 0 <= i < |ops| ==> !ops[i].Resize?
    ensures Moves(Fresh<T>(), ops) <= 2 * PeakOf(Fresh<T>(), ops)
  {
    SpaceIsBoundedByPeak(ops);
    MovesArePaidFor(Fresh<T>(), ops);
  }
}

module SlotMaps {
  import opened Options
  import opened SlotSpec

  /** Storage addressed by index; a place that was never written, or moved from, holds None. */
  class VectorMap<T(0)> {
    var buffer: array<Option<T>>
    var occupied: seq<bool>
    var size: nat
    var numOccupied: nat

    predicate Holds(i: nat)
      reads this, buffer
    {
      i < |occupied| && occupied[i] && i < buffer.Length && buffer[i].Some?
    }

    ghost function Contents(): map<nat, T>
      reads this, buffer
    {
      map i: nat | i < |occupied| && Holds(i) :: buffer[i].value
    }

    ghost predicate Valid()
      reads this, buffer
    {
      && size <= buffer.Length && size <= |occupied|
      && (forall i :: 0 <= i < |occupied| && occupied[i] ==> i < size && buffer[i].Some?)
      && numOccupied == |Contents()|
    }

    /** The sized constructor allocates, but leaves the size at 0. */
    constructor (numElems: nat)
      ensures Valid() && fresh(buffer) && Contents() == map[] && size == 0
    {
      buffer := new Option<T>[numElems](_ => None);
      occupied := seq(numElems, _ => false);
      size, numOccupied := 0, 0;
    }

    predicate Contains(index: nat)
      requires Valid()
      reads this, buffer
      ensures Contains(index) <==> index in Contents()
    {
      index < |occupied| && occupied[index]
    }

    /** A buffer of another size with everything moved over. */
    method Moved(newSize: nat) returns (data: array<Option<T>>)
      requires size <= buffer.Length && newSize > size
      ensures fresh(data) && data.Length == newSize
      ensures forall j :: 0 <= j < size ==> data[j] == buffer[j]
    {
      data := new Option<T>[newSize](_ => None);
      for i := 0 to size
        invariant forall j :: 0 <= j < i ==> data[j] == buffer[j]
      {
        data[i] := buffer[i];
      }
    }

    /** Moves everything into a new buffer. */
    method Resize(newSize: nat)
      requires Valid() && newSize > size
      modifies this`buffer, this`occupied, this`size
      ensures Valid() && fresh(buffer) && size == newSize
      ensures Contents() == old(Contents())
    {
      ghost var before, marks, n := Contents(), occupied, size;
      var data := Moved(newSize);
      occupied := if newSize <= |occupied| then occupied[..newSize]
                  else occupied + seq(newSize - |occupied|, _ => false);
      assert forall i :: 0 <= i < |occupied| && occupied[i] ==> i < |marks| && marks[i];
      assert forall i :: 0 <= i < n && i < |marks| ==> occupied[i] == marks[i];
      buffer, size := data, newSize;
      assert Contents() == before;
    }

    method Emplace(index: nat, value: T)
      requires Valid() && !Contains(index)
      modifies this, buffer
      ensures Valid() && (buffer == old(buffer) || fresh(buffer))
      ensures Contents() == old(Contents())[index := value]
      ensures size == Grown(old(size), index)
    {
      if index >= size {
        Resize(if size * 2 >= index + 1 then size * 2 else index + 1);
      }
      Construct(index, value);
    }

    /** Builds a value at a place that is in the storage and holds none. */
    method Construct(index: nat, value: T)
      requires Valid() && !Contains(index) && index < size
      modifies this`occupied, this`numOccupied, buffer
      ensures Valid() && Contents() == old(Contents())[index := value]
    {
      ghost var before := Contents();
      buffer[index] := Some(value);
      occupied := occupied[index := true];
      numOccupied := numOccupied + 1;
      assert Contents() == before[index := value];
    }

    method Remove(index: nat)
      requires Valid() && Contains(index)
      modifies this`occupied, this`numOccupied, buffer
      ensures Valid() && Contents() == old(Contents()) - {index}
    {
      ghost var before := Contents();
      buffer[index] := None;
      occupied := occupied[index := false];
      numOccupied := numOccupied - 1;
      assert Contents() == before - {index};
    }

    method At(index: nat) returns (value: T)
      requires Valid() && Contains(index)
      ensures value == Contents()[index]
    {
      value := buffer[index].value;
    }
  }

  class SlotMap<T(0)> {
    const data: VectorMap<T>
    var nextIndex: nat
    var freeList: seq<nat>
    ghost var leaked: nat
    ghost var peak: nat

    ghost function State(): Slots<T>
      reads this, data, data.buffer
    {
      Slots(data.Contents(), data.size, nextIndex, freeList, leaked, peak)
    }

    ghost predicate Valid()
      reads this, data, data.buffer
    {
      data.Valid() && Sound(State())
    }

    constructor (numElems: nat)
      ensures Valid() && fresh(data) && fresh(data.buffer) && State() == Fresh<T>()
    {
      data := new VectorMap(numElems);
      nextIndex, freeList, leaked, peak := 0, [], 0, 0;
      new;
      FreshIsSound(State());
    }

    method Size() returns (n: nat)
      requires Valid()
      ensures n == |State().live|
    {
      n := data.numOccupied;
    }

    method GetNewIndex() returns (index: nat)
      modifies this`nextIndex, this`freeList
      ensures if old(freeList) != []
              then index == old(freeList)[0] && freeList == old(freeList)[1..] && nextIndex == old(nextIndex)
              else index == old(nextIndex) && nextIndex == index + 1 && freeList == []
    {
      if |freeList| > 0 {
        index := freeList[0];
        freeList := freeList[1..];
        return;
      }
      index := nextIndex;
      nextIndex := nextIndex + 1;
    }

    /** Puts a value at an index that is not live, and returns the index. */
    method Insert(value: T) returns (index: nat)
      requires Valid()
      modifies this, data, data.buffer
      ensures Valid() && (data.buffer == old(data.buffer) || fresh(data.buffer))
      ensures State() == Inserted(old(State()), value)
      ensures index == NewIndex(old(State())) && index !in old(State()).live
    {
      ghost var s := State();
      FreshIndexIsFree(s);
      InsertKeepsSound(s, value);
      hide Sound, VectorMap.Valid, VectorMap.Contents, Max, Grown;
      index := GetNewIndex();
      Put(index, value);
      ghost var t := Inserted(s, value);
      assert data.Contents() == t.live && freeList == t.free && nextIndex == t.next;
      assert data.size == t.storage && peak == t.peak;
      assert State() == t;
    }

    /** Stores a value at a free index. */
    method Put(index: nat, value: T)
      requires data.Valid() && index !in data.Contents()
      modifies this`peak, data, data.buffer
      ensures data.Valid() && (data.buffer == old(data.buffer) || fresh(data.buffer))
      ensures data.Contents() == old(data.Contents())[index := value]
      ensures data.size == Grown(old(data.size), index) && peak == Max(old(peak), |data.Contents()|)
    {
      data.Emplace(index, value);
      peak := Max(peak, |data.Contents()|);
    }

    method Remove(index: nat)
      requires Valid() && data.Contains(index)
      modifies this`freeList, data`occupied, data`numOccupied, data.buffer
      ensures Valid() && State() == Removed(old(State()), index)
    {
      RemoveKeepsSound(State(), index);
      data.Remove(index);
      freeList := freeList + [index];
    }

    /** Grows the storage explicitly; new indices go on from the old size, whatever was handed out before. */
    method Resize(size: nat)
      requires Valid() && size > data.size
      modifies this`nextIndex, this`leaked, data`buffer, data`occupied, data`size
      ensures Valid() && fresh(data.buffer)
      ensures State() == Resized(old(State()), size)
    {
      ghost var s := State();
      ResizeKeepsSound(s, size);
      assert nextIndex <= data.size;
      hide Sound, VectorMap.Valid, VectorMap.Contents;
      leaked := leaked + (data.size - nextIndex);
      nextIndex := data.size;
      data.Resize(size);
      assert State() == Resized(s, size);
    }
  }
}
