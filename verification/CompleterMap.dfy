/**
 The completer table: open addressing with double hashing and tombstones. The first module gives tables as
 values and proves that they behave like a finite map; the second is the mutable class of the source,
 proved against it.
 */
module CompleterTable {
  import opened Options
  import opened Primes
  import opened ProbeSequence

  /** A completer pointer, or one of two marks: never used, and removed. */
  const EMPTY: Word := 0
  const TOMBSTONE: Word := TWO64 - 1

  predicate IsCompleter(value: Word) {
    value != EMPTY && value != TOMBSTONE
  }

  datatype Entry = Entry(key: Word, value: Word) {
    predicate Live() { IsCompleter(value) }
  }

  const FRESH := Entry(TWO64 - 1, EMPTY)

  type Table = t: seq<Entry> | |t| >= 2 witness [FRESH, FRESH]

  predicate IsPath(path: seq<nat>, t: Table) {
    forall i :: 0 <= i < |path| ==> path[i] < |t|
  }

  // ----- The two scans of the source -----

  /** The first slot from probe i on that holds no live entry. */
  function FreeSlot(t: Table, path: seq<nat>, i: nat): (r: Option<nat>)
    requires IsPath(path, t) && i <= |path|
    ensures r.Some? ==> r.value < |t|
    decreases |path| - i
  {
    if i == |path| then None
    else if !t[path[i]].Live() then Some(path[i])
    else FreeSlot(t, path, i + 1)
  }

  /** The slot of the key, searched from probe i on until a never used slot. */
  function Lookup(t: Table, key: Word, path: seq<nat>, i: nat): (r: Option<nat>)
    requires IsPath(path, t) && i <= |path|
    ensures r.Some? ==> r.value < |t| && t[r.value].Live() && t[r.value].key == key
    decreases |path| - i
  {
    if i == |path| then None
    else if t[path[i]].value == EMPTY then None
    else if t[path[i]].Live() && t[path[i]].key == key then Some(path[i])
    else Lookup(t, key, path, i + 1)
  }

  // ----- The operations -----

  /** The table after an insertion; None where the source aborts because no probe hits a free slot. */
  function Inserted(hash: Hash, t: Table, key: Word, value: Word): (r: Option<Table>)
    ensures r.Some? ==> |r.value| == |t|
  {
    match FreeSlot(t, Path(hash, key, |t|), 0)
    case None => None
    case Some(slot) => Some(t[slot := Entry(key, value)])
  }

  /** The value stored for the key, or the null pointer. */
  function Got(hash: Hash, t: Table, key: Word): Word {
    match Lookup(t, key, Path(hash, key, |t|), 0)
    case None => EMPTY
    case Some(slot) => t[slot].value
  }

  function Removed(hash: Hash, t: Table, key: Word): (r: Table)
    ensures |r| == |t|
  {
    match Lookup(t, key, Path(hash, key, |t|), 0)
    case None => t
    case Some(slot) => t[slot := t[slot].(value := TOMBSTONE)]
  }

  // ----- The invariant and the map a table stands for -----

  ghost predicate DistinctKeys(t: Table) {
    forall i, j :: 0 <= i < |t| && 0 <= j < |t| && t[i].Live() && t[j].Live() && t[i].key == t[j].key ==> i == j
  }

  /** Probe i of the path hits slot j, and no earlier probe hits a never used slot. */
  ghost predicate Hits(t: Table, path: seq<nat>, i: nat, j: nat)
    requires IsPath(path, t)
  {
    i < |path| && path[i] == j && forall k :: 0 <= k < i ==> t[path[k]].value != EMPTY
  }

  ghost predicate Reachable(hash: Hash, t: Table, j: nat)
    requires j < |t|
  {
    exists i :: Hits(t, Path(hash, t[j].key, |t|), i, j)
  }

  ghost predicate WellFormed(hash: Hash, t: Table) {
    && DistinctKeys(t)
    && forall j :: 0 <= j < |t| && t[j].Live() ==> Reachable(hash, t, j)
  }

  /** The live entries among the first n slots, as a map. */
  ghost function Stored(t: Table, n: nat): (m: map<Word, Word>)
    requires n <= |t|
    ensures |m| <= n
  {
    if n == 0 then map[]
    else if t[n - 1].Live() then Stored(t, n - 1)[t[n - 1].key := t[n - 1].value]
    else Stored(t, n - 1)
  }

  ghost function Contents(t: Table): map<Word, Word> {
    Stored(t, |t|)
  }

  lemma {:induction false} LiveIsStored(t: Table, n: nat, j: nat)
    requires DistinctKeys(t) && j < n <= |t| && t[j].Live()
    ensures t[j].key in Stored(t, n) && Stored(t, n)[t[j].key] == t[j].value
  {
    if j < n - 1 { LiveIsStored(t, n - 1, j); }
  }

  lemma {:induction false} StoredIsLive(t: Table, n: nat, key: Word) returns (j: nat)
    requires n <= |t| && key in Stored(t, n)
    ensures j < n && t[j].Live() && t[j].key == key
  {
    if t[n - 1].Live() && t[n - 1].key == key {
      j := n - 1;
    } else {
      j := StoredIsLive(t, n - 1, key);
    }
  }

  lemma {:induction false} UnusedIsEmpty(hash: Hash, t: Table, n: nat)
    requires n <= |t| && forall j :: 0 <= j < |t| ==> t[j] == FRESH
    ensures WellFormed(hash, t) && Stored(t, n) == map[]
  {
    if n > 0 { UnusedIsEmpty(hash, t, n - 1); }
  }

  // ----- What the scans find -----

  lemma {:induction false} FreeSlotScan(t: Table, path: seq<nat>, i: nat)
    requires IsPath(path, t) && i <= |path|
    ensures var r := FreeSlot(t, path, i);
            && (r.None? <==> forall k :: i <= k < |path| ==> t[path[k]].Live())
            && (r.Some? ==> !t[r.value].Live())
            && (r.Some? ==> exists k :: i <= k < |path| && path[k] == r.value &&
                              forall l :: i <= l < k ==> t[path[l]].Live())
    decreases |path| - i
  {
    if i < |path| && t[path[i]].Live() { FreeSlotScan(t, path, i + 1); }
  }

  lemma {:induction false} LookupScan(t: Table, key: Word, path: seq<nat>, i: nat, k: nat, j: nat)
    requires IsPath(path, t) && i <= k && Hits(t, path, k, j) && t[j].Live() && t[j].key == key
    ensures Lookup(t, key, path, i).Some?
    decreases k - i
  {
    if i < k { LookupScan(t, key, path, i + 1, k, j); }
  }

  /** In a well-formed table a lookup finds exactly the live entry of the key. */
  lemma LookupFinds(hash: Hash, t: Table, key: Word)
    requires WellFormed(hash, t)
    ensures var r := Lookup(t, key, Path(hash, key, |t|), 0);
            && (r.Some? <==> key in Contents(t))
            && (r.Some? ==> Contents(t)[key] == t[r.value].value)
  {
    var r := Lookup(t, key, Path(hash, key, |t|), 0);
    if r.Some? { LiveIsStored(t, |t|, r.value); }
    if key in Contents(t) {
      var j := StoredIsLive(t, |t|, key);
      assert Reachable(hash, t, j);
      var k :| Hits(t, Path(hash, key, |t|), k, j);
      LookupScan(t, key, Path(hash, key, |t|), 0, k, j);
    }
  }

  // ----- The operations keep the invariant and act on the map -----

  /** Overwriting a slot leaves every other entry reachable if the slot does not become never used. */
  lemma StaysReachable(hash: Hash, t: Table, slot: nat, e: Entry, j: nat)
    requires slot < |t| && j < |t| && j != slot && Reachable(hash, t, j) && e.value != EMPTY
    ensures Reachable(hash, t[slot := e], j)
  {
    var path, t' := Path(hash, t[j].key, |t|), t[slot := e];
    var i :| Hits(t, path, i, j);
    hide Path;
    assert Path(hash, t'[j].key, |t'|) == path;
    forall k | 0 <= k < i ensures t'[path[k]].value != EMPTY {
      assert t[path[k]].value != EMPTY;
    }
    assert Hits(t', path, i, j);
  }

  lemma InsertActsOnMap(hash: Hash, t: Table, key: Word, value: Word)
    requires WellFormed(hash, t) && key !in Contents(t) && IsCompleter(value)
    requires Inserted(hash, t, key, value).Some?
    ensures var t' := Inserted(hash, t, key, value).value;
            WellFormed(hash, t') && Contents(t') == Contents(t)[key := value]
  {
    var path := Path(hash, key, |t|);
    FreeSlotScan(t, path, 0);
    var slot := FreeSlot(t, path, 0).value;
    var e := Entry(key, value);
    var t': Table := t[slot := e];
    var k :| 0 <= k < |path| && path[k] == slot && forall l :: 0 <= l < k ==> t[path[l]].Live();
    assert Hits(t', path, k, slot);
    OverwriteKeepsReachable(hash, t, slot, e);
    OverwriteFree(t, slot, e);
  }

  lemma OverwriteFree(t: Table, slot: nat, e: Entry)
    requires DistinctKeys(t) && slot < |t| && !t[slot].Live() && e.Live() && e.key !in Contents(t)
    ensures DistinctKeys(t[slot := e]) && Contents(t[slot := e]) == Contents(t)[e.key := e.value]
  {
    forall j | 0 <= j < |t| && t[j].Live() ensures t[j].key != e.key { LiveIsStored(t, |t|, j); }
    StoredAfterFill(t, slot, e, |t|);
  }

  lemma {:induction false} StoredAfterFill(t: Table, slot: nat, e: Entry, n: nat)
    requires n <= |t| && slot < |t| && !t[slot].Live() && e.Live()
    requires forall j :: 0 <= j < |t| && t[j].Live() ==> t[j].key != e.key
    ensures Stored(t[slot := e], n) == if slot < n then Stored(t, n)[e.key := e.value] else Stored(t, n)
  {
    if n > 0 { StoredAfterFill(t, slot, e, n - 1); }
  }

  lemma OverwriteLive(t: Table, slot: nat, e: Entry)
    requires DistinctKeys(t) && slot < |t| && t[slot].Live() && !e.Live()
    ensures DistinctKeys(t[slot := e]) && Contents(t[slot := e]) == Contents(t) - {t[slot].key}
  {
    StoredAfterErase(t, slot, e, |t|);
  }

  lemma {:induction false} StoredAfterErase(t: Table, slot: nat, e: Entry, n: nat)
    requires DistinctKeys(t) && n <= |t| && slot < |t| && t[slot].Live() && !e.Live()
    ensures Stored(t[slot := e], n) == Stored(t, n) - {t[slot].key}
  {
    if n > 0 { StoredAfterErase(t, slot, e, n - 1); }
  }

  lemma OverwriteKeepsReachable(hash: Hash, t: Table, slot: nat, e: Entry)
    requires WellFormed(hash, t) && slot < |t| && e.value != EMPTY
    ensures forall j :: 0 <= j < |t| && j != slot && t[j].Live() ==> Reachable(hash, t[slot := e], j)
  {
    forall j | 0 <= j < |t| && j != slot && t[j].Live() ensures Reachable(hash, t[slot := e], j) {
      StaysReachable(hash, t, slot, e, j);
    }
  }

  lemma RemoveActsOnMap(hash: Hash, t: Table, key: Word)
    requires WellFormed(hash, t)
    ensures WellFormed(hash, Removed(hash, t, key)) && Contents(Removed(hash, t, key)) == Contents(t) - {key}
    ensures Got(hash, t, key) == if key in Contents(t) then Contents(t)[key] else EMPTY
  {
    LookupFinds(hash, t, key);
    var r := Lookup(t, key, Path(hash, key, |t|), 0);
    if r.Some? {
      RemoveSlot(hash, t, r.value);
    } else {
      assert Contents(t) - {key} == Contents(t);
    }
  }

  lemma RemoveSlot(hash: Hash, t: Table, slot: nat)
    requires WellFormed(hash, t) && slot < |t| && t[slot].Live()
    ensures var t': Table := t[slot := t[slot].(value := TOMBSTONE)];
            WellFormed(hash, t') && Contents(t') == Contents(t) - {t[slot].key}
  {
    var e := t[slot].(value := TOMBSTONE);
    OverwriteLive(t, slot, e);
    OverwriteKeepsReachable(hash, t, slot, e);
  }

  // ----- When an insertion finds a slot -----

  lemma {:induction false} FullTableSize(t: Table, n: nat)
    requires DistinctKeys(t) && n <= |t| && forall j :: 0 <= j < n ==> t[j].Live()
    ensures |Stored(t, n)| == n
  {
    if n > 0 {
      FullTableSize(t, n - 1);
      if t[n - 1].key in Stored(t, n - 1) {
        var j := StoredIsLive(t, n - 1, t[n - 1].key);
      }
    }
  }

  lemma InsertFindsSlot(hash: Hash, t: Table, key: Word, value: Word)
    requires WellFormed(hash, t) && TableSize(|t|) && |Contents(t)| < |t|
    requires NoWrap(key, Stride(hash, key, |t|), |t|)
    ensures Inserted(hash, t, key, value).Some?
  {
    var path := Path(hash, key, |t|);
    FreeSlotScan(t, path, 0);
    ProbesCoverIffNoWrap(key, Stride(hash, key, |t|), |t|);
    if Inserted(hash, t, key, value).None? {
      forall j | 0 <= j < |t| ensures t[j].Live() { assert j in path; }
      FullTableSize(t, |t|);
    }
  }

  /** Of the slots below count, all but one hold the key that equals their number; the others were never used. */
  function FilledTo(n: nat, missing: nat, count: nat): (t: seq<Entry>)
    requires n < TWO64
    ensures |t| == n && forall j :: 0 <= j < n ==> t[j] == if j == missing || j >= count then FRESH else Entry(j, 1)
  {
    seq(n, j requires 0 <= j < n => if j == missing || j >= count then FRESH else Entry(j, 1))
  }

  lemma AllButOneReachable(hash: Hash, n: nat, missing: nat, j: nat)
    requires 2 <= n <= 196613 && j < n && j != missing
    ensures Reachable(hash, FilledTo(n, missing, n), j)
  {
    var t: Table := FilledTo(n, missing, n);
    HomeSlot(hash, j, n);
    assert Hits(t, Path(hash, t[j].key, n), 0, j);
  }

  lemma {:induction false} AllButOneStored(t: Table, missing: nat, n: nat)
    requires |t| <= 196613 && missing < |t| && n <= |t| && t == FilledTo(|t|, missing, |t|)
    ensures forall k :: k in Stored(t, n) ==> k < n
    ensures missing < n ==> |Stored(t, n)| < n
  {
    if n > 0 { AllButOneStored(t, missing, n - 1); }
  }

  /** Insertion into a table that is not full succeeds whatever else it holds: the source's promise. */
  ghost predicate AlwaysFits(hash: Hash, key: Word, n: nat)
    requires n >= 2
  {
    forall t: Table, value: Word ::
      |t| == n && WellFormed(hash, t) && key !in Contents(t) && |Contents(t)| < n
      ==> Inserted(hash, t, key, value).Some?
  }

  /** The promise holds of exactly the keys whose probes do not wrap around at 2^64. */
  lemma InsertAlwaysFitsIffNoWrap(hash: Hash, key: Word, n: nat)
    requires TableSize(n) && n >= 2
    ensures AlwaysFits(hash, key, n) <==> NoWrap(key, Stride(hash, key, n), n)
  {
    TableSizesArePrime(n);
    if NoWrap(key, Stride(hash, key, n), n) {
      forall t: Table, value: Word | |t| == n && WellFormed(hash, t) && key !in Contents(t) && |Contents(t)| < n
        ensures Inserted(hash, t, key, value).Some?
      {
        InsertFindsSlot(hash, t, key, value);
      }
    } else {
      WrappedKeyDoesNotFit(hash, key, n);
    }
  }

  lemma WrappedKeyIsLarge(key: Word, h: nat, n: nat)
    requires 2 <= n <= 196613 && h < n && !NoWrap(key, h, n)
    ensures key >= n
  {
    ProductMonotone(n - 1, h, 196613, 196613);
  }

  lemma WrappedKeyDoesNotFit(hash: Hash, key: Word, n: nat)
    requires TableSize(n) && 2 <= n <= 196613 && !NoWrap(key, Stride(hash, key, n), n)
    ensures !AlwaysFits(hash, key, n)
  {
    var path := Path(hash, key, n);
    ProbesCoverIffNoWrap(key, Stride(hash, key, n), n);
    var missing :| 0 <= missing < n && missing !in path;
    var t: Table := FilledTo(n, missing, n);
    AllButOneStored(t, missing, n);
    forall j | 0 <= j < n && j != missing ensures Reachable(hash, t, j) {
      AllButOneReachable(hash, n, missing, j);
    }
    WrappedKeyIsLarge(key, Stride(hash, key, n), n);
    FreeSlotScan(t, path, 0);
    assert Inserted(hash, t, key, 1).None?;
  }

  /** A concrete failing key, for every table size: the largest operation id. */
  lemma LargestIdDoesNotFit(hash: Hash, n: nat)
    requires TableSize(n) && n >= 2
    ensures !AlwaysFits(hash, TWO64 - 3, n)
  {
    TableSizesArePrime(n);
    ProductMonotone(n - 1, 1, n - 1, Stride(hash, TWO64 - 3, n));
    InsertAlwaysFitsIffNoWrap(hash, TWO64 - 3, n);
  }

  // ----- Runs -----

  datatype Op = Insert(key: Word, value: Word) | Get(key: Word) | Remove(key: Word)

  /** One operation on a table: the new table and the word returned (null for an insertion). */
  function TableStep(hash: Hash, t: Table, op: Op): Option<(Table, Word)> {
    match op
    case Insert(key, value) =>
      (match Inserted(hash, t, key, value)
       case None => None
       case Some(t') => Some((t', EMPTY)))
    case Get(key) => Some((t, Got(hash, t, key)))
    case Remove(key) => Some((Removed(hash, t, key), Got(hash, t, key)))
  }

  function MapStep(m: map<Word, Word>, op: Op): (map<Word, Word>, Word) {
    match op
    case Insert(key, value) => (m[key := value], EMPTY)
    case Get(key) => (m, if key in m then m[key] else EMPTY)
    case Remove(key) => (m - {key}, if key in m then m[key] else EMPTY)
  }

  function RunTable(hash: Hash, t: Table, ops: seq<Op>): Option<(Table, seq<Word>)>
    decreases |ops|
  {
    if ops == [] then Some((t, []))
    else
      match TableStep(hash, t, ops[0])
      case None => None
      case Some(next) =>
        match RunTable(hash, next.0, ops[1..])
        case None => None
        case Some(rest) => Some((rest.0, [next.1] + rest.1))
  }

  function RunMap(m: map<Word, Word>, ops: seq<Op>): (map<Word, Word>, seq<Word>)
    decreases |ops|
  {
    if ops == [] then (m, [])
    else
      var next := MapStep(m, ops[0]);
      var rest := RunMap(next.0, ops[1..]);
      (rest.0, [next.1] + rest.1)
  }

  /** The callers' side: insertions are of absent keys, of completer pointers, and below capacity. */
  predicate Proper(m: map<Word, Word>, op: Op, capacity: nat) {
    op.Insert? ==> op.key !in m && IsCompleter(op.value) && |m| < capacity
  }

  predicate ProperRun(m: map<Word, Word>, ops: seq<Op>, capacity: nat)
    decreases |ops|
  {
    ops == [] || (Proper(m, ops[0], capacity) && ProperRun(MapStep(m, ops[0]).0, ops[1..], capacity))
  }

  predicate NoInsertWraps(hash: Hash, ops: seq<Op>, n: nat)
    requires n >= 2
  {
    forall i :: 0 <= i < |ops| && ops[i].Insert? ==> NoWrap(ops[i].key, Stride(hash, ops[i].key, n), n)
  }

  lemma StepAgrees(hash: Hash, t: Table, op: Op)
    requires WellFormed(hash, t) && TableSize(|t|) && Proper(Contents(t), op, |t|)
    ensures var r, m := TableStep(hash, t, op), MapStep(Contents(t), op);
            && (NoInsertWraps(hash, [op], |t|) ==> r.Some?)
            && (r.Some? ==> |r.value.0| == |t| && WellFormed(hash, r.value.0)
                            && Contents(r.value.0) == m.0 && r.value.1 == m.1)
  {
    match op
    case Insert(key, value) =>
      if NoInsertWraps(hash, [op], |t|) {
        assert [op][0] == op;
        InsertFindsSlot(hash, t, key, value);
      }
      if Inserted(hash, t, key, value).Some? { InsertActsOnMap(hash, t, key, value); }
    case Get(key) => LookupFinds(hash, t, key);
    case Remove(key) => RemoveActsOnMap(hash, t, key);
  }

  /** Over every run a table returns what a map returns and holds what the map holds. */
  lemma {:induction false} RunAgrees(hash: Hash, t: Table, ops: seq<Op>)
    requires WellFormed(hash, t) && TableSize(|t|) && ProperRun(Contents(t), ops, |t|)
    ensures var r, m := RunTable(hash, t, ops), RunMap(Contents(t), ops);
            && (NoInsertWraps(hash, ops, |t|) ==> r.Some?)
            && (r.Some? ==> WellFormed(hash, r.value.0) && Contents(r.value.0) == m.0 && r.value.1 == m.1)
    decreases |ops|
  {
    if ops != [] {
      StepAgrees(hash, t, ops[0]);
      assert NoInsertWraps(hash, ops, |t|) ==> NoInsertWraps(hash, [ops[0]], |t|) && NoInsertWraps(hash, ops[1..], |t|);
      if TableStep(hash, t, ops[0]).Some? {
        RunAgrees(hash, TableStep(hash, t, ops[0]).value.0, ops[1..]);
      }
    }
  }

  // ----- A run that aborts -----

  ghost function FilledMap(missing: nat, count: nat): (m: map<Word, Word>)
    requires count < TWO64
    ensures |m| == (if missing < count then count - 1 else count) && forall k :: k in m ==> k < count
  {
    if count == 0 then map[]
    else if count - 1 == missing then FilledMap(missing, count - 1)
    else FilledMap(missing, count - 1)[count - 1 := 1]
  }

  /** Inserts the remaining small keys one after the other, and then the given key. */
  function FillAndInsert(n: nat, missing: nat, count: nat, key: Word): seq<Op>
    requires count <= n < TWO64
    decreases n - count
  {
    if count == n then [Insert(key, 1)]
    else (if count == missing then [] else [Insert(count, 1)]) + FillAndInsert(n, missing, count + 1, key)
  }

  /** A small key is put into the slot of its own number. */
  lemma FillOne(hash: Hash, n: nat, missing: nat, count: nat)
    requires 2 <= n <= 196613 && count < n && count != missing
    ensures Inserted(hash, FilledTo(n, missing, count), count, 1) == Some(FilledTo(n, missing, count + 1))
  {
    var t: Table := FilledTo(n, missing, count);
    HomeSlot(hash, count, n);
    assert FreeSlot(t, Path(hash, count, n), 0) == Some(count);
    assert t[count := Entry(count, 1)] == FilledTo(n, missing, count + 1);
  }

  lemma FillUnfolds(n: nat, missing: nat, count: nat, key: Word)
    requires count < n < TWO64
    ensures var ops, rest := FillAndInsert(n, missing, count, key), FillAndInsert(n, missing, count + 1, key);
            if count == missing then ops == rest
            else ops != [] && ops[0] == Insert(count, 1) && ops[1..] == rest
  {
  }

  lemma {:induction false} FillIsProper(n: nat, missing: nat, count: nat, key: Word)
    requires 2 <= n <= 196613 && count <= n && missing < n <= key
    ensures ProperRun(FilledMap(missing, count), FillAndInsert(n, missing, count, key), n)
    decreases n - count
  {
    if count < n {
      FillIsProper(n, missing, count + 1, key);
      FillUnfolds(n, missing, count, key);
    }
  }

  lemma {:induction false} FillAborts(hash: Hash, n: nat, missing: nat, count: nat, key: Word)
    requires 2 <= n <= 196613 && count <= n && missing < n
    requires Inserted(hash, FilledTo(n, missing, n), key, 1).None?
    ensures RunTable(hash, FilledTo(n, missing, count), FillAndInsert(n, missing, count, key)).None?
    decreases n - count
  {
    if count < n {
      FillAborts(hash, n, missing, count + 1, key);
      FillUnfolds(n, missing, count, key);
      hide Inserted, FillAndInsert;
      if count != missing {
        FillOne(hash, n, missing, count);
      } else {
        assert FilledTo(n, missing, count) == FilledTo(n, missing, count + 1);
      }
    }
  }

  /** A key whose probes wrap makes some run of a new table abort, although there is room and the key is absent. */
  lemma WrappedKeyAborts(hash: Hash, key: Word, n: nat, unused: Table) returns (ops: seq<Op>)
    requires TableSize(n) && n >= 2 && !NoWrap(key, Stride(hash, key, n), n)
    requires |unused| == n && forall j :: 0 <= j < n ==> unused[j] == FRESH
    ensures ProperRun(map[], ops, n) && RunTable(hash, unused, ops).None?
  {
    TableSizesArePrime(n);
    var path := Path(hash, key, n);
    ProbesCoverIffNoWrap(key, Stride(hash, key, n), n);
    var missing :| 0 <= missing < n && missing !in path;
    WrappedKeyIsLarge(key, Stride(hash, key, n), n);
    var t: Table := FilledTo(n, missing, n);
    FreeSlotScan(t, path, 0);
    ops := FillAndInsert(n, missing, 0, key);
    assert FilledTo(n, missing, 0) == unused;
    FillAborts(hash, n, missing, 0, key);
    FillIsProper(n, missing, 0, key);
  }

  /** The largest operation id is such a key, for every table size. */
  lemma LargestIdAborts(hash: Hash, n: nat, unused: Table) returns (ops: seq<Op>)
    requires TableSize(n) && n >= 2 && |unused| == n && forall j :: 0 <= j < n ==> unused[j] == FRESH
    ensures ProperRun(map[], ops, n) && RunTable(hash, unused, ops).None?
  {
    LargestIdDoesNotFit(hash, n);
    InsertAlwaysFitsIffNoWrap(hash, TWO64 - 3, n);
    ops := WrappedKeyAborts(hash, TWO64 - 3, n, unused);
  }
}

module CompleterMaps {
  import opened Options
  import opened Primes
  import opened ProbeSequence
  import opened CompleterTable

  /** Each table size is about twice the one before. */
  lemma SizesAreClose(i: nat)
    requires 0 < i < |TABLE_SIZES|
    ensures TABLE_SIZES[i] <= 2 * TABLE_SIZES[i - 1] + 15
  {
  }

  /** The smallest table size above the request, at most about twice it; None where the source aborts. */
  method GetNextSize(num: nat) returns (size: Option<nat>)
    ensures size.Some? <==> num < 196613
    ensures size.Some? ==> TableSize(size.value) && IsPrime(size.value) && num < size.value
    ensures size.Some? ==> forall s :: TableSize(s) && num < s ==> size.value <= s
    ensures size.Some? ==> size.value <= 53 || size.value <= 2 * num + 15
  {
    for i := 0 to |TABLE_SIZES|
      invariant forall k :: 0 <= k < i ==> TABLE_SIZES[k] <= num
    {
      if num < TABLE_SIZES[i] {
        TableSizesArePrime(TABLE_SIZES[i]);
        assert forall k, l :: 0 <= k < l < |TABLE_SIZES| ==> TABLE_SIZES[k] < TABLE_SIZES[l];
        if i > 0 { SizesAreClose(i); }
        return Some(TABLE_SIZES[i]);
      }
    }
    assert TABLE_SIZES[12] == 196613;
    return None;
  }

  class CompleterMap {
    const hash: Hash
    var entries: array<Entry>
    var size: nat

    ghost predicate Valid()
      reads this, entries
    {
      && TableSize(entries.Length)
      && entries.Length >= 2
      && WellFormed(hash, entries[..])
      && size == |Contents(entries[..])|
    }

    ghost function Model(): map<Word, Word>
      requires Valid()
      reads this, entries
    {
      Contents(entries[..])
    }

    constructor (numEntries: nat)
      requires numEntries < 196613
      ensures Valid() && fresh(entries) && Model() == map[]
      ensures entries.Length > numEntries && (entries.Length <= 53 || entries.Length <= 2 * numEntries + 15)
      ensures hash == SplitMix64
    {
      var capacity := GetNextSize(numEntries);
      TableSizesArePrime(capacity.value);
      entries := new Entry[capacity.value](_ => FRESH);
      size := 0;
      hash := SplitMix64;
      new;
      UnusedIsEmpty(hash, entries[..], entries.Length);
    }

    /** Inserts an absent key; false where the source aborts, with nothing changed. */
    method Insert(key: Word, value: Word) returns (ok: bool)
      requires Valid() && size < entries.Length
      requires key !in Model() && IsCompleter(value)
      modifies this`size, entries
      ensures Valid()
      ensures ok <==> Inserted(hash, old(entries[..]), key, value).Some?
      ensures ok ==> entries[..] == Inserted(hash, old(entries[..]), key, value).value
      ensures Model() == if ok then old(Model())[key := value] else old(Model())
      ensures NoWrap(key, Stride(hash, key, entries.Length), entries.Length) ==> ok
    {
      ghost var before: Table := entries[..];
      ghost var path := Path(hash, key, entries.Length);
      var h := Stride(hash, key, entries.Length);
      for i := 0 to entries.Length
        invariant entries[..] == before && size == old(size)
        invariant FreeSlot(before, path, 0) == FreeSlot(before, path, i)
      {
        var slot := Probe(key, h, i, entries.Length);
        assert slot == path[i] by { PathAt(hash, key, entries.Length, i); }
        if entries[slot].value == EMPTY || entries[slot].value == TOMBSTONE {
          assert Inserted(hash, before, key, value) == Some(before[slot := Entry(key, value)]);
          InsertActsOnMap(hash, before, key, value);
          entries[slot] := Entry(key, value);
          size := size + 1;
          assert entries[..] == before[slot := Entry(key, value)];
          return true;
        }
      }
      if NoWrap(key, h, entries.Length) { InsertFindsSlot(hash, before, key, value); }
      return false;
    }

    method Find(key: Word) returns (idx: Option<nat>)
      requires Valid()
      ensures idx == Lookup(entries[..], key, Path(hash, key, entries.Length), 0)
    {
      ghost var t: Table := entries[..];
      ghost var path := Path(hash, key, entries.Length);
      var h := Stride(hash, key, entries.Length);
      for i := 0 to entries.Length
        invariant Lookup(t, key, path, 0) == Lookup(t, key, path, i)
      {
        var slot := Probe(key, h, i, entries.Length);
        assert slot == path[i] by { PathAt(hash, key, entries.Length, i); }
        if entries[slot].value == EMPTY {
          return None;
        } else if entries[slot].value != TOMBSTONE && entries[slot].key == key {
          return Some(slot);
        }
      }
      return None;
    }

    method Get(key: Word) returns (value: Word)
      requires Valid()
      ensures value == if key in Model() then Model()[key] else EMPTY
    {
      LookupFinds(hash, entries[..], key);
      var idx := Find(key);
      if idx.None? {
        return EMPTY;
      }
      return entries[idx.value].value;
    }

    method Remove(key: Word) returns (value: Word)
      requires Valid()
      modifies this`size, entries
      ensures Valid() && Model() == old(Model()) - {key}
      ensures value == if key in old(Model()) then old(Model())[key] else EMPTY
      ensures entries[..] == Removed(hash, old(entries[..]), key)
    {
      ghost var before: Table := entries[..];
      LookupFinds(hash, before, key);
      RemoveActsOnMap(hash, before, key);
      var idx := Find(key);
      if idx.None? {
        return EMPTY;
      }
      value := entries[idx.value].value;
      entries[idx.value] := Entry(entries[idx.value].key, TOMBSTONE);
      assert entries[..] == Removed(hash, before, key);
      size := size - 1;
    }
  }
}
