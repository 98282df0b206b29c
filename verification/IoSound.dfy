/** Every allowed step of the event loop succeeds and keeps its invariant. */
module IoSoundness {
  import opened Options
  import opened ProbeSequence
  import opened CompleterTable
  import opened IoProtocol

  // ----- Ids -----

  lemma IdAfter(k: nat)
    ensures Id(k + 1) == (Id(k) + 1) % IDS
  {
  }

  lemma FreshIdIsNext(s: State)
    requires s.NextIdSound()
    ensures s.FreshId() == Id(|s.ring.requests|) < IDS
  {
  }

  // ----- The ring -----

  lemma PrepareKeepsRing(r: Ring, kind: Kind)
    requires r.Sound() && (kind.AsyncCancel? || (kind.LinkTimeout? && (r.Full() || r.AfterLinked(|r.sq|))))
    ensures r.Prepare(OPID_IGNORE, kind).Sound()
  {
    var t := r.Prepare(OPID_IGNORE, kind);
    forall i: nat ensures t.SqSound(i) { assert r.SqSound(i); }
    forall k: nat ensures t.RequestSound(k) { assert r.RequestSound(k); }
    forall j: nat ensures t.CqSound(j) { assert r.CqSound(j); }
    forall i: nat ensures t.AnswerSound(i) { assert r.AnswerSound(i); }
  }

  lemma RequestKeepsRing(r: Ring, id: Word)
    requires r.Sound() && id == Id(|r.requests|)
    ensures r.PrepareRequest(id).Sound()
  {
    var t := r.PrepareRequest(id);
    forall i: nat ensures t.SqSound(i) { assert r.SqSound(i); }
    forall k: nat ensures t.RequestSound(k) { assert r.RequestSound(k); }
    forall j: nat ensures t.CqSound(j) { assert r.CqSound(j); }
    forall i: nat ensures t.AnswerSound(i) { assert r.AnswerSound(i); }
  }

  lemma LinkKeepsRing(r: Ring, i: nat)
    requires r.Sound() && i < |r.sq|
    ensures r.Linked(i).Sound()
  {
    var t := r.Linked(i);
    forall i: nat ensures t.SqSound(i) { assert r.SqSound(i); }
    forall k: nat ensures t.RequestSound(k) { assert r.RequestSound(k); }
    forall j: nat ensures t.CqSound(j) { assert r.CqSound(j); }
    forall i: nat ensures t.AnswerSound(i) { assert r.AnswerSound(i); }
  }

  lemma SubmitKeepsRing(r: Ring, count: nat, ok: bool)
    requires r.Sound()
    ensures r.Submit(count, ok).Sound()
  {
    var t := r.Submit(count, ok);
    forall i: nat ensures t.SqSound(i) { assert r.SqSound(i); }
    forall k: nat ensures t.RequestSound(k) { assert r.RequestSound(k); }
    forall j: nat ensures t.CqSound(j) { assert r.CqSound(j); }
    forall i: nat ensures t.AnswerSound(i) { assert r.AnswerSound(i); }
  }

  lemma AnswerKeepsRing(r: Ring, i: nat, res: int)
    requires r.Sound()
    ensures r.Answer(i, res).Sound()
  {
    var t := r.Answer(i, res);
    forall i: nat ensures t.SqSound(i) { assert r.SqSound(i); }
    forall k: nat ensures t.RequestSound(k) { assert r.RequestSound(k); }
    forall j: nat ensures t.CqSound(j) { assert r.CqSound(j); }
    forall i: nat ensures t.AnswerSound(i) { assert r.AnswerSound(i); }
  }

  lemma LookKeepsRing(r: Ring)
    requires r.Sound() && r.looked < |r.cq|
    ensures r.(looked := r.looked + 1).Sound()
  {
    var t := r.(looked := r.looked + 1);
    forall i: nat ensures t.SqSound(i) { assert r.SqSound(i); }
    forall k: nat ensures t.RequestSound(k) { assert r.RequestSound(k); }
    forall j: nat ensures t.CqSound(j) { assert r.CqSound(j); }
    forall i: nat ensures t.AnswerSound(i) { assert r.AnswerSound(i); }
  }

  // ----- Awaiters and completers -----

  /** A registered completer is allocated and points to a live awaiter that waits for exactly that operation. */
  lemma RegisteredIsAwaited(w: Waits, id: Word)
    requires w.Sound() && id in w.completers
    ensures w.Known(id) && w.handlers[w.owner[id]].Waiting? && Id(w.owner[id]) == id
    ensures w.completers[id] in w.heap && w.resuming != Some(w.completers[id])
    ensures var a := w.heap[w.completers[id]];
            && w.handlers[w.owner[id]].awaiter == a && a in w.awaiters
            && w.awaiters[a] == Awaiter(id, true, None, false)
  {
    assert w.CompleterSound(id) && w.OwnerSound(id) && w.HandlerSound(w.owner[id]);
  }

  lemma DropKeepsWaits(w: Waits, id: Word)
    requires w.Sound()
    ensures w.DropHandler(id).Some? && w.DropHandler(id).value.Sound()
  {
    if id in w.completers {
      RegisteredIsAwaited(w, id);
      var t := w.DropHandler(id).value;
      forall k: nat ensures t.HandlerSound(k) {
        assert w.HandlerSound(k) && w.HeldSound(k);
      }
      forall k: nat ensures t.HeldSound(k) { assert w.HeldSound(k); }
      forall i: Word ensures t.CompleterSound(i) { assert w.CompleterSound(i) && w.OwnerSound(i); }
      forall a: Word ensures t.AwaiterSound(a) { assert w.AwaiterSound(a); }
      forall p: Word ensures t.HeapSound(p) { assert w.HeapSound(p); }
      forall i: Word ensures t.OwnerSound(i) { assert w.OwnerSound(i); }
      assert w.resuming.Some? ==> w.resuming.value in t.heap;
    }
  }

  lemma CreateKeepsWaits(w: Waits, a: Word, id: Word)
    requires w.Sound() && a !in w.awaiters && w.Known(id) && id != OPID_INVALID
    requires w.handlers[w.owner[id]] == Unawaited
    ensures w.Create(a, id).Some? && w.Create(a, id).value.Sound()
  {
    var t := w.Create(a, id).value;
    assert w.OwnerSound(id);
    forall k: nat ensures t.HandlerSound(k) { assert w.HandlerSound(k); }
    forall k: nat ensures t.HeldSound(k) { assert w.HeldSound(k); }
    forall i: Word ensures t.CompleterSound(i) { assert w.CompleterSound(i); }
    forall b: Word ensures t.AwaiterSound(b) { assert w.AwaiterSound(b); }
    forall p: Word ensures t.HeapSound(p) { assert w.HeapSound(p); }
    forall i: Word ensures t.OwnerSound(i) { assert w.OwnerSound(i); }
  }

  lemma SuspendKeepsWaits(w: Waits, a: Word, p: Word)
    requires w.Sound() && p !in w.heap && IsCompleter(p) && a in w.awaiters
    requires !w.awaiters[a].suspended && w.awaiters[a].operation != OPID_INVALID
    ensures w.Suspend(a, p).Some? && w.Suspend(a, p).value.Sound()
  {
    var id := w.awaiters[a].operation;
    assert w.AwaiterSound(a) && w.OwnerSound(id) && w.HandlerSound(w.owner[id]) && w.CompleterSound(id);
    var t := w.Suspend(a, p).value;
    forall k: nat ensures t.HandlerSound(k) { assert w.HandlerSound(k) && w.HeldSound(k); }
    forall k: nat ensures t.HeldSound(k) { assert w.HeldSound(k); }
    forall i: Word ensures t.CompleterSound(i) { assert w.CompleterSound(i); RegisteredAreAllocated(w, i); }
    forall b: Word ensures t.AwaiterSound(b) { assert w.AwaiterSound(b); }
    forall q: Word ensures t.HeapSound(q) { assert w.HeapSound(q); }
    forall i: Word ensures t.OwnerSound(i) { assert w.OwnerSound(i); }
  }

  lemma RegisteredAreAllocated(w: Waits, id: Word)
    requires w.Sound()
    ensures id in w.completers ==> w.completers[id] in w.heap
  {
    if id in w.completers { RegisteredIsAwaited(w, id); }
  }

  /** After a drop, nothing is registered under the id, and an awaiter keeps its handle. */
  lemma DropLeaves(w: Waits, id: Word)
    requires w.Sound()
    ensures w.DropHandler(id).Some?
    ensures var t := w.DropHandler(id).value;
            && id !in t.completers
            && t.awaiters.Keys == w.awaiters.Keys && t.owner == w.owner && |t.handlers| == |w.handlers|
            && forall a :: a in w.awaiters ==> t.awaiters[a].operation == w.awaiters[a].operation
  {
    DropKeepsWaits(w, id);
    if id in w.completers { RegisteredIsAwaited(w, id); }
  }

  lemma ForgetKeepsWaits(w: Waits, a: Word)
    requires w.Sound() && a in w.awaiters
    requires w.awaiters[a].operation != OPID_INVALID ==> w.awaiters[a].operation !in w.completers
    ensures var id := w.awaiters[a].operation;
            && (id == OPID_INVALID ==> w.(awaiters := w.awaiters - {a}).Sound())
            && (id != OPID_INVALID ==>
                  w.Known(id) && w.(awaiters := w.awaiters - {a}).WithHandler(id, Dropped).Sound())
  {
    var id := w.awaiters[a].operation;
    assert w.AwaiterSound(a);
    assert w.OwnerSound(id) && w.CompleterSound(id);
    var t := if id == OPID_INVALID then w.(awaiters := w.awaiters - {a})
             else w.(awaiters := w.awaiters - {a}).WithHandler(id, Dropped);
    forall k: nat ensures t.HandlerSound(k) { assert w.HandlerSound(k) && w.HeldSound(k); }
    forall k: nat ensures t.HeldSound(k) { assert w.HeldSound(k); }
    forall i: Word ensures t.CompleterSound(i) { assert w.CompleterSound(i) && w.OwnerSound(i); }
    forall b: Word ensures t.AwaiterSound(b) { assert w.AwaiterSound(b); }
    forall q: Word ensures t.HeapSound(q) { assert w.HeapSound(q); }
    forall i: Word ensures t.OwnerSound(i) { assert w.OwnerSound(i); }
  }

  lemma DestroyKeepsWaits(w: Waits, a: Word)
    requires w.Sound() && a in w.awaiters
    ensures w.Destroy(a).Some? && w.Destroy(a).value.Sound()
  {
    var id := w.awaiters[a].operation;
    if id != OPID_INVALID {
      DropKeepsWaits(w, id);
      DropLeaves(w, id);
      ForgetKeepsWaits(w.DropHandler(id).value, a);
    } else {
      ForgetKeepsWaits(w, a);
    }
  }

  lemma CompleteKeepsWaits(w: Waits, id: Word, res: int)
    requires w.Sound() && id in w.completers && w.resuming.None?
    ensures w.Complete(id, res).Some? && w.Complete(id, res).value.Sound()
  {
    RegisteredIsAwaited(w, id);
    var p := w.completers[id];
    var t := w.Complete(id, res).value;
    forall k: nat ensures t.HandlerSound(k) { assert w.HandlerSound(k) && w.HeldSound(k); }
    forall k: nat ensures t.HeldSound(k) { assert w.HeldSound(k); }
    forall i: Word ensures t.CompleterSound(i) {
      assert w.CompleterSound(i) && w.OwnerSound(i);
      if i in w.completers { RegisteredIsAwaited(w, i); }
    }
    forall b: Word ensures t.AwaiterSound(b) { assert w.AwaiterSound(b); }
    forall q: Word ensures t.HeapSound(q) { assert w.HeapSound(q); }
    forall i: Word ensures t.OwnerSound(i) { assert w.OwnerSound(i); }
  }

  lemma FinishKeepsWaits(w: Waits)
    requires w.Sound() && w.resuming.Some?
    ensures w.Finish().Some? && w.Finish().value.Sound()
  {
    var t := w.Finish().value;
    forall k: nat ensures t.HandlerSound(k) {
      assert w.HandlerSound(k);
      if k < |w.handlers| && w.handlers[k].Waiting? { assert w.CompleterSound(Id(k)); }
    }
    forall k: nat ensures t.HeldSound(k) { assert w.HeldSound(k); }
    forall i: Word ensures t.CompleterSound(i) { assert w.CompleterSound(i); }
    forall b: Word ensures t.AwaiterSound(b) { assert w.AwaiterSound(b); }
    forall q: Word ensures t.HeapSound(q) { assert w.HeapSound(q); }
    forall i: Word ensures t.OwnerSound(i) { assert w.OwnerSound(i); }
  }

  lemma AllocateKeepsWaits(w: Waits)
    requires w.Sound()
    requires var id := Id(|w.handlers|); id in w.owner ==> w.Holder(w.owner[id]).None?
    ensures w.(handlers := w.handlers + [Unawaited], owner := w.owner[Id(|w.handlers|) := |w.handlers|]).Sound()
  {
    var t := w.(handlers := w.handlers + [Unawaited], owner := w.owner[Id(|w.handlers|) := |w.handlers|]);
    forall k: nat ensures t.HandlerSound(k) { assert w.HandlerSound(k); }
    forall k: nat ensures t.HeldSound(k) { assert w.HeldSound(k); }
    forall i: Word ensures t.CompleterSound(i) { assert w.CompleterSound(i); }
    forall b: Word ensures t.AwaiterSound(b) { assert w.AwaiterSound(b); }
    forall q: Word ensures t.HeapSound(q) { assert w.HeapSound(q); }
    forall i: Word ensures t.OwnerSound(i) { assert w.OwnerSound(i); }
  }

  // ----- The whole queue -----

  lemma IssueKeepsSound(s: State)
    requires s.Sound() && Allowed(s, Issue)
    ensures Issued(s).Sound()
  {
    var n := |s.ring.requests|;
    FreshIdIsNext(s);
    IdAfter(n);
    RequestKeepsRing(s.ring, s.FreshId());
    AllocateKeepsWaits(s.waits);
    var t := Issued(s);
    forall k: nat ensures t.OwnsWhileInUse(k) { assert s.OwnsWhileInUse(k); }
    forall k: nat ensures t.OutcomeSound(k) { assert s.OutcomeSound(k); assert s.ring.RequestSound(k); }
  }

  lemma CreateKeepsSound(s: State, a: Word, id: Word)
    requires s.Sound() && Allowed(s, Create(a, id))
    ensures Step(s, Create(a, id)).Some? && Step(s, Create(a, id)).value.Sound()
  {
    assert s.waits.OwnerSound(id);
    CreateKeepsWaits(s.waits, a, id);
    var t := Step(s, Create(a, id)).value;
    forall k: nat ensures t.OwnsWhileInUse(k) { assert s.OwnsWhileInUse(k); }
    forall k: nat ensures t.OutcomeSound(k) { assert s.OutcomeSound(k); }
  }

  lemma SuspendKeepsSound(s: State, a: Word, p: Word)
    requires s.Sound() && Allowed(s, Suspend(a, p))
    ensures Step(s, Suspend(a, p)).Some? && Step(s, Suspend(a, p)).value.Sound()
  {
    SuspendKeepsWaits(s.waits, a, p);
    assert s.waits.AwaiterSound(a);
    var t := Step(s, Suspend(a, p)).value;
    forall k: nat ensures t.OwnsWhileInUse(k) { assert s.OwnsWhileInUse(k); }
    forall k: nat ensures t.OutcomeSound(k) { assert s.OutcomeSound(k); }
  }

  lemma DropKeepsSound(s: State, id: Word)
    requires s.Sound()
    ensures s.waits.DropHandler(id).Some? && s.(waits := s.waits.DropHandler(id).value).Sound()
  {
    DropKeepsWaits(s.waits, id);
    if id in s.waits.completers {
      RegisteredIsAwaited(s.waits, id);
      var t := s.(waits := s.waits.DropHandler(id).value);
      forall k: nat ensures t.OwnsWhileInUse(k) { assert s.OwnsWhileInUse(k); }
      forall k: nat ensures t.OutcomeSound(k) { assert s.OutcomeSound(k); }
    }
  }

  lemma PrepareKeepsSound(s: State, kind: Kind)
    requires s.Sound()
    requires kind.AsyncCancel? || (kind.LinkTimeout? && (s.ring.Full() || s.ring.AfterLinked(|s.ring.sq|)))
    ensures s.(ring := s.ring.Prepare(OPID_IGNORE, kind)).Sound()
  {
    PrepareKeepsRing(s.ring, kind);
    var t := s.(ring := s.ring.Prepare(OPID_IGNORE, kind));
    forall k: nat ensures t.OwnsWhileInUse(k) { assert s.OwnsWhileInUse(k); }
    forall k: nat ensures t.OutcomeSound(k) { assert s.OutcomeSound(k); }
  }

  lemma CancelKeepsSound(s: State, id: Word, dropHandler: bool)
    requires s.Sound()
    ensures Step(s, Cancel(id, dropHandler)).Some? && Step(s, Cancel(id, dropHandler)).value.Sound()
  {
    if dropHandler {
      DropKeepsSound(s, id);
      PrepareKeepsSound(s.(waits := s.waits.DropHandler(id).value), AsyncCancel(id));
    } else {
      PrepareKeepsSound(s, AsyncCancel(id));
    }
  }

  lemma DestroyKeepsSound(s: State, a: Word)
    requires s.Sound() && a in s.waits.awaiters
    ensures Step(s, Destroy(a)).Some? && Step(s, Destroy(a)).value.Sound()
  {
    var id := s.waits.awaiters[a].operation;
    DestroyKeepsWaits(s.waits, a);
    var t := s.(waits := s.waits.Destroy(a).value);
    assert s.waits.AwaiterSound(a);
    if id != OPID_INVALID { DropLeaves(s.waits, id); }
    if id in s.waits.completers { RegisteredIsAwaited(s.waits, id); }
    forall k: nat ensures t.OwnsWhileInUse(k) { assert s.OwnsWhileInUse(k); }
    forall k: nat ensures t.OutcomeSound(k) { assert s.OutcomeSound(k); }
    PrepareKeepsSound(t, AsyncCancel(id));
  }

  /** The asserted handle is that of the newest entry, which is still there to be flagged. */
  lemma LinkTargetIsNewest(s: State, id: Word)
    requires s.Sound() && s.ValidHandle(id) && s.ring.lastSqe.Some?
    ensures s.ring.sq[s.ring.lastSqe.value].userData == id
            <==> s.ring.requests[s.waits.owner[id]] == s.ring.lastSqe
  {
    var i := s.ring.lastSqe.value;
    var k := s.waits.owner[id];
    assert s.ring.SqSound(i) && s.ring.RequestSound(k) && s.waits.OwnerSound(id);
    if s.ring.sq[i].userData == id {
      assert id < IDS;
      var j := s.ring.sq[i].kind.op;
      assert s.ring.AnswerSound(i);
      assert s.OwnsWhileInUse(j);
    }
  }

  lemma LinkKeepsSound(s: State, id: Word)
    requires s.Sound() && Allowed(s, Action.LinkTimeout(id))
    ensures Step(s, Action.LinkTimeout(id)).Some? && Step(s, Action.LinkTimeout(id)).value.Sound()
  {
    var i := s.ring.lastSqe.value;
    LinkTargetIsNewest(s, id);
    assert s.ring.RequestSound(s.waits.owner[id]);
    LinkKeepsRing(s.ring, i);
    var t := s.(ring := s.ring.Linked(i));
    forall k: nat ensures t.OwnsWhileInUse(k) { assert s.OwnsWhileInUse(k); }
    forall k: nat ensures t.OutcomeSound(k) { assert s.OutcomeSound(k); }
    PrepareKeepsSound(t, Kind.LinkTimeout);
  }

  lemma SubmitKeepsSound(s: State, count: nat, ok: bool)
    requires s.Sound() && Allowed(s, Submit(count, ok))
    ensures Step(s, Submit(count, ok)).value.Sound()
  {
    SubmitKeepsRing(s.ring, count, ok);
    var t := Step(s, Submit(count, ok)).value;
    forall k: nat ensures t.OwnsWhileInUse(k) { assert s.OwnsWhileInUse(k); }
    forall k: nat ensures t.OutcomeSound(k) { assert s.OutcomeSound(k); }
  }

  lemma AnswerKeepsSound(s: State, i: nat, res: int)
    requires s.Sound()
    ensures s.(ring := s.ring.Answer(i, res)).Sound()
  {
    AnswerKeepsRing(s.ring, i, res);
    var t := s.(ring := s.ring.Answer(i, res));
    forall k: nat ensures t.OwnsWhileInUse(k) { assert s.OwnsWhileInUse(k); }
    forall k: nat ensures t.OutcomeSound(k) { assert s.OutcomeSound(k); }
  }

  lemma ReturnKeepsSound(s: State)
    requires s.Sound() && Allowed(s, Return)
    ensures Step(s, Return).Some? && Step(s, Return).value.Sound()
  {
    FinishKeepsWaits(s.waits);
    var t := Step(s, Return).value;
    forall k: nat ensures t.OwnsWhileInUse(k) { assert s.OwnsWhileInUse(k); }
    forall k: nat ensures t.OutcomeSound(k) { assert s.OutcomeSound(k); }
  }

  /** The completion the loop looks at next, unless it is to be ignored, is that of the operation its id names. */
  lemma NextCompletionIsOwn(s: State)
    requires s.Sound() && s.ring.looked < |s.ring.cq| && s.ring.cq[s.ring.looked].userData != OPID_IGNORE
    ensures var c := s.ring.cq[s.ring.looked];
            && s.ValidHandle(c.userData)
            && s.ring.requests[s.waits.owner[c.userData]] == Some(c.sqe)
            && s.ring.Open(s.waits.owner[c.userData])
            && c.sqe in s.ring.answers && s.ring.answers[c.sqe] == s.ring.looked
  {
    var c := s.ring.cq[s.ring.looked];
    assert s.ring.CqSound(s.ring.looked) && s.ring.SqSound(c.sqe);
    var k := s.ring.sq[c.sqe].kind.op;
    assert s.OwnsWhileInUse(k);
  }

  lemma LookKeepsSound(s: State)
    requires s.Sound() && s.ring.looked < |s.ring.cq|
    ensures s.(ring := s.ring.(looked := s.ring.looked + 1)).Sound()
  {
    LookKeepsRing(s.ring);
    var t := s.(ring := s.ring.(looked := s.ring.looked + 1));
    forall k: nat ensures t.OwnsWhileInUse(k) { assert s.OwnsWhileInUse(k); }
    forall k: nat ensures t.OutcomeSound(k) { assert s.OutcomeSound(k); }
  }

  lemma PeekKeepsSound(s: State)
    requires s.Sound() && Allowed(s, Peek)
    ensures Step(s, Peek).Some? && Step(s, Peek).value.Sound()
  {
    if s.ring.looked == |s.ring.cq| {
      PhaseKeepsSound(s, Head);
    } else {
      var c := s.ring.cq[s.ring.looked];
      var u := s.(ring := s.ring.(looked := s.ring.looked + 1));
      LookKeepsSound(s);
      PhaseKeepsSound(u, Head);
      if c.userData != OPID_IGNORE && c.userData in s.waits.completers {
        NextCompletionIsOwn(s);
        CompleteKeepsWaits(s.waits, c.userData, c.res);
        var t := Step(s, Peek).value;
        forall k: nat ensures t.OwnsWhileInUse(k) { assert u.OwnsWhileInUse(k); }
        forall k: nat ensures t.OutcomeSound(k) { assert u.OutcomeSound(k); }
      }
    }
  }

  /** Every allowed step succeeds and keeps the invariant. */
  lemma StepKeepsSound(s: State, x: Action)
    requires s.Sound() && Allowed(s, x)
    ensures Step(s, x).Some? && Step(s, x).value.Sound()
  {
    match x
    case Issue => IssueKeepsSound(s);
    case Create(a, id) => CreateKeepsSound(s, a, id);
    case Suspend(a, p) => SuspendKeepsSound(s, a, p);
    case Destroy(a) => DestroyKeepsSound(s, a);
    case Cancel(id, dropHandler) => CancelKeepsSound(s, id, dropHandler);
    case LinkTimeout(id) => LinkKeepsSound(s, id);
    case Enter => PhaseKeepsSound(s, Head);
    case Leave => PhaseKeepsSound(s, Outside);
    case Submit(count, ok) => SubmitKeepsSound(s, count, ok);
    case Peek => PeekKeepsSound(s);
    case Return => ReturnKeepsSound(s);
    case Answer(i, res) => AnswerKeepsSound(s, i, res);
  }

  lemma PhaseKeepsSound(s: State, phase: Phase)
    requires s.Sound() && s.phase != Inside && phase != Inside
    ensures s.(phase := phase).Sound()
  {
    var t := s.(phase := phase);
    forall k: nat ensures t.OwnsWhileInUse(k) { assert s.OwnsWhileInUse(k); }
    forall k: nat ensures t.OutcomeSound(k) { assert s.OutcomeSound(k); }
  }

  lemma StartIsSound(capacity: nat, depth: nat)
    ensures Start(capacity, depth).Sound()
  {
    var s := Start(capacity, depth);
    forall i: nat ensures s.ring.SqSound(i) {}
    forall i: Word ensures s.waits.CompleterSound(i) {}
    forall i: Word ensures s.waits.AwaiterSound(i) {}
    forall i: Word ensures s.waits.HeapSound(i) {}
    forall i: Word ensures s.waits.OwnerSound(i) {}
    forall i: nat ensures s.ring.CqSound(i) && s.ring.AnswerSound(i) && s.ring.RequestSound(i) {}
    forall i: nat ensures s.waits.HandlerSound(i) && s.waits.HeldSound(i) {}
    forall i: nat ensures s.OwnsWhileInUse(i) && s.OutcomeSound(i) {}
  }

  /** No run fails: no freed completer or awaiter is used, no key is inserted twice, no assertion fails. */
  lemma {:induction false} RunKeepsSound(s: State, xs: seq<Action>)
    requires s.Sound() && AllowedRun(s, xs)
    ensures Run(s, xs).Some? && Run(s, xs).value.Sound()
    decreases |xs|
  {
    if xs != [] {
      StepKeepsSound(s, xs[0]);
      RunKeepsSound(Step(s, xs[0]).value, xs[1..]);
    }
  }
}
