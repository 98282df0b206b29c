/** What the ring holds: which operations get an entry, what the kernel is asked to cancel, what can still change. */
module IoEntries {
  import opened Options
  import opened ProbeSequence
  import opened CompleterTable
  import opened IoProtocol
  import opened IoSoundness
  import opened IoGuarantees

  // ----- One step -----

  /** What a step wants to put into the ring. */
  function Wanted(s: State, x: Action): Option<Sqe> {
    match x
    case Issue => Some(Sqe(Id(|s.ring.requests|), Request(|s.ring.requests|), false))
    case Cancel(id, _) => Some(Sqe(OPID_IGNORE, AsyncCancel(id), false))
    case LinkTimeout(_) => Some(Sqe(OPID_IGNORE, Kind.LinkTimeout, false))
    case Destroy(a) =>
      if a in s.waits.awaiters && s.waits.awaiters[a].operation != OPID_INVALID
      then Some(Sqe(OPID_IGNORE, AsyncCancel(s.waits.awaiters[a].operation), false)) else None
    case _ => None
  }

  /** What it adds: what it wants, exactly when fewer than `depth` entries are prepared and not submitted yet. */
  function Added(s: State, x: Action): seq<Sqe> {
    if Wanted(s, x).Some? && |s.ring.sq| - s.ring.submitted < s.ring.depth then [Wanted(s, x).value] else []
  }

  /** An entry without its link flag, which is the only thing about it that may change. */
  function Plain(sq: seq<Sqe>): seq<Sqe> {
    seq(|sq|, i requires 0 <= i < |sq| => sq[i].(link := false))
  }

  /** No step but that of linking a timeout changes an entry, and an operation learns whether it got one. */
  lemma OthersAppend(s: State, x: Action)
    requires s.Sound() && Allowed(s, x) && !x.LinkTimeout?
    ensures Step(s, x).Some? && Step(s, x).value.ring.sq == s.ring.sq + Added(s, x)
    ensures Step(s, x).value.ring.requests
            == s.ring.requests + (if !x.Issue? then [] else [if Added(s, x) == [] then None else Some(|s.ring.sq|)])
  {
    StepKeepsSound(s, x);
    FreshIdIsNext(s);
    hide State.Sound;
  }

  lemma LinkFlagsOnly(s: State, id: Word)
    requires s.Sound() && Allowed(s, Action.LinkTimeout(id))
    ensures Step(s, Action.LinkTimeout(id)).Some?
    ensures Plain(Step(s, Action.LinkTimeout(id)).value.ring.sq) == Plain(s.ring.sq) + Added(s, Action.LinkTimeout(id))
  {
  }

  /** Every step adds exactly that, and leaves what was there as it is but for a link flag. */
  lemma EntriesOfStep(s: State, x: Action)
    requires s.Sound() && Allowed(s, x)
    ensures Step(s, x).Some? && Step(s, x).value.ring.depth == s.ring.depth
    ensures Plain(Step(s, x).value.ring.sq) == Plain(s.ring.sq) + Added(s, x)
  {
    StepKeepsSound(s, x);
    if x.LinkTimeout? {
      LinkFlagsOnly(s, x.id);
    } else {
      OthersAppend(s, x);
      hide State.Sound, Wanted;
      assert forall e :: e in Added(s, x) ==> !e.link by { assert Added(s, x) != [] ==> !Wanted(s, x).value.link; }
    }
  }

  /** What the kernel has been handed is never written to again, and nothing is handed over twice. */
  lemma SubmittedIsFixed(s: State, x: Action)
    requires s.Sound() && Allowed(s, x)
    ensures Step(s, x).Some?
    ensures var t := Step(s, x).value;
            && s.ring.submitted <= t.ring.submitted <= |t.ring.sq|
            && |s.ring.sq| <= |t.ring.sq| && s.ring.submitted <= |s.ring.sq|
            && t.ring.sq[..s.ring.submitted] == s.ring.sq[..s.ring.submitted]
            && s.ring.cq <= t.ring.cq
  {
    StepKeepsSound(s, x);
    assert s.ring.LastSound();
    assert Step(s, x).value.ring.LastSound();
    hide State.Sound;
  }

  // ----- Runs -----

  /** Everything a run adds. */
  function AddedBy(s: State, xs: seq<Action>): seq<Sqe>
    decreases |xs|
  {
    if xs == [] || Step(s, xs[0]).None? then [] else Added(s, xs[0]) + AddedBy(Step(s, xs[0]).value, xs[1..])
  }

  lemma Regroup(a: seq<Sqe>, b: seq<Sqe>, c: seq<Sqe>)
    ensures (a + b) + c == a + (b + c)
  {
  }

  /** Over every run the submission queue is what it was, followed by what was asked for while there was room. */
  lemma {:induction false} EntriesOfRun(s: State, xs: seq<Action>)
    requires s.Sound() && AllowedRun(s, xs)
    ensures Run(s, xs).Some? && Plain(Run(s, xs).value.ring.sq) == Plain(s.ring.sq) + AddedBy(s, xs)
    decreases |xs|
  {
    if xs != [] {
      StepKeepsSound(s, xs[0]);
      EntriesOfStep(s, xs[0]);
      hide State.Sound, Step, Added, Allowed, Plain;
      EntriesOfRun(Step(s, xs[0]).value, xs[1..]);
      Regroup(Plain(s.ring.sq), Added(s, xs[0]), AddedBy(Step(s, xs[0]).value, xs[1..]));
    }
  }

  function TargetOf(e: Sqe): seq<Word> { if e.kind.AsyncCancel? then [e.kind.target] else [] }

  /** The operations that the entries of a queue ask the kernel to cancel. */
  function Targets(sq: seq<Sqe>): seq<Word> {
    if sq == [] then [] else TargetOf(sq[0]) + Targets(sq[1..])
  }

  /** The operation that a step asks to cancel. */
  function AskedBy(s: State, x: Action): seq<Word> {
    if |s.ring.sq| - s.ring.submitted >= s.ring.depth then []
    else
      match x
      case Cancel(id, _) => [id]
      case Destroy(a) =>
        if a in s.waits.awaiters && s.waits.awaiters[a].operation != OPID_INVALID then [s.waits.awaiters[a].operation]
        else []
      case _ => []
  }

  /** The operations that clients of a run cancelled, or whose awaiters they destroyed, while there was room. */
  function Asked(s: State, xs: seq<Action>): seq<Word>
    decreases |xs|
  {
    if xs == [] || Step(s, xs[0]).None? then [] else AskedBy(s, xs[0]) + Asked(Step(s, xs[0]).value, xs[1..])
  }

  lemma {:induction false} TargetsOfSum(a: seq<Sqe>, b: seq<Sqe>)
    ensures Targets(a + b) == Targets(a) + Targets(b)
    decreases |a|
  {
    hide TargetOf;
    if a == [] {
      assert a + b == b;
    } else {
      assert (a + b)[0] == a[0] && (a + b)[1..] == a[1..] + b;
      TargetsOfSum(a[1..], b);
    }
  }

  lemma {:induction false} TargetsOfPlain(sq: seq<Sqe>)
    ensures Targets(Plain(sq)) == Targets(sq)
    decreases |sq|
  {
    if sq != [] {
      assert Plain(sq)[1..] == Plain(sq[1..]);
      TargetsOfPlain(sq[1..]);
    }
  }

  lemma NoTargets()
    ensures Targets([]) == []
  {
  }

  lemma TargetsOfStep(s: State, x: Action)
    ensures Targets(Added(s, x)) == AskedBy(s, x)
  {
    if Added(s, x) != [] { assert Added(s, x)[1..] == []; }
  }

  lemma {:induction false} TargetsOfAdded(s: State, xs: seq<Action>)
    ensures Targets(AddedBy(s, xs)) == Asked(s, xs)
    decreases |xs|
  {
    hide Step, AskedBy, Added, Targets;
    if xs == [] || Step(s, xs[0]).None? {
      NoTargets();
    } else {
      TargetsOfAdded(Step(s, xs[0]).value, xs[1..]);
      TargetsOfSum(Added(s, xs[0]), AddedBy(Step(s, xs[0]).value, xs[1..]));
      TargetsOfStep(s, xs[0]);
    }
  }

  /** Over every run the kernel is asked to cancel exactly the operations clients asked it to, in their order. */
  lemma CancelsWhatWasAsked(s: State, xs: seq<Action>)
    requires s.Sound() && AllowedRun(s, xs)
    ensures Run(s, xs).Some? && Targets(Run(s, xs).value.ring.sq) == Targets(s.ring.sq) + Asked(s, xs)
  {
    EntriesOfRun(s, xs);
    TargetsOfAdded(s, xs);
    TargetsOfSum(Plain(s.ring.sq), AddedBy(s, xs));
    TargetsOfPlain(s.ring.sq);
    TargetsOfPlain(Run(s, xs).value.ring.sq);
  }

  /** Over every run, entries handed to the kernel and completions posted by it stay as they are. */
  lemma {:induction false} SubmittedForever(s: State, xs: seq<Action>)
    requires s.Sound() && AllowedRun(s, xs)
    ensures Run(s, xs).Some?
    ensures var t := Run(s, xs).value;
            && s.ring.submitted <= t.ring.submitted <= |t.ring.sq| && s.ring.submitted <= |s.ring.sq|
            && t.ring.sq[..s.ring.submitted] == s.ring.sq[..s.ring.submitted]
            && s.ring.cq <= t.ring.cq
    decreases |xs|
  {
    if xs == [] {
      assert s.ring.LastSound();
    } else {
      StepKeepsSound(s, xs[0]);
      SubmittedIsFixed(s, xs[0]);
      var t := Step(s, xs[0]).value;
      SubmittedForever(t, xs[1..]);
      var u := Run(t, xs[1..]).value;
      hide State.Sound, Run, AllowedRun, Step;
      assert u.ring.sq[..s.ring.submitted] == u.ring.sq[..t.ring.submitted][..s.ring.submitted];
      assert t.ring.sq[..s.ring.submitted] == t.ring.sq[..t.ring.submitted][..s.ring.submitted];
    }
  }

  // ----- Running out of entries -----

  function Issues(n: nat): seq<Action> { seq(n, _ => Issue) }

  /**
   Of any number of operations issued in a row, in whatever state, the first `depth` ones get an entry and no other,
   counting those prepared and not submitted yet: once everything is submitted, all `depth` entries are free again.
   */
  lemma {:induction false} FirstGetEntries(s: State, n: nat)
    requires s.Sound() && AllowedRun(s, Issues(n))
    ensures Run(s, Issues(n)).Some?
    ensures var t, issued := Run(s, Issues(n)).value, |s.ring.requests|;
            && s.ring.requests <= t.ring.requests && |t.ring.requests| == issued + n
            && forall k: nat :: issued <= k < issued + n ==>
                 (t.ring.requests[k].Some? <==> |s.ring.sq| - s.ring.submitted + (k - issued) < s.ring.depth)
    decreases n
  {
    if n > 0 {
      assert Issues(n)[0] == Issue && Issues(n)[1..] == Issues(n - 1);
      StepKeepsSound(s, Issue);
      IssueTakesEntry(s);
      hide State.Sound, Issued, Allowed, Issues;
      FirstGetEntries(Issued(s), n - 1);
    }
  }

  lemma IssueTakesEntry(s: State)
    requires s.Sound() && Allowed(s, Issue)
    ensures var t, room := Issued(s).ring, |s.ring.sq| - s.ring.submitted < s.ring.depth;
            && t.depth == s.ring.depth && t.submitted == s.ring.submitted
            && t.requests == s.ring.requests + [if room then Some(|s.ring.sq|) else None]
            && |t.sq| == |s.ring.sq| + (if room then 1 else 0)
  {
    FreshIdIsNext(s);
  }

  /** How many entries the submits of a run hand to the kernel; a failed submit hands over none. */
  function HandedBy(s: State, xs: seq<Action>): nat
    decreases |xs|
  {
    if xs == [] || Step(s, xs[0]).None? then 0
    else
      (match xs[0]
       case Submit(count, ok) => if ok && count <= |s.ring.sq| - s.ring.submitted then count else 0
       case _ => 0)
      + HandedBy(Step(s, xs[0]).value, xs[1..])
  }

  /** Over every run, the entries waiting to be submitted are those there were, plus the added, minus the submitted. */
  lemma {:induction false} EntriesWaiting(s: State, xs: seq<Action>)
    requires s.Sound() && AllowedRun(s, xs)
    ensures Run(s, xs).Some? && Run(s, xs).value.ring.submitted == s.ring.submitted + HandedBy(s, xs)
    ensures var t := Run(s, xs).value;
            |t.ring.sq| - t.ring.submitted == |s.ring.sq| - s.ring.submitted + |AddedBy(s, xs)| - HandedBy(s, xs)
    decreases |xs|
  {
    if xs == [] {
    } else {
      StepKeepsSound(s, xs[0]);
      HandedInStep(s, xs[0]);
      EntriesOfRun(s, xs);
      assert |Plain(Run(s, xs).value.ring.sq)| == |Plain(s.ring.sq)| + |AddedBy(s, xs)|;
      hide State.Sound, Step, Allowed, Added, AddedBy;
      EntriesWaiting(Step(s, xs[0]).value, xs[1..]);
    }
  }

  lemma HandedInStep(s: State, x: Action)
    requires s.Sound() && Allowed(s, x)
    ensures Step(s, x).Some? && Step(s, x).value.ring.submitted == s.ring.submitted + HandedBy(s, [x])
  {
    StepKeepsSound(s, x);
    assert HandedBy(Step(s, x).value, [x][1..]) == 0;
  }

  /** The ring never holds more than `depth` entries that are not submitted. */
  lemma {:induction false} NeverOverflows(s: State, xs: seq<Action>)
    requires s.Sound() && AllowedRun(s, xs) && |s.ring.sq| <= s.ring.submitted + s.ring.depth
    ensures Run(s, xs).Some?
    ensures |Run(s, xs).value.ring.sq| <= Run(s, xs).value.ring.submitted + s.ring.depth
    decreases |xs|
  {
    if xs != [] {
      StepKeepsSound(s, xs[0]);
      EntriesOfStep(s, xs[0]);
      SubmittedIsFixed(s, xs[0]);
      assert |Plain(Step(s, xs[0]).value.ring.sq)| == |s.ring.sq| + |Added(s, xs[0])|;
      hide State.Sound;
      NeverOverflows(Step(s, xs[0]).value, xs[1..]);
    }
  }

  // ----- Linking -----

  /** An operation that got an entry can be given a timeout at once. */
  lemma IssueCanBeLinked(s: State)
    requires s.Sound() && Allowed(s, Issue) && |s.ring.sq| - s.ring.submitted < s.ring.depth
    ensures Allowed(Issued(s), Action.LinkTimeout(Id(|s.ring.requests|)))
  {
    FreshIdIsNext(s);
  }

  /** Steps that put nothing into the ring. */
  predicate Idle(x: Action) { !x.Issue? && !x.Cancel? && !x.LinkTimeout? && !x.Destroy? }

  /** After an attempt to submit, successful or not, no timeout can be linked until something new is prepared. */
  lemma {:induction false} NothingToLink(s: State, count: nat, ok: bool, xs: seq<Action>, id: Word)
    requires s.Sound() && AllowedRun(s, [Submit(count, ok)] + xs) && forall i :: 0 <= i < |xs| ==> Idle(xs[i])
    ensures Run(s, [Submit(count, ok)] + xs).Some?
    ensures !Allowed(Run(s, [Submit(count, ok)] + xs).value, Action.LinkTimeout(id))
  {
    var all := [Submit(count, ok)] + xs;
    assert all[0] == Submit(count, ok) && all[1..] == xs;
    StepKeepsSound(s, all[0]);
    StaysUnlinked(Step(s, all[0]).value, xs);
  }

  lemma {:induction false} StaysUnlinked(s: State, xs: seq<Action>)
    requires s.Sound() && AllowedRun(s, xs) && s.ring.lastSqe.None? && forall i :: 0 <= i < |xs| ==> Idle(xs[i])
    ensures Run(s, xs).Some? && Run(s, xs).value.ring.lastSqe.None?
    decreases |xs|
  {
    if xs != [] {
      StepKeepsSound(s, xs[0]);
      assert Idle(xs[0]) && Step(s, xs[0]).value.ring.lastSqe.None?;
      hide State.Sound;
      StaysUnlinked(Step(s, xs[0]).value, xs[1..]);
    }
  }
}
