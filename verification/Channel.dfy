/**
 The channel: any number of senders and receivers around a queue under a mutex and an eventfd in semaphore mode.
 A receiver whose coroutine is destroyed leaves its read with the kernel: destroying it only asks for the read to be
 cancelled, and not even that when the ring is full. Such an orphaned read may still take the event, at any time before
 it is cancelled.
 */
module ChannelProtocol {
  import opened Options
  import opened Counting

  type Id = nat

  /** A call to send, before it appends its message and before it writes the event. */
  datatype Sender<M> = Entering(message: M) | Writing

  /** A receiver, waiting for its read, or with a granted read it has not acted on. */
  datatype Receiver = Reading | Granted

  /** `lost` counts the events that were read for receivers that are gone. */
  datatype State<M> = State(
    messages: seq<M>, count: nat, senders: map<Id, Sender<M>>, receivers: map<Id, Receiver>, orphans: nat,
    sent: seq<M>, received: seq<M>, lost: nat)               // history

  datatype Action<M> =
    | Send(p: Id, message: M) | Append(p: Id) | Write(p: Id)
    | Receive(r: Id) | Grant(r: Id) | Pop(r: Id) | Abandon(r: Id)
    | GrantOrphan | CancelOrphan

  predicate CanStep<M>(s: State<M>, x: Action<M>) {
    match x
    case Send(p, _) => p !in s.senders
    case Append(p) => p in s.senders && s.senders[p].Entering?
    case Write(p) => p in s.senders && s.senders[p].Writing?
    case Receive(r) => r !in s.receivers
    case Grant(r) => r in s.receivers && s.receivers[r].Reading? && s.count > 0
    case Pop(r) => r in s.receivers && s.receivers[r].Granted?
    case Abandon(r) => r in s.receivers
    case GrantOrphan => s.orphans > 0 && s.count > 0
    case CancelOrphan => s.orphans > 0
  }

  /** One step; None where `pop` finds the queue empty. The critical sections of the mutex are single steps. */
  function Step<M>(s: State<M>, x: Action<M>): Option<State<M>>
    requires CanStep(s, x)
  {
    match x
    case Send(p, m) => Some(s.(senders := s.senders[p := Entering(m)]))
    case Append(p) =>
      var m := s.senders[p].message;
      Some(s.(senders := s.senders[p := Writing], messages := s.messages + [m], sent := s.sent + [m]))
    case Write(p) => Some(s.(senders := s.senders - {p}, count := s.count + 1))
    case Receive(r) => Some(s.(receivers := s.receivers[r := Reading]))
    case Grant(r) => Some(s.(receivers := s.receivers[r := Granted], count := s.count - 1))
    case Pop(r) =>
      if s.messages == [] then None
      else Some(s.(receivers := s.receivers - {r}, messages := s.messages[1..],
                   received := s.received + [s.messages[0]]))
    case Abandon(r) =>
      Some(if s.receivers[r].Granted? then s.(receivers := s.receivers - {r}, lost := s.lost + 1)
           else s.(receivers := s.receivers - {r}, orphans := s.orphans + 1))
    case GrantOrphan => Some(s.(orphans := s.orphans - 1, count := s.count - 1, lost := s.lost + 1))
    case CancelOrphan => Some(s.(orphans := s.orphans - 1))
  }

  predicate CanRun<M>(s: State<M>, xs: seq<Action<M>>)
    decreases |xs|
  {
    xs == [] || (CanStep(s, xs[0]) && (Step(s, xs[0]).Some? ==> CanRun(Step(s, xs[0]).value, xs[1..])))
  }

  function Run<M>(s: State<M>, xs: seq<Action<M>>): Option<State<M>>
    requires CanRun(s, xs)
    decreases |xs|
  {
    if xs == [] then Some(s)
    else if Step(s, xs[0]).None? then None
    else Run(Step(s, xs[0]).value, xs[1..])
  }

  function Fresh<M>(): State<M> { State([], 0, map[], map[], 0, [], [], 0) }

  predicate IsWriting<M>(p: Sender<M>) { p.Writing? }
  predicate IsGranted(r: Receiver) { r.Granted? }

  function Unwritten<M>(s: State<M>): nat { Count(s.senders, IsWriting) }
  function Unpopped<M>(s: State<M>): nat { Count(s.receivers, IsGranted) }

  /**
   The messages in the queue are those announced by the event, promised to a receiver, about to be announced, or
   announced to receivers that are gone; and they are the sent messages that have not been received, in order.
   */
  ghost predicate Sound<M>(s: State<M>) {
    && |s.messages| == s.count + Unpopped(s) + Unwritten(s) + s.lost
    && s.sent == s.received + s.messages
  }

  lemma StepKeepsSound<M>(s: State<M>, x: Action<M>)
    requires Sound(s) && CanStep(s, x)
    ensures Step(s, x).Some? && Sound(Step(s, x).value)
  {
    match x
    case Send(p, m) => CountStore(s.senders, p, Entering(m), IsWriting);
    case Append(p) => CountStore(s.senders, p, Writing, IsWriting);
    case Write(p) => CountRemove(s.senders, p, IsWriting);
    case Receive(r) => CountStore(s.receivers, r, Reading, IsGranted);
    case Grant(r) => CountStore(s.receivers, r, Granted, IsGranted);
    case Pop(r) => CountRemove(s.receivers, r, IsGranted);
    case Abandon(r) => CountRemove(s.receivers, r, IsGranted);
    case GrantOrphan =>
    case CancelOrphan =>
  }

  lemma FreshIsSound<M>(s: State<M>)
    requires s == Fresh<M>()
    ensures Sound(s)
  {
    CountZero(s.senders, IsWriting);
    CountZero(s.receivers, IsGranted);
  }

  /** Over every run `pop` never finds the queue empty, and the accounts balance. */
  lemma {:induction false} RunKeepsSound<M>(s: State<M>, xs: seq<Action<M>>)
    requires Sound(s) && CanRun(s, xs)
    ensures Run(s, xs).Some? && Sound(Run(s, xs).value)
    decreases |xs|
  {
    if xs != [] {
      StepKeepsSound(s, xs[0]);
      RunKeepsSound(Step(s, xs[0]).value, xs[1..]);
    }
  }

  /** Messages are received in the order they were sent, none lost and none twice. */
  lemma ReceivedInOrder<M>(xs: seq<Action<M>>)
    requires CanRun(Fresh<M>(), xs)
    ensures Run(Fresh<M>(), xs).Some?
    ensures var t := Run(Fresh<M>(), xs).value; t.sent == t.received + t.messages
  {
    FreshIsSound(Fresh<M>());
    RunKeepsSound(Fresh<M>(), xs);
  }

  /** A channel at rest: nobody is in the middle of a call, and every read that can be granted has been. */
  predicate Quiescent<M>(s: State<M>) {
    && s.senders == map[]
    && (forall r :: r in s.receivers ==> s.receivers[r].Reading?)
    && (s.receivers != map[] || s.orphans > 0 ==> s.count == 0)
  }

  /**
   At rest with receivers waiting, as many messages are queued as events were read for receivers that are gone. They
   are not lost, as later receives get them in order, but no event announces them.
   */
  lemma StuckMessages<M>(s: State<M>)
    requires Sound(s) && Quiescent(s)
    ensures |s.messages| == s.count + s.lost
    ensures s.receivers != map[] ==> |s.messages| == s.lost
  {
    CountZero(s.receivers, IsGranted);
    CountZero(s.senders, IsWriting);
  }

  /**
   At any time, the read of a new receiver can be granted at once exactly when more messages are queued than are
   promised to other receivers, about to be announced or lost to receivers that are gone; if it pops then, it gets the
   oldest one. The only way to miss it is that another read takes the event first: one of a waiting receiver, or an
   orphaned one.
   */
  lemma NewReceiverIsServed<M>(s: State<M>, r: Id)
    requires Sound(s) && r !in s.receivers
    ensures var t := Step(s, Receive(r)).value;
            && (CanStep(t, Grant(r)) <==> |s.messages| > Unpopped(s) + Unwritten(s) + s.lost)
            && (CanStep(t, Grant(r)) ==>
                  var u := Step(t, Grant(r)).value;
                  Step(u, Pop(r)).Some? && Step(u, Pop(r)).value.received == s.received + [s.messages[0]])
            && forall x ::
                 CanStep(t, x) && CanStep(t, Grant(r)) && Step(t, x).Some? && !CanStep(Step(t, x).value, Grant(r))
                 ==> x == Grant(r) || x == Abandon(r) || (s.count == 1 && (x.Grant? || x.GrantOrphan?))
  {
    var t := Step(s, Receive(r)).value;
    StepKeepsSound(s, Receive(r));
    if CanStep(t, Grant(r)) {
      StepKeepsSound(t, Grant(r));
      StepKeepsSound(Step(t, Grant(r)).value, Pop(r));
    }
  }

  /** Once granted, a receiver can pop at any later time, whatever others have done since. */
  lemma {:induction false} GrantIsKept<M>(s: State<M>, xs: seq<Action<M>>, r: Id)
    requires Sound(s) && CanRun(s, xs) && r in s.receivers && s.receivers[r].Granted?
    requires forall i :: 0 <= i < |xs| ==> xs[i] != Pop(r) && xs[i] != Abandon(r)
    ensures Run(s, xs).Some? && CanStep(Run(s, xs).value, Pop(r)) && Step(Run(s, xs).value, Pop(r)).Some?
    decreases |xs|
  {
    if xs == [] {
      StepKeepsSound(s, Pop(r));
    } else {
      StepKeepsSound(s, xs[0]);
      GrantIsKept(Step(s, xs[0]).value, xs[1..], r);
    }
  }

  // ----- When messages get stuck -----

  /** At rest, a message is queued and a receiver waits. */
  predicate Stuck<M>(s: State<M>) {
    Quiescent(s) && s.receivers != map[] && s.messages != []
  }

  /** An event was read for a receiver that is gone, or may yet be. */
  predicate Spoiled<M>(s: State<M>) { s.lost > 0 || s.orphans > 0 }

  /** No receiver is destroyed while its read is outstanding. */
  predicate NoAbandon<M>(xs: seq<Action<M>>) {
    forall i :: 0 <= i < |xs| ==> !xs[i].Abandon?
  }

  lemma {:induction false} UnspoiledNeverSticks<M>(s: State<M>, xs: seq<Action<M>>)
    requires Sound(s) && !Spoiled(s) && CanRun(s, xs) && NoAbandon(xs)
    ensures Run(s, xs).Some? && !Spoiled(Run(s, xs).value) && !Stuck(Run(s, xs).value)
    decreases |xs|
  {
    if xs == [] {
      if Quiescent(s) { StuckMessages(s); }
    } else {
      StepKeepsSound(s, xs[0]);
      UnspoiledNeverSticks(Step(s, xs[0]).value, xs[1..]);
    }
  }

  /** A run on which no receiver is destroyed. */
  ghost predicate Leads<M>(s: State<M>, xs: seq<Action<M>>, t: State<M>) {
    CanRun(s, xs) && NoAbandon(xs) && Run(s, xs) == Some(t)
  }

  lemma LeadsOne<M>(s: State<M>, x: Action<M>)
    requires CanStep(s, x) && !x.Abandon? && Step(s, x).Some?
    ensures Leads(s, [x], Step(s, x).value)
  {
    var t := Step(s, x).value;
    assert [x][1..] == [] && CanRun(t, []) && Run(t, []) == Some(t);
  }

  lemma {:induction false} LeadsOn<M>(s: State<M>, xs: seq<Action<M>>, t: State<M>, ys: seq<Action<M>>, u: State<M>)
    requires Leads(s, xs, t) && Leads(t, ys, u)
    ensures Leads(s, xs + ys, u)
    decreases |xs|
  {
    if xs == [] {
      assert xs + ys == ys;
    } else {
      assert (xs + ys)[0] == xs[0] && (xs + ys)[1..] == xs[1..] + ys;
      LeadsOn(Step(s, xs[0]).value, xs[1..], t, ys, u);
    }
  }

  lemma LeadsFurther<M>(s: State<M>, xs: seq<Action<M>>, t: State<M>, x: Action<M>)
    requires Leads(s, xs, t) && Sound(t) && CanStep(t, x) && !x.Abandon?
    ensures Step(t, x).Some? && Sound(Step(t, x).value) && Leads(s, xs + [x], Step(t, x).value)
  {
    StepKeepsSound(t, x);
    LeadsOne(t, x);
    LeadsOn(s, xs, t, [x], Step(t, x).value);
  }

  /** Calls to send come to their end, and nothing else happens. */
  lemma {:induction false} FinishSenders<M>(s: State<M>) returns (xs: seq<Action<M>>, t: State<M>)
    requires Sound(s)
    ensures Leads(s, xs, t) && Sound(t) && t.senders == map[]
    ensures t.receivers == s.receivers && t.orphans == s.orphans && t.lost == s.lost
    decreases |s.senders|
  {
    xs, t := [], s;
    if p :| p in s.senders {
      if s.senders[p].Entering? {
        LeadsFurther(s, xs, t, Append(p));
        xs, t := xs + [Append(p)], Step(t, Append(p)).value;
      }
      LeadsFurther(s, xs, t, Write(p));
      xs, t := xs + [Write(p)], Step(t, Write(p)).value;
      assert t.senders == s.senders - {p};
      var ys, u := FinishSenders(t);
      LeadsOn(s, xs, t, ys, u);
      xs, t := xs + ys, u;
    }
  }

  /** An event is announced if there is none, and an orphaned read takes it. */
  lemma ServeOrphan<M>(s: State<M>, m: M) returns (xs: seq<Action<M>>, t: State<M>)
    requires Sound(s) && s.senders == map[] && s.orphans > 0
    ensures Leads(s, xs, t) && Sound(t) && t.senders == map[] && t.receivers == s.receivers && t.lost > 0
  {
    xs, t := [], s;
    if s.count == 0 {
      LeadsFurther(s, xs, t, Send(0, m));
      xs, t := xs + [Send(0, m)], Step(t, Send(0, m)).value;
      LeadsFurther(s, xs, t, Append(0));
      xs, t := xs + [Append(0)], Step(t, Append(0)).value;
      LeadsFurther(s, xs, t, Write(0));
      xs, t := xs + [Write(0)], Step(t, Write(0)).value;
    }
    LeadsFurther(s, xs, t, GrantOrphan);
    xs, t := xs + [GrantOrphan], Step(t, GrantOrphan).value;
  }

  /** Receivers with a granted read pop, and nothing else happens. */
  lemma {:induction false} PopGranted<M>(s: State<M>) returns (xs: seq<Action<M>>, t: State<M>)
    requires Sound(s) && s.senders == map[]
    ensures Leads(s, xs, t) && Sound(t) && t.senders == map[] && t.lost == s.lost
    ensures forall r :: r in t.receivers ==> t.receivers[r].Reading?
    decreases |s.receivers|
  {
    xs, t := [], s;
    if r :| r in s.receivers && s.receivers[r].Granted? {
      LeadsFurther(s, xs, t, Pop(r));
      xs, t := [Pop(r)], Step(t, Pop(r)).value;
      var ys, u := PopGranted(t);
      LeadsOn(s, xs, t, ys, u);
      xs, t := xs + ys, u;
    }
  }

  /** New receivers come and take all that is announced. */
  lemma {:induction false} ReceiveAll<M>(s: State<M>) returns (xs: seq<Action<M>>, t: State<M>)
    requires Sound(s) && s.senders == map[] && forall r :: r in s.receivers ==> s.receivers[r].Reading?
    ensures Leads(s, xs, t) && Sound(t) && t.senders == map[] && t.lost == s.lost && t.count == 0
    ensures t.receivers == s.receivers
    decreases s.count
  {
    xs, t := [], s;
    if s.count > 0 {
      var r := AboveAll(s.receivers);
      LeadsFurther(s, xs, t, Receive(r));
      xs, t := xs + [Receive(r)], Step(t, Receive(r)).value;
      LeadsFurther(s, xs, t, Grant(r));
      xs, t := xs + [Grant(r)], Step(t, Grant(r)).value;
      LeadsFurther(s, xs, t, Pop(r));
      xs, t := xs + [Pop(r)], Step(t, Pop(r)).value;
      assert t.receivers == s.receivers;
      var ys, u := ReceiveAll(t);
      LeadsOn(s, xs, t, ys, u);
      xs, t := xs + ys, u;
    }
  }

  /** From a spoiled state the channel can come to rest with a receiver waiting beside a queued message. */
  lemma SpoiledCanStick<M>(s: State<M>, m: M) returns (xs: seq<Action<M>>, t: State<M>)
    requires Sound(s) && Spoiled(s)
    ensures Leads(s, xs, t) && Stuck(t)
  {
    var ys, u;
    xs, t := FinishSenders(s);
    if t.lost == 0 {
      ys, u := ServeOrphan(t, m);
      LeadsOn(s, xs, t, ys, u);
      xs, t := xs + ys, u;
    }
    ys, u := PopGranted(t);
    LeadsOn(s, xs, t, ys, u);
    xs, t := xs + ys, u;
    ys, u := ReceiveAll(t);
    LeadsOn(s, xs, t, ys, u);
    xs, t := xs + ys, u;
    if t.receivers == map[] {
      LeadsFurther(s, xs, t, Receive(0));
      xs, t := xs + [Receive(0)], Step(t, Receive(0)).value;
    }
    StuckMessages(t);
  }

  /** A message can get stuck, without any more receivers being destroyed, exactly in spoiled states. */
  lemma CanStickIffSpoiled<M>(s: State<M>, m: M)
    requires Sound(s)
    ensures Spoiled(s) <==> exists xs, t :: Leads(s, xs, t) && Stuck(t)
  {
    if Spoiled(s) {
      var xs, t := SpoiledCanStick(s, m);
    } else {
      forall xs, t | Leads(s, xs, t) ensures !Stuck(t) { UnspoiledNeverSticks(s, xs); }
    }
  }

  /** From a new channel, a run on which no receiver is destroyed while its read is outstanding never gets stuck. */
  lemma NeverStuckWithoutAbandon<M>(s: State<M>, xs: seq<Action<M>>)
    requires s == Fresh() && CanRun(s, xs) && NoAbandon(xs)
    ensures Run(s, xs).Some? && !Spoiled(Run(s, xs).value) && !Stuck(Run(s, xs).value)
  {
    assert !Spoiled(s);
    hide Sound, Spoiled, Stuck, Run, CanRun, Step, CanStep;
    FreshIsSound(s);
    UnspoiledNeverSticks(s, xs);
  }

  /**
   The condition a caller can check before the call: a step from an unspoiled state opens the way to a stuck message,
   with no further receiver destroyed, if and only if it destroys a receiver, whether its read was granted or not.
   */
  lemma StuckExactlyByAbandoning<M>(s: State<M>, x: Action<M>, m: M)
    requires Sound(s) && !Spoiled(s) && CanStep(s, x)
    ensures Step(s, x).Some?
    ensures x.Abandon? <==> exists xs, t :: Leads(Step(s, x).value, xs, t) && Stuck(t)
  {
    StepKeepsSound(s, x);
    assert x.Abandon? <==> Spoiled(Step(s, x).value);
    hide Sound, Spoiled, Leads, Stuck, Step;
    CanStickIffSpoiled(Step(s, x).value, m);
  }

  // ----- A message left behind -----

  /** A receiver is destroyed after its read was granted, or before; then another one waits. */
  function AbandonedRead<M>(m: M, granted: bool): seq<Action<M>> {
    [Send(0, m), Append(0), Write(0), Receive(0)]
    + (if granted then [Grant(0), Abandon(0)] else [Abandon(0), GrantOrphan]) + [Receive(1)]
  }

  function AbandonedReadState<M>(m: M, granted: bool, i: nat): State<M> {
    State(if i < 2 then [] else [m], if i == 3 || i == 4 || (i == 5 && !granted) then 1 else 0,
          if i == 1 then map[0 := Entering(m)] else if i == 2 then map[0 := Writing] else map[],
          if i == 4 then map[0 := Reading] else if i == 5 && granted then map[0 := Granted]
          else if i == 7 then map[1 := Reading] else map[],
          if i == 5 && !granted then 1 else 0,
          if i < 2 then [] else [m], [], if i < 6 then 0 else 1)
  }

  lemma AbandonedReadSteps<M>(m: M, granted: bool, i: nat)
    requires i < 7
    ensures CanStep(AbandonedReadState(m, granted, i), AbandonedRead(m, granted)[i])
    ensures Step(AbandonedReadState(m, granted, i), AbandonedRead(m, granted)[i])
            == Some(AbandonedReadState(m, granted, i + 1))
  {
    var s, t := AbandonedReadState(m, granted, i), AbandonedReadState(m, granted, i + 1);
    var u := Step(s, AbandonedRead(m, granted)[i]).value;
    assert u.senders == t.senders && u.receivers == t.receivers && u.messages == t.messages && u.sent == t.sent;
  }

  lemma {:induction false} AbandonedReadRuns<M>(m: M, granted: bool, i: nat)
    requires i <= 7
    ensures CanRun(AbandonedReadState(m, granted, i), AbandonedRead(m, granted)[i..])
    ensures Run(AbandonedReadState(m, granted, i), AbandonedRead(m, granted)[i..])
            == Some(AbandonedReadState(m, granted, 7))
    decreases 7 - i
  {
    var xs := AbandonedRead(m, granted);
    if i < 7 {
      AbandonedReadSteps(m, granted, i);
      hide AbandonedReadState, Step, CanStep;
      assert xs[i..][0] == xs[i] && xs[i..][1..] == xs[i + 1..];
      AbandonedReadRuns(m, granted, i + 1);
    }
  }

  /**
   From a new channel, whatever the message: a receiver waits at rest although the message is queued, as another one
   was destroyed, after its read was granted or before.
   */
  lemma AbandonedReadLeavesMessage<M>(m: M, granted: bool)
    ensures CanRun(Fresh<M>(), AbandonedRead(m, granted)) && Run(Fresh<M>(), AbandonedRead(m, granted)).Some?
    ensures var t := Run(Fresh<M>(), AbandonedRead(m, granted)).value; Stuck(t) && t.messages == [m]
  {
    var xs := AbandonedRead(m, granted);
    assert AbandonedReadState(m, granted, 0) == Fresh<M>() && xs[0..] == xs;
    AbandonedReadRuns(m, granted, 0);
    assert 1 in AbandonedReadState(m, granted, 7).receivers;
  }
}

/** The channel as the mutable object of the source. */
module Channels {
  import opened Options
  import opened ChannelProtocol

  datatype Party = SendCall(p: Id) | ReceiveCall(r: Id) | Kernel

  function Taker<M>(x: Action<M>): Party {
    match x
    case Send(p, _) => SendCall(p)
    case Append(p) => SendCall(p)
    case Write(p) => SendCall(p)
    case Receive(r) => ReceiveCall(r)
    case Grant(r) => ReceiveCall(r)
    case Pop(r) => ReceiveCall(r)
    case Abandon(r) => ReceiveCall(r)
    case GrantOrphan => Kernel
    case CancelOrphan => Kernel
  }

  /** What others do between two accesses of a call; entries that are not possible in their turn are skipped. */
  function Others<M>(s: State<M>, xs: seq<Action<M>>, me: Party): State<M>
    decreases |xs|
  {
    if xs == [] then s
    else if Taker(xs[0]) != me && CanStep(s, xs[0]) && Step(s, xs[0]).Some?
    then Others(Step(s, xs[0]).value, xs[1..], me)
    else Others(s, xs[1..], me)
  }

  /** What they do over a whole schedule, entry by entry. */
  function OthersAll<M>(s: State<M>, waits: seq<seq<Action<M>>>, me: Party): State<M>
    decreases |waits|
  {
    if waits == [] then s else Others(OthersAll(s, waits[..|waits| - 1], me), waits[|waits| - 1], me)
  }

  function Then<M>(s: Option<State<M>>, x: Action<M>): Option<State<M>> {
    if s.Some? && CanStep(s.value, x) then Step(s.value, x) else None
  }

  function Meanwhile<M>(s: Option<State<M>>, waits: seq<seq<Action<M>>>, me: Party): Option<State<M>> {
    if s.Some? then Some(OthersAll(s.value, waits, me)) else None
  }

  /** A call to send, access by access, with what others do in between. */
  function SendRun<M>(s: State<M>, p: Id, message: M,
                      before: seq<Action<M>>, between: seq<Action<M>>): Option<State<M>> {
    var appended := Then(Meanwhile(Then(Some(s), Send(p, message)), [before], SendCall(p)), Append(p));
    Then(Meanwhile(appended, [between], SendCall(p)), Write(p))
  }

  /** A receive whose read is granted after the given schedule. */
  function ReceiveRun<M>(s: State<M>, r: Id, waits: seq<seq<Action<M>>>, between: seq<Action<M>>): Option<State<M>> {
    var granted := Then(Meanwhile(Then(Some(s), Receive(r)), waits, ReceiveCall(r)), Grant(r));
    Then(Meanwhile(granted, [between], ReceiveCall(r)), Pop(r))
  }

  lemma OthersAllOnce<M>(s: State<M>, xs: seq<Action<M>>, me: Party)
    ensures OthersAll(s, [xs], me) == Others(s, xs, me)
  {
    assert [xs][..0] == [];
  }

  /** Others leave a call where it is; what was sent stays sent, what was received stays received. */
  ghost predicate Spared<M>(s: State<M>, t: State<M>, me: Party) {
    && (me.SendCall? ==>
          && (me.p in s.senders <==> me.p in t.senders)
          && (me.p in s.senders ==> t.senders[me.p] == s.senders[me.p]))
    && (me.ReceiveCall? ==>
          && (me.r in s.receivers <==> me.r in t.receivers)
          && (me.r in s.receivers ==> t.receivers[me.r] == s.receivers[me.r]))
    && s.sent <= t.sent && s.received <= t.received
  }

  lemma {:induction false} OthersSpare<M>(s: State<M>, xs: seq<Action<M>>, me: Party)
    requires Sound(s)
    ensures Sound(Others(s, xs, me)) && Spared(s, Others(s, xs, me), me)
    decreases |xs|
  {
    hide Sound;
    if xs != [] {
      if Taker(xs[0]) != me && CanStep(s, xs[0]) && Step(s, xs[0]).Some? {
        StepKeepsSound(s, xs[0]);
        assert Spared(s, Step(s, xs[0]).value, me);
        OthersSpare(Step(s, xs[0]).value, xs[1..], me);
      } else {
        OthersSpare(s, xs[1..], me);
      }
    }
  }

  class Channel<M> {
    var messages: seq<M>
    var count: nat                   // of the eventfd
    var senders: map<Id, Sender<M>>
    var receivers: map<Id, Receiver>
    var orphans: nat
    var sent: seq<M>
    var received: seq<M>
    var lost: nat

    function State(): ChannelProtocol.State<M>
      reads this
    {
      ChannelProtocol.State.State(messages, count, senders, receivers, orphans, sent, received, lost)
    }

    ghost predicate Valid()
      reads this
    {
      Sound(State())
    }

    constructor ()
      ensures Valid() && State() == Fresh<M>()
    {
      messages, count, senders, receivers, orphans := [], 0, map[], map[], 0;
      sent, received, lost := [], [], 0;
      new;
      FreshIsSound(State());
    }

    /** The turn of the others. */
    method Interfere(xs: seq<Action<M>>, me: Party)
      requires Valid()
      modifies this
      ensures Valid() && State() == Others(old(State()), xs, me) && Spared(old(State()), State(), me)
      ensures Some(State()) == Meanwhile(Some(old(State())), [xs], me)
    {
      OthersSpare(State(), xs, me);
      OthersAllOnce(State(), xs, me);
      var t := Others(State(), xs, me);
      messages, count, senders, receivers := t.messages, t.count, t.senders, t.receivers;
      orphans, sent, received, lost := t.orphans, t.sent, t.received, t.lost;
    }

    method PushMessage(p: Id)
      requires Valid() && p in senders && senders[p].Entering?
      modifies this`messages, this`sent, this`senders
      ensures Valid() && Some(State()) == Step(old(State()), Append(p))
    {
      StepKeepsSound(State(), Append(p));
      var message := senders[p].message;
      messages, sent := messages + [message], sent + [message];
      senders := senders[p := Writing];
    }

    method WriteEvent(p: Id)
      requires Valid() && p in senders && senders[p].Writing?
      modifies this`count, this`senders
      ensures Valid() && Some(State()) == Step(old(State()), Write(p))
    {
      StepKeepsSound(State(), Write(p));
      count := count + 1;
      senders := senders - {p};
    }

    /**
     A whole call to send, which appends once and announces once: the message goes behind everything that was sent
     before the call.
     */
    method SendMessage(p: Id, message: M, before: seq<Action<M>>, between: seq<Action<M>>) returns (ghost place: nat)
      requires Valid() && p !in senders
      modifies this
      ensures Valid() && p !in senders && old(sent) <= sent
      ensures |old(sent)| <= place < |sent| && sent[place] == message
      ensures Some(State()) == SendRun(old(State()), p, message, before, between)
    {
      hide Sound, OthersAll, Others;
      StepKeepsSound(State(), Send(p, message));
      senders := senders[p := Entering(message)];
      Interfere(before, SendCall(p));
      place := |sent|;
      PushMessage(p);
      Interfere(between, SendCall(p));
      WriteEvent(p);
    }

    /** Takes the oldest message; it is there. */
    method PopMessage(r: Id) returns (message: M)
      requires Valid() && r in receivers && receivers[r].Granted?
      modifies this`messages, this`received, this`receivers
      ensures Valid() && Some(State()) == Step(old(State()), Pop(r))
      ensures old(messages) == [message] + messages && received == old(received) + [message]
    {
      StepKeepsSound(State(), Pop(r));
      message := messages[0];
      messages := messages[1..];
      received := received + [message];
      receivers := receivers - {r};
    }

    method GrantRead(r: Id)
      requires Valid() && r in receivers && receivers[r].Reading? && count > 0
      modifies this`count, this`receivers
      ensures Valid() && Some(State()) == Step(old(State()), Grant(r))
    {
      StepKeepsSound(State(), Grant(r));
      count := count - 1;
      receivers := receivers[r := Granted];
    }

    /** Waits for the event, as long as the schedule goes, and takes it as soon as it is there. */
    method AwaitGrant(r: Id, waits: seq<seq<Action<M>>>) returns (granted: bool, ghost used: nat)
      requires Valid() && r in receivers && receivers[r].Reading?
      modifies this
      ensures Valid() && old(sent) <= sent && old(received) <= received && used <= |waits| && r in receivers
      ensures var before := Meanwhile(Some(old(State())), waits[..used], ReceiveCall(r));
              if granted then Some(State()) == Then(before, Grant(r)) && receivers[r].Granted?
              else Some(State()) == before && used == |waits| && count == 0 && receivers[r].Reading?
    {
      hide Sound, Others;
      ghost var s := State();
      var i := 0;
      while i < |waits| && (i == 0 || count == 0)
        invariant Valid() && r in receivers && receivers[r].Reading? && i <= |waits|
        invariant old(sent) <= sent && old(received) <= received
        invariant State() == OthersAll(s, waits[..i], ReceiveCall(r))
      {
        assert waits[..i + 1][..i] == waits[..i];
        Interfere(waits[i], ReceiveCall(r));
        i := i + 1;
      }
      used := i;
      granted := count > 0;
      if granted {
        GrantRead(r);
      }
    }

    /**
     A whole receive, which takes one event and pops once; None when the schedule ends before its read is granted. It
     gets the oldest message.
     */
    method ReceiveMessage(r: Id, waits: seq<seq<Action<M>>>, between: seq<Action<M>>)
      returns (message: Option<M>, ghost used: nat)
      requires Valid() && r !in receivers
      modifies this
      ensures Valid() && old(sent) <= sent && old(received) <= received && used <= |waits|
      ensures message.None? ==>
                Some(State()) == Meanwhile(Then(Some(old(State())), Receive(r)), waits, ReceiveCall(r))
                && r in receivers && receivers[r].Reading? && count == 0
      ensures message.Some? ==>
                Some(State()) == ReceiveRun(old(State()), r, waits[..used], between)
                && r !in receivers && |received| > |old(received)| && received[|received| - 1] == message.value
                && received <= sent
    {
      hide Sound, OthersAll, Others;
      StepKeepsSound(State(), Receive(r));
      receivers := receivers[r := Reading];
      var granted;
      granted, used := AwaitGrant(r, waits);
      if !granted {
        assert waits[..used] == waits;
        return None, used;
      }
      Interfere(between, ReceiveCall(r));
      var m := PopMessage(r);
      SentHoldsReceived(State());
      message := Some(m);
    }
  }

  lemma SentHoldsReceived<M>(s: State<M>)
    requires Sound(s)
    ensures s.received <= s.sent
  {
  }
}
