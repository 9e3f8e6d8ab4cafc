/** What every interleaving of the event channel keeps, and the properties of all its runs. */
module ChannelSafety {
  import opened Prelude
  import opened Tallies
  import opened EventChannel

  // ----- What a thread in a given local state holds

  ghost function Payloads(c: Completion, e: Event): nat {
    if c.payload == Some(e) then 1 else 0
  }

  ghost function EventsIn(l: Local, e: Event): nat {
    match l
    case Raising(x) => Same(x, e)
    case Enqueueing(x) => Same(x, e)
    case Completing(c) => Payloads(c, e)
    case _ => 0
  }

  ghost function OfIrp(c: Completion, irp: nat): nat { Same(c.irp, irp) }

  ghost function IrpsIn(l: Local, irp: nat): nat {
    match l
    case Dispatching(x) => Same(x, irp)
    case Polling(x) => Same(x, irp)
    case Pending(x) => Same(x, irp)
    case Completing(c) => Same(c.irp, irp)
    case _ => 0
  }

  /** Whether this thread will decide what becomes of a pended IRP without a cancel routine. */
  ghost function Keepers(l: Local, irp: nat): nat {
    match l
    case Arming(x) => Same(x, irp)
    case Cancelling(x) => Same(x, irp)
    case _ => 0
  }

  ghost function SameEvent(a: Event, e: Event): nat { Same(a, e) }

  // ----- The ledgers

  /** How often an event is queued, dropped or used up by a completion. */
  ghost function EventStored(g: Globals, e: Event): nat {
    Tally(g.sh.eventQueue, SameEvent, e) + Tally(g.log.dropped, SameEvent, e) + Tally(g.log.completed, Payloads, e)
  }

  ghost function Raised(g: Globals, e: Event): nat { Tally(g.log.raised, SameEvent, e) }

  ghost function IrpStored(g: Globals, irp: nat): nat {
    (if g.sh.pendingIrp == Some(irp) then 1 else 0) + Tally(g.log.completed, OfIrp, irp)
  }

  ghost function Unarmed(g: Globals, irp: nat): nat {
    if g.sh.pendingIrp == Some(irp) && irp !in g.sh.cancelable then 1 else 0
  }

  ghost predicate Ledgers(s: State) {
    && (forall e :: Tally(s.threads, EventsIn, e) + EventStored(s.g, e) == Raised(s.g, e))
    && (forall irp: nat :: Tally(s.threads, IrpsIn, irp) + IrpStored(s.g, irp) == if irp < |s.g.irps| then 1 else 0)
    && (forall irp: nat :: Tally(s.threads, Keepers, irp) == Unarmed(s.g, irp))
  }

  // ----- The rest of the invariant: facts about the globals, and about one thread at a time

  ghost predicate Armed(g: Globals) {
    g.sh.pendingIrp.Some? && g.sh.pendingIrp.value in g.sh.cancelable
  }

  ghost predicate OfAgent(g: Globals, irp: nat) {
    irp < |g.irps| && g.agent == Some(g.irps[irp].caller)
  }

  /** Only the agent's IRPs carry events, and the buffer's size decides whether one got through. */
  ghost predicate Proper(g: Globals, c: Completion) {
    && (c.payload.Some? <==> c.status == Success || c.status == BufferTooSmall)
    && (c.payload.Some? ==>
          OfAgent(g, c.irp) && (c.status == Success <==> g.irps[c.irp].outputLength >= EVENT_SIZE))
  }

  /** The event's notifier looked at PENDING_IRP, and did so before the latest IRP was pended
      unless that IRP's cancel routine is gone by now. */
  ghost predicate Stamped(g: Globals, e: Event) {
    && e.requestId in g.log.checkedAt
    && g.log.checkedAt[e.requestId] < g.log.now
    && (!g.log.lost ==> g.log.checkedAt[e.requestId] < g.log.pendedAt)
  }

  /** Requests are numbered in the order in which they are raised. */
  ghost predicate NumbersOk(g: Globals) {
    && g.nextRequest == |g.log.raised| + 1
    && forall i :: 0 <= i < |g.log.raised| ==> g.log.raised[i].requestId == i + 1
  }

  /** What has left the queue and what is in it is what entered it. */
  ghost predicate QueueOk(g: Globals) {
    && g.log.served + g.sh.eventQueue == g.log.enqueued && |g.sh.eventQueue| <= QUEUE_CAPACITY
    && |g.log.backlogs| == |g.log.dropped| && forall i :: 0 <= i < |g.log.backlogs| ==> g.log.backlogs[i] == 1000
  }

  /** Only the pended IRP is armed, and it is the agent's. */
  ghost predicate SlotOk(g: Globals) {
    && (forall irp :: irp in g.sh.cancelable ==> g.sh.pendingIrp == Some(irp))
    && (g.sh.pendingIrp.Some? ==> OfAgent(g, g.sh.pendingIrp.value))
    && (Armed(g) ==> !g.log.lost && |g.log.served| == g.log.polled)
    && (g.lock.None? && !Armed(g) ==> g.log.lost)
  }

  ghost predicate GlobalOk(g: Globals) { NumbersOk(g) && QueueOk(g) && SlotOk(g) }

  ghost predicate HistoryOk(g: Globals) {
    && (forall i :: 0 <= i < |g.log.completed| ==> Proper(g, g.log.completed[i]))
    && (forall e :: e in g.sh.eventQueue ==> Stamped(g, e))
    && (forall r :: r in g.log.checkedAt ==> 1 <= r < g.nextRequest)
  }

  ghost predicate LocalOk(g: Globals, t: nat, l: Local) {
    && (l.HoldsLock() <==> g.lock == Some(t))
    && match l
       case Raising(e) => e.requestId !in g.log.checkedAt && 1 <= e.requestId < g.nextRequest
       case Enqueueing(e) => Stamped(g, e)
       case Dispatching(irp) => OfAgent(g, irp)
       case Polling(irp) => OfAgent(g, irp) && g.sh.pendingIrp.None? && g.log.lost
       case Pending(irp) =>
         OfAgent(g, irp) && g.sh.pendingIrp.None? && g.log.lost && |g.log.served| == g.log.polled
       case Arming(irp) => !Armed(g) && !g.log.lost && |g.log.served| == g.log.polled
       case Completing(c) => Proper(g, c)
       case _ => true
  }

  ghost predicate Inv(s: State) {
    && Ledgers(s) && GlobalOk(s.g) && HistoryOk(s.g)
    && (s.g.lock.Some? ==> s.g.lock.value < |s.threads|)
    && forall t :: 0 <= t < |s.threads| ==> LocalOk(s.g, t, s.threads[t])
  }

  // ----- One step of one thread

  /** A thread that keeps a pended IRP finds it in the slot, unarmed. */
  ghost predicate Keeps(g: Globals, l: Local) {
    forall irp: nat :: Keepers(l, irp) <= Unarmed(g, irp)
  }

  ghost predicate CanAct(g: Globals, t: nat, l: Local) {
    GlobalOk(g) && HistoryOk(g) && LocalOk(g, t, l) && Ready(g, l) && Keeps(g, l)
  }

  lemma ActMovesEvents(g: Globals, t: nat, l: Local, e: Event)
    requires Ready(g, l)
    ensures var (g', l') := Act(g, t, l);
            EventsIn(l', e) + EventStored(g', e) + Raised(g, e) == EventsIn(l, e) + EventStored(g, e) + Raised(g', e)
  {
    hide Tallies.Tally, PathField;
    match l
    case Notifying(pid, frozen, image) =>
      TallyAppend(g.log.raised, Event(pid, g.nextRequest, frozen, PathField(image)), SameEvent, e);
    case Enqueueing(event) =>
      TallyAppend(g.sh.eventQueue, event, SameEvent, e);
      TallyAppend(g.log.dropped, event, SameEvent, e);
    case Polling(_) =>
      if g.sh.eventQueue != [] {
        TallyRemove(g.sh.eventQueue, 0, SameEvent, e);
        assert RemoveAt(g.sh.eventQueue, 0) == g.sh.eventQueue[1..];
      }
    case Completing(c) => TallyAppend(g.log.completed, c, Payloads, e);
    case _ =>
  }

  lemma ActMovesIrps(g: Globals, t: nat, l: Local, irp: nat)
    requires CanAct(g, t, l)
    ensures var (g', l') := Act(g, t, l);
            IrpsIn(l', irp) + IrpStored(g', irp)
            == IrpsIn(l, irp) + IrpStored(g, irp) + (if |g.irps| <= irp < |g'.irps| then 1 else 0)
  {
    hide Tallies.Tally;
    if l.Completing? {
      TallyAppend(g.log.completed, l.result, OfIrp, irp);
    }
  }

  lemma ActMovesKeepers(g: Globals, t: nat, l: Local, irp: nat)
    requires CanAct(g, t, l)
    ensures var (g', l') := Act(g, t, l);
            Keepers(l', irp) + Unarmed(g, irp) == Keepers(l, irp) + Unarmed(g', irp)
  {
    if l.Arming? || l.Cancelling? {
      assert Keepers(l, l.irp) <= Unarmed(g, l.irp);
    }
  }

  lemma ActKeepsNumbers(g: Globals, t: nat, l: Local)
    requires Ready(g, l) && NumbersOk(g)
    ensures NumbersOk(Tick(Act(g, t, l).0))
  {
    hide Claim, Withdraw, PushEvent, PopEvent, Fill;
  }

  lemma ActKeepsQueue(g: Globals, t: nat, l: Local)
    requires Ready(g, l) && QueueOk(g)
    ensures QueueOk(Tick(Act(g, t, l).0))
  {
    hide Fill;
  }

  lemma ActKeepsSlot(g: Globals, t: nat, l: Local)
    requires CanAct(g, t, l)
    ensures SlotOk(Tick(Act(g, t, l).0))
  {
    if l.Arming? || l.Cancelling? {
      assert Keepers(l, l.irp) <= Unarmed(g, l.irp);
    }
    hide Fill, HistoryOk, NumbersOk, QueueOk, Keeps;
  }

  lemma ActKeepsGlobal(g: Globals, t: nat, l: Local)
    requires CanAct(g, t, l)
    ensures GlobalOk(Tick(Act(g, t, l).0))
  {
    hide Act, NumbersOk, QueueOk, SlotOk, HistoryOk, LocalOk, Keeps;
    ActKeepsNumbers(g, t, l);
    ActKeepsQueue(g, t, l);
    ActKeepsSlot(g, t, l);
  }

  lemma ActKeepsHistory(g: Globals, t: nat, l: Local)
    requires CanAct(g, t, l)
    ensures HistoryOk(Tick(Act(g, t, l).0))
  {
    hide Fill, NumbersOk, QueueOk, Keeps;
    var g' := Tick(Act(g, t, l).0);
    forall e | e in g'.sh.eventQueue ensures Stamped(g', e) {
      assert e in g.sh.eventQueue || l == Enqueueing(e);
      assert Stamped(g, e);
    }
  }

  lemma ActKeepsOwn(g: Globals, t: nat, l: Local)
    requires CanAct(g, t, l)
    ensures var (g', l') := Act(g, t, l); LocalOk(Tick(g'), t, l')
  {
    hide Keeps;
  }

  lemma ActKeepsOther(g: Globals, t: nat, l: Local, u: nat, m: Local)
    requires CanAct(g, t, l) && t != u && LocalOk(g, u, m)
    requires m.Raising? && l.Raising? ==> m.event.requestId != l.event.requestId
    ensures LocalOk(Tick(Act(g, t, l).0), u, m)
  {
    hide HistoryOk, NumbersOk, QueueOk, Keeps, Fill;
  }

  // ----- Lifted to all threads

  lemma SpawnKeeps(s: State, l: Local)
    requires Inv(s) && l.Starts()
    ensures Inv(Apply(s, Spawn(l)))
  {
    hide Tallies.Tally;
    hide EventStored, Raised, IrpStored, Unarmed;
    var s' := Apply(s, Spawn(l));
    forall e ensures Tally(s'.threads, EventsIn, e) == Tally(s.threads, EventsIn, e) {
      TallyAppend(s.threads, l, EventsIn, e);
    }
    forall irp: nat
      ensures Tally(s'.threads, IrpsIn, irp) == Tally(s.threads, IrpsIn, irp)
      ensures Tally(s'.threads, Keepers, irp) == Tally(s.threads, Keepers, irp)
    {
      TallyAppend(s.threads, l, IrpsIn, irp);
      TallyAppend(s.threads, l, Keepers, irp);
    }
  }

  lemma ThreadCanAct(s: State, t: nat)
    requires Inv(s) && Enabled(s, Move(t))
    ensures CanAct(s.g, t, s.threads[t])
  {
    var l := s.threads[t];
    forall irp: nat ensures Keepers(l, irp) <= Unarmed(s.g, irp) {
      TallyUpdate(s.threads, t, l, Keepers, irp);
    }
  }

  lemma MoveKeepsLedgers(s: State, t: nat)
    requires Inv(s) && Enabled(s, Move(t))
    ensures Ledgers(Apply(s, Move(t)))
  {
    hide Tallies.Tally;
    hide EventStored, Raised, IrpStored, Unarmed;
    var l := s.threads[t];
    var l' := Act(s.g, t, l).1;
    var s' := Apply(s, Move(t));
    ThreadCanAct(s, t);
    TickMovesNothing(Act(s.g, t, l).0);
    hide Act, CanAct, Inv;
    forall e ensures Tally(s'.threads, EventsIn, e) + EventStored(s'.g, e) == Raised(s'.g, e) {
      TallyUpdate(s.threads, t, l', EventsIn, e);
      ActMovesEvents(s.g, t, l, e);
    }
    forall irp: nat
      ensures Tally(s'.threads, IrpsIn, irp) + IrpStored(s'.g, irp) == if irp < |s'.g.irps| then 1 else 0
      ensures Tally(s'.threads, Keepers, irp) == Unarmed(s'.g, irp)
    {
      TallyUpdate(s.threads, t, l', IrpsIn, irp);
      ActMovesIrps(s.g, t, l, irp);
      TallyUpdate(s.threads, t, l', Keepers, irp);
      ActMovesKeepers(s.g, t, l, irp);
    }
  }

  lemma TickMovesNothing(g: Globals)
    ensures forall e :: EventStored(Tick(g), e) == EventStored(g, e) && Raised(Tick(g), e) == Raised(g, e)
    ensures forall irp: nat :: IrpStored(Tick(g), irp) == IrpStored(g, irp) && Unarmed(Tick(g), irp) == Unarmed(g, irp)
    ensures Tick(g).irps == g.irps
  {
  }

  lemma RaisedOnce(g: Globals, e: Event)
    requires GlobalOk(g)
    ensures Raised(g, e) <= 1
    ensures Raised(g, e) == 1 <==> 1 <= e.requestId < g.nextRequest && g.log.raised[e.requestId - 1] == e
  {
    TallyAtMostOne(g.log.raised, SameEvent, e);
    if Raised(g, e) == 1 {
      var i := TallySource(g.log.raised, SameEvent, e);
    } else if 1 <= e.requestId < g.nextRequest && g.log.raised[e.requestId - 1] == e {
      TallyUpdate(g.log.raised, e.requestId - 1, e, SameEvent, e);
    }
  }

  /** Two threads never hold the same request. */
  lemma HeldByOne(s: State, t: nat, u: nat, e: Event, d: Event)
    requires Inv(s) && t < |s.threads| && u < |s.threads| && t != u
    requires EventsIn(s.threads[t], e) == 1 && EventsIn(s.threads[u], d) == 1
    ensures e.requestId != d.requestId
  {
    TallyUpdate(s.threads, t, s.threads[t], EventsIn, e);
    TallyUpdate(s.threads, u, s.threads[u], EventsIn, d);
    assert Tally(s.threads, EventsIn, e) + EventStored(s.g, e) == Raised(s.g, e);
    assert Tally(s.threads, EventsIn, d) + EventStored(s.g, d) == Raised(s.g, d);
    RaisedOnce(s.g, e);
    RaisedOnce(s.g, d);
    if e.requestId == d.requestId {
      TwoInList(s.threads, t, u, EventsIn, e);
    }
  }

  lemma MoveKeepsLocals(s: State, t: nat)
    requires Inv(s) && Enabled(s, Move(t))
    ensures var s' := Apply(s, Move(t));
            forall u :: 0 <= u < |s'.threads| ==> LocalOk(s'.g, u, s'.threads[u])
  {
    var l := s.threads[t];
    var s' := Apply(s, Move(t));
    ThreadCanAct(s, t);
    forall u | 0 <= u < |s'.threads| ensures LocalOk(s'.g, u, s'.threads[u]) {
      if u == t {
        ActKeepsOwn(s.g, t, l);
      } else {
        var m := s.threads[u];
        if m.Raising? && l.Raising? {
          HeldByOne(s, t, u, l.event, m.event);
        }
        ActKeepsOther(s.g, t, l, u, m);
      }
    }
  }

  lemma StepKeeps(s: State, step: Step)
    requires Inv(s) && Enabled(s, step)
    ensures Inv(Apply(s, step))
  {
    match step
    case Spawn(l) => SpawnKeeps(s, l);
    case Move(t) =>
      ThreadCanAct(s, t);
      MoveKeepsLedgers(s, t);
      MoveKeepsLocals(s, t);
      ActKeepsGlobal(s.g, t, s.threads[t]);
      ActKeepsHistory(s.g, t, s.threads[t]);
  }

  lemma {:induction false} RunKeeps(run: seq<Step>)
    ensures Exec(run).Some? ==> Inv(Exec(run).value)
  {
    if run != [] {
      RunKeeps(run[..|run| - 1]);
      var before := Exec(run[..|run| - 1]);
      if before.Some? && Enabled(before.value, run[|run| - 1]) {
        StepKeeps(before.value, run[|run| - 1]);
      }
    }
  }

  lemma ReachableInv(s: State)
    requires Reachable(s)
    ensures Inv(s)
  {
    var run :| Exec(run) == Some(s);
    RunKeeps(run);
  }
}
