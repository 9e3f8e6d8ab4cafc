/** The promises of the event channel, over every run of every number of threads. */
module ChannelTheorems {
  import opened Prelude
  import opened Tallies
  import opened EventChannel
  import opened ChannelSafety

  // ----- Where an IRP is

  datatype IrpPlace = InSlot | InHand(thread: nat) | CompletedAs(index: nat)

  ghost predicate IrpAt(s: State, irp: nat, p: IrpPlace) {
    match p
    case InSlot => s.g.sh.pendingIrp == Some(irp)
    case InHand(t) => t < |s.threads| && IrpsIn(s.threads[t], irp) == 1
    case CompletedAs(i) => i < |s.g.log.completed| && s.g.log.completed[i].irp == irp
  }

  lemma IrpHasPlace(s: State, irp: nat) returns (p: IrpPlace)
    requires Inv(s) && irp < |s.g.irps|
    ensures IrpAt(s, irp, p)
  {
    assert Tally(s.threads, IrpsIn, irp) + IrpStored(s.g, irp) == 1;
    if s.g.sh.pendingIrp == Some(irp) {
      p := InSlot;
    } else if Tally(s.threads, IrpsIn, irp) > 0 {
      var t := TallySource(s.threads, IrpsIn, irp);
      p := InHand(t);
    } else {
      var i := TallySource(s.g.log.completed, OfIrp, irp);
      p := CompletedAs(i);
    }
  }

  lemma IrpHasOnePlace(s: State, irp: nat, p: IrpPlace, q: IrpPlace)
    requires Inv(s) && IrpAt(s, irp, p) && IrpAt(s, irp, q)
    ensures p == q && irp < |s.g.irps|
  {
    assert Tally(s.threads, IrpsIn, irp) + IrpStored(s.g, irp) == if irp < |s.g.irps| then 1 else 0;
    forall x | x == p || x == q
      ensures x.InHand? ==> Tally(s.threads, IrpsIn, irp) >= 1
      ensures x.CompletedAs? ==> Tally(s.g.log.completed, OfIrp, irp) >= 1
    {
      if x.InHand? {
        TallyUpdate(s.threads, x.thread, s.threads[x.thread], IrpsIn, irp);
      } else if x.CompletedAs? {
        TallyUpdate(s.g.log.completed, x.index, s.g.log.completed[x.index], OfIrp, irp);
      }
    }
    if p.InHand? && q.InHand? && p != q {
      TwoInList(s.threads, p.thread, q.thread, IrpsIn, irp);
    } else if p.CompletedAs? && q.CompletedAs? && p != q {
      TwoInList(s.g.log.completed, p.index, q.index, OfIrp, irp);
    }
  }

  /** Every IRP of every run is completed, pended or in one thread's hand, and only one of these:
      it is never completed twice and never lost. */
  lemma IrpInExactlyOnePlace(s: State, irp: nat)
    requires Reachable(s)
    ensures irp < |s.g.irps| <==> exists p :: IrpAt(s, irp, p)
    ensures forall p, q :: IrpAt(s, irp, p) && IrpAt(s, irp, q) ==> p == q
  {
    ReachableInv(s);
    if irp < |s.g.irps| {
      var p := IrpHasPlace(s, irp);
    }
    forall p, q | IrpAt(s, irp, p) && IrpAt(s, irp, q) ensures p == q && irp < |s.g.irps| {
      IrpHasOnePlace(s, irp, p, q);
    }
  }

  // ----- Where an event is

  datatype EventPlace = HeldBy(thread: nat) | Queued(index: nat) | Dropped(index: nat) | UsedBy(completion: nat)

  /** The event of request `rid` is at `p`. A completion uses an event up by delivering it, or by
      discarding it into a short buffer. */
  ghost predicate EventAt(s: State, rid: nat, p: EventPlace) {
    match p
    case HeldBy(t) => t < |s.threads| && exists e :: EventsIn(s.threads[t], e) == 1 && e.requestId == rid
    case Queued(i) => i < |s.g.sh.eventQueue| && s.g.sh.eventQueue[i].requestId == rid
    case Dropped(i) => i < |s.g.log.dropped| && s.g.log.dropped[i].requestId == rid
    case UsedBy(i) =>
      && i < |s.g.log.completed| && s.g.log.completed[i].payload.Some?
      && s.g.log.completed[i].payload.value.requestId == rid
  }

  /** Whatever is found at a place is the event as it was raised. */
  lemma EventAtIsRaised(s: State, rid: nat, p: EventPlace) returns (e: Event)
    requires Inv(s) && EventAt(s, rid, p)
    ensures 1 <= rid < s.g.nextRequest && e == s.g.log.raised[rid - 1]
    ensures match p
            case HeldBy(t) => EventsIn(s.threads[t], e) == 1
            case Queued(i) => s.g.sh.eventQueue[i] == e
            case Dropped(i) => s.g.log.dropped[i] == e
            case UsedBy(i) => s.g.log.completed[i].payload == Some(e)
  {
    match p {
      case HeldBy(t) =>
        e :| EventsIn(s.threads[t], e) == 1 && e.requestId == rid;
        TallyUpdate(s.threads, t, s.threads[t], EventsIn, e);
      case Queued(i) =>
        e := s.g.sh.eventQueue[i];
        TallyUpdate(s.g.sh.eventQueue, i, e, SameEvent, e);
      case Dropped(i) =>
        e := s.g.log.dropped[i];
        TallyUpdate(s.g.log.dropped, i, e, SameEvent, e);
      case UsedBy(i) =>
        e := s.g.log.completed[i].payload.value;
        TallyUpdate(s.g.log.completed, i, s.g.log.completed[i], Payloads, e);
    }
    RaisedOnce(s.g, e);
    assert Tally(s.threads, EventsIn, e) + EventStored(s.g, e) == Raised(s.g, e);
  }

  lemma EventHasPlace(s: State, rid: nat) returns (p: EventPlace)
    requires Inv(s) && 1 <= rid < s.g.nextRequest
    ensures EventAt(s, rid, p)
  {
    var e := s.g.log.raised[rid - 1];
    RaisedOnce(s.g, e);
    assert Tally(s.threads, EventsIn, e) + EventStored(s.g, e) == Raised(s.g, e);
    if Tally(s.threads, EventsIn, e) > 0 {
      var t := TallySource(s.threads, EventsIn, e);
      p := HeldBy(t);
    } else if Tally(s.g.sh.eventQueue, SameEvent, e) > 0 {
      var i := TallySource(s.g.sh.eventQueue, SameEvent, e);
      p := Queued(i);
    } else if Tally(s.g.log.dropped, SameEvent, e) > 0 {
      var i := TallySource(s.g.log.dropped, SameEvent, e);
      p := Dropped(i);
    } else {
      var i := TallySource(s.g.log.completed, Payloads, e);
      p := UsedBy(i);
    }
  }

  lemma EventHasOnePlace(s: State, rid: nat, p: EventPlace, q: EventPlace)
    requires Inv(s) && EventAt(s, rid, p) && EventAt(s, rid, q)
    ensures p == q
  {
    var e := EventAtIsRaised(s, rid, p);
    var d := EventAtIsRaised(s, rid, q);
    RaisedOnce(s.g, e);
    assert Tally(s.threads, EventsIn, e) + EventStored(s.g, e) == 1;
    forall x | x == p || x == q
      ensures x.HeldBy? ==> Tally(s.threads, EventsIn, e) >= 1
      ensures x.Queued? ==> Tally(s.g.sh.eventQueue, SameEvent, e) >= 1
      ensures x.Dropped? ==> Tally(s.g.log.dropped, SameEvent, e) >= 1
      ensures x.UsedBy? ==> Tally(s.g.log.completed, Payloads, e) >= 1
    {
      match x
      case HeldBy(t) => TallyUpdate(s.threads, t, s.threads[t], EventsIn, e);
      case Queued(i) => TallyUpdate(s.g.sh.eventQueue, i, e, SameEvent, e);
      case Dropped(i) => TallyUpdate(s.g.log.dropped, i, e, SameEvent, e);
      case UsedBy(i) => TallyUpdate(s.g.log.completed, i, s.g.log.completed[i], Payloads, e);
    }
    if p != q {
      match (p, q)
      case (HeldBy(i), HeldBy(j)) => TwoInList(s.threads, i, j, EventsIn, e);
      case (Queued(i), Queued(j)) => TwoInList(s.g.sh.eventQueue, i, j, SameEvent, e);
      case (Dropped(i), Dropped(j)) => TwoInList(s.g.log.dropped, i, j, SameEvent, e);
      case (UsedBy(i), UsedBy(j)) => TwoInList(s.g.log.completed, i, j, Payloads, e);
      case _ =>
    }
  }

  /** Every event of every run is held by a thread, queued, dropped, or used up by a completion,
      and only one of these. In particular no request is delivered twice. */
  lemma EventInExactlyOnePlace(s: State, rid: nat)
    requires Reachable(s)
    ensures 1 <= rid < s.g.nextRequest <==> exists p :: EventAt(s, rid, p)
    ensures forall p, q :: EventAt(s, rid, p) && EventAt(s, rid, q) ==> p == q
  {
    ReachableInv(s);
    if 1 <= rid < s.g.nextRequest {
      var p := EventHasPlace(s, rid);
    }
    forall p | EventAt(s, rid, p) ensures 1 <= rid < s.g.nextRequest {
      var e := EventAtIsRaised(s, rid, p);
    }
    forall p, q | EventAt(s, rid, p) && EventAt(s, rid, q) ensures p == q {
      EventHasOnePlace(s, rid, p, q);
    }
  }

  /** Events leave the queue in the order they entered it, and it never outgrows its bound. */
  lemma QueueIsFifo(s: State)
    requires Reachable(s)
    ensures s.g.log.served <= s.g.log.enqueued && s.g.sh.eventQueue == s.g.log.enqueued[|s.g.log.served|..]
    ensures |s.g.sh.eventQueue| <= QUEUE_CAPACITY
  {
    ReachableInv(s);
  }

  /** An event is lost to the queue only when it is full: each drop found exactly a thousand events. */
  lemma DropsFindAFullQueue(s: State)
    requires Reachable(s)
    ensures |s.g.log.backlogs| == |s.g.log.dropped|
    ensures forall i :: 0 <= i < |s.g.log.backlogs| ==> s.g.log.backlogs[i] == 1000
  {
    ReachableInv(s);
  }

  // ----- The slot

  /** A pended IRP is armed, or exactly one thread has it in charge: the cancel routine, unless
      GET_EVENT is still holding the lock to arm it. */
  lemma SlotArmedOrInCharge(s: State, irp: nat)
    requires Reachable(s) && s.g.sh.pendingIrp == Some(irp) && irp !in s.g.sh.cancelable
    ensures exists t :: 0 <= t < |s.threads| && Keepers(s.threads[t], irp) == 1
    ensures forall t, u | 0 <= t < |s.threads| && 0 <= u < |s.threads| ::
              Keepers(s.threads[t], irp) == 1 && Keepers(s.threads[u], irp) == 1 ==> t == u
    ensures s.g.lock.None? ==> Cancelling(irp) in s.threads
  {
    ReachableInv(s);
    assert Tally(s.threads, Keepers, irp) == Unarmed(s.g, irp);
    var t := TallySource(s.threads, Keepers, irp);
    assert LocalOk(s.g, t, s.threads[t]);
    forall t, u | 0 <= t < |s.threads| && 0 <= u < |s.threads|
                  && Keepers(s.threads[t], irp) == 1 && Keepers(s.threads[u], irp) == 1
      ensures t == u
    {
      if t != u {
        TwoInList(s.threads, t, u, Keepers, irp);
      }
    }
  }

  /** The cancel routine always finds its own IRP in the slot, and completes it. */
  lemma CancelRoutineFindsItsIrp(s: State, t: nat, irp: nat)
    requires Reachable(s) && t < |s.threads| && s.threads[t] == Cancelling(irp)
    ensures s.g.sh.pendingIrp == Some(irp) && irp !in s.g.sh.cancelable
    ensures Ready(s.g, s.threads[t]) ==>
              Act(s.g, t, s.threads[t]).1 == Completing(Completion(irp, Cancelled, None))
  {
    ReachableInv(s);
    TallyUpdate(s.threads, t, s.threads[t], Keepers, irp);
    assert Tally(s.threads, Keepers, irp) == Unarmed(s.g, irp);
  }

  /** While an IRP is armed, whatever is queued comes from notifiers that looked before it was
      pended; a notifier that looks now claims it. */
  lemma ArmedBacklogIsOld(s: State)
    requires Reachable(s) && Armed(s.g)
    ensures forall e :: e in s.g.sh.eventQueue ==>
              e.requestId in s.g.log.checkedAt && s.g.log.checkedAt[e.requestId] < s.g.log.pendedAt
    ensures forall t :: 0 <= t < |s.threads| && s.threads[t].Raising? && Ready(s.g, s.threads[t]) ==>
              Act(s.g, t, s.threads[t]).1
              == var irp := s.g.sh.pendingIrp.value;
                 Completing(Fill(irp, OutputLength(s.g, irp), s.threads[t].event))
  {
    ReachableInv(s);
    forall e | e in s.g.sh.eventQueue
      ensures e.requestId in s.g.log.checkedAt && s.g.log.checkedAt[e.requestId] < s.g.log.pendedAt
    {
      assert Stamped(s.g, e);
    }
  }

  /** While an IRP is armed, exactly those events are queued that entered the queue after it was found
      empty for that IRP. */
  lemma ArmedQueueIff(s: State)
    requires Reachable(s) && Armed(s.g)
    ensures s.g.log.polled <= |s.g.log.enqueued| && s.g.sh.eventQueue == s.g.log.enqueued[s.g.log.polled..]
    ensures s.g.sh.eventQueue == [] <==> |s.g.log.enqueued| == s.g.log.polled
  {
    ReachableInv(s);
  }

  /** Only IRPs of the registered agent ever carry an event, and they deliver it unless their
      buffer is too short. */
  lemma OnlyAgentReceives(s: State, i: nat)
    requires Reachable(s) && i < |s.g.log.completed| && s.g.log.completed[i].payload.Some?
    ensures s.g.log.completed[i].irp < |s.g.irps|
    ensures var irp := s.g.irps[s.g.log.completed[i].irp];
            && s.g.agent == Some(irp.caller)
            && s.g.log.completed[i].status == if irp.outputLength >= EVENT_SIZE then Success else BufferTooSmall
  {
    ReachableInv(s);
    assert Proper(s.g, s.g.log.completed[i]);
  }

  /** The first registration wins, and nothing that happened is undone. */
  ghost predicate Grows(g: Globals, h: Globals) {
    && (g.agent.Some? ==> h.agent == g.agent)
    && g.log.raised <= h.log.raised && g.log.completed <= h.log.completed
    && g.log.dropped <= h.log.dropped && g.log.served <= h.log.served && g.irps <= h.irps
  }

  lemma ActGrows(g: Globals, t: nat, l: Local)
    requires Ready(g, l)
    ensures Grows(g, Tick(Act(g, t, l).0))
  {
  }

  lemma StepGrows(s: State, step: Step)
    requires Enabled(s, step)
    ensures Grows(s.g, Apply(s, step).g)
  {
    hide Grows, Act;
    if step.Move? {
      ActGrows(s.g, step.t, s.threads[step.t]);
    } else {
      GrowsOn(s.g, s.g, s.g);
    }
  }

  lemma GrowsOn(f: Globals, g: Globals, h: Globals)
    ensures Grows(f, f)
    ensures Grows(f, g) && Grows(g, h) ==> Grows(f, h)
  {
  }

  lemma {:induction false} RunsOnlyAdd(run: seq<Step>, more: seq<Step>)
    requires Exec(run + more).Some?
    ensures Exec(run).Some? && Grows(Exec(run).value.g, Exec(run + more).value.g)
  {
    hide Grows, Apply, Enabled;
    if more == [] {
      assert run + more == run;
      GrowsOn(Exec(run).value.g, Exec(run).value.g, Exec(run).value.g);
    } else {
      var n := |more| - 1;
      assert (run + more)[..|run + more| - 1] == run + more[..n];
      RunsOnlyAdd(run, more[..n]);
      StepGrows(Exec(run + more[..n]).value, more[n]);
      GrowsOn(Exec(run).value.g, Exec(run + more[..n]).value.g, Exec(run + more).value.g);
    }
  }

  lemma ExecOne(run: seq<Step>, step: Step)
    requires Exec(run).Some? && Enabled(Exec(run).value, step)
    ensures Exec(run + [step]) == Some(Apply(Exec(run).value, step))
  {
    assert (run + [step])[..|run|] == run;
  }

  lemma Extend(run: seq<Step>, s: State, step: Step) returns (run': seq<Step>, s': State)
    requires Exec(run) == Some(s) && Enabled(s, step)
    ensures Exec(run') == Some(s') && s' == Apply(s, step) && run' == run + [step]
  {
    ExecOne(run, step);
    run', s' := run + [step], Apply(s, step);
  }

  /** A run to a notifier that has looked at the slot and found nothing. */
  lemma NotifierLooks(agent: nat, pid: nat) returns (run: seq<Step>, s: State)
    ensures Exec(run) == Some(s) && |s.threads| == 2 && s.threads[1].Enqueueing?
    ensures s.g.sh == Shared(None, {}, []) && s.g.lock.None? && s.g.agent == Some(agent)
  {
    run, s := Extend([], INIT, Spawn(Registering(agent)));
    run, s := Extend(run, s, Move(0));
    run, s := Extend(run, s, Spawn(Notifying(pid, true, None)));
    run, s := Extend(run, s, Move(1));
    run, s := Extend(run, s, Move(1));
  }

  /** ... extended by a GET_EVENT of the agent ... */
  lemma GetEventStarts(agent: nat, pid: nat) returns (run: seq<Step>, s: State)
    ensures Exec(run) == Some(s) && |s.threads| == 3 && s.threads[1].Enqueueing? && s.threads[2].Dispatching?
    ensures s.g.sh == Shared(None, {}, []) && s.g.lock.None?
  {
    run, s := NotifierLooks(agent, pid);
    run, s := Extend(run, s, Spawn(Requesting(agent, EVENT_SIZE)));
    run, s := Extend(run, s, Move(2));
  }

  /** ... that has found the queue empty. */
  lemma GetEventPolls(agent: nat, pid: nat) returns (run: seq<Step>, s: State)
    ensures Exec(run) == Some(s) && |s.threads| == 3 && s.threads[1].Enqueueing? && s.threads[2].Pending?
    ensures s.g.sh == Shared(None, {}, [])
  {
    run, s := GetEventStarts(agent, pid);
    run, s := Extend(run, s, Move(2));
    run, s := Extend(run, s, Move(2));
  }

  /** ... before the notifier queues its event. */
  lemma NotifierQueues(agent: nat, pid: nat) returns (run: seq<Step>, s: State)
    ensures Exec(run) == Some(s) && |s.threads| == 3 && s.threads[2].Pending?
    ensures |s.g.sh.eventQueue| == 1 && s.g.sh.pendingIrp.None? && s.g.sh.cancelable == {}
  {
    run, s := GetEventPolls(agent, pid);
    run, s := Extend(run, s, Move(1));
  }

  /** "An armed IRP means an empty queue" is false: a notifier that looked at the slot too early
      queues its event behind the IRP that is being pended. */
  lemma ArmedDoesNotMeanEmpty() returns (s: State)
    ensures Reachable(s) && Armed(s.g) && s.g.sh.eventQueue != []
  {
    var run;
    run, s := NotifierQueues(4, 8);
    run, s := Extend(run, s, Move(2));
    run, s := Extend(run, s, Move(2));  // GET_EVENT arms its IRP
  }
}
