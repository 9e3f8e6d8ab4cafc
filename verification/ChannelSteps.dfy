/** What each operation of the event channel does when nobody interferes, from any state of the channel. */
module ChannelSteps {
  import opened Prelude
  import opened EventChannel

  predicate IsArmed(g: Globals) { g.sh.pendingIrp.Some? && g.sh.pendingIrp.value in g.sh.cancelable }

  /** The completion of a GET_EVENT with an event: the event, or a refusal of a short buffer. */
  predicate Answers(c: Completion, irp: nat, length: nat, event: Event) {
    && c.irp == irp && c.payload == Some(event)
    && c.status == (if length >= EVENT_SIZE then Success else BufferTooSmall)
  }

  /** A process callback takes the next request id and raises an event of its own process, with as much of
      the image name as fits before a terminator. */
  lemma CallbackRaises(g: Globals, t: nat, pid: nat, frozen: bool, image: Option<seq<bv16>>)
    ensures var (h, l) := Act(g, t, Notifying(pid, frozen, image));
            && l.Raising? && h.log.raised == g.log.raised + [l.event] && h.nextRequest == g.nextRequest + 1
            && h.sh == g.sh
            && var e := l.event;
               && e.processId == pid && e.requestId == g.nextRequest && e.frozen == frozen && |e.imagePath| == 260
               && forall i :: 0 <= i < 260 ==>
                    e.imagePath[i] == if i < 259 && image.Some? && i < |image.value| then image.value[i] else 0
  {
  }

  /** A notifier completes an armed IRP with its event. */
  lemma NotifierDelivers(g: Globals, t: nat, event: Event)
    requires g.lock.None? && IsArmed(g) && g.sh.pendingIrp.value < |g.irps|
    ensures var (h, l) := Act(g, t, Raising(event));
            var irp := g.sh.pendingIrp.value;
            && l.Completing? && Answers(l.result, irp, g.irps[irp].outputLength, event)
            && h.sh == Shared(None, g.sh.cancelable - {irp}, g.sh.eventQueue)
  {
  }

  /** Without one it queues its event, unless a thousand are queued. */
  lemma NotifierQueues(g: Globals, t: nat, event: Event)
    requires g.lock.None? && !IsArmed(g)
    ensures var (h, l) := Act(g, t, Raising(event));
            && l == Enqueueing(event) && h.sh == g.sh
            && var (k, m) := Act(h, t, l);
               && m == Done && k.sh.pendingIrp == g.sh.pendingIrp && k.sh.cancelable == g.sh.cancelable
               && if |g.sh.eventQueue| < 1000 then
                    k.sh.eventQueue == g.sh.eventQueue + [event] && k.log.dropped == g.log.dropped
                  else
                    k.sh.eventQueue == g.sh.eventQueue && k.log.dropped == g.log.dropped + [event]
  {
  }

  /** GET_EVENT is refused to anybody but the agent, and while an IRP is pended. */
  lemma GetEventIsRefused(g: Globals, t: nat, caller: nat, length: nat)
    requires g.lock.None? && (g.agent != Some(caller) || g.sh.pendingIrp.Some?)
    ensures var irp := |g.irps|;
            var (h, l) := Act(g, t, Requesting(caller, length));
            if g.agent != Some(caller) then
              l == Completing(Completion(irp, AccessDenied, None)) && h.sh == g.sh
            else
              && l == Dispatching(irp)
              && Act(h, t, l) == (h, Completing(Completion(irp, Unsuccessful, None))) && h.sh == g.sh
  {
  }

  /** The agent's GET_EVENT is served from the front of the queue ... */
  lemma GetEventIsServed(g: Globals, t: nat, caller: nat, length: nat)
    requires g.lock.None? && g.agent == Some(caller) && g.sh.pendingIrp.None? && g.sh.eventQueue != []
    ensures var irp := |g.irps|;
            var (h, l) := Act(g, t, Requesting(caller, length));
            && l == Dispatching(irp)
            && var (i, m) := Act(h, t, l);
               && m == Polling(irp)
               && var (k, n) := Act(i, t, m);
                  && n.Completing? && Answers(n.result, irp, length, g.sh.eventQueue[0])
                  && k.sh == Shared(None, g.sh.cancelable, g.sh.eventQueue[1..]) && k.lock.None?
  {
  }

  /** ... or pended and armed, if the queue is empty. */
  lemma GetEventIsPended(g: Globals, t: nat, irp: nat)
    requires g.lock.None? && g.sh.pendingIrp.None? && g.sh.eventQueue == []
    ensures var (h, l) := Act(g, t, Dispatching(irp));
            && l == Polling(irp)
            && var (i, m) := Act(h, t, l);
               && m == Pending(irp)
               && var (j, n) := Act(i, t, m);
                  && n == Arming(irp)
                  && var (k, o) := Act(j, t, n);
                     && o == Done && k.lock.None?
                     && k.sh == Shared(Some(irp), g.sh.cancelable + {irp}, [])
  {
  }

  /** Closing the handle cancels an armed IRP; so does the I/O manager, in two steps, and the second finds
      the IRP unless somebody else has cleared the slot. */
  lemma Cancellation(g: Globals, t: nat, irp: nat)
    requires g.lock.None? && g.sh.pendingIrp == Some(irp) && irp in g.sh.cancelable
    ensures var (h, l) := Act(g, t, CleaningUp);
            && l == Completing(Completion(irp, Cancelled, None))
            && h.sh == Shared(None, g.sh.cancelable - {irp}, g.sh.eventQueue)
    ensures var (h, l) := Act(g, t, IoCancelling(irp));
            && l == Cancelling(irp) && h.sh == Shared(Some(irp), g.sh.cancelable - {irp}, g.sh.eventQueue)
            && var (k, m) := Act(h, t, l);
               && m == Completing(Completion(irp, Cancelled, None))
               && k.sh == Shared(None, g.sh.cancelable - {irp}, g.sh.eventQueue)
  {
  }

  /** Nothing is cancelled that is not armed, and the cancel routine leaves another IRP alone. */
  lemma NothingToCancel(g: Globals, t: nat, irp: nat)
    requires g.lock.None?
    ensures !IsArmed(g) ==> Act(g, t, CleaningUp).0.sh == g.sh && Act(g, t, CleaningUp).1 == Done
    ensures irp !in g.sh.cancelable ==>
              Act(g, t, IoCancelling(irp)).0.sh == g.sh && Act(g, t, IoCancelling(irp)).1 == Done
    ensures g.sh.pendingIrp != Some(irp) ==>
              Act(g, t, Cancelling(irp)).0.sh == g.sh && Act(g, t, Cancelling(irp)).1 == Done
  {
  }

  /** The first process to register is the agent for good. */
  lemma FirstRegistrationWins(g: Globals, t: nat, caller: nat)
    ensures var (h, l) := Act(g, t, Registering(caller));
            l == Done && h.sh == g.sh && h.agent == if g.agent.None? then Some(caller) else g.agent
  {
  }
}
