/**
 How process events reach the agent: the inverted-call IRP, the event queue behind it, and the
 three parties that race to complete a pended IRP (a notifier, the cleanup handler and the
 cancel routine).

 The module gives the critical sections as functions on the state they guard, a class whose
 methods carry them out in place, and the transition system in which any number of threads
 interleave those sections with each other and with the I/O manager.
 */
module EventChannel {
  import opened Prelude

  const QUEUE_CAPACITY: nat := 1000
  // Size of the event structure: two 64-bit ids, a flag, 260 UTF-16 units, 8-byte alignment.
  const EVENT_SIZE: nat := 544
  const PATH_UNITS: nat := 260

  datatype Event = Event(processId: nat, requestId: nat, frozen: bool, imagePath: seq<bv16>)

  datatype Status = Success | Unsuccessful | BufferTooSmall | Cancelled | AccessDenied

  /** What one call of IofCompleteRequest does: the payload is the event the IRP used up. */
  datatype Completion = Completion(irp: nat, status: Status, payload: Option<Event>)

  datatype Irp = Irp(caller: nat, outputLength: nat)

  /** PENDING_IRP, the IRPs whose cancel routine is set, and EVENT_QUEUE. */
  datatype Shared = Shared(pendingIrp: Option<nat>, cancelable: set<nat>, eventQueue: seq<Event>)

  // ----- The critical sections, as functions of the state they guard

  /** The path is cut to 259 units and the rest of the field stays zero. */
  function PathField(image: Option<seq<bv16>>): (field: seq<bv16>)
    ensures |field| == PATH_UNITS && field[PATH_UNITS - 1] == 0
    ensures forall i :: 0 <= i < PATH_UNITS - 1 ==>
              field[i] == if image.Some? && i < |image.value| then image.value[i] else 0
  {
    var used := if image.Some? then
                  image.value[..if |image.value| < PATH_UNITS - 1 then |image.value| else PATH_UNITS - 1]
                else [];
    used + seq(PATH_UNITS - |used|, i => 0)
  }

  /** `io_set_cancel_routine(PENDING_IRP, None)`: the caller owns the IRP only if the swap found
      a cancel routine. Used by the notifier and by the cleanup handler. */
  function Claim(sh: Shared): (Shared, Option<nat>) {
    if sh.pendingIrp.Some? && sh.pendingIrp.value in sh.cancelable then
      (sh.(pendingIrp := None, cancelable := sh.cancelable - {sh.pendingIrp.value}), sh.pendingIrp)
    else
      (sh, None)
  }

  /** The cancel routine takes the IRP out of the slot only if it is still there. */
  function Withdraw(sh: Shared, irp: nat): (Shared, bool) {
    if sh.pendingIrp == Some(irp) then (sh.(pendingIrp := None), true) else (sh, false)
  }

  function PushEvent(sh: Shared, event: Event): (Shared, bool) {
    if |sh.eventQueue| < QUEUE_CAPACITY then
      (sh.(eventQueue := sh.eventQueue + [event]), true)
    else
      (sh, false)
  }

  function PopEvent(sh: Shared): (Shared, Option<Event>) {
    if sh.eventQueue != [] then
      (sh.(eventQueue := sh.eventQueue[1..]), Some(sh.eventQueue[0]))
    else
      (sh, None)
  }

  /** Writing an event into an IRP's buffer; a short buffer loses the event. */
  function Fill(irp: nat, outputLength: nat, event: Event): Completion {
    Completion(irp, if outputLength >= EVENT_SIZE then Success else BufferTooSmall, Some(event))
  }

  // ----- The same sections carried out in place

  /** The driver's statics. The cancel routines live in the IRPs; `cancelable` names the IRPs in
      which one is set. */
  class Channel {
    var pendingIrp: Option<nat>
    var cancelable: set<nat>
    var eventQueue: seq<Event>

    ghost function View(): Shared reads this {
      Shared(pendingIrp, cancelable, eventQueue)
    }

    constructor ()
      ensures View() == Shared(None, {}, [])
    {
      pendingIrp, cancelable, eventQueue := None, {}, [];
    }

    method SetCancelRoutine(irp: nat, routine: bool) returns (was: bool)
      modifies this`cancelable
      ensures was == (irp in old(cancelable))
      ensures cancelable == if routine then old(cancelable) + {irp} else old(cancelable) - {irp}
    {
      was := irp in cancelable;
      cancelable := if routine then cancelable + {irp} else cancelable - {irp};
    }

    method ClaimPending() returns (claimed: Option<nat>)
      modifies this`pendingIrp, this`cancelable
      ensures (View(), claimed) == Claim(old(View()))
    {
      claimed := None;
      if pendingIrp.Some? {
        var irp := pendingIrp.value;
        var was := SetCancelRoutine(irp, false);
        if was {
          pendingIrp := None;
          claimed := Some(irp);
        } else {
          assert cancelable == old(cancelable);
        }
      }
    }

    method Enqueue(event: Event) returns (kept: bool)
      modifies this`eventQueue
      ensures (View(), kept) == PushEvent(old(View()), event)
      ensures kept <==> |old(eventQueue)| < 1000
      ensures eventQueue == if kept then old(eventQueue) + [event] else old(eventQueue)
    {
      kept := |eventQueue| < QUEUE_CAPACITY;
      if kept {
        eventQueue := eventQueue + [event];
      }
    }

    /** A notifier that nobody interferes with: its event completes the pended IRP, or joins the
        queue, or is lost to a full queue, and nothing else changes. */
    method NotifyAgent(event: Event, outputLength: nat) returns (completion: Option<Completion>, kept: bool)
      modifies this
      ensures old(pendingIrp.Some? && pendingIrp.value in cancelable) ==>
                && View() == Shared(None, old(cancelable) - {old(pendingIrp).value}, old(eventQueue))
                && completion == Some(Fill(old(pendingIrp).value, outputLength, event))
      ensures !old(pendingIrp.Some? && pendingIrp.value in cancelable) ==>
                && completion == None && (kept <==> |old(eventQueue)| < 1000)
                && View() == Shared(old(pendingIrp), old(cancelable), old(eventQueue) + if kept then [event] else [])
    {
      completion, kept := None, true;
      var claimed := ClaimPending();
      if claimed.Some? {
        completion := Some(Fill(claimed.value, outputLength, event));
        return;
      }
      kept := Enqueue(event);
    }

    method TakeQueued() returns (event: Option<Event>)
      modifies this`eventQueue
      ensures (View(), event) == PopEvent(old(View()))
    {
      event := None;
      if eventQueue != [] {
        event := Some(eventQueue[0]);
        eventQueue := eventQueue[1..];
      }
    }

    /** GET_EVENT with no interference: refused while an IRP is pended, served from the front of
        the queue, pended and armed otherwise. */
    method GetEvent(irp: nat, outputLength: nat) returns (completion: Option<Completion>)
      modifies this
      ensures old(pendingIrp).Some? ==>
                View() == old(View()) && completion == Some(Completion(irp, Unsuccessful, None))
      ensures old(pendingIrp).None? && old(eventQueue) != [] ==>
                && View() == Shared(None, old(cancelable), old(eventQueue)[1..])
                && completion == Some(Fill(irp, outputLength, old(eventQueue)[0]))
      ensures old(pendingIrp).None? && old(eventQueue) == [] ==>
                && View() == Shared(Some(irp), old(cancelable) + {irp}, [])
                && completion == None
    {
      if pendingIrp.Some? {
        completion := Some(Completion(irp, Unsuccessful, None));
        return;
      }
      var queued := TakeQueued();
      if queued.Some? {
        completion := Some(Fill(irp, outputLength, queued.value));
        return;
      }
      pendingIrp := Some(irp);
      var _ := SetCancelRoutine(irp, true);
      completion := None;
    }

    method Cleanup() returns (completion: Option<Completion>)
      modifies this`pendingIrp, this`cancelable
      ensures old(pendingIrp.Some? && pendingIrp.value in cancelable) ==>
                && View() == Shared(None, old(cancelable) - {old(pendingIrp).value}, old(eventQueue))
                && completion == Some(Completion(old(pendingIrp).value, Cancelled, None))
      ensures !old(pendingIrp.Some? && pendingIrp.value in cancelable) ==> View() == old(View()) && completion == None
    {
      completion := None;
      var claimed := ClaimPending();
      if claimed.Some? {
        completion := Some(Completion(claimed.value, Cancelled, None));
      }
    }

    method CancelRoutine(irp: nat) returns (completion: Option<Completion>)
      modifies this`pendingIrp
      ensures pendingIrp == if old(pendingIrp) == Some(irp) then None else old(pendingIrp)
      ensures completion == if old(pendingIrp) == Some(irp) then Some(Completion(irp, Cancelled, None)) else None
    {
      completion := None;
      if pendingIrp == Some(irp) {
        pendingIrp := None;
        completion := Some(Completion(irp, Cancelled, None));
      }
    }
  }

  // ----- Threads

  /** Where a thread is between two atomic steps, and what it has in hand there. */
  datatype Local =
    | Notifying(processId: nat, frozen: bool, image: Option<seq<bv16>>)  // process callback entered
    | Raising(event: Event)                          // request id taken, PENDING_IRP not looked at
    | Enqueueing(event: Event)                       // found no IRP to claim
    | Registering(caller: nat)                       // REGISTER_AGENT
    | Requesting(caller: nat, outputLength: nat)     // GET_EVENT entered
    | Dispatching(irp: nat)                          // ... caller checked
    | Polling(irp: nat)                              // ... IRP lock taken, slot seen empty
    | Pending(irp: nat)                              // ... queue seen empty
    | Arming(irp: nat)                               // ... PENDING_IRP written
    | CleaningUp                                     // IRP_MJ_CLEANUP
    | IoCancelling(irp: nat)                         // the I/O manager cancels an IRP
    | Cancelling(irp: nat)                           // ... and calls the cancel routine it swapped out
    | Completing(result: Completion)                 // about to call IofCompleteRequest
    | Done
  {
    predicate Starts() {
      Notifying? || Registering? || Requesting? || CleaningUp? || IoCancelling?
    }

    predicate TakesLock() { Raising? || Dispatching? || CleaningUp? || Cancelling? }

    predicate HoldsLock() { Polling? || Pending? || Arming? }
  }

  /** Logs and times; nothing in the driver reads them. `lost` says that since the latest write of
      PENDING_IRP a notifier, the cleanup handler or the I/O manager has taken its cancel routine, `polled`
      how many events had been queued when GET_EVENT last found the queue empty. */
  datatype Log = Log(
    raised: seq<Event>, dropped: seq<Event>, enqueued: seq<Event>, served: seq<Event>,
    completed: seq<Completion>, now: nat, checkedAt: map<nat, nat>, pendedAt: nat, lost: bool,
    polled: nat, backlogs: seq<nat>)

  datatype Globals = Globals(
    sh: Shared, lock: Option<nat>, agent: Option<nat>, nextRequest: nat, irps: seq<Irp>, log: Log)

  datatype State = State(g: Globals, threads: seq<Local>)

  const INIT_LOG: Log := Log([], [], [], [], [], 0, map[], 0, true, 0, [])
  const INIT: State := State(Globals(Shared(None, {}, []), None, None, 1, [], INIT_LOG), [])

  function OutputLength(g: Globals, irp: nat): nat {
    if irp < |g.irps| then g.irps[irp].outputLength else 0
  }

  predicate Ready(g: Globals, l: Local) {
    !l.Done? && (l.TakesLock() ==> g.lock.None?)
  }

  /** The next atomic step of thread `t`. */
  function Act(g: Globals, t: nat, l: Local): (Globals, Local)
    requires Ready(g, l)
  {
    match l
    case Notifying(pid, frozen, image) =>
      var event := Event(pid, g.nextRequest, frozen, PathField(image));
      (g.(nextRequest := g.nextRequest + 1, log := g.log.(raised := g.log.raised + [event])), Raising(event))
    case Raising(event) => CheckIrp(g, event)
    case Enqueueing(event) =>
      var (sh, kept) := PushEvent(g.sh, event);
      if kept then
        (g.(sh := sh, log := g.log.(enqueued := g.log.enqueued + [event])), Done)
      else
        (g.(log := g.log.(dropped := g.log.dropped + [event], backlogs := g.log.backlogs + [|g.sh.eventQueue|])), Done)
    case Registering(caller) => (if g.agent.None? then g.(agent := Some(caller)) else g, Done)
    case Requesting(caller, outputLength) =>
      // A caller other than the registered agent is refused before any lock is taken.
      var irp := |g.irps|;
      (g.(irps := g.irps + [Irp(caller, outputLength)]),
       if g.agent == Some(caller) then Dispatching(irp) else Completing(Completion(irp, AccessDenied, None)))
    case Dispatching(irp) =>
      if g.sh.pendingIrp.Some? then (g, Completing(Completion(irp, Unsuccessful, None)))
      else (g.(lock := Some(t)), Polling(irp))
    case Polling(irp) => PollQueue(g, irp)
    case Pending(irp) =>
      (g.(sh := g.sh.(pendingIrp := Some(irp)), log := g.log.(pendedAt := g.log.now, lost := false)), Arming(irp))
    case Arming(irp) => (g.(sh := g.sh.(cancelable := g.sh.cancelable + {irp}), lock := None), Done)
    case CleaningUp =>
      var (sh, claimed) := Claim(g.sh);
      (g.(sh := sh, log := g.log.(lost := g.log.lost || claimed.Some?)),
       if claimed.Some? then Completing(Completion(claimed.value, Cancelled, None)) else Done)
    case IoCancelling(irp) =>
      // The swap is atomic and under no lock of the driver's.
      (g.(sh := g.sh.(cancelable := g.sh.cancelable - {irp}),
          log := g.log.(lost := g.log.lost || irp in g.sh.cancelable)),
       if irp in g.sh.cancelable then Cancelling(irp) else Done)
    case Cancelling(irp) =>
      var (sh, found) := Withdraw(g.sh, irp);
      (g.(sh := sh), if found then Completing(Completion(irp, Cancelled, None)) else Done)
    case Completing(c) => (g.(log := g.log.(completed := g.log.completed + [c])), Done)
  }

  /** The first critical section of `notify_agent`. */
  function CheckIrp(g: Globals, event: Event): (Globals, Local) {
    var (sh, claimed) := Claim(g.sh);
    var log := g.log.(checkedAt := g.log.checkedAt[event.requestId := g.log.now], lost := g.log.lost || claimed.Some?);
    (g.(sh := sh, log := log),
     match claimed
     case Some(irp) => Completing(Fill(irp, OutputLength(g, irp), event))
     case None => Enqueueing(event))
  }

  /** The queue section nested in GET_EVENT; the IRP lock is released only if an event was found. */
  function PollQueue(g: Globals, irp: nat): (Globals, Local) {
    match PopEvent(g.sh)
    case (sh, Some(event)) =>
      (g.(sh := sh, lock := None, log := g.log.(served := g.log.served + [event])),
       Completing(Fill(irp, OutputLength(g, irp), event)))
    case (_, None) => (g.(log := g.log.(polled := |g.log.enqueued|)), Pending(irp))
  }

  datatype Step = Spawn(local: Local) | Move(t: nat)

  predicate Enabled(s: State, step: Step) {
    match step
    case Spawn(l) => l.Starts()
    case Move(t) => t < |s.threads| && Ready(s.g, s.threads[t])
  }

  function Tick(g: Globals): Globals { g.(log := g.log.(now := g.log.now + 1)) }

  function Apply(s: State, step: Step): State
    requires Enabled(s, step)
  {
    match step
    case Spawn(l) => State(s.g, s.threads + [l])
    case Move(t) =>
      var (g, l) := Act(s.g, t, s.threads[t]);
      State(Tick(g), s.threads[t := l])
  }

  /** The state after a run, if each of its steps was possible. */
  function Exec(run: seq<Step>): Option<State> {
    if run == [] then Some(INIT)
    else
      match Exec(run[..|run| - 1])
      case None => None
      case Some(s) => if Enabled(s, run[|run| - 1]) then Some(Apply(s, run[|run| - 1])) else None
  }

  ghost predicate Reachable(s: State) { exists run :: Exec(run) == Some(s) }
}
