/**
 How a new process is frozen and let go: request ids, the list of processes to freeze, the freeze
 APC with its context, the list of pending scans, verdict delivery and driver unload.

 As in EventChannel, the critical sections are functions of the state they guard, a class carries
 them out in place, and a transition system interleaves them.
 */
module Freeze {
  import opened Prelude
  import opened VerdictCache

  datatype Target = Target(pid: nat, requestId: nat)

  /** `event` names the context whose event the entry points to. */
  datatype PendingScan = PendingScan(requestId: nat, pid: nat, event: nat, allowed: bool)

  datatype Ctx = Ctx(pid: nat, requestId: nat)

  function TargetPid(t: Target): nat { t.pid }
  function ScanPid(s: PendingScan): nat { s.pid }
  function ScanRequest(s: PendingScan): nat { s.requestId }

  // ----- The critical sections, as functions of the state they guard

  /** TARGET_LOCK section of the thread callback. */
  function TakeTarget(targets: seq<Target>, pid: nat): (seq<Target>, Option<nat>) {
    match FindBy(targets, TargetPid, pid)
    case Some(k) => (RemoveAt(targets, k), Some(targets[k].requestId))
    case None => (targets, None)
  }

  /** PENDING_SCANS_LOCK section by which an injection or an APC takes its entry out, by pid. */
  function TakeScan(scans: seq<PendingScan>, pid: nat): (seq<PendingScan>, Option<PendingScan>) {
    match FindBy(scans, ScanPid, pid)
    case Some(k) => (RemoveAt(scans, k), Some(scans[k]))
    case None => (scans, None)
  }

  /** PENDING_SCANS_LOCK section of `apply_verdict`: the entry to update, found by request id. */
  function WriteVerdict(scans: seq<PendingScan>, requestId: nat, allow: bool): (seq<PendingScan>, Option<nat>) {
    match FindBy(scans, ScanRequest, requestId)
    case Some(k) => (scans[k := scans[k].(allowed := allow)], Some(scans[k].event))
    case None => (scans, None)
  }

  function EventsOfScans(scans: seq<PendingScan>): set<nat> {
    set i | 0 <= i < |scans| :: scans[i].event
  }

  // ----- The same sections carried out in place

  class Sensor {
    var targets: seq<Target>
    var scans: seq<PendingScan>
    var signalled: set<nat>  // the contexts whose event is set
    var cache: Cache

    constructor ()
      ensures targets == [] && scans == [] && signalled == {} && fresh(cache) && cache.entries == []
    {
      targets, scans, signalled := [], [], {};
      cache := new Cache();
    }

    method MatchThread(pid: nat) returns (requestId: Option<nat>)
      modifies this`targets
      ensures (targets, requestId) == TakeTarget(old(targets), pid)
      ensures forall i | 0 <= i < |old(targets)| && old(targets)[i].pid == pid
                         && (forall j :: 0 <= j < i ==> old(targets)[j].pid != pid) ::
                requestId == Some(old(targets)[i].requestId) && targets == old(targets[..i] + targets[i + 1..])
      ensures (forall i :: 0 <= i < |old(targets)| ==> old(targets)[i].pid != pid) ==>
                requestId == None && targets == old(targets)
    {
      for i := 0 to |targets|
        invariant targets == old(targets)
        invariant forall j :: 0 <= j < i ==> targets[j].pid != pid
      {
        if targets[i].pid == pid {
          requestId := Some(targets[i].requestId);
          targets := RemoveAt(targets, i);
          return;
        }
      }
      requestId := None;
    }

    method RemoveScan(pid: nat) returns (item: Option<PendingScan>)
      modifies this`scans
      ensures (scans, item) == TakeScan(old(scans), pid)
      ensures forall i | 0 <= i < |old(scans)| && old(scans)[i].pid == pid
                         && (forall j :: 0 <= j < i ==> old(scans)[j].pid != pid) ::
                item == Some(old(scans)[i]) && scans == old(scans[..i] + scans[i + 1..])
      ensures (forall i :: 0 <= i < |old(scans)| ==> old(scans)[i].pid != pid) ==> item == None && scans == old(scans)
    {
      for i := 0 to |scans|
        invariant scans == old(scans)
        invariant forall j :: 0 <= j < i ==> scans[j].pid != pid
      {
        if scans[i].pid == pid {
          item := Some(scans[i]);
          scans := RemoveAt(scans, i);
          return;
        }
      }
      item := None;
    }

    method DeliverVerdict(requestId: nat, allow: bool) returns (found: bool)
      modifies this`scans, this`signalled
      ensures forall i | 0 <= i < |old(scans)| && old(scans)[i].requestId == requestId
                         && (forall j :: 0 <= j < i ==> old(scans)[j].requestId != requestId) ::
                && found && signalled == old(signalled) + {old(scans)[i].event}
                && scans == old(scans)[i := old(scans)[i].(allowed := allow)]
      ensures found <==> exists i :: 0 <= i < |old(scans)| && old(scans)[i].requestId == requestId
      ensures !found ==> scans == old(scans) && signalled == old(signalled)
      ensures scans == WriteVerdict(old(scans), requestId, allow).0
      ensures match WriteVerdict(old(scans), requestId, allow).1
              case Some(event) => found && signalled == old(signalled) + {event}
              case None => !found && signalled == old(signalled)
    {
      for i := 0 to |scans|
        invariant scans == old(scans) && signalled == old(signalled)
        invariant forall j :: 0 <= j < i ==> scans[j].requestId != requestId
      {
        if scans[i].requestId == requestId {
          signalled := signalled + {scans[i].event};
          scans := scans[i := scans[i].(allowed := allow)];
          return true;
        }
      }
      return false;
    }

    /** `apply_verdict` with no interference between its two sections. */
    method ApplyVerdict(requestId: nat, allow: bool, now: nat) returns (found: bool)
      modifies this`scans, this`signalled, cache
      ensures found
      ensures scans == WriteVerdict(old(scans), requestId, allow).0
      ensures signalled == match WriteVerdict(old(scans), requestId, allow).1
                           case Some(event) => old(signalled) + {event}
                           case None => old(signalled)
      ensures cache.entries == if WriteVerdict(old(scans), requestId, allow).1.Some? then old(cache.entries)
                               else Recorded(old(cache.entries), requestId, allow, now)
    {
      found := DeliverVerdict(requestId, allow);
      if !found {
        cache.Record(requestId, allow, now);
        found := true;
      }
    }

    /** The section of `driver_unload`: every waiter is woken and the list emptied. */
    method WakeAll()
      modifies this`scans, this`signalled
      ensures scans == [] && signalled == old(signalled) + EventsOfScans(old(scans))
      ensures forall i :: 0 <= i < |old(scans)| ==> old(scans)[i].event in signalled
    {
      for i := 0 to |scans|
        invariant scans == old(scans)
        invariant signalled == old(signalled) + EventsOfScans(scans[..i])
      {
        signalled := signalled + {scans[i].event};
        assert EventsOfScans(scans[..i + 1]) == EventsOfScans(scans[..i]) + {scans[i].event};
      }
      assert scans[..|scans|] == scans;
      scans := [];
    }
  }

  // ----- Threads

  /** How an APC came to its end. For one that found a cached verdict: how often the cache had been used
      by then. For one that waited: whether its event was signalled, how many
      verdicts had been written when it collected its entry, and whether unload had emptied the
      list by then. */
  datatype Exit =
    | Early(ctx: nat, uses: nat, terminate: bool)
    | Waited(ctx: nat, signalled: bool, writes: nat, cleared: bool, terminate: bool)

  datatype Local =
    | ProcessCreated(pid: nat, allowlisted: bool)
    | Targeting(pid: nat, requestId: nat)      // request id taken, TARGET_PIDS not written
    | ThreadCreated(pid: nat)
    | Injecting(pid: nat, requestId: nat)      // taken out of TARGET_PIDS
    | Counted(pid: nat, requestId: nat)        // APC_COUNT incremented
    | Inserting(ctx: nat)                      // context allocated and listed
    | InsertFailed(ctx: nat)
    | Unlisting(ctx: nat)                      // context freed, its entry still listed
    | Uncounting(inCallback: bool)
    | Queued(ctx: nat)                         // the APC is queued
    | RunningDown(ctx: nat)                    // its thread died first
    | EarlyHit(ctx: nat, uses: nat, denied: bool)  // a cached verdict was found
    | Waiting(ctx: nat)
    | Woken(ctx: nat, timedOut: bool)
    | Freeing(exit: Exit)
    | Leaving(exit: Exit)                      // context freed
    | Exiting(exit: Exit)                      // APC_COUNT decremented
    | Deciding(requestId: nat, allow: bool)    // SEND_VERDICT
    | Caching(requestId: nat, allow: bool)     // no pending scan was found
    | StoppingProcesses                        // driver_unload, step by step
    | StoppingThreads
    | Clearing
    | Draining
    | Finished
  {
    predicate Starts() { ProcessCreated? || ThreadCreated? || Deciding? || StoppingProcesses? }

    predicate InProcessCallback() { ProcessCreated? || Targeting? }

    predicate InThreadCallback() {
      || ThreadCreated? || Injecting? || Counted? || Inserting? || InsertFailed? || Unlisting?
      || (Uncounting? && inCallback)
    }
  }

  datatype Phase = Running | NoProcesses | NoThreads | Cleared | Unloaded {
    function Rank(): nat {
      match this case Running => 0 case NoProcesses => 1 case NoThreads => 2 case Cleared => 3 case Unloaded => 4
    }
  }

  datatype Cause = Normal | RunDown | NotInserted

  datatype Freed = Freed(ctx: nat, cause: Cause)

  datatype Written = Written(requestId: nat, allow: bool)

  datatype Log = Log(
    allowlisted: seq<nat>, abandoned: seq<nat>, freed: seq<Freed>, written: seq<Written>, exits: seq<Exit>,
    cacheOps: seq<Op>)

  /** `contexts` gives every context ever allocated an id of its own. */
  datatype Globals = Globals(
    nextRequest: nat, targets: seq<Target>, scans: seq<PendingScan>, cache: seq<CachedVerdict>,
    apcCount: int, signalled: set<nat>, contexts: seq<Ctx>, phase: Phase, log: Log)

  datatype State = State(g: Globals, threads: seq<Local>)

  const INIT: State := State(Globals(1, [], [], [], 0, {}, [], Running, Log([], [], [], [], [], [])), [])

  /** What the environment decides in a step: whether a lookup, an insertion or a wait succeeds or
      an APC runs, and what time it is. */
  datatype Env = Env(ok: bool, now: nat)

  /** A step waits for its phase of unloading, and the last one for APC_COUNT to reach zero. */
  predicate Ready(g: Globals, l: Local) {
    match l
    case Finished => false
    case StoppingProcesses => g.phase == Running
    case StoppingThreads => g.phase == NoProcesses
    case Clearing => g.phase == NoThreads
    case Draining => g.phase == Cleared && g.apcCount == 0
    case _ => true
  }

  function CtxOf(g: Globals, c: nat): Ctx {
    if c < |g.contexts| then g.contexts[c] else Ctx(0, 0)
  }

  /** The next atomic step of a thread. */
  function Act(g: Globals, l: Local, env: Env): (Globals, Local)
    requires Ready(g, l)
  {
    match l
    case ProcessCreated(pid, allowlisted) =>
      var rid := g.nextRequest;
      if allowlisted then
        (g.(nextRequest := rid + 1, log := g.log.(allowlisted := g.log.allowlisted + [rid])), Finished)
      else
        (g.(nextRequest := rid + 1), Targeting(pid, rid))
    case Targeting(pid, rid) => (g.(targets := g.targets + [Target(pid, rid)]), Finished)
    case ThreadCreated(pid) =>
      var (targets, found) := TakeTarget(g.targets, pid);
      (g.(targets := targets), if found.Some? then Injecting(pid, found.value) else Finished)
    case Injecting(pid, rid) =>
      if env.ok then (g.(apcCount := g.apcCount + 1), Counted(pid, rid))
      else (g.(log := g.log.(abandoned := g.log.abandoned + [rid])), Finished)
    case Counted(pid, rid) =>
      var c := |g.contexts|;
      (g.(contexts := g.contexts + [Ctx(pid, rid)], scans := g.scans + [PendingScan(rid, pid, c, false)]), Inserting(c))
    case Inserting(c) => (g, if env.ok then Queued(c) else InsertFailed(c))
    case InsertFailed(c) => (Free(g, c, NotInserted), Unlisting(c))
    case Unlisting(c) => (g.(scans := TakeScan(g.scans, CtxOf(g, c).pid).0), Uncounting(true))
    case Uncounting(_) => (g.(apcCount := g.apcCount - 1), Finished)
    case Queued(c) => if env.ok then CheckEarly(g, c) else (g, RunningDown(c))
    case RunningDown(c) => (Free(g, c, RunDown), Uncounting(false))
    case EarlyHit(c, uses, denied) =>
      (g.(scans := TakeScan(g.scans, CtxOf(g, c).pid).0), Freeing(Early(c, uses, denied)))
    case Waiting(c) => (g, Woken(c, !(env.ok && c in g.signalled)))
    case Woken(c, timedOut) => Collect(g, c, timedOut)
    case Freeing(exit) => (Free(g, exit.ctx, Normal), Leaving(exit))
    case Leaving(exit) => (g.(apcCount := g.apcCount - 1), Exiting(exit))
    case Exiting(exit) => (g.(log := g.log.(exits := g.log.exits + [exit])), Finished)
    case Deciding(rid, allow) => Decide(g, rid, allow)
    case Caching(rid, allow) =>
      (g.(cache := Recorded(g.cache, rid, allow, env.now),
          log := g.log.(cacheOps := g.log.cacheOps + [Write(rid, allow, env.now)])), Finished)
    case StoppingProcesses => (g.(phase := NoProcesses), StoppingThreads)
    case StoppingThreads => (g.(phase := NoThreads), Clearing)
    case Clearing =>
      (g.(scans := [], signalled := g.signalled + EventsOfScans(g.scans), phase := Cleared), Draining)
    case Draining => (g.(phase := Unloaded), Finished)
  }

  function Free(g: Globals, c: nat, cause: Cause): Globals {
    g.(log := g.log.(freed := g.log.freed + [Freed(c, cause)]))
  }

  /** The APC looks for a cached verdict. The cache is keyed by request id; the lookup is by pid. */
  function CheckEarly(g: Globals, c: nat): (Globals, Local) {
    var (cache, verdict) := Taken(g.cache, CtxOf(g, c).pid);
    (g.(cache := cache, log := g.log.(cacheOps := g.log.cacheOps + [Read(CtxOf(g, c).pid)])),
     if verdict.Some? then EarlyHit(c, |g.log.cacheOps|, !verdict.value) else Waiting(c))
  }

  /** After the wait: the verdict is the entry's, or deny if there is no entry; a timed-out process
      resumes whatever the verdict. */
  function Collect(g: Globals, c: nat, timedOut: bool): (Globals, Local) {
    var (scans, item) := TakeScan(g.scans, CtxOf(g, c).pid);
    var allowed := item.Some? && item.value.allowed;
    (g.(scans := scans),
     Freeing(Waited(c, !timedOut, |g.log.written|, g.phase.Rank() >= 3, !timedOut && !allowed)))
  }

  function Decide(g: Globals, rid: nat, allow: bool): (Globals, Local) {
    match WriteVerdict(g.scans, rid, allow)
    case (scans, Some(event)) =>
      (g.(scans := scans, signalled := g.signalled + {event},
          log := g.log.(written := g.log.written + [Written(rid, allow)])), Finished)
    case (_, None) => (g, Caching(rid, allow))
  }

  datatype Step = Spawn(local: Local) | Move(t: nat, env: Env)

  predicate Mentions(l: Local, pid: nat) {
    match l
    case ProcessCreated(p, _) => p == pid
    case Targeting(p, _) => p == pid
    case Injecting(p, _) => p == pid
    case Counted(p, _) => p == pid
    case _ => false
  }

  /** The operating system does not reuse a pid while a request for it is listed or in hand. */
  ghost predicate PidFree(s: State, pid: nat) {
    && (forall i :: 0 <= i < |s.g.targets| ==> s.g.targets[i].pid != pid)
    && (forall i :: 0 <= i < |s.g.scans| ==> s.g.scans[i].pid != pid)
    && (forall u :: 0 <= u < |s.threads| ==> !Mentions(s.threads[u], pid))
  }

  /** Removing a callback waits for the callbacks in flight; no new one starts afterwards. */
  ghost predicate Possible(s: State, step: Step) {
    match step
    case Spawn(l) =>
      && l.Starts()
      && (l.ProcessCreated? ==> s.g.phase == Running)
      && (l.ThreadCreated? ==> s.g.phase.Rank() <= 1)
    case Move(t, _) =>
      && t < |s.threads| && Ready(s.g, s.threads[t])
      && (s.threads[t].StoppingProcesses? ==> forall u :: 0 <= u < |s.threads| ==> !s.threads[u].InProcessCallback())
      && (s.threads[t].StoppingThreads? ==> forall u :: 0 <= u < |s.threads| ==> !s.threads[u].InThreadCallback())
  }

  ghost predicate Enabled(s: State, step: Step) {
    Possible(s, step) && (step.Spawn? && step.local.ProcessCreated? ==> PidFree(s, step.local.pid))
  }

  ghost function Apply(s: State, step: Step): State
    requires Possible(s, step)
  {
    match step
    case Spawn(l) => State(s.g, s.threads + [l])
    case Move(t, env) =>
      var (g, l) := Act(s.g, s.threads[t], env);
      State(g, s.threads[t := l])
  }

  /** The state after a run, if each of its steps was possible. */
  ghost function Exec(run: seq<Step>): Option<State> {
    if run == [] then Some(INIT)
    else
      match Exec(run[..|run| - 1])
      case None => None
      case Some(s) => if Enabled(s, run[|run| - 1]) then Some(Apply(s, run[|run| - 1])) else None
  }

  ghost predicate Reachable(s: State) { exists run :: Exec(run) == Some(s) }
}
