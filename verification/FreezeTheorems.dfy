/** The promises of the freeze protocol, over every run of every number of threads. */
module FreezeTheorems {
  import opened Prelude
  import opened Tallies
  import opened Freeze
  import opened FreezeSafety
  import VerdictCache

  // ----- Requests

  datatype RequestPlace =
    | InHand(thread: nat) | Targeted(index: nat) | Injected(context: nat)
    | Allowlisted(index: nat) | Abandoned(index: nat)

  /** A request is in a callback's hand, in TARGET_PIDS, made into a context (from there on its
      freeze is under way or over), waved through, or given up because the thread was gone. */
  ghost predicate RequestAt(s: State, r: nat, p: RequestPlace) {
    match p
    case InHand(t) => t < |s.threads| && RequestsIn(s.threads[t], r) == 1
    case Targeted(i) => i < |s.g.targets| && s.g.targets[i].requestId == r
    case Injected(c) => c < |s.g.contexts| && s.g.contexts[c].requestId == r
    case Allowlisted(i) => i < |s.g.log.allowlisted| && s.g.log.allowlisted[i] == r
    case Abandoned(i) => i < |s.g.log.abandoned| && s.g.log.abandoned[i] == r
  }

  lemma RequestCounts(s: State, r: nat, p: RequestPlace)
    requires RequestAt(s, r, p)
    ensures match p
            case InHand(_) => Tally(s.threads, RequestsIn, r) >= 1
            case Targeted(_) => Tally(s.g.targets, TargetRequestIs, r) >= 1
            case Injected(_) => Tally(s.g.contexts, CtxRequestIs, r) >= 1
            case Allowlisted(_) => Tally(s.g.log.allowlisted, SameId, r) >= 1
            case Abandoned(_) => Tally(s.g.log.abandoned, SameId, r) >= 1
  {
    match p
    case InHand(t) => TallyUpdate(s.threads, t, s.threads[t], RequestsIn, r);
    case Targeted(i) => TallyUpdate(s.g.targets, i, s.g.targets[i], TargetRequestIs, r);
    case Injected(c) => TallyUpdate(s.g.contexts, c, s.g.contexts[c], CtxRequestIs, r);
    case Allowlisted(i) => TallyUpdate(s.g.log.allowlisted, i, r, SameId, r);
    case Abandoned(i) => TallyUpdate(s.g.log.abandoned, i, r, SameId, r);
  }

  lemma RequestHasOnePlace(s: State, r: nat, p: RequestPlace, q: RequestPlace)
    requires Inv(s) && RequestAt(s, r, p) && RequestAt(s, r, q)
    ensures p == q && 1 <= r < s.g.nextRequest
  {
    assert Tally(s.threads, RequestsIn, r) + RequestStored(s.g, r) == if 1 <= r < s.g.nextRequest then 1 else 0;
    RequestCounts(s, r, p);
    RequestCounts(s, r, q);
    if p != q {
      match (p, q)
      case (InHand(i), InHand(j)) => TwoInList(s.threads, i, j, RequestsIn, r);
      case (Targeted(i), Targeted(j)) => TwoInList(s.g.targets, i, j, TargetRequestIs, r);
      case (Injected(i), Injected(j)) => TwoInList(s.g.contexts, i, j, CtxRequestIs, r);
      case (Allowlisted(i), Allowlisted(j)) => TwoInList(s.g.log.allowlisted, i, j, SameId, r);
      case (Abandoned(i), Abandoned(j)) => TwoInList(s.g.log.abandoned, i, j, SameId, r);
      case _ =>
    }
  }

  lemma RequestHasPlace(s: State, r: nat) returns (p: RequestPlace)
    requires Inv(s) && 1 <= r < s.g.nextRequest
    ensures RequestAt(s, r, p)
  {
    assert Tally(s.threads, RequestsIn, r) + RequestStored(s.g, r) == 1;
    var i: nat;
    if Tally(s.threads, RequestsIn, r) > 0 {
      i := TallySource(s.threads, RequestsIn, r);
      p := InHand(i);
    } else if Tally(s.g.targets, TargetRequestIs, r) > 0 {
      i := TallySource(s.g.targets, TargetRequestIs, r);
      p := Targeted(i);
    } else if Tally(s.g.contexts, CtxRequestIs, r) > 0 {
      i := TallySource(s.g.contexts, CtxRequestIs, r);
      p := Injected(i);
    } else if Tally(s.g.log.allowlisted, SameId, r) > 0 {
      i := TallySource(s.g.log.allowlisted, SameId, r);
      p := Allowlisted(i);
    } else {
      i := TallySource(s.g.log.abandoned, SameId, r);
      p := Abandoned(i);
    }
  }

  /** However many threads a process creates and however the callbacks interleave, a request is at
      one stage of its life at a time, and becomes at most one freeze context. */
  lemma RequestInExactlyOnePlace(s: State, r: nat)
    requires Reachable(s)
    ensures 1 <= r < s.g.nextRequest <==> exists p :: RequestAt(s, r, p)
    ensures forall p, q :: RequestAt(s, r, p) && RequestAt(s, r, q) ==> p == q
  {
    ReachableInv(s);
    if 1 <= r < s.g.nextRequest {
      var p := RequestHasPlace(s, r);
    }
    forall p, q | RequestAt(s, r, p) && RequestAt(s, r, q) ensures p == q && 1 <= r < s.g.nextRequest {
      RequestHasOnePlace(s, r, p, q);
    }
  }

  /** Removing an entry by its pid and writing a verdict by its request id name the same entry, and
      so do matching a thread and the target it belongs to. */
  lemma PidAndRequestNameTheSameEntry(s: State)
    requires Reachable(s)
    ensures forall i :: 0 <= i < |s.g.scans| ==>
              && FindBy(s.g.scans, ScanPid, s.g.scans[i].pid) == Some(i)
              && FindBy(s.g.scans, ScanRequest, s.g.scans[i].requestId) == Some(i)
    ensures forall i :: 0 <= i < |s.g.targets| ==> FindBy(s.g.targets, TargetPid, s.g.targets[i].pid) == Some(i)
  {
    ReachableInv(s);
    ScansHaveOwnPids(s);
    ContextsHaveOwnRequests(s);
    forall i | 0 <= i < |s.g.scans|
      ensures FindBy(s.g.scans, ScanPid, s.g.scans[i].pid) == Some(i)
      ensures FindBy(s.g.scans, ScanRequest, s.g.scans[i].requestId) == Some(i)
    {
      var j := FindBy(s.g.scans, ScanRequest, s.g.scans[i].requestId).value;
      assert EntryOk(s.g, s.g.scans[i]) && EntryOk(s.g, s.g.scans[j]);
    }
    forall i | 0 <= i < |s.g.targets| ensures FindBy(s.g.targets, TargetPid, s.g.targets[i].pid) == Some(i) {
      var p := s.g.targets[i].pid;
      var j := FindBy(s.g.targets, TargetPid, p).value;
      assert Tally(s.threads, PidsIn, p) + PidStored(s.g, p) <= 1;
      if i != j {
        TwoInList(s.g.targets, i, j, TargetPidIs, p);
      }
    }
  }

  // ----- Verdicts

  /** A process that waited is terminated exactly if its event was signalled and the last verdict
      written for its own request before it collected its entry was deny; so a timed-out process
      resumes, and so does one last allowed. The one exception is unload, which signals everybody
      and empties the list. */
  lemma WaitingProcessGetsItsVerdict(s: State, i: nat)
    requires Reachable(s) && i < |s.g.log.exits| && s.g.log.exits[i].Waited?
    ensures var exit := s.g.log.exits[i];
            && exit.ctx < |s.g.contexts| && exit.writes <= |s.g.log.written|
            && var last := LastWritten(s.g.log.written[..exit.writes], s.g.contexts[exit.ctx].requestId);
               && (exit.terminate <==> exit.signalled && (exit.cleared || Denied(last)))
               && (exit.signalled && !exit.cleared ==> last.Some?)
  {
    ReachableInv(s);
    assert ExitOk(s.g, s.g.log.exits[i]);
  }

  /** An APC finds a verdict in the cache exactly if the request numbered by its pid has an unread one that
      no later write has expired or evicted. */
  lemma ApcExitsEarlyIff(s: State, t: nat, now: nat)
    requires Reachable(s) && t < |s.threads| && s.threads[t].Queued?
    ensures var (c, ops) := (s.threads[t].ctx, s.g.log.cacheOps);
            && c < |s.g.contexts|
            && var pid := s.g.contexts[c].pid;
               Act(s.g, s.threads[t], Env(true, now)).1
               == if VerdictCache.Survives(ops, pid) && VerdictCache.Ideal(ops, pid).Some? then
                    EarlyHit(c, |ops|, !VerdictCache.Ideal(ops, pid).value.allowed)
                  else
                    Waiting(c)
  {
    ReachableInv(s);
    assert LocalOk(s.g, s.threads[t]) && ContextsIn(s.threads[t], s.threads[t].ctx) == 1;
    EarlyHitIff(s.g, s.threads[t].ctx);
    hide VerdictCache.Survives, VerdictCache.Ideal, Reachable, GlobalOk;
  }

  /** An APC that used a cached verdict terminates its process exactly if the latest unread verdict of the
      request that its pid happens to number denied. That is the process's own request exactly if its pid
      and its request id are the same number. */
  lemma EarlyExitUsesVerdictOfPid(s: State, i: nat)
    requires Reachable(s) && i < |s.g.log.exits| && s.g.log.exits[i].Early?
    ensures var exit := s.g.log.exits[i];
            && exit.ctx < |s.g.contexts| && exit.uses <= |s.g.log.cacheOps|
            && var (ctx, ops) := (s.g.contexts[exit.ctx], s.g.log.cacheOps[..exit.uses]);
               && VerdictCache.Survives(ops, ctx.pid) && VerdictCache.Ideal(ops, ctx.pid).Some?
               && var used := VerdictCache.Ideal(ops, ctx.pid).value;
                  && (exit.terminate <==> !used.allowed)
                  && (used.requestId == ctx.requestId <==> ctx.pid == ctx.requestId)
  {
    ReachableInv(s);
    var exit := s.g.log.exits[i];
    assert ExitOk(s.g, exit);
    VerdictCache.IdealIsLastWrite(s.g.log.cacheOps[..exit.uses], s.g.contexts[exit.ctx].pid);
    hide VerdictCache.Ideal, VerdictCache.Survives, GlobalOk, HistoryOk, Reachable;
  }

  // ----- Contexts and unload

  ghost predicate IsFreed(g: Globals, c: nat) {
    exists i :: 0 <= i < |g.log.freed| && g.log.freed[i].ctx == c
  }

  /** A context is freed once or will be freed by the one thread that holds it. */
  lemma ContextFreedOnce(s: State, c: nat)
    requires Reachable(s) && c < |s.g.contexts|
    ensures forall i, j | 0 <= i < j < |s.g.log.freed| :: s.g.log.freed[i].ctx != s.g.log.freed[j].ctx
    ensures IsFreed(s.g, c) <==> !(exists t :: 0 <= t < |s.threads| && ContextsIn(s.threads[t], c) == 1)
    ensures forall t, u | 0 <= t < u < |s.threads| ::
              ContextsIn(s.threads[t], c) == 0 || ContextsIn(s.threads[u], c) == 0
  {
    ReachableInv(s);
    forall i, j | 0 <= i < j < |s.g.log.freed| ensures s.g.log.freed[i].ctx != s.g.log.freed[j].ctx {
      var d := s.g.log.freed[i].ctx;
      assert Tally(s.threads, ContextsIn, d) + FreedTimes(s.g, d) <= 1;
      TallyTwo(s.g.log.freed, i, j, FreedIs, d);
    }
    assert Tally(s.threads, ContextsIn, c) + FreedTimes(s.g, c) == 1;
    if FreedTimes(s.g, c) == 1 {
      var i := TallySource(s.g.log.freed, FreedIs, c);
      forall t | 0 <= t < |s.threads| ensures ContextsIn(s.threads[t], c) == 0 {
        TallyUpdate(s.threads, t, s.threads[t], ContextsIn, c);
      }
    } else {
      var t := TallySource(s.threads, ContextsIn, c);
      forall i | 0 <= i < |s.g.log.freed| ensures s.g.log.freed[i].ctx != c {
        TallyUpdate(s.g.log.freed, i, s.g.log.freed[i], FreedIs, c);
      }
    }
    forall t, u | 0 <= t < u < |s.threads|
      ensures ContextsIn(s.threads[t], c) == 0 || ContextsIn(s.threads[u], c) == 0
    {
      TallyTwo(s.threads, t, u, ContextsIn, c);
    }
  }

  /** When unload's wait is over, no freeze is under way: nothing is listed, every context is freed, and
      no thread is counted or in a callback. What can still take a step is a verdict being delivered, or
      an APC that has decremented the count and is yet to terminate its process or return. */
  lemma UnloadLeavesNothing(s: State)
    requires Reachable(s) && s.g.phase == Unloaded
    ensures s.g.scans == [] && s.g.apcCount == 0
    ensures forall t :: 0 <= t < |s.threads| ==>
              && CountedIn(s.threads[t], ()) == 0
              && !s.threads[t].InProcessCallback() && !s.threads[t].InThreadCallback()
              && (Ready(s.g, s.threads[t]) ==>
                    s.threads[t].Exiting? || s.threads[t].Deciding? || s.threads[t].Caching?)
    ensures forall c: nat :: c < |s.g.contexts| ==> IsFreed(s.g, c)
  {
    ReachableInv(s);
    forall t | 0 <= t < |s.threads|
      ensures CountedIn(s.threads[t], ()) == 0
      ensures !s.threads[t].InProcessCallback() && !s.threads[t].InThreadCallback()
    {
      TallyUpdate(s.threads, t, s.threads[t], CountedIn, ());
      assert LocalOk(s.g, s.threads[t]);
    }
    forall c: nat | c < |s.g.contexts| ensures IsFreed(s.g, c) {
      FreedAtUnload(s, c);
    }
  }

  lemma FreedAtUnload(s: State, c: nat)
    requires Reachable(s) && c < |s.g.contexts|
    requires forall t :: 0 <= t < |s.threads| ==> CountedIn(s.threads[t], ()) == 0
    ensures IsFreed(s.g, c)
  {
    ReachableInv(s);
    assert Tally(s.threads, ContextsIn, c) + FreedTimes(s.g, c) == 1;
    hide Reachable, Inv, Tallies.Tally;
    forall t | 0 <= t < |s.threads| ensures ContextsIn(s.threads[t], c) == 0 {
      assert CountedIn(s.threads[t], ()) == 0;
    }
    TallyZero(s.threads, ContextsIn, c);
    var i := TallySource(s.g.log.freed, FreedIs, c);
  }

  ghost predicate IsLive(s: State, c: nat) { exists t :: 0 <= t < |s.threads| && ContextsIn(s.threads[t], c) == 1 }

  /** A listed entry is dead, its context freed, exactly if its APC was run down, or was not inserted and
      is about to be taken off the list. */
  lemma DeadEntryIff(s: State, k: nat)
    requires Reachable(s) && k < |s.g.scans|
    ensures var c := s.g.scans[k].event;
            !IsLive(s, c) <==> Freed(c, RunDown) in s.g.log.freed || Freed(c, NotInserted) in s.g.log.freed
  {
    ReachableInv(s);
    var c := s.g.scans[k].event;
    assert EntryOk(s.g, s.g.scans[k]);
    assert HasEntry(s.g, c);
    ContextFreedOnce(s, c);
    if i :| 0 <= i < |s.g.log.freed| && s.g.log.freed[i].ctx == c {
      assert FreedOk(s.g, s.g.log.freed[i]);
    }
  }

  /** The next verdict for a request whose APC was run down signals the event of the freed context, until
      unload. */
  lemma RunDownLeavesDeadEntry(s: State, c: nat)
    requires Reachable(s) && s.g.phase.Rank() < 3 && Freed(c, RunDown) in s.g.log.freed
    ensures forall allow :: WriteVerdict(s.g.scans, CtxOf(s.g, c).requestId, allow).1 == Some(c)
    ensures !IsLive(s, c)
  {
    ReachableInv(s);
    var i :| 0 <= i < |s.g.log.freed| && s.g.log.freed[i] == Freed(c, RunDown);
    assert FreedOk(s.g, s.g.log.freed[i]);
    var k :| 0 <= k < |s.g.scans| && s.g.scans[k].event == c;
    assert EntryOk(s.g, s.g.scans[k]);
    PidAndRequestNameTheSameEntry(s);
    ContextFreedOnce(s, c);
  }

  lemma Extend(run: seq<Step>, s: State, step: Step) returns (run': seq<Step>, s': State)
    requires Exec(run) == Some(s) && Enabled(s, step)
    ensures Exec(run') == Some(s') && s' == Apply(s, step)
  {
    assert (run + [step])[..|run|] == run;
    run', s' := run + [step], Apply(s, step);
  }
}
