/** Runs of the freeze protocol that end badly. */
module FreezeFailures {
  import opened Prelude
  import opened Freeze
  import opened FreezeSafety
  import opened FreezeTheorems
  import VerdictCache

  const YES: Env := Env(true, 0)

  /** A process is created. */
  lemma OneTarget(pid: nat) returns (run: seq<Step>, s: State)
    ensures Exec(run) == Some(s) && s.threads == [Finished]
    ensures s.g == INIT.g.(nextRequest := 2, targets := [Target(pid, 1)])
  {
    run, s := Extend([], INIT, Spawn(ProcessCreated(pid, false)));
    run, s := Extend(run, s, Move(0, YES));
    run, s := Extend(run, s, Move(0, YES));
  }

  /** ... and its first thread becomes known. */
  lemma ProcessTargeted(pid: nat) returns (run: seq<Step>, s: State)
    ensures Exec(run) == Some(s) && s.threads == [Finished, Injecting(pid, 1)]
    ensures s.g == INIT.g.(nextRequest := 2)
  {
    run, s := OneTarget(pid);
    run, s := Extend(run, s, Spawn(ThreadCreated(pid)));
    run, s := Extend(run, s, Move(1, YES));
    assert s.g.targets == [];
  }

  /** ... its freeze APC is queued. */
  lemma ApcQueued(pid: nat) returns (run: seq<Step>, s: State)
    ensures Exec(run) == Some(s) && s.threads == [Finished, Queued(0)]
    ensures s.g.phase == Running && s.g.contexts == [Ctx(pid, 1)] && s.g.scans == [PendingScan(1, pid, 0, false)]
    ensures s.g.log.written == [] && s.g.log.exits == [] && s.g.log.freed == [] && s.g.signalled == {}
    ensures s.g.cache == [] && s.g.apcCount == 1 && s.g.nextRequest == 2 && s.g.targets == []
  {
    run, s := ProcessTargeted(pid);
    run, s := Extend(run, s, Move(1, YES));
    run, s := Extend(run, s, Move(1, YES));
    run, s := Extend(run, s, Move(1, YES));
  }

  /** ... is run down, as the thread dies first, and its context freed. */
  lemma ApcRunDown(pid: nat) returns (run: seq<Step>, s: State)
    ensures Exec(run) == Some(s) && s.threads == [Finished, Uncounting(false)]
    ensures s.g.phase == Running && s.g.contexts == [Ctx(pid, 1)] && s.g.scans == [PendingScan(1, pid, 0, false)]
    ensures s.g.log.freed == [Freed(0, RunDown)] && s.g.signalled == {} && s.g.log.written == []
    ensures s.g.nextRequest == 2 && s.g.targets == [] && s.g.cache == []
  {
    run, s := ApcQueued(pid);
    run, s := Extend(run, s, Move(1, Env(false, 0)));
    run, s := Extend(run, s, Move(1, YES));
  }

  /** After a run-down the agent's verdict sets the event of the freed context. */
  lemma VerdictSetsFreedEvent(pid: nat) returns (run: seq<Step>, step: Step, s: State)
    ensures Exec(run) == Some(s) && Freed(0, RunDown) in s.g.log.freed && !IsLive(s, 0) && 0 !in s.g.signalled
    ensures Enabled(s, step) && 0 in Apply(s, step).g.signalled
  {
    run, s := ApcRunDown(pid);
    run, s := Extend(run, s, Spawn(Deciding(1, true)));
    step := Move(2, YES);
  }

  /** ... runs, and waits. */
  lemma ProcessWaits(pid: nat) returns (run: seq<Step>, s: State)
    ensures Exec(run) == Some(s) && s.threads == [Finished, Waiting(0)] && s.g.apcCount == 1
    ensures s.g.phase == Running && s.g.contexts == [Ctx(pid, 1)] && s.g.scans == [PendingScan(1, pid, 0, false)]
    ensures s.g.log.written == [] && s.g.log.exits == [] && s.g.signalled == {}
  {
    run, s := ApcQueued(pid);
    run, s := Extend(run, s, Move(1, YES));
  }

  /** ... the agent allows it, and the wait returns. */
  lemma ProcessAllowed(pid: nat) returns (run: seq<Step>, s: State)
    ensures Exec(run) == Some(s) && s.threads == [Finished, Woken(0, false), Finished] && s.g.apcCount == 1
    ensures s.g.phase == Running && s.g.contexts == [Ctx(pid, 1)]
    ensures s.g.log.written == [Written(1, true)] && s.g.log.exits == []
  {
    run, s := ProcessWaits(pid);
    run, s := Extend(run, s, Spawn(Deciding(1, true)));
    run, s := Extend(run, s, Move(2, YES));
    run, s := Extend(run, s, Move(1, YES));
  }

  /** ... both callbacks are removed for unload. */
  lemma UnloadStops(pid: nat) returns (run: seq<Step>, s: State)
    ensures Exec(run) == Some(s) && s.threads == [Finished, Woken(0, false), Finished, Clearing] && s.g.apcCount == 1
    ensures s.g.phase == NoThreads && s.g.contexts == [Ctx(pid, 1)]
    ensures s.g.log.written == [Written(1, true)] && s.g.log.exits == []
  {
    run, s := ProcessAllowed(pid);
    run, s := Extend(run, s, Spawn(StoppingProcesses));
    run, s := Extend(run, s, Move(3, YES));
    run, s := Extend(run, s, Move(3, YES));
  }

  /** ... and unload empties the list before the APC collects its entry. */
  lemma UnloadClears(pid: nat) returns (run: seq<Step>, s: State)
    ensures Exec(run) == Some(s) && s.threads == [Finished, Woken(0, false), Finished, Draining] && s.g.apcCount == 1
    ensures s.g.phase == Cleared && s.g.scans == [] && s.g.contexts == [Ctx(pid, 1)]
    ensures s.g.log.written == [Written(1, true)] && s.g.log.exits == []
  {
    run, s := UnloadStops(pid);
    run, s := Extend(run, s, Move(3, YES));
  }

  /** ... so that the process is to be terminated. */
  lemma ProcessIsDenied(pid: nat) returns (run: seq<Step>, s: State)
    ensures Exec(run) == Some(s) && s.g.apcCount == 1 && s.g.phase == Cleared
    ensures s.threads == [Finished, Freeing(Waited(0, true, 1, true, true)), Finished, Draining]
    ensures s.g.contexts == [Ctx(pid, 1)] && s.g.log.written == [Written(1, true)] && s.g.log.exits == []
  {
    run, s := UnloadClears(pid);
    run, s := Extend(run, s, Move(1, YES));
  }

  /** ... and unload is over while the APC is yet to terminate its process. */
  lemma UnloadOvertakes(pid: nat) returns (run: seq<Step>, s: State)
    ensures Exec(run) == Some(s) && s.g.phase == Unloaded
    ensures s.threads == [Finished, Exiting(Waited(0, true, 1, true, true)), Finished, Finished]
    ensures s.g.contexts == [Ctx(pid, 1)] && s.g.log.written == [Written(1, true)] && s.g.log.exits == []
  {
    run, s := ProcessIsDenied(pid);
    run, s := Extend(run, s, Move(1, YES));
    run, s := Extend(run, s, Move(1, YES));
    run, s := Extend(run, s, Move(3, YES));
  }

  /** "A process that was last allowed resumes" is false if the driver unloads meanwhile. By
      WaitingProcessGetsItsVerdict it holds of every process that collects its entry before. */
  lemma AllowedProcessCanDieAtUnload(pid: nat) returns (s: State)
    ensures Reachable(s) && |s.g.log.exits| == 1
    ensures s.g.log.exits[0] == Waited(0, true, 1, true, true)
    ensures Allowed(LastWritten(s.g.log.written, 1)) && s.g.contexts == [Ctx(pid, 1)]
  {
    var run;
    run, s := UnloadOvertakes(pid);
    run, s := Extend(run, s, Move(1, YES));
  }

  // ----- A verdict of another process

  /** Two processes have been created, and the agent's verdict for the second is cached, as its freeze has
      not begun. */
  lemma VerdictCached(pid: nat, pid2: nat, allow: bool) returns (run: seq<Step>, s: State)
    requires pid != pid2
    ensures Exec(run) == Some(s) && |s.threads| == 3
    ensures s.g.targets == [Target(pid, 1), Target(pid2, 2)] && s.g.phase == Running && s.g.contexts == []
    ensures s.g.cache == [VerdictCache.CachedVerdict(2, allow, 0)] && |s.g.log.cacheOps| == 1
  {
    run, s := TwoTargets(pid, pid2);
    run, s := Extend(run, s, Spawn(Deciding(2, allow)));
    run, s := Extend(run, s, Move(2, YES));
    run, s := Extend(run, s, Move(2, YES));
  }

  lemma TwoTargets(pid: nat, pid2: nat) returns (run: seq<Step>, s: State)
    requires pid != pid2
    ensures Exec(run) == Some(s) && s.threads == [Finished, Finished]
    ensures s.g == INIT.g.(nextRequest := 3, targets := [Target(pid, 1), Target(pid2, 2)])
  {
    run, s := OneTarget(pid);
    run, s := Extend(run, s, Spawn(ProcessCreated(pid2, false)));
    run, s := Extend(run, s, Move(1, YES));
    run, s := Extend(run, s, Move(1, YES));
  }

  lemma FirstInjected(pid2: nat, allow: bool) returns (run: seq<Step>, s: State)
    requires pid2 != 2
    ensures Exec(run) == Some(s) && |s.threads| == 4 && s.threads[3] == Queued(0)
    ensures s.g.contexts == [Ctx(2, 1)] && |s.g.log.cacheOps| == 1
    ensures s.g.cache == [VerdictCache.CachedVerdict(2, allow, 0)]
  {
    run, s := VerdictCached(2, pid2, allow);
    run, s := Extend(run, s, Spawn(ThreadCreated(2)));
    run, s := Extend(run, s, Move(3, YES));
    run, s := Extend(run, s, Move(3, YES));
    run, s := Extend(run, s, Move(3, YES));
    run, s := Extend(run, s, Move(3, YES));
  }

  /** The process with pid 2 and request 1 uses the verdict for request 2, which is of another process. */
  lemma AnotherProcessesVerdictIsUsed(pid2: nat, allow: bool) returns (s: State)
    requires pid2 != 2
    ensures Reachable(s) && s.g.contexts == [Ctx(2, 1)]
    ensures |s.threads| == 4 && s.threads[3] == EarlyHit(0, 1, !allow)
  {
    var run;
    run, s := FirstInjected(pid2, allow);
    run, s := Extend(run, s, Move(3, YES));
  }

  // ----- A pid used again

  /** A run in which the system may give a pid to a new process as soon as it likes. */
  ghost function LooseExec(run: seq<Step>): Option<State> {
    if run == [] then Some(INIT)
    else
      match LooseExec(run[..|run| - 1])
      case None => None
      case Some(s) => if Possible(s, run[|run| - 1]) then Some(Apply(s, run[|run| - 1])) else None
  }

  lemma {:induction false} RunsAreLoose(run: seq<Step>)
    requires Exec(run).Some?
    ensures LooseExec(run) == Exec(run)
  {
    if run != [] {
      RunsAreLoose(run[..|run| - 1]);
    }
  }

  lemma LooseExtend(run: seq<Step>, s: State, step: Step) returns (run': seq<Step>, s': State)
    requires LooseExec(run) == Some(s) && Possible(s, step)
    ensures LooseExec(run') == Some(s') && s' == Apply(s, step)
  {
    assert (run + [step])[..|run|] == run;
    run', s' := run + [step], Apply(s, step);
  }

  /** The thread of a process is gone, and a new process has its pid. */
  lemma PidUsedAgain(pid: nat) returns (run: seq<Step>, s: State)
    ensures LooseExec(run) == Some(s) && |s.threads| == 3 && s.g.targets == [Target(pid, 2)]
    ensures s.g.phase == Running && s.g.contexts == [Ctx(pid, 1)] && s.g.scans == [PendingScan(1, pid, 0, false)]
    ensures s.g.signalled == {} && s.g.log.written == [] && s.g.cache == []
  {
    run, s := ApcRunDown(pid);
    RunsAreLoose(run);
    run, s := LooseExtend(run, s, Spawn(ProcessCreated(pid, false)));
    run, s := LooseExtend(run, s, Move(2, YES));
    run, s := LooseExtend(run, s, Move(2, YES));
  }

  /** ... its thread is matched ... */
  lemma NewProcessMatched(pid: nat) returns (run: seq<Step>, s: State)
    ensures LooseExec(run) == Some(s) && |s.threads| == 4 && s.threads[3] == Counted(pid, 2)
    ensures s.g.phase == Running && s.g.contexts == [Ctx(pid, 1)] && s.g.scans == [PendingScan(1, pid, 0, false)]
    ensures s.g.signalled == {} && s.g.log.written == [] && s.g.cache == []
  {
    run, s := PidUsedAgain(pid);
    run, s := LooseExtend(run, s, Spawn(ThreadCreated(pid)));
    run, s := LooseExtend(run, s, Move(3, YES));
    run, s := LooseExtend(run, s, Move(3, YES));
  }

  /** ... its freeze begins behind the entry that was left. */
  lemma NewProcessInjected(pid: nat) returns (run: seq<Step>, s: State)
    ensures LooseExec(run) == Some(s) && |s.threads| == 4 && s.threads[3] == Queued(1)
    ensures s.g.phase == Running && s.g.contexts == [Ctx(pid, 1), Ctx(pid, 2)] && s.g.cache == []
    ensures s.g.scans == [PendingScan(1, pid, 0, false), PendingScan(2, pid, 1, false)]
    ensures s.g.signalled == {} && s.g.log.written == []
  {
    run, s := NewProcessMatched(pid);
    run, s := LooseExtend(run, s, Move(3, YES));
    run, s := LooseExtend(run, s, Move(3, YES));
  }

  lemma NewProcessWaits(pid: nat) returns (run: seq<Step>, s: State)
    ensures LooseExec(run) == Some(s) && |s.threads| == 4 && s.threads[3] == Waiting(1)
    ensures s.g.phase == Running && s.g.contexts == [Ctx(pid, 1), Ctx(pid, 2)]
    ensures s.g.scans == [PendingScan(1, pid, 0, false), PendingScan(2, pid, 1, false)]
    ensures s.g.signalled == {} && s.g.log.written == []
  {
    run, s := NewProcessInjected(pid);
    run, s := LooseExtend(run, s, Move(3, YES));
  }

  lemma SecondIsFound(scans: seq<PendingScan>)
    requires |scans| == 2 && scans[0].requestId == 1 && scans[1].requestId == 2
    ensures WriteVerdict(scans, 2, true) == (scans[1 := scans[1].(allowed := true)], Some(scans[1].event))
  {
    var k := FindBy(scans, ScanRequest, 2);
    assert k.None? ==> ScanRequest(scans[1]) != 2;
    hide FindBy;
  }

  /** ... and the agent allows it. */
  lemma NewProcessAllowed(pid: nat) returns (run: seq<Step>, s: State)
    ensures LooseExec(run) == Some(s) && |s.threads| == 5 && s.threads[3] == Waiting(1)
    ensures s.g.phase == Running && s.g.contexts == [Ctx(pid, 1), Ctx(pid, 2)] && 1 in s.g.signalled
    ensures s.g.scans == [PendingScan(1, pid, 0, false), PendingScan(2, pid, 1, true)]
    ensures s.g.log.written == [Written(2, true)]
  {
    run, s := NewProcessWaits(pid);
    SecondIsFound(s.g.scans);
    hide WriteVerdict, LooseExec;
    run, s := LooseExtend(run, s, Spawn(Deciding(2, true)));
    run, s := LooseExtend(run, s, Move(4, YES));
  }

  /** Were a pid used again before unload, the new process would collect the deny that a run-down APC has
      left behind, although the only verdict for it allows. */
  lemma NewProcessDiesOfOldEntry(pid: nat) returns (run: seq<Step>, s: State)
    ensures LooseExec(run) == Some(s) && s.g.contexts == [Ctx(pid, 1), Ctx(pid, 2)] && s.g.phase == Running
    ensures |s.threads| == 5 && s.threads[3] == Freeing(Waited(1, true, 1, false, true))
    ensures s.g.log.written == [Written(2, true)]
  {
    run, s := NewProcessAllowed(pid);
    run, s := LooseExtend(run, s, Move(3, YES));
    run, s := LooseExtend(run, s, Move(3, YES));
  }
}
