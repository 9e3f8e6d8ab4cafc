/** One whole run: a process is created and frozen, its file cannot be looked at, and it is terminated on
    its own verdict. */
module GalateaExample {
  import opened Prelude
  import opened GalateaRuns
  import A = ScanRuns
  import C = EventChannel
  import F = Freeze
  import S = SensorRuns
  import StaticAnalysis

  const AGENT: nat := 4
  const PID: nat := 8
  const YES: F.Env := F.Env(true, 0)
  const IMAGE: C.Event := C.Event(PID, 1, true, C.PathField(None))
  const DELIVERED: C.Completion := C.Completion(0, C.Success, Some(IMAGE))

  lemma Extend(run: seq<Step>, s: State, step: Step) returns (run': seq<Step>, s': State)
    requires Exec(run) == Some(s) && Enabled(s, step)
    ensures Exec(run') == Some(s') && s' == Apply(s, step)
  {
    assert (run + [step])[..|run|] == run;
    run', s' := run + [step], Apply(s, step);
  }

  lemma StepChannel(run: seq<Step>, s: State, step: C.Step) returns (run': seq<Step>, s': State)
    requires Exec(run) == Some(s) && S.Enabled(s.sensor, S.InChannel(step))
    ensures Exec(run') == Some(s') && s' == s.(sensor := s.sensor.(ch := C.Apply(s.sensor.ch, step)))
  {
    run', s' := Extend(run, s, InSensor(S.InChannel(step)));
  }

  lemma StepFreeze(run: seq<Step>, s: State, step: F.Step) returns (run': seq<Step>, s': State)
    requires Exec(run) == Some(s) && S.Enabled(s.sensor, S.InFreeze(step)) && (step.Spawn? ==> !step.local.Deciding?)
    ensures Exec(run') == Some(s') && s' == s.(sensor := s.sensor.(fr := F.Apply(s.sensor.fr, step)))
  {
    run', s' := Extend(run, s, InSensor(S.InFreeze(step)));
  }

  lemma AgentRegisters() returns (run: seq<Step>, s: State)
    ensures Exec(run) == Some(s) && s == INIT.(sensor := INIT.sensor.(ch := s.sensor.ch))
    ensures s.sensor.ch.threads == [C.Done]
    ensures s.sensor.ch.g == C.INIT.g.(agent := Some(AGENT), log := s.sensor.ch.g.log)
    ensures s.sensor.ch.g.log.completed == []
  {
    run, s := StepChannel([], INIT, C.Spawn(C.Registering(AGENT)));
    run, s := StepChannel(run, s, C.Move(0));
  }

  /** The agent registers and asks for an event ... */
  lemma AgentAsks() returns (run: seq<Step>, s: State)
    ensures Exec(run) == Some(s) && s == INIT.(sensor := INIT.sensor.(ch := s.sensor.ch))
    ensures s.sensor.ch.threads == [C.Done, C.Polling(0)]
    ensures s.sensor.ch.g == C.INIT.g.(
              agent := Some(AGENT), irps := [C.Irp(AGENT, C.EVENT_SIZE)], lock := Some(1), log := s.sensor.ch.g.log)
    ensures s.sensor.ch.g.log.completed == []
  {
    run, s := AgentRegisters();
    hide Exec;
    run, s := StepChannel(run, s, C.Spawn(C.Requesting(AGENT, C.EVENT_SIZE)));
    run, s := StepChannel(run, s, C.Move(1));
    run, s := StepChannel(run, s, C.Move(1));
  }

  /** ... there is none ... */
  lemma AgentPolls() returns (run: seq<Step>, s: State)
    ensures Exec(run) == Some(s) && s == INIT.(sensor := INIT.sensor.(ch := s.sensor.ch))
    ensures s.sensor.ch.threads == [C.Done, C.Pending(0)]
    ensures s.sensor.ch.g == C.INIT.g.(
              agent := Some(AGENT), irps := [C.Irp(AGENT, C.EVENT_SIZE)], lock := Some(1), log := s.sensor.ch.g.log)
    ensures s.sensor.ch.g.log.completed == []
  {
    run, s := AgentAsks();
    hide Exec;
    run, s := StepChannel(run, s, C.Move(1));
  }

  /** ... and its IRP is pended. */
  lemma AgentWaits() returns (run: seq<Step>, s: State)
    ensures Exec(run) == Some(s) && s == INIT.(sensor := INIT.sensor.(ch := s.sensor.ch))
    ensures s.sensor.ch.threads == [C.Done, C.Done]
    ensures s.sensor.ch.g == C.INIT.g.(
              sh := C.Shared(Some(0), {0}, []), agent := Some(AGENT), irps := [C.Irp(AGENT, C.EVENT_SIZE)],
              log := s.sensor.ch.g.log)
    ensures s.sensor.ch.g.log.completed == []
  {
    run, s := AgentPolls();
    hide Exec;
    run, s := StepChannel(run, s, C.Move(1));
    run, s := StepChannel(run, s, C.Move(1));
  }

  /** A process is created ... */
  lemma CallbackEntered() returns (run: seq<Step>, s: State)
    ensures Exec(run) == Some(s) && s.agent == A.INIT && s.sources == [] && s.carried == {}
    ensures s.sensor.ch.threads == [C.Done, C.Done, C.Notifying(PID, true, None)]
    ensures s.sensor.ch.g == C.INIT.g.(
              sh := C.Shared(Some(0), {0}, []), agent := Some(AGENT), irps := [C.Irp(AGENT, C.EVENT_SIZE)],
              log := s.sensor.ch.g.log)
    ensures s.sensor.ch.g.log.completed == []
    ensures s.sensor.fr.threads == [F.ProcessCreated(PID, false)] && s.sensor.fr.g == F.INIT.g
    ensures s.sensor.callbacks == [S.Callback(2, 0, None)]
  {
    run, s := AgentWaits();
    hide Exec;
    run, s := Extend(run, s, InSensor(S.Create(PID, false, None)));
  }

  /** ... and is to be frozen. */
  lemma ProcessCreated() returns (run: seq<Step>, s: State)
    ensures Exec(run) == Some(s) && s.agent == A.INIT && s.sources == [] && s.carried == {}
    ensures s.sensor.ch.threads == [C.Done, C.Done, C.Raising(IMAGE)]
    ensures s.sensor.ch.g.sh == C.Shared(Some(0), {0}, []) && s.sensor.ch.g.lock.None?
    ensures s.sensor.ch.g.irps == [C.Irp(AGENT, C.EVENT_SIZE)] && s.sensor.ch.g.log.completed == []
    ensures s.sensor.fr.threads == [F.Finished]
    ensures s.sensor.fr.g == F.INIT.g.(nextRequest := 2, targets := [F.Target(PID, 1)])
    ensures s.sensor.callbacks == [S.Callback(2, 0, Some(1))]
  {
    run, s := CallbackEntered();
    hide Exec;
    run, s := Extend(run, s, InSensor(S.FetchId(0)));
    run, s := StepFreeze(run, s, F.Move(0, YES));
  }

  /** Its event completes the pended IRP. */
  lemma EventDelivered() returns (run: seq<Step>, s: State)
    ensures Exec(run) == Some(s) && s.agent == A.INIT && s.sources == [] && s.carried == {}
    ensures s.sensor.ch.g.log.completed == [DELIVERED]
    ensures s.sensor.fr.threads == [F.Finished]
    ensures s.sensor.fr.g == F.INIT.g.(nextRequest := 2, targets := [F.Target(PID, 1)])
  {
    run, s := ProcessCreated();
    hide Exec;
    run, s := StepChannel(run, s, C.Move(2));
    run, s := StepChannel(run, s, C.Move(2));
  }

  /** Its first thread is matched ... */
  lemma ThreadMatched() returns (run: seq<Step>, s: State)
    ensures Exec(run) == Some(s) && s.agent == A.INIT && s.sources == [] && s.carried == {}
    ensures s.sensor.ch.g.log.completed == [DELIVERED]
    ensures s.sensor.fr.threads == [F.Finished, F.Injecting(PID, 1)]
    ensures s.sensor.fr.g == F.INIT.g.(nextRequest := 2)
  {
    run, s := EventDelivered();
    hide Exec;
    run, s := StepFreeze(run, s, F.Spawn(F.ThreadCreated(PID)));
    run, s := StepFreeze(run, s, F.Move(1, YES));
    assert s.sensor.fr.g.targets == [];
  }

  /** ... and frozen. */
  lemma ThreadFrozen() returns (run: seq<Step>, s: State)
    ensures Exec(run) == Some(s) && s.agent == A.INIT && s.sources == [] && s.carried == {}
    ensures s.sensor.ch.g.log.completed == [DELIVERED]
    ensures s.sensor.fr.threads == [F.Finished, F.Queued(0)]
    ensures s.sensor.fr.g == F.INIT.g.(
              nextRequest := 2, apcCount := 1, contexts := [F.Ctx(PID, 1)], scans := [F.PendingScan(1, PID, 0, false)])
  {
    run, s := ThreadMatched();
    hide Exec;
    run, s := StepFreeze(run, s, F.Move(1, YES));
    run, s := StepFreeze(run, s, F.Move(1, YES));
    run, s := StepFreeze(run, s, F.Move(1, YES));
  }

  lemma ThreadWaits() returns (run: seq<Step>, s: State)
    ensures Exec(run) == Some(s) && s.agent == A.INIT && s.sources == [] && s.carried == {}
    ensures s.sensor.ch.g.log.completed == [DELIVERED]
    ensures s.sensor.fr.threads == [F.Finished, F.Waiting(0)] && s.sensor.fr.g.phase == F.Running
    ensures s.sensor.fr.g.contexts == [F.Ctx(PID, 1)] && s.sensor.fr.g.scans == [F.PendingScan(1, PID, 0, false)]
    ensures s.sensor.fr.g.log.written == [] && s.sensor.fr.g.log.exits == [] && s.sensor.fr.g.signalled == {}
  {
    run, s := ThreadFrozen();
    hide Exec;
    run, s := StepFreeze(run, s, F.Move(1, YES));
  }

  /** The agent's job cannot look at the file, and denies. */
  lemma JobDenies() returns (run: seq<Step>, s: State)
    ensures Exec(run) == Some(s) && s.carried == {}
    ensures |s.agent.g.log.sent| == 1 && s.agent.g.log.sent[0].job.requestId == 1 && !s.agent.g.log.sent[0].allow
    ensures s.sensor.fr.threads == [F.Finished, F.Waiting(0)] && s.sensor.fr.g.phase == F.Running
    ensures s.sensor.fr.g.contexts == [F.Ctx(PID, 1)] && s.sensor.fr.g.scans == [F.PendingScan(1, PID, 0, false)]
    ensures s.sensor.fr.g.log.written == [] && s.sensor.fr.g.log.exits == [] && s.sensor.fr.g.signalled == {}
  {
    run, s := ThreadWaits();
    hide Exec;
    var inp := StaticAnalysis.Inputs(
      None, None, StaticAnalysis.Certificate(false, false, false, None), false, 0.0, [], None, _ => 0.0);
    var nowhere := A.Version(A.Id(0, 0), None);
    var env := A.Env(false, A.Id(0, 0), None, inp, A.Always(nowhere));
    run, s := Extend(run, s, Handle(0, ""));
    run, s := Extend(run, s, InAgent(A.Move(0, env)));
    run, s := Extend(run, s, InAgent(A.Move(0, env)));
  }

  /** The verdict is carried back, and wakes the process. */
  lemma ProcessWoken() returns (run: seq<Step>, s: State)
    ensures Exec(run) == Some(s)
    ensures s.sensor.fr.threads == [F.Finished, F.Woken(0, false), F.Finished] && s.sensor.fr.g.phase == F.Running
    ensures s.sensor.fr.g.contexts == [F.Ctx(PID, 1)] && s.sensor.fr.g.scans == [F.PendingScan(1, PID, 0, false)]
    ensures |s.sensor.fr.g.log.written| == 1 && s.sensor.fr.g.log.exits == []
  {
    run, s := JobDenies();
    hide Exec;
    run, s := Extend(run, s, Carry(0));
    run, s := StepFreeze(run, s, F.Move(2, YES));
    run, s := StepFreeze(run, s, F.Move(1, YES));
  }

  lemma ProcessCollects() returns (run: seq<Step>, s: State)
    ensures Exec(run) == Some(s) && |s.sensor.fr.threads| == 3 && s.sensor.fr.g.log.exits == []
    ensures s.sensor.fr.threads[1] == F.Freeing(F.Waited(0, true, 1, false, true))
  {
    run, s := ProcessWoken();
    hide Exec;
    run, s := StepFreeze(run, s, F.Move(1, YES));
  }

  lemma ProcessLeaves() returns (run: seq<Step>, s: State)
    ensures Exec(run) == Some(s) && |s.sensor.fr.threads| == 3 && s.sensor.fr.g.log.exits == []
    ensures s.sensor.fr.threads[1] == F.Exiting(F.Waited(0, true, 1, false, true))
  {
    run, s := ProcessCollects();
    hide Exec;
    run, s := StepFreeze(run, s, F.Move(1, YES));
    run, s := StepFreeze(run, s, F.Move(1, YES));
  }

  /** The whole run: there is an exit of a process that waited, was signalled and found its entry. */
  lemma ProcessIsTerminated() returns (s: State)
    ensures Reachable(s) && s.sensor.fr.g.log.exits == [F.Waited(0, true, 1, false, true)]
  {
    var run;
    run, s := ProcessLeaves();
    hide Exec;
    run, s := StepFreeze(run, s, F.Move(1, YES));
  }
}
