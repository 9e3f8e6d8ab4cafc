/**
 Sensor and agent together: every event delivered to the agent starts one job, and every verdict a job
 sends is carried back to the sensor once. What a process that waited gets is the verdict of the one
 job of its own request.
 */
module GalateaRuns {
  import opened Prelude
  import opened Tallies
  import C = EventChannel
  import CS = ChannelSafety
  import CT = ChannelTheorems
  import F = Freeze
  import FS = FreezeSafety
  import FT = FreezeTheorems
  import S = SensorRuns
  import A = ScanRuns
  import AS = ScanSafety
  import AT = ScanTheorems
  import V = VerdictCache

  /** `sources` gives, for each job, the completion that delivered its event; `carried` the verdicts that
      have been handed to the sensor. */
  datatype State = State(sensor: S.State, agent: A.State, sources: seq<nat>, carried: set<nat>)

  const INIT: State := State(S.INIT, A.INIT, [], {})

  datatype Step =
    | InSensor(sensorStep: S.Step)
    | InAgent(agentStep: A.Step)
    | Handle(completion: nat, key: string)  // the agent's loop gets an event, and starts a job
    | Carry(sent: nat)                      // a job's verdict enters SEND_VERDICT

  predicate Decides(step: S.Step) { step.InFreeze? && step.fstep.Spawn? && step.fstep.local.Deciding? }

  function Verdict(m: A.Sent): S.Step { S.InFreeze(F.Spawn(F.Deciding(m.job.requestId, m.allow))) }

  function JobFor(event: C.Event, key: string): A.Job { A.Job(event.processId, event.requestId, key, event.frozen) }

  ghost predicate Delivered(g: C.Globals, i: nat) {
    i < |g.log.completed| && g.log.completed[i].status == C.Success && g.log.completed[i].payload.Some?
  }

  ghost predicate Enabled(s: State, step: Step) {
    match step
    case InSensor(x) => S.Enabled(s.sensor, x) && !Decides(x)
    case InAgent(x) => A.Enabled(s.agent, x) && !x.Spawn?
    case Handle(i, _) => Delivered(s.sensor.ch.g, i) && i !in s.sources
    case Carry(k) => k < |s.agent.g.log.sent| && k !in s.carried
  }

  ghost function Apply(s: State, step: Step): State
    requires Enabled(s, step)
  {
    match step
    case InSensor(x) => s.(sensor := S.Apply(s.sensor, x))
    case InAgent(x) => s.(agent := A.Apply(s.agent, x))
    case Handle(i, key) =>
      s.(agent := A.Apply(s.agent, A.Spawn(JobFor(s.sensor.ch.g.log.completed[i].payload.value, key))),
         sources := s.sources + [i])
    case Carry(k) =>
      s.(sensor := S.Apply(s.sensor, Verdict(s.agent.g.log.sent[k])), carried := s.carried + {k})
  }

  ghost function Exec(run: seq<Step>): Option<State> {
    if run == [] then Some(INIT)
    else
      match Exec(run[..|run| - 1])
      case None => None
      case Some(s) => if Enabled(s, run[|run| - 1]) then Some(Apply(s, run[|run| - 1])) else None
  }

  ghost predicate Reachable(s: State) { exists run :: Exec(run) == Some(s) }

  // ----- The invariant

  /** A job is of the event that its completion delivered. */
  ghost predicate JobOk(g: C.Globals, source: nat, job: A.Job) {
    Delivered(g, source) && job == JobFor(g.log.completed[source].payload.value, job.key)
  }

  ghost predicate JobsOk(s: State) {
    && |s.sources| == |s.agent.threads|
    && (forall t :: 0 <= t < |s.sources| ==> JobOk(s.sensor.ch.g, s.sources[t], s.agent.threads[t].job))
    && (forall t, u :: 0 <= t < u < |s.sources| ==> s.sources[t] != s.sources[u])
  }

  /** Some job has sent this verdict. */
  ghost predicate IsSent(g: A.Globals, requestId: nat, allow: bool) {
    exists k :: 0 <= k < |g.log.sent| && g.log.sent[k].job.requestId == requestId && g.log.sent[k].allow == allow
  }

  ghost predicate IsSentBy(g: A.Globals, l: F.Local) {
    match l
    case Deciding(requestId, allow) => IsSent(g, requestId, allow)
    case Caching(requestId, allow) => IsSent(g, requestId, allow)
    case _ => true
  }

  /** Every verdict the sensor has written, has cached or has in hand was sent. */
  ghost predicate VerdictsOk(fr: F.State, g: A.Globals) {
    && (forall i :: 0 <= i < |fr.g.log.written| ==> IsSent(g, fr.g.log.written[i].requestId, fr.g.log.written[i].allow))
    && (forall i :: 0 <= i < |fr.g.log.cacheOps| && fr.g.log.cacheOps[i].Write? ==>
          IsSent(g, fr.g.log.cacheOps[i].requestId, fr.g.log.cacheOps[i].allow))
    && (forall u :: 0 <= u < |fr.threads| ==> IsSentBy(g, fr.threads[u]))
  }

  ghost predicate Inv(s: State) {
    S.Reachable(s.sensor) && A.Reachable(s.agent) && JobsOk(s) && VerdictsOk(s.sensor.fr, s.agent.g)
  }

  lemma SensorStays(s: S.State, step: S.Step)
    requires S.Reachable(s) && S.Enabled(s, step)
    ensures S.Reachable(S.Apply(s, step))
  {
    var run :| S.Exec(run) == Some(s);
    assert (run + [step])[..|run|] == run;
    assert S.Exec(run + [step]) == Some(S.Apply(s, step));
  }

  lemma AgentStays(s: A.State, step: A.Step)
    requires A.Reachable(s) && A.Enabled(s, step)
    ensures A.Reachable(A.Apply(s, step))
  {
    var run :| A.Exec(run) == Some(s);
    assert (run + [step])[..|run|] == run;
    assert A.Exec(run + [step]) == Some(A.Apply(s, step));
  }

  /** Whatever the sensor does, completions stay. */
  lemma CompletionsStay(s: S.State, step: S.Step)
    requires S.Enabled(s, step)
    ensures s.ch.g.log.completed <= S.Apply(s, step).ch.g.log.completed
  {
    match step
    case Create(pid, allowlisted, image) => CT.StepGrows(s.ch, C.Spawn(C.Notifying(pid, !allowlisted, image)));
    case FetchId(k) => CT.StepGrows(s.ch, C.Move(s.callbacks[k].inChannel));
    case InChannel(c) => CT.StepGrows(s.ch, c);
    case InFreeze(_) =>
  }

  /** A thread writes only the verdict it was started with, and hands on no other. */
  lemma ActWrites(g: F.Globals, l: F.Local, env: F.Env)
    requires F.Ready(g, l)
    ensures var (h, l') := F.Act(g, l, env);
            && !l'.Deciding?
            && (l'.Caching? ==> l == F.Deciding(l'.requestId, l'.allow))
            && (h.log.written == g.log.written
                || (l.Deciding? && h.log.written == g.log.written + [F.Written(l.requestId, l.allow)]))
            && (h.log.cacheOps == g.log.cacheOps
                || (l.Queued? && h.log.cacheOps == g.log.cacheOps + [V.Read(F.CtxOf(g, l.ctx).pid)])
                || (l.Caching? && h.log.cacheOps == g.log.cacheOps + [V.Write(l.requestId, l.allow, env.now)]))
  {
    hide F.TakeTarget, F.TakeScan, F.EventsOfScans, V.Recorded, V.Taken;
  }

  lemma FreezeKeepsVerdicts(fr: F.State, step: F.Step, g: A.Globals)
    requires F.Enabled(fr, step) && VerdictsOk(fr, g)
    requires step.Spawn? ==> IsSentBy(g, step.local)
    ensures VerdictsOk(F.Apply(fr, step), g)
  {
    hide IsSent;
    if step.Move? {
      var l := fr.threads[step.t];
      ActWrites(fr.g, l, step.env);
      assert IsSentBy(g, l);
      hide F.Act;
    }
  }

  lemma SensorKeepsVerdicts(s: S.State, step: S.Step, g: A.Globals)
    requires S.Enabled(s, step) && VerdictsOk(s.fr, g)
    requires Decides(step) ==> IsSentBy(g, step.fstep.local)
    ensures VerdictsOk(S.Apply(s, step).fr, g)
  {
    hide VerdictsOk;
    match step
    case Create(pid, allowlisted, _) => FreezeKeepsVerdicts(s.fr, F.Spawn(F.ProcessCreated(pid, allowlisted)), g);
    case FetchId(k) => FreezeKeepsVerdicts(s.fr, F.Move(s.callbacks[k].inFreeze, F.Env(true, 0)), g);
    case InChannel(_) =>
    case InFreeze(f) => FreezeKeepsVerdicts(s.fr, f, g);
  }

  lemma SensorKeepsJobs(s: State, step: S.Step)
    requires S.Enabled(s.sensor, step) && JobsOk(s)
    ensures JobsOk(s.(sensor := S.Apply(s.sensor, step)))
  {
    CompletionsStay(s.sensor, step);
    hide S.Apply, S.Enabled;
    var s' := s.(sensor := S.Apply(s.sensor, step));
    forall t | 0 <= t < |s.sources| ensures JobOk(s'.sensor.ch.g, s.sources[t], s.agent.threads[t].job) {
      assert JobOk(s.sensor.ch.g, s.sources[t], s.agent.threads[t].job);
    }
  }

  /** A job stays the same job, and verdicts sent stay sent. */
  lemma AgentKeeps(s: A.State, step: A.Step)
    requires A.Enabled(s, step) && !step.Spawn?
    ensures var s' := A.Apply(s, step);
            && s.g.log.sent <= s'.g.log.sent && |s'.threads| == |s.threads|
            && forall t :: 0 <= t < |s.threads| ==> s'.threads[t].job == s.threads[t].job
  {
    if step.Move? {
      AS.ActSends(s.g, step.t, s.threads[step.t], step.env);
      ActKeepsJob(s.g, step.t, s.threads[step.t], step.env);
      hide A.Act;
    }
  }

  lemma ActKeepsJob(g: A.Globals, t: nat, l: A.Local, env: A.Env)
    requires A.Ready(l)
    ensures A.Act(g, t, l, env).1.job == l.job
  {
  }

  lemma MoreIsSent(fr: F.State, g: A.Globals, h: A.Globals)
    requires VerdictsOk(fr, g) && g.log.sent <= h.log.sent
    ensures VerdictsOk(fr, h)
  {
    forall requestId, allow | IsSent(g, requestId, allow) ensures IsSent(h, requestId, allow) {
      var k :| 0 <= k < |g.log.sent| && g.log.sent[k].job.requestId == requestId && g.log.sent[k].allow == allow;
      assert h.log.sent[k] == g.log.sent[k];
    }
    hide IsSent;
    forall u | 0 <= u < |fr.threads| ensures IsSentBy(h, fr.threads[u]) {
      assert IsSentBy(g, fr.threads[u]);
    }
  }

  lemma StepKeeps(s: State, step: Step)
    requires Inv(s) && Enabled(s, step)
    ensures Inv(Apply(s, step))
  {
    hide S.Reachable, A.Reachable, S.Apply, A.Apply;
    match step
    case InSensor(x) =>
      SensorStays(s.sensor, x);
      SensorKeepsVerdicts(s.sensor, x, s.agent.g);
      SensorKeepsJobs(s, x);
    case InAgent(x) =>
      AgentStays(s.agent, x);
      AgentKeeps(s.agent, x);
      MoreIsSent(s.sensor.fr, s.agent.g, A.Apply(s.agent, x).g);
    case Handle(i, key) =>
      HandleKeeps(s, i, key);
    case Carry(k) =>
      CarryKeeps(s, k);
  }

  lemma HandleKeeps(s: State, i: nat, key: string)
    requires Inv(s) && Enabled(s, Handle(i, key))
    ensures Inv(Apply(s, Handle(i, key)))
  {
    hide S.Reachable, A.Reachable, VerdictsOk;
    AgentStays(s.agent, A.Spawn(JobFor(s.sensor.ch.g.log.completed[i].payload.value, key)));
    MoreIsSent(s.sensor.fr, s.agent.g, s.agent.g);
  }

  lemma CarryKeeps(s: State, k: nat)
    requires Inv(s) && Enabled(s, Carry(k))
    ensures Inv(Apply(s, Carry(k)))
  {
    hide S.Reachable, A.Reachable, VerdictsOk, JobsOk, S.Apply;
    var m := s.agent.g.log.sent[k];
    SensorStays(s.sensor, Verdict(m));
    SensorKeepsVerdicts(s.sensor, Verdict(m), s.agent.g);
    SensorKeepsJobs(s, Verdict(m));
    JobsDoNotLookBack(s.(sensor := S.Apply(s.sensor, Verdict(m))), s.carried + {k});
  }

  lemma JobsDoNotLookBack(s: State, carried: set<nat>)
    requires JobsOk(s)
    ensures JobsOk(s.(carried := carried))
  {
  }

  lemma {:induction false} RunKeeps(run: seq<Step>)
    requires Exec(run).Some?
    ensures Inv(Exec(run).value)
  {
    if run == [] {
      assert S.Exec([]) == Some(S.INIT) && A.Exec([]) == Some(A.INIT);
    } else {
      hide Inv, Apply, Enabled;
      RunKeeps(run[..|run| - 1]);
      StepKeeps(Exec(run[..|run| - 1]).value, run[|run| - 1]);
    }
  }

  // ----- What holds from end to end

  /** The job of a verdict, and the completion that delivered its event. */
  lemma SentByJob(s: State, k: nat) returns (t: nat)
    requires Inv(s) && k < |s.agent.g.log.sent|
    ensures t == s.agent.g.log.sent[k].thread < |s.agent.threads| == |s.sources|
    ensures JobOk(s.sensor.ch.g, s.sources[t], s.agent.g.log.sent[k].job)
    ensures CT.EventAt(s.sensor.ch, s.agent.g.log.sent[k].job.requestId, CT.UsedBy(s.sources[t]))
  {
    t := s.agent.g.log.sent[k].thread;
    AT.VerdictsNameTheirRequest(s.agent, k);
    assert JobOk(s.sensor.ch.g, s.sources[t], s.agent.threads[t].job);
    hide S.Reachable, A.Reachable, VerdictsOk;
  }

  lemma ChannelIsReachable(s: S.State)
    requires S.Reachable(s)
    ensures C.Reachable(s.ch) && F.Reachable(s.fr) && S.Matched(s) && S.EventsMatched(s)
  {
    var run :| S.Exec(run) == Some(s);
    S.RunKeeps(run);
  }

  /** No request is ever given two verdicts. */
  lemma OneVerdictPerRequest(s: State, j: nat, k: nat)
    requires Reachable(s) && j < k < |s.agent.g.log.sent|
    ensures s.agent.g.log.sent[j].job.requestId != s.agent.g.log.sent[k].job.requestId
  {
    var run :| Exec(run) == Some(s);
    RunKeeps(run);
    OnlyVerdict(s, j, k);
  }

  lemma OnlyVerdict(s: State, j: nat, k: nat)
    requires Inv(s) && j < k < |s.agent.g.log.sent|
    ensures s.agent.g.log.sent[j].job.requestId != s.agent.g.log.sent[k].job.requestId
  {
    var t := SentByJob(s, j);
    var u := SentByJob(s, k);
    if t == u {
      AT.EveryFrozenJobSendsOneVerdict(s.agent, t);
      TallyTwo(s.agent.g.log.sent, j, k, A.SentBy, t);
      assert false;
    }
    ChannelIsReachable(s.sensor);
    assert s.sources[t] != s.sources[u];
    hide S.Matched, S.EventsMatched, JobOk, S.Reachable, A.Reachable, C.Reachable, VerdictsOk;
    CT.EventInExactlyOnePlace(s.sensor.ch, s.agent.g.log.sent[j].job.requestId);
  }

  /** The verdict sent for a request carries the pid of the process that was frozen under it. */
  lemma VerdictIsForProcess(s: State, k: nat, c: nat)
    requires Inv(s) && k < |s.agent.g.log.sent| && c < |s.sensor.fr.g.contexts|
    requires s.agent.g.log.sent[k].job.requestId == s.sensor.fr.g.contexts[c].requestId
    ensures s.agent.g.log.sent[k].job.pid == s.sensor.fr.g.contexts[c].pid
  {
    var t := SentByJob(s, k);
    var r := s.agent.g.log.sent[k].job.requestId;
    ChannelIsReachable(s.sensor);
    CS.ReachableInv(s.sensor.ch);
    var e := CT.EventAtIsRaised(s.sensor.ch, r, CT.UsedBy(s.sources[t]));
    assert S.Frozen(s.sensor.requests, s.sensor.fr.g.contexts[c].pid, r);
    hide S.Reachable, A.Reachable, C.Reachable, F.Reachable, VerdictsOk, CS.Inv;
  }

  /** A process whose event was signalled before unload was signalled by one verdict, sent by a job of
      its own request for its own pid; the process is terminated exactly if that verdict denies. */
  lemma SignalledByItsVerdict(s: State, i: nat) returns (k: nat)
    requires Reachable(s) && i < |s.sensor.fr.g.log.exits| && s.sensor.fr.g.log.exits[i].Waited?
    requires s.sensor.fr.g.log.exits[i].signalled && !s.sensor.fr.g.log.exits[i].cleared
    ensures var (exit, sent) := (s.sensor.fr.g.log.exits[i], s.agent.g.log.sent);
            && exit.ctx < |s.sensor.fr.g.contexts| && k < |sent|
            && var ctx := s.sensor.fr.g.contexts[exit.ctx];
               && sent[k].job.requestId == ctx.requestId && sent[k].job.pid == ctx.pid
               && (exit.terminate <==> !sent[k].allow)
               && forall j :: 0 <= j < |sent| && sent[j].job.requestId == ctx.requestId ==> j == k
  {
    var run :| Exec(run) == Some(s);
    RunKeeps(run);
    ChannelIsReachable(s.sensor);
    FT.WaitingProcessGetsItsVerdict(s.sensor.fr, i);
    var exit, sent := s.sensor.fr.g.log.exits[i], s.agent.g.log.sent;
    var r := s.sensor.fr.g.contexts[exit.ctx].requestId;
    var w := FS.LastWrittenSource(s.sensor.fr.g.log.written[..exit.writes], r);
    assert IsSent(s.agent.g, r, s.sensor.fr.g.log.written[w].allow);
    k :| 0 <= k < |sent| && sent[k].job.requestId == r && sent[k].allow == s.sensor.fr.g.log.written[w].allow;
    VerdictIsForProcess(s, k, exit.ctx);
    hide Exec, S.Reachable, A.Reachable, C.Reachable, F.Reachable, S.Matched, S.EventsMatched, JobsOk, VerdictsOk,
      FS.LastWritten;
    IsTheOnlyVerdict(s, k);
  }

  lemma IsTheOnlyVerdict(s: State, k: nat)
    requires Inv(s) && k < |s.agent.g.log.sent|
    ensures var sent := s.agent.g.log.sent;
            forall j :: 0 <= j < |sent| && sent[j].job.requestId == sent[k].job.requestId ==> j == k
  {
    hide Inv;
    forall j | 0 <= j < |s.agent.g.log.sent| && j != k
      ensures s.agent.g.log.sent[j].job.requestId != s.agent.g.log.sent[k].job.requestId
    {
      OnlyVerdict(s, if j < k then j else k, if j < k then k else j);
    }
  }

  /** A process that did not wait was given the only verdict of the request that its pid happens to number,
      and is terminated exactly if that verdict denies. */
  lemma EarlyExitByVerdictOfPid(s: State, i: nat) returns (k: nat)
    requires Reachable(s) && i < |s.sensor.fr.g.log.exits| && s.sensor.fr.g.log.exits[i].Early?
    ensures var (exit, sent) := (s.sensor.fr.g.log.exits[i], s.agent.g.log.sent);
            && exit.ctx < |s.sensor.fr.g.contexts| && k < |sent|
            && sent[k].job.requestId == s.sensor.fr.g.contexts[exit.ctx].pid
            && (exit.terminate <==> !sent[k].allow)
            && forall j :: 0 <= j < |sent| && sent[j].job.requestId == sent[k].job.requestId ==> j == k
  {
    var run :| Exec(run) == Some(s);
    RunKeeps(run);
    ChannelIsReachable(s.sensor);
    FT.EarlyExitUsesVerdictOfPid(s.sensor.fr, i);
    var exit, sent := s.sensor.fr.g.log.exits[i], s.agent.g.log.sent;
    var pid := s.sensor.fr.g.contexts[exit.ctx].pid;
    V.IdealIsLastWrite(s.sensor.fr.g.log.cacheOps[..exit.uses], pid);
    var op := s.sensor.fr.g.log.cacheOps[V.LastWrite(s.sensor.fr.g.log.cacheOps[..exit.uses], pid)];
    assert IsSent(s.agent.g, pid, op.allow);
    k :| 0 <= k < |sent| && sent[k].job.requestId == pid && sent[k].allow == op.allow;
    IsTheOnlyVerdict(s, k);
    hide Exec, Inv, S.Reachable, V.Ideal, V.Survives;
  }

  /** From end to end: before unload, a process that waited is terminated exactly if its event was
      signalled and a job of its own request sent deny. */
  lemma TerminatedIffDenied(s: State, i: nat)
    requires Reachable(s) && i < |s.sensor.fr.g.log.exits|
    requires s.sensor.fr.g.log.exits[i].Waited? && !s.sensor.fr.g.log.exits[i].cleared
    ensures var exit := s.sensor.fr.g.log.exits[i];
            && exit.ctx < |s.sensor.fr.g.contexts|
            && (exit.terminate <==>
                  exit.signalled && IsSent(s.agent.g, s.sensor.fr.g.contexts[exit.ctx].requestId, false))
  {
    var exit := s.sensor.fr.g.log.exits[i];
    if exit.signalled {
      var k := SignalledByItsVerdict(s, i);
    } else {
      var run :| Exec(run) == Some(s);
      RunKeeps(run);
      ChannelIsReachable(s.sensor);
      FT.WaitingProcessGetsItsVerdict(s.sensor.fr, i);
    }
    hide Exec, Inv, S.Reachable, A.Reachable;
  }

  /** ... and one that was signalled and resumes was allowed on a completed scan of its job's file that
      scored at most 80; one that is terminated was denied on a scan that scored more, or because its
      file was empty or unreadable, or because two waits for another job's scan failed. */
  lemma ResumedOnAScan(s: State, i: nat) returns (k: nat)
    requires Reachable(s) && i < |s.sensor.fr.g.log.exits| && s.sensor.fr.g.log.exits[i].Waited?
    requires s.sensor.fr.g.log.exits[i].signalled && !s.sensor.fr.g.log.exits[i].cleared
    ensures k < |s.agent.g.log.sent|
    ensures var (exit, m) := (s.sensor.fr.g.log.exits[i], s.agent.g.log.sent[k]);
            && exit.ctx < |s.sensor.fr.g.contexts|
            && m.job.requestId == s.sensor.fr.g.contexts[exit.ctx].requestId
            && (match m.outcome
                case Some(basis) =>
                  && basis.from < |s.agent.g.log.scans| && s.agent.g.log.scans[basis.from].key == m.job.key
                  && s.agent.g.log.scans[basis.from].scan.details == basis.details
                  && (exit.terminate <==> basis.details.threatScore as int > 80)
                case None =>
                  && exit.terminate && m.thread in s.agent.g.log.answers
                  && (|| !s.agent.g.log.answers[m.thread].ok || s.agent.g.log.answers[m.thread].size == 0
                      || (m.thread in s.agent.g.log.readable && !s.agent.g.log.readable[m.thread])
                      || Tally(s.agent.g.log.failures, A.SameId, m.thread) == 2))
  {
    k := SignalledByItsVerdict(s, i);
    var run :| Exec(run) == Some(s);
    RunKeeps(run);
    AT.AllowIsBacked(s.agent, k);
    AT.DenyWithoutScanHasACause(s.agent, k);
    hide Exec, S.Reachable, A.Reachable, JobsOk, VerdictsOk, Tallies.Tally;
  }
}
