/**
 The two protocols of the kernel sensor side by side. A process callback is one thread in both: it
 takes its request id from the one counter, adds its target, and only then looks at PENDING_IRP.
 */
module SensorRuns {
  import opened Prelude
  import C = EventChannel
  import CS = ChannelSafety
  import CT = ChannelTheorems
  import F = Freeze
  import FS = FreezeSafety
  import FT = FreezeTheorems

  /** A process callback: its thread in each protocol, and its request once it has one. */
  datatype Callback = Callback(inChannel: nat, inFreeze: nat, request: Option<nat>)

  datatype Request = Request(pid: nat, frozen: bool)

  /** `requests` logs what each request id was taken for. */
  datatype State = State(ch: C.State, fr: F.State, callbacks: seq<Callback>, requests: seq<Request>)

  const INIT: State := State(C.INIT, F.INIT, [], [])

  datatype Step =
    | Create(pid: nat, allowlisted: bool, image: Option<seq<bv16>>)
    | FetchId(k: nat)
    | InChannel(cstep: C.Step)
    | InFreeze(fstep: F.Step)

  /** The request whose callback this channel thread is, if it has not finished in the other
      protocol. */
  ghost predicate Unregistered(s: State, t: nat) {
    exists k :: 0 <= k < |s.callbacks| && s.callbacks[k].inChannel == t
                && s.callbacks[k].inFreeze < |s.fr.threads| && s.fr.threads[s.callbacks[k].inFreeze] != F.Finished
  }

  ghost predicate Enabled(s: State, step: Step) {
    match step
    case Create(pid, allowlisted, _) => F.Enabled(s.fr, F.Spawn(F.ProcessCreated(pid, allowlisted)))
    case FetchId(k) =>
      && k < |s.callbacks| && s.callbacks[k].request.None?
      && C.Enabled(s.ch, C.Move(s.callbacks[k].inChannel))
      && F.Enabled(s.fr, F.Move(s.callbacks[k].inFreeze, F.Env(true, 0)))
    case InChannel(c) =>
      && C.Enabled(s.ch, c)
      && (c.Spawn? ==> !c.local.Notifying?)
      && (c.Move? ==> !s.ch.threads[c.t].Notifying? && (s.ch.threads[c.t].Raising? ==> !Unregistered(s, c.t)))
    case InFreeze(f) =>
      && F.Enabled(s.fr, f)
      && (f.Spawn? ==> !f.local.ProcessCreated?)
      && (f.Move? ==> !s.fr.threads[f.t].ProcessCreated?)
  }

  ghost function Apply(s: State, step: Step): State
    requires Enabled(s, step)
  {
    match step
    case Create(pid, allowlisted, image) =>
      s.(ch := C.Apply(s.ch, C.Spawn(C.Notifying(pid, !allowlisted, image))),
         fr := F.Apply(s.fr, F.Spawn(F.ProcessCreated(pid, allowlisted))),
         callbacks := s.callbacks + [Callback(|s.ch.threads|, |s.fr.threads|, None)])
    case FetchId(k) =>
      var cb := s.callbacks[k];
      var l := s.ch.threads[cb.inChannel];
      s.(ch := C.Apply(s.ch, C.Move(cb.inChannel)),
         fr := F.Apply(s.fr, F.Move(cb.inFreeze, F.Env(true, 0))),
         callbacks := s.callbacks[k := cb.(request := Some(s.fr.g.nextRequest))],
         requests := if l.Notifying? then s.requests + [Request(l.processId, l.frozen)] else s.requests)
    case InChannel(c) => s.(ch := C.Apply(s.ch, c))
    case InFreeze(f) => s.(fr := F.Apply(s.fr, f))
  }

  ghost function Exec(run: seq<Step>): Option<State> {
    if run == [] then Some(INIT)
    else
      match Exec(run[..|run| - 1])
      case None => None
      case Some(s) => if Enabled(s, run[|run| - 1]) then Some(Apply(s, run[|run| - 1])) else None
  }

  ghost predicate Reachable(s: State) { exists run :: Exec(run) == Some(s) }

  // ----- The invariant

  /** Request `r` was taken for this process, to freeze it. */
  ghost predicate Frozen(requests: seq<Request>, pid: nat, r: nat) {
    1 <= r <= |requests| && requests[r - 1] == Request(pid, true)
  }

  ghost predicate CallbackOk(s: State, cb: Callback) {
    && cb.inChannel < |s.ch.threads| && cb.inFreeze < |s.fr.threads|
    && var c := s.ch.threads[cb.inChannel]; var f := s.fr.threads[cb.inFreeze];
       match cb.request
       case None => c.Notifying? && f == F.ProcessCreated(c.processId, !c.frozen)
       case Some(r) =>
         && !c.Notifying? && (f == F.Finished || (f.Targeting? && f.requestId == r))
         && (f.Targeting? ==> c.Raising? && c.event.requestId == r)
  }

  ghost predicate Taken(requests: seq<Request>, r: nat, frozen: bool) {
    1 <= r <= |requests| && requests[r - 1].frozen == frozen
  }

  /** Wherever the freeze protocol has a request id together with a pid, they belong together. */
  ghost predicate ListsMatched(requests: seq<Request>, g: F.Globals) {
    && (forall i :: 0 <= i < |g.targets| ==> Frozen(requests, g.targets[i].pid, g.targets[i].requestId))
    && (forall i :: 0 <= i < |g.contexts| ==> Frozen(requests, g.contexts[i].pid, g.contexts[i].requestId))
    && (forall i :: 0 <= i < |g.log.abandoned| ==> Taken(requests, g.log.abandoned[i], true))
    && (forall i :: 0 <= i < |g.log.allowlisted| ==> Taken(requests, g.log.allowlisted[i], false))
  }

  ghost predicate ThreadMatched(requests: seq<Request>, l: F.Local) {
    match l
    case Targeting(pid, r) => Frozen(requests, pid, r)
    case Injecting(pid, r) => Frozen(requests, pid, r)
    case Counted(pid, r) => Frozen(requests, pid, r)
    case _ => true
  }

  ghost predicate Matched(s: State) {
    && ListsMatched(s.requests, s.fr.g)
    && forall t :: 0 <= t < |s.fr.threads| ==> ThreadMatched(s.requests, s.fr.threads[t])
  }

  ghost predicate EventsMatched(s: State) {
    && |s.ch.g.log.raised| == |s.requests|
    && forall i :: 0 <= i < |s.requests| ==>
         s.ch.g.log.raised[i].processId == s.requests[i].pid && s.ch.g.log.raised[i].frozen == s.requests[i].frozen
  }

  ghost predicate Tracked(s: State) {
    && (forall k :: 0 <= k < |s.callbacks| ==> CallbackOk(s, s.callbacks[k]))
    && (forall u :: 0 <= u < |s.fr.threads| && s.fr.threads[u].InProcessCallback() ==> Tracks(s, u))
    && (forall j, k :: 0 <= j < k < |s.callbacks| ==>
          s.callbacks[j].inChannel != s.callbacks[k].inChannel && s.callbacks[j].inFreeze != s.callbacks[k].inFreeze)
  }

  ghost predicate Tracks(s: State, u: nat) { exists k :: 0 <= k < |s.callbacks| && s.callbacks[k].inFreeze == u }

  ghost predicate Inv(s: State) {
    && C.Reachable(s.ch) && F.Reachable(s.fr)
    && s.ch.g.nextRequest == s.fr.g.nextRequest == |s.requests| + 1
    && Tracked(s) && Matched(s) && EventsMatched(s)
  }

  lemma ChannelStays(s: C.State, step: C.Step)
    requires C.Reachable(s) && C.Enabled(s, step)
    ensures C.Reachable(C.Apply(s, step))
  {
    var run :| C.Exec(run) == Some(s);
    CT.ExecOne(run, step);
  }

  lemma FreezeStays(s: F.State, step: F.Step)
    requires F.Reachable(s) && F.Enabled(s, step)
    ensures F.Reachable(F.Apply(s, step))
  {
    var run :| F.Exec(run) == Some(s);
    var run', s' := FT.Extend(run, s, step);
  }

  lemma CreateKeeps(s: State, step: Step)
    requires Inv(s) && Enabled(s, step) && step.Create?
    ensures Inv(Apply(s, step))
  {
    var s' := Apply(s, step);
    ChannelStays(s.ch, C.Spawn(C.Notifying(step.pid, !step.allowlisted, step.image)));
    FreezeStays(s.fr, F.Spawn(F.ProcessCreated(step.pid, step.allowlisted)));
    assert s'.callbacks[|s.callbacks|].inFreeze == |s.fr.threads|;
    forall u | 0 <= u < |s'.fr.threads| && s'.fr.threads[u].InProcessCallback() ensures Tracks(s', u) {
      if u < |s.fr.threads| {
        var k :| 0 <= k < |s.callbacks| && s.callbacks[k].inFreeze == u;
        assert s'.callbacks[k].inFreeze == u;
      }
    }
    forall k | 0 <= k < |s'.callbacks| ensures CallbackOk(s', s'.callbacks[k]) {
      if k < |s.callbacks| {
        assert CallbackOk(s, s.callbacks[k]);
      }
    }
    forall j, k | 0 <= j < k < |s'.callbacks|
      ensures s'.callbacks[j].inChannel != s'.callbacks[k].inChannel
      ensures s'.callbacks[j].inFreeze != s'.callbacks[k].inFreeze
    {
      assert CallbackOk(s, s.callbacks[j]);
    }
    forall t | 0 <= t < |s'.fr.threads| ensures ThreadMatched(s'.requests, s'.fr.threads[t]) {
      if t < |s.fr.threads| {
        assert ThreadMatched(s.requests, s.fr.threads[t]);
      }
    }
  }

  lemma FetchKeepsCallbacks(s: State, k: nat)
    requires Inv(s) && Enabled(s, FetchId(k))
    ensures Tracked(Apply(s, FetchId(k)))
  {
    var s' := Apply(s, FetchId(k));
    assert CallbackOk(s, s.callbacks[k]);
    forall j | 0 <= j < |s'.callbacks| ensures CallbackOk(s', s'.callbacks[j]) {
      assert CallbackOk(s, s.callbacks[j]);
      if j != k {
        assert s.callbacks[if j < k then j else k].inChannel != s.callbacks[if j < k then k else j].inChannel;
        assert s.callbacks[if j < k then j else k].inFreeze != s.callbacks[if j < k then k else j].inFreeze;
      }
    }
    forall u | 0 <= u < |s'.fr.threads| && s'.fr.threads[u].InProcessCallback() ensures Tracks(s', u) {
      if u == s.callbacks[k].inFreeze {
        assert s'.callbacks[k].inFreeze == u;
      } else {
        assert Tracks(s, u);
        var j :| 0 <= j < |s.callbacks| && s.callbacks[j].inFreeze == u;
        assert s'.callbacks[j].inFreeze == u;
      }
    }
    forall i, j | 0 <= i < j < |s'.callbacks|
      ensures s'.callbacks[i].inChannel != s'.callbacks[j].inChannel
      ensures s'.callbacks[i].inFreeze != s'.callbacks[j].inFreeze
    {
      assert s.callbacks[i].inChannel != s.callbacks[j].inChannel && s.callbacks[i].inFreeze != s.callbacks[j].inFreeze;
    }
  }

  lemma FetchKeepsMatches(s: State, k: nat)
    requires Inv(s) && Enabled(s, FetchId(k))
    ensures var s' := Apply(s, FetchId(k));
            s'.ch.g.nextRequest == s'.fr.g.nextRequest == |s'.requests| + 1 && Matched(s') && EventsMatched(s')
  {
    var s' := Apply(s, FetchId(k));
    assert CallbackOk(s, s.callbacks[k]);
    forall t | 0 <= t < |s'.fr.threads| ensures ThreadMatched(s'.requests, s'.fr.threads[t]) {
      assert ThreadMatched(s.requests, s.fr.threads[t]);
    }
  }

  lemma ChannelRaisesNothing(g: C.Globals, t: nat, l: C.Local)
    requires C.Ready(g, l) && !l.Notifying?
    ensures var (g', l') := C.Act(g, t, l);
            g'.log.raised == g.log.raised && g'.nextRequest == g.nextRequest && !l'.Notifying?
  {
  }

  lemma InChannelKeeps(s: State, step: C.Step)
    requires Inv(s) && Enabled(s, InChannel(step))
    ensures Inv(Apply(s, InChannel(step)))
  {
    var s' := Apply(s, InChannel(step));
    ChannelStays(s.ch, step);
    if step.Move? {
      ChannelRaisesNothing(s.ch.g, step.t, s.ch.threads[step.t]);
    }
    hide C.Act, Matched, C.Reachable, F.Reachable;
    forall k | 0 <= k < |s'.callbacks| ensures CallbackOk(s', s'.callbacks[k]) {
      assert CallbackOk(s, s.callbacks[k]);
    }
    forall u | 0 <= u < |s'.fr.threads| && s'.fr.threads[u].InProcessCallback() ensures Tracks(s', u) {
      assert Tracks(s, u);
      var j :| 0 <= j < |s.callbacks| && s.callbacks[j].inFreeze == u;
      assert s'.callbacks[j].inFreeze == u;
    }
  }

  lemma EarlyKeepsMatches(requests: seq<Request>, g: F.Globals, l: F.Local, env: F.Env)
    requires F.Ready(g, l) && FS.BeforeContext(l) && !l.ProcessCreated?
    requires ListsMatched(requests, g) && ThreadMatched(requests, l)
    ensures var (g', l') := F.Act(g, l, env);
            ListsMatched(requests, g') && ThreadMatched(requests, l') && g'.nextRequest == g.nextRequest
  {
    if l.Injecting? {
      assert Taken(requests, l.requestId, true);
    }
    hide Frozen, Taken, F.CheckEarly, F.Collect, F.Decide, F.TakeScan, F.EventsOfScans;
  }

  /** The freeze protocol only passes its pairs of pid and request on. */
  lemma ActKeepsMatches(requests: seq<Request>, g: F.Globals, l: F.Local, env: F.Env)
    requires F.Ready(g, l) && !l.ProcessCreated?
    requires ListsMatched(requests, g) && ThreadMatched(requests, l)
    ensures var (g', l') := F.Act(g, l, env);
            ListsMatched(requests, g') && ThreadMatched(requests, l') && g'.nextRequest == g.nextRequest
  {
    if FS.BeforeContext(l) {
      EarlyKeepsMatches(requests, g, l, env);
    } else {
      FS.LateStepsStay(g, l, env);
      hide F.Act, Frozen, Taken;
    }
  }

  lemma FreezeKeepsMatches(s: State, step: F.Step)
    requires Inv(s) && Enabled(s, InFreeze(step))
    ensures Matched(Apply(s, InFreeze(step))) && Apply(s, InFreeze(step)).fr.g.nextRequest == s.fr.g.nextRequest
  {
    if step.Move? {
      ActKeepsMatches(s.requests, s.fr.g, s.fr.threads[step.t], step.env);
    }
    hide Frozen, Taken, ListsMatched, ThreadMatched, F.Act, Tracked, EventsMatched;
  }

  lemma InFreezeKeeps(s: State, step: F.Step)
    requires Inv(s) && Enabled(s, InFreeze(step))
    ensures Inv(Apply(s, InFreeze(step)))
  {
    var s' := Apply(s, InFreeze(step));
    FreezeStays(s.fr, step);
    FreezeKeepsMatches(s, step);
    hide Matched, F.Exec;
    forall k | 0 <= k < |s'.callbacks| ensures CallbackOk(s', s'.callbacks[k]) {
      assert CallbackOk(s, s.callbacks[k]);
    }
    forall u | 0 <= u < |s'.fr.threads| && s'.fr.threads[u].InProcessCallback() ensures Tracks(s', u) {
      assert Tracks(s, u);
      var j :| 0 <= j < |s.callbacks| && s.callbacks[j].inFreeze == u;
      assert s'.callbacks[j].inFreeze == u;
    }
  }

  lemma StepKeeps(s: State, step: Step)
    requires Inv(s) && Enabled(s, step)
    ensures Inv(Apply(s, step))
  {
    match step
    case Create(_, _, _) => CreateKeeps(s, step);
    case FetchId(k) =>
      FetchKeepsCallbacks(s, k);
      FetchKeepsMatches(s, k);
      ChannelStays(s.ch, C.Move(s.callbacks[k].inChannel));
      FreezeStays(s.fr, F.Move(s.callbacks[k].inFreeze, F.Env(true, 0)));
    case InChannel(c) => InChannelKeeps(s, c);
    case InFreeze(f) => InFreezeKeeps(s, f);
  }

  lemma {:induction false} RunKeeps(run: seq<Step>)
    ensures Exec(run).Some? ==> Inv(Exec(run).value)
  {
    if run == [] {
      assert C.Exec([]) == Some(C.INIT) && F.Exec([]) == Some(F.INIT);
    } else {
      RunKeeps(run[..|run| - 1]);
      var before := Exec(run[..|run| - 1]);
      if before.Some? && Enabled(before.value, run[|run| - 1]) {
        StepKeeps(before.value, run[|run| - 1]);
      }
    }
  }

  // ----- What the agent can rely on

  /** A stage of the freeze protocol past TARGET_PIDS, with the pid it has there. */
  ghost predicate Registered(s: State, pid: nat, r: nat, p: FT.RequestPlace) {
    && FT.RequestAt(s.fr, r, p)
    && match p
       case InHand(t) => s.fr.threads[t] == F.Injecting(pid, r) || s.fr.threads[t] == F.Counted(pid, r)
       case Targeted(i) => s.fr.g.targets[i].pid == pid
       case Injected(c) => s.fr.g.contexts[c].pid == pid
       case Abandoned(_) => true
       case Allowlisted(_) => false
  }

  /** Before an event can reach the agent, by the queue or in an IRP, its process has been given to
      the freeze protocol under the same pid and request id, if the event says it is frozen; and it
      has been waved through if the event says it is not. So a verdict never arrives for a request
      the sensor does not know yet. */
  lemma EventsFollowRegistration(s: State, r: nat, p: CT.EventPlace)
    requires Reachable(s) && CT.EventAt(s.ch, r, p)
    requires p.HeldBy? ==> !s.ch.threads[p.thread].Raising?
    ensures 1 <= r <= |s.requests| == |s.ch.g.log.raised|
    ensures var e := s.ch.g.log.raised[r - 1];
            && e.processId == s.requests[r - 1].pid && e.frozen == s.requests[r - 1].frozen
            && (e.frozen ==> exists q :: Registered(s, e.processId, r, q))
            && (!e.frozen ==> exists i :: FT.RequestAt(s.fr, r, FT.Allowlisted(i)))
  {
    var run :| Exec(run) == Some(s);
    RunKeeps(run);
    CT.EventInExactlyOnePlace(s.ch, r);
    FT.RequestInExactlyOnePlace(s.fr, r);
    hide CT.EventAt, Exec;
    var q :| FT.RequestAt(s.fr, r, q);
    NotTargeting(s, r, p, q);
    PlaceIsMatched(s, r, q);
  }

  lemma PlaceIsMatched(s: State, r: nat, q: FT.RequestPlace)
    requires Inv(s) && FT.RequestAt(s.fr, r, q) && 1 <= r <= |s.requests|
    requires q.InHand? ==> !s.fr.threads[q.thread].Targeting?
    ensures s.requests[r - 1].frozen ==> Registered(s, s.requests[r - 1].pid, r, q)
    ensures !s.requests[r - 1].frozen ==> q.Allowlisted?
  {
    hide C.Reachable, F.Reachable, Tracked, EventsMatched;
    if q.InHand? {
      assert ThreadMatched(s.requests, s.fr.threads[q.thread]);
    }
  }

  /** A process still to be added to TARGET_PIDS has not shown its event to anybody. */
  lemma NotTargeting(s: State, r: nat, p: CT.EventPlace, q: FT.RequestPlace)
    requires Inv(s) && CT.EventAt(s.ch, r, p) && FT.RequestAt(s.fr, r, q)
    requires p.HeldBy? ==> !s.ch.threads[p.thread].Raising?
    ensures q.InHand? ==> !s.fr.threads[q.thread].Targeting?
  {
    if q.InHand? && s.fr.threads[q.thread].Targeting? {
      assert Tracks(s, q.thread);
      var k :| 0 <= k < |s.callbacks| && s.callbacks[k].inFreeze == q.thread;
      assert CallbackOk(s, s.callbacks[k]);
      var t := s.callbacks[k].inChannel;
      assert CS.EventsIn(s.ch.threads[t], s.ch.threads[t].event) == 1;
      assert CT.EventAt(s.ch, r, CT.HeldBy(t));
      CT.EventInExactlyOnePlace(s.ch, r);
    }
  }
}
