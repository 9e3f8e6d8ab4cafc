/** When exactly an armed IRP can have events queued behind it. */
module ChannelBacklog {
  import opened Prelude
  import opened EventChannel
  import opened ChannelSafety
  import opened ChannelTheorems

  /** A thread on its way to pend an IRP. */
  predicate Starting(l: Local, irp: nat) {
    l == Dispatching(irp) || l == Polling(irp) || l == Pending(irp) || l == Arming(irp)
  }

  ghost predicate OnlyStarter(s: State, t: nat, irp: nat) {
    forall u :: 0 <= u < |s.threads| && u != t ==> !Starting(s.threads[u], irp)
  }

  ghost predicate NoneEnqueueing(s: State) {
    forall u :: 0 <= u < |s.threads| ==> !s.threads[u].Enqueueing?
  }

  predicate ArmedFor(g: Globals, irp: nat) { g.sh.pendingIrp == Some(irp) && irp in g.sh.cancelable }

  /** From the look at the empty queue until the IRP is claimed, nothing is queued and nobody is about to
      queue; after that the IRP is never armed again. */
  ghost predicate Quiet(s: State, t: nat, irp: nat) {
    && irp < |s.g.irps| && t < |s.threads| && OnlyStarter(s, t, irp)
    && if Starting(s.threads[t], irp) then
         s.threads[t].HoldsLock() && s.g.lock == Some(t) && s.g.sh.eventQueue == [] && NoneEnqueueing(s)
       else
         ArmedFor(s.g, irp) ==> s.g.sh.eventQueue == [] && NoneEnqueueing(s)
  }

  /** One step of a thread, seen from the IRP. */
  lemma ActStarts(g: Globals, t: nat, l: Local, irp: nat)
    requires Ready(g, l) && irp < |g.irps| && !Starting(l, irp)
    ensures var (h, l') := Act(g, t, l);
            && !Starting(l', irp) && irp < |h.irps|
            && (ArmedFor(h, irp) ==> ArmedFor(g, irp) && h.sh.pendingIrp == g.sh.pendingIrp && !l.Raising?)
  {
    hide Fill;
  }

  /** Without a look or an enqueueing nothing joins the queue. */
  lemma ActQueues(g: Globals, t: nat, l: Local)
    requires Ready(g, l) && !l.Enqueueing?
    ensures var (h, l') := Act(g, t, l);
            && (l'.Enqueueing? ==> l.Raising?)
            && (g.sh.eventQueue == [] ==> h.sh.eventQueue == [])
  {
    hide Fill;
  }

  lemma ActLocks(g: Globals, t: nat, l: Local, u: nat)
    requires Ready(g, l) && LocalOk(g, t, l) && g.lock == Some(u) && t != u
    ensures Act(g, t, l).0.lock == Some(u) && !l.Raising?
  {
    hide Fill, PushEvent;
  }

  lemma OtherKeepsQuiet(s: State, t: nat, irp: nat, u: nat)
    requires Inv(s) && Quiet(s, t, irp) && Enabled(s, Move(u)) && u != t
    ensures Quiet(Apply(s, Move(u)), t, irp)
  {
    var l := s.threads[u];
    assert LocalOk(s.g, u, l);
    ActStarts(s.g, u, l, irp);
    if !l.Enqueueing? {
      ActQueues(s.g, u, l);
    }
    if s.g.lock == Some(t) {
      ActLocks(s.g, u, l, t);
    }
    hide Act, Ledgers, GlobalOk, HistoryOk, LocalOk;
  }

  lemma OwnKeepsQuiet(s: State, t: nat, irp: nat)
    requires Inv(s) && Quiet(s, t, irp) && Enabled(s, Move(t))
    ensures Quiet(Apply(s, Move(t)), t, irp)
  {
    var l := s.threads[t];
    if !Starting(l, irp) {
      ActStarts(s.g, t, l, irp);
      if !l.Enqueueing? {
        ActQueues(s.g, t, l);
      }
      hide Act, Ledgers, GlobalOk, HistoryOk, LocalOk;
    } else {
      assert LocalOk(s.g, t, l);
      hide Ledgers, HistoryOk, Fill;
    }
  }

  lemma StepKeepsQuiet(s: State, t: nat, irp: nat, step: Step)
    requires Inv(s) && Quiet(s, t, irp) && Enabled(s, step)
    ensures Quiet(Apply(s, step), t, irp)
  {
    match step
    case Spawn(l) =>
    case Move(u) =>
      if u == t {
        OwnKeepsQuiet(s, t, irp);
      } else {
        OtherKeepsQuiet(s, t, irp, u);
      }
      hide Quiet, Inv, Apply;
  }

  lemma {:induction false} RunKeepsQuiet(run: seq<Step>, more: seq<Step>, t: nat, irp: nat)
    requires Exec(run + more).Some? && Exec(run).Some? && Quiet(Exec(run).value, t, irp)
    ensures Quiet(Exec(run + more).value, t, irp)
  {
    if more == [] {
      assert run + more == run;
    } else {
      var n := |more| - 1;
      assert (run + more)[..|run + more| - 1] == run + more[..n];
      hide Quiet, Inv, Apply, Enabled;
      RunKeepsQuiet(run, more[..n], t, irp);
      RunKeeps(run + more[..n]);
      StepKeepsQuiet(Exec(run + more[..n]).value, t, irp, more[n]);
    }
  }

  /** In the end the IRP is armed and something is queued. */
  ghost predicate Backlogged(run: seq<Step>, irp: nat) {
    Exec(run).Some? && ArmedFor(Exec(run).value.g, irp) && Exec(run).value.g.sh.eventQueue != []
  }

  lemma PollingIsQuiet(s: State, t: nat, irp: nat)
    requires Reachable(s) && t < |s.threads| && s.threads[t] == Polling(irp) && s.g.sh.eventQueue == []
    requires NoneEnqueueing(s)
    ensures Quiet(s, t, irp)
  {
    ReachableInv(s);
    assert LocalOk(s.g, t, s.threads[t]);
    forall u | 0 <= u < |s.threads| && u != t
      ensures !Starting(s.threads[u], irp)
    {
      if Starting(s.threads[u], irp) {
        assert IrpAt(s, irp, InHand(u)) && IrpAt(s, irp, InHand(t));
        IrpHasOnePlace(s, irp, InHand(u), InHand(t));
        assert false;
      }
    }
  }

  lemma EnqueueingBacklogs(run: seq<Step>, s: State, t: nat, irp: nat, u: nat) returns (more: seq<Step>)
    requires Exec(run) == Some(s) && t < |s.threads| && s.threads[t] == Polling(irp) && s.g.sh.eventQueue == []
    requires u < |s.threads| && s.threads[u].Enqueueing?
    ensures Backlogged(run + more, irp)
  {
    var s0, s1, s2, s3;
    var run0, run1, run2, run3;
    hide Fill, Exec;
    run0, s0 := Extend(run, s, Move(t));
    assert s0.threads[t] == Pending(irp) && s0.g.sh == s.g.sh;
    run1, s1 := Extend(run0, s0, Move(t));
    assert s1.threads[t] == Arming(irp) && s1.g.sh == s.g.sh.(pendingIrp := Some(irp));
    run2, s2 := Extend(run1, s1, Move(u));
    assert s2.threads[t] == Arming(irp) && s2.g.sh.pendingIrp == Some(irp) && |s2.g.sh.eventQueue| == 1;
    run3, s3 := Extend(run2, s2, Move(t));
    more := [Move(t), Move(t), Move(u), Move(t)];
    assert run + more == run3;
  }

  /** When GET_EVENT finds the queue empty, its IRP can come to be armed with an event queued exactly if
      some notifier has looked for an IRP by then and is yet to queue its event. */
  lemma BacklogIff(run: seq<Step>, s: State, t: nat, irp: nat)
    requires Exec(run) == Some(s) && t < |s.threads| && s.threads[t] == Polling(irp) && s.g.sh.eventQueue == []
    ensures (exists more :: Backlogged(run + more, irp))
            <==> exists u :: 0 <= u < |s.threads| && s.threads[u].Enqueueing?
  {
    if u :| 0 <= u < |s.threads| && s.threads[u].Enqueueing? {
      var more := EnqueueingBacklogs(run, s, t, irp, u);
    } else if more :| Backlogged(run + more, irp) {
      PollingIsQuiet(s, t, irp);
      RunKeepsQuiet(run, more, t, irp);
      assert false;
    }
  }
}
