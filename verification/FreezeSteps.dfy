/** What the steps of the freeze protocol do to the lists, in every reachable state, said of their
    elements. */
module FreezeSteps {
  import opened Prelude
  import opened Freeze
  import opened FreezeSafety
  import opened FreezeTheorems
  import VerdictCache

  /** The step of thread `t`, by itself. */
  ghost function After(s: State, t: nat, env: Env): (Globals, Local)
    requires t < |s.threads| && Ready(s.g, s.threads[t])
  {
    Act(s.g, s.threads[t], env)
  }

  /** A new process is listed under the next request id, unless it is waved through. */
  lemma ProcessIsListed(s: State, t: nat, env: Env, env2: Env)
    requires t < |s.threads| && s.threads[t].ProcessCreated?
    ensures var (pid, r) := (s.threads[t].pid, s.g.nextRequest);
            var (g, l) := After(s, t, env);
            && g.nextRequest == r + 1
            && if s.threads[t].allowlisted then
                 l == Finished && g.targets == s.g.targets && g.log.allowlisted == s.g.log.allowlisted + [r]
               else
                 && l == Targeting(pid, r) && g.targets == s.g.targets
                 && Act(g, l, env2) == (g.(targets := s.g.targets + [Target(pid, r)]), Finished)
  {
  }

  /** The first thread of a listed process is about to be frozen for its process's request, and exactly that
      process leaves the list; a thread of any other process is left alone. */
  lemma ThreadIsMatched(s: State, t: nat, env: Env)
    requires Reachable(s) && t < |s.threads| && s.threads[t].ThreadCreated?
    ensures var (pid, ts) := (s.threads[t].pid, s.g.targets);
            && (forall i :: 0 <= i < |ts| && ts[i].pid == pid ==>
                  After(s, t, env) == (s.g.(targets := ts[..i] + ts[i + 1..]), Injecting(pid, ts[i].requestId)))
            && (After(s, t, env).1 == Finished <==> forall i :: 0 <= i < |ts| ==> ts[i].pid != pid)
            && (After(s, t, env).1 == Finished ==> After(s, t, env).0 == s.g)
  {
    PidAndRequestNameTheSameEntry(s);
    var (pid, ts) := (s.threads[t].pid, s.g.targets);
    var k := FindBy(ts, TargetPid, pid);
    forall i | 0 <= i < |ts| && ts[i].pid == pid
      ensures After(s, t, env) == (s.g.(targets := ts[..i] + ts[i + 1..]), Injecting(pid, ts[i].requestId))
    {
      assert k == Some(i);
    }
    if k.None? {
      assert forall i :: 0 <= i < |ts| ==> TargetPid(ts[i]) != pid;
    } else {
      assert ts[k.value].pid == pid;
    }
    hide Reachable, FindBy;
  }

  /** A matched thread gets an APC, with a context and a listed entry of its own that denies; if the thread
      is gone, nothing happens. */
  lemma ThreadIsFrozen(s: State, t: nat, env: Env, env2: Env)
    requires t < |s.threads| && s.threads[t].Injecting?
    ensures var (pid, r, c) := (s.threads[t].pid, s.threads[t].requestId, |s.g.contexts|);
            var (g, l) := After(s, t, env);
            if env.ok then
              && l == Counted(pid, r) && g == s.g.(apcCount := s.g.apcCount + 1)
              && var (h, k) := Act(g, l, env2);
                 && k == Inserting(c) && h == g.(contexts := h.contexts, scans := h.scans)
                 && h.contexts == s.g.contexts + [Ctx(pid, r)]
                 && h.scans == s.g.scans + [PendingScan(r, pid, c, false)]
            else
              l == Finished && g == s.g.(log := s.g.log.(abandoned := s.g.log.abandoned + [r]))
  {
  }

  /** A context whose APC is inserted waits for the APC to run; if it cannot be inserted, the context is
      freed and the thread goes on to take its entry off the list and to be no longer counted. */
  lemma InsertionDecides(s: State, t: nat, env: Env, env2: Env)
    requires t < |s.threads| && s.threads[t].Inserting?
    ensures var c := s.threads[t].ctx;
            && After(s, t, env) == (s.g, if env.ok then Queued(c) else InsertFailed(c))
            && var (g, l) := Act(s.g, InsertFailed(c), env2);
               && g == s.g.(log := s.g.log.(freed := s.g.log.freed + [Freed(c, NotInserted)])) && l == Unlisting(c)
  {
  }

  /** An APC that runs uses the first cached verdict whose request id is its process's id, and takes it out of
      the cache; if there is none, it waits. One whose thread is gone is run down. */
  lemma ApcStarts(s: State, t: nat, env: Env)
    requires t < |s.threads| && s.threads[t].Queued? && s.threads[t].ctx < |s.g.contexts|
    ensures var (c, pid, es) := (s.threads[t].ctx, s.g.contexts[s.threads[t].ctx].pid, s.g.cache);
            var (g, l) := After(s, t, env);
            if env.ok then
              && (forall i :: 0 <= i < |es| && es[i].requestId == pid
                              && (forall j :: 0 <= j < i ==> es[j].requestId != pid) ==>
                    && l.EarlyHit? && l.ctx == c && l.denied == !es[i].allowed
                    && g.cache == es[..i] + es[i + 1..])
              && (l == Waiting(c) <==> forall i :: 0 <= i < |es| ==> es[i].requestId != pid)
              && (l == Waiting(c) ==> g.cache == es)
              && g.scans == s.g.scans && g.signalled == s.g.signalled && g.apcCount == s.g.apcCount
            else
              g == s.g && l == RunningDown(c)
  {
    var (pid, es) := (s.g.contexts[s.threads[t].ctx].pid, s.g.cache);
    var k := VerdictCache.Find(es, pid);
    assert forall i :: 0 <= i < |es| ==> VerdictCache.RequestIdOf(es[i]) == es[i].requestId;
    if k.Some? {
      assert es[k.value].requestId == pid;
    }
  }

  /** A verdict is written to the entry of its request and to no other, and sets that entry's event; it goes
      to the cache exactly if there is no such entry. */
  lemma VerdictReachesItsEntry(s: State, t: nat, env: Env)
    requires Reachable(s) && t < |s.threads| && s.threads[t].Deciding?
    ensures var (r, allow, es) := (s.threads[t].requestId, s.threads[t].allow, s.g.scans);
            var (g, l) := After(s, t, env);
            && (forall i :: 0 <= i < |es| && es[i].requestId == r ==>
                  && l == Finished && g.signalled == s.g.signalled + {es[i].event}
                  && g.scans == es[i := PendingScan(r, es[i].pid, es[i].event, allow)])
            && (l == Caching(r, allow) <==> forall i :: 0 <= i < |es| ==> es[i].requestId != r)
            && (l.Caching? ==> g == s.g)
  {
    PidAndRequestNameTheSameEntry(s);
    var (r, es) := (s.threads[t].requestId, s.g.scans);
    var k := FindBy(es, ScanRequest, r);
    forall i | 0 <= i < |es| && es[i].requestId == r
      ensures k == Some(i)
    {
    }
    if k.None? {
      assert forall i :: 0 <= i < |es| ==> ScanRequest(es[i]) != r;
    } else {
      assert es[k.value].requestId == r;
    }
    hide Reachable, FindBy;
  }

  /** A wait ends signalled exactly if the event is set and the wait is satisfied, and changes nothing. */
  lemma WaitEnds(s: State, t: nat, env: Env)
    requires t < |s.threads| && s.threads[t].Waiting?
    ensures After(s, t, env) == (s.g, Woken(s.threads[t].ctx, !env.ok || s.threads[t].ctx !in s.g.signalled))
  {
  }

  /** An APC, and a failed insertion, takes its own entry off the list and nothing else; a process that
      waited is to be terminated exactly if it was woken by its event and its entry does not allow it. */
  lemma OwnEntryIsTaken(s: State, t: nat, env: Env)
    requires Reachable(s) && t < |s.threads|
    requires s.threads[t].Unlisting? || s.threads[t].EarlyHit? || s.threads[t].Woken?
    ensures var (l, c, es) := (s.threads[t], s.threads[t].ctx, s.g.scans);
            var (g, k) := After(s, t, env);
            && (forall i :: 0 <= i < |es| && es[i].event == c ==> g.scans == es[..i] + es[i + 1..])
            && ((forall i :: 0 <= i < |es| ==> es[i].event != c) ==> g.scans == es)
            && (l.Woken? ==>
                  && k.Freeing? && k.exit.Waited? && k.exit.signalled == !l.timedOut
                  && (k.exit.terminate <==>
                        !l.timedOut && !(exists i :: 0 <= i < |es| && es[i].event == c && es[i].allowed)))
  {
    ReachableInv(s);
    var (l, c, es) := (s.threads[t], s.threads[t].ctx, s.g.scans);
    assert LocalOk(s.g, l) && EntriesIn(l, c) == 1;
    ScansHaveOwnPids(s);
    TakesOwnEntry(s.g, c);
    ActListsScans(s.g, l, env);
    TakenByEvent(s.g, c);
    hide Reachable, Inv, FindBy, EventsOfScans, LastWritten;
  }

  lemma TakenByEvent(g: Globals, c: nat)
    requires GlobalOk(g) && c < |g.contexts|
    requires forall i, j :: 0 <= i < j < |g.scans| ==> g.scans[i].pid != g.scans[j].pid
    requires g.phase.Rank() < 3 ==> HasEntry(g, c)
    ensures var (after, item) := TakeScan(g.scans, CtxOf(g, c).pid);
            && (forall i :: 0 <= i < |g.scans| && g.scans[i].event == c ==>
                  after == g.scans[..i] + g.scans[i + 1..] && item == Some(g.scans[i]))
            && ((forall i :: 0 <= i < |g.scans| ==> g.scans[i].event != c) ==> after == g.scans && item == None)
  {
    TakesOwnEntry(g, c);
    var k := FindBy(g.scans, ScanPid, g.contexts[c].pid);
    forall i | 0 <= i < |g.scans| && g.scans[i].event == c
      ensures k == Some(i)
    {
      assert EntryOk(g, g.scans[i]);
      assert ScanPid(g.scans[i]) == g.contexts[c].pid;
    }
    hide FindBy, LastWritten;
  }

  /** Unload sets the event of every listed entry before it empties the list. */
  lemma UnloadWakesAll(s: State, t: nat, env: Env)
    requires t < |s.threads| && s.threads[t].Clearing? && Ready(s.g, s.threads[t])
    ensures var (g, l) := After(s, t, env);
            && g.scans == [] && s.g.signalled <= g.signalled
            && (forall i :: 0 <= i < |s.g.scans| ==> s.g.scans[i].event in g.signalled)
            && (forall c :: c in g.signalled ==>
                  c in s.g.signalled || exists i :: 0 <= i < |s.g.scans| && s.g.scans[i].event == c)
            && l == Draining
  {
  }

  /** An APC that has its answer frees its context, and only then is it no longer counted, and only then
      does it end as it was to; one that is run down frees its context and is no longer counted. */
  lemma ApcEnds(s: State, t: nat, env: Env)
    requires t < |s.threads| && (s.threads[t].Freeing? || s.threads[t].RunningDown?)
    ensures var (g, l) := After(s, t, env);
            if s.threads[t].Freeing? then
              var exit := s.threads[t].exit;
              && g.log.freed == s.g.log.freed + [Freed(exit.ctx, Normal)] && g.apcCount == s.g.apcCount
              && l == Leaving(exit)
              && var (h, k) := Act(g, l, env);
                 && h == g.(apcCount := g.apcCount - 1) && k == Exiting(exit)
                 && Act(h, k, env) == (h.(log := h.log.(exits := h.log.exits + [exit])), Finished)
            else
              && g.log.freed == s.g.log.freed + [Freed(s.threads[t].ctx, RunDown)] && l == Uncounting(false)
              && Act(g, l, env) == (g.(apcCount := g.apcCount - 1), Finished)
  {
  }
}
