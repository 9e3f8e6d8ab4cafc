/**
 What every interleaving of jobs on the scan cache keeps.
 */
module ScanSafety {
  import opened Prelude
  import opened Tallies
  import opened StaticAnalysis
  import opened ScanCache
  import opened ScanRuns

  // ----- The barriers and the keys in progress

  /** A step that leaves barriers alone keeps them in order. */
  lemma QuietKeepsGlobal(g: Globals, h: Globals)
    requires GlobalOk(g) && Extends(g, h)
    requires g.barriers == h.barriers && g.inProgress == h.inProgress
    requires g.log.owners == h.log.owners && g.log.settled == h.log.settled && g.log.results == h.log.results
    ensures GlobalOk(h)
  {
    hide Tallies.Tally;
    forall b | 0 <= b < |h.barriers|
      ensures BarrierOk(h, b)
    {
      assert BarrierOk(g, b);
    }
  }

  lemma ClaimKeepsGlobal(g: Globals, t: nat, job: Job, id: Id, n: nat)
    requires GlobalOk(g)
    ensures var (h, l) := ClaimSlot(g, t, job, id, n); GlobalOk(h) && (l.Waiting? ==> LocalOk(h, l))
  {
    hide Tallies.Tally;
    var (h, l) := ClaimSlot(g, t, job, id, n);
    if job.key in g.inProgress {
      QuietKeepsGlobal(g, h);
    } else {
      forall b | 0 <= b < |h.barriers|
        ensures BarrierOk(h, b)
      {
        if b < |g.barriers| {
          assert BarrierOk(g, b);
        }
      }
    }
  }

  lemma SettleKeepsGlobal(g: Globals, t: nat, key: Key, state: BarrierState, from: nat)
    requires GlobalOk(g) && key in g.inProgress && !state.Pending?
    requires state.Completed? ==>
               Known(g, from, key, state.scan) && IdOf(state.scan) == g.log.owners[g.inProgress[key]].id
    ensures GlobalOk(Settle(g, t, key, state, from))
  {
    hide Tallies.Tally;
    var h := Settle(g, t, key, state, from);
    var b := g.inProgress[key];
    forall c: nat
      ensures Tally(h.log.settled, SameId, c) == Tally(g.log.settled, SameId, c) + SameId(b, c)
    {
      TallyAppend(g.log.settled, b, SameId, c);
    }
    forall c | 0 <= c < |h.barriers|
      ensures BarrierOk(h, c)
    {
      assert BarrierOk(g, c);
    }
  }

  lemma ActKeepsGlobal(g: Globals, t: nat, l: Local, env: Env)
    requires CanAct(g, l)
    ensures GlobalOk(Act(g, t, l, env).0)
  {
    hide GlobalOk, HistoryOk, LastStored, Tallies.Tally;
    if l.Claiming? {
      ClaimKeepsGlobal(g, t, l.job, l.id, l.n);
    } else if l.Dropping? {
      SettleKeepsGlobal(g, t, l.job.key, Failed, 0);
    } else if l.Resolving? {
      SettleKeepsGlobal(g, t, l.job.key, Completed(l.scan), l.from);
    } else {
      ActExtends(g, t, l, env);
      QuietKeepsBarriers(g, t, l, env);
      QuietKeepsGlobal(g, Act(g, t, l, env).0);
    }
  }

  lemma LookUpOnlyNotes(g: Globals, job: Job, id: Id, n: nat, index: Option<nat>)
    ensures var (h, l) := LookUp(g, job, id, n, index);
            && h == g.(log := g.log.(hits := h.log.hits))
            && (l.Claiming? || l.Invalidating? || l.Probing? || l.Reporting?)
  {
    hide Look, LastStored, Over;
  }

  lemma WakeUpOnlyNotes(g: Globals, t: nat, job: Job, id: Id, n: nat, b: nat)
    ensures var h := WakeUp(g, t, job, id, n, b).0;
            h == g.(log := g.log.(failures := h.log.failures, acquires := h.log.acquires))
  {
    hide Over;
  }

  lemma QuietKeepsBarriers(g: Globals, t: nat, l: Local, env: Env)
    requires Ready(l) && !l.Claiming? && !l.Dropping? && !l.Resolving?
    ensures var h := Act(g, t, l, env).0;
            && g.barriers == h.barriers && g.inProgress == h.inProgress
            && g.log.owners == h.log.owners && g.log.settled == h.log.settled && g.log.results == h.log.results
  {
    match l {
      case Looking(job, id, n) => LookUpOnlyNotes(g, job, id, n, env.index);
      case Waiting(job, id, n, b) => WakeUpOnlyNotes(g, t, job, id, n, b);
      case _ =>
    }
    hide Analyze, LookUp, WakeUp, ClaimSlot, Settle, LastStored;
  }

  /** A barrier that has left Pending never changes again. */
  ghost predicate SettledStay(g: Globals, h: Globals) {
    |g.barriers| <= |h.barriers| && |g.log.owners| == |g.barriers| && |h.log.owners| == |h.barriers|
    && forall b :: 0 <= b < |g.barriers| ==>
         h.log.owners[b] == g.log.owners[b] && (!g.barriers[b].Pending? ==> h.barriers[b] == g.barriers[b])
  }

  lemma ActSettlesOnce(g: Globals, t: nat, l: Local, env: Env)
    requires CanAct(g, l)
    ensures SettledStay(g, Act(g, t, l, env).0)
  {
    hide Analyze, Look, LastStored, HistoryOk, Tallies.Tally;
    if l.HoldsGuard() {
      assert BarrierOk(g, g.inProgress[l.job.key]);
    }
  }

  // ----- The history

  lemma LastStoredAppend(changes: seq<Change>, change: Change, key: Key)
    ensures LastStored(changes + [change], key)
            == if change.key != key then LastStored(changes, key)
               else if change.Stored? then Some(change.from)
               else None
  {
    assert (changes + [change])[..|changes|] == changes;
  }

  /** The hits and verdicts so far stay as they were. */
  lemma HistoryStays(g: Globals, h: Globals)
    requires HistoryOk(g) && Extends(g, h)
    ensures forall i :: 0 <= i < |g.log.hits| ==> HitOk(h, g.log.hits[i])
    ensures forall i :: 0 <= i < |g.log.sent| ==>
              ReportOk(h, g.log.sent[i].job.key, g.log.sent[i].allow, g.log.sent[i].outcome)
  {
    forall i | 0 <= i < |g.log.hits|
      ensures HitOk(h, g.log.hits[i])
    {
      assert HitOk(g, g.log.hits[i]);
    }
    hide CacheOk, HitOk, ReportOk, Extends;
    forall i | 0 <= i < |g.log.sent|
      ensures ReportOk(h, g.log.sent[i].job.key, g.log.sent[i].allow, g.log.sent[i].outcome)
    {
      ReportStays(g, h, g.log.sent[i].job.key, g.log.sent[i].allow, g.log.sent[i].outcome);
    }
  }

  lemma QuietKeepsCache(g: Globals, h: Globals)
    requires HistoryOk(g) && Extends(g, h) && g.completed == h.completed && g.log.changes == h.log.changes
    ensures forall key :: CacheOk(h, key)
  {
    hide HitOk, ReportOk, LastStored;
    forall key
      ensures CacheOk(h, key)
    {
      assert CacheOk(g, key);
    }
  }

  lemma RemoveKeepsCache(g: Globals, key: Key)
    requires forall k :: CacheOk(g, k)
    ensures forall k :: CacheOk(Remove(g, key), k)
  {
    hide LastStored;
    forall k
      ensures CacheOk(Remove(g, key), k)
    {
      assert CacheOk(g, k);
      LastStoredAppend(g.log.changes, Removed(key), k);
    }
  }

  lemma StoreKeepsCache(g: Globals, key: Key, scan: CompletedScan, seen: Versions)
    requires forall k :: CacheOk(g, k)
    ensures forall k :: CacheOk(Store(g, key, scan, seen), k)
  {
    hide LastStored;
    forall k
      ensures CacheOk(Store(g, key, scan, seen), k)
    {
      assert CacheOk(g, k);
      LastStoredAppend(g.log.changes, Stored(key, |g.log.scans|), k);
    }
  }

  /** Using a finished result is a hit on a scan of that key, and allows what scored at most 80. */
  lemma HitKeepsHistory(g: Globals, job: Job, id: Id, index: Option<nat>, item: CompletedScan, from: nat)
    requires HistoryOk(g) && Known(g, from, job.key, item) && IdOf(item) == id
    requires item.fileIndex.Some? ==> item.fileIndex == index
    ensures var (h, l) := UseHit(g, job, id, index, Basis(item.details, from)); HistoryOk(h) && LocalOk(h, l)
  {
    var h := UseHit(g, job, id, index, Basis(item.details, from)).0;
    HistoryStays(g, h);
    QuietKeepsCache(g, h);
    assert HitOk(h, HitNote(job.key, id, index, Basis(item.details, from)));
    hide CacheOk, HitOk, LastStored;
  }

  lemma LookKeepsHistory(g: Globals, job: Job, id: Id, n: nat, index: Option<nat>)
    requires HistoryOk(g)
    ensures var (h, l) := LookUp(g, job, id, n, index); HistoryOk(h) && LocalOk(h, l)
  {
    assert CacheOk(g, job.key);
    var found := Look(g.completed, job.key, id.modTime, id.size);
    if found.Hit? {
      HitKeepsHistory(g, job, id, index, found.item, Cached(g, job.key));
    }
    assert g.log.changes[..|g.log.changes|] == g.log.changes;
    hide HistoryOk, UseHit, LastStored;
  }

  lemma ActKeepsHistory(g: Globals, t: nat, l: Local, env: Env)
    requires CanAct(g, l)
    ensures HistoryOk(Act(g, t, l, env).0)
  {
    var h := Act(g, t, l, env).0;
    hide GlobalOk, Tallies.Tally, LastStored;
    if l.Looking? {
      LookKeepsHistory(g, l.job, l.id, l.n, env.index);
      hide HistoryOk, LookUp;
    } else if l.Probing? && env.index == l.item.fileIndex {
      HitKeepsHistory(g, l.job, l.id, env.index, l.item, l.from);
      hide HistoryOk, UseHit;
    } else {
      ActExtends(g, t, l, env);
      HistoryStays(g, h);
      if l.Invalidating? {
        RemoveKeepsCache(g, l.job.key);
      } else if l.Storing? {
        StoreKeepsCache(g, l.job.key, l.scan, l.seen);
      } else {
        RestKeepsCache(g, t, l, env);
        QuietKeepsCache(g, h);
      }
      RestKeepsHits(g, t, l, env);
      hide CacheOk, HitOk, ReportOk, Act;
    }
  }

  lemma RestKeepsCache(g: Globals, t: nat, l: Local, env: Env)
    requires Ready(l) && !l.Looking? && !l.Invalidating? && !l.Storing?
    requires l.Probing? ==> env.index != l.item.fileIndex
    ensures var h := Act(g, t, l, env).0; h.completed == g.completed && h.log.changes == g.log.changes
  {
    hide Analyze, Look, LastStored;
  }

  /** Only a hit is logged as one, and only a verdict sent as sent. */
  lemma RestKeepsHits(g: Globals, t: nat, l: Local, env: Env)
    requires Ready(l) && !l.Looking?
    requires l.Probing? ==> env.index != l.item.fileIndex
    ensures var h := Act(g, t, l, env).0;
            && h.log.hits == g.log.hits
            && h.log.sent == if l.Reporting? then g.log.sent + [Sent(t, l.job, l.allow, l.outcome)] else g.log.sent
  {
    hide Analyze, Look, LastStored;
  }

  /** The scan is as the guard's holder saw the file. */
  lemma ActKeepsHolding(g: Globals, t: nat, l: Local, env: Env)
    requires CanAct(g, l)
    ensures var (h, l') := Act(g, t, l, env); l'.HoldsGuard() ==> HolderOk(h, l')
  {
    hide Analyze, Look, LastStored, HistoryOk, Tallies.Tally, BarrierOk;
  }

  lemma WakeUpKeepsOwn(g: Globals, t: nat, job: Job, id: Id, n: nat, b: nat)
    requires GlobalOk(g) && b < |g.barriers| && g.log.owners[b].key == job.key
    ensures var (h, l) := WakeUp(g, t, job, id, n, b); LocalOk(h, l)
  {
    assert BarrierOk(g, b);
    hide Tallies.Tally;
  }

  /** What a job knows after its own step. */
  lemma ActKeepsOwn(g: Globals, t: nat, l: Local, env: Env)
    requires CanAct(g, l)
    ensures var (h, l') := Act(g, t, l, env); LocalOk(h, l')
  {
    hide HitOk, HolderOk, Tallies.Tally, GlobalOk, HistoryOk, LastStored;
    ActKeepsHolding(g, t, l, env);
    match l {
      case Looking(job, id, n) => LookKeepsHistory(g, job, id, n, env.index);
      case Probing(job, id, n, item, from) =>
        if env.index == item.fileIndex {
          HitKeepsHistory(g, job, id, env.index, item, from);
        }
      case Invalidating(job, _, _, _) =>
        var h := Remove(g, job.key);
        assert h.log.changes[..|g.log.changes| + 1] == h.log.changes;
        LastStoredAppend(g.log.changes, Removed(job.key), job.key);
      case Claiming(job, id, n, _) => ClaimKeepsGlobal(g, t, job, id, n);
      case Waiting(job, id, n, b) => WakeUpKeepsOwn(g, t, job, id, n, b);
      case Reading(job, id) =>
        CachedVerdictIsFresh(env.inp);
        hide Analyze;
      case _ =>
    }
  }

  // ----- The counts

  function When(c: bool, n: nat): nat { if c then n else 0 }

  /** The counts of thread `u` after thread `t` went from `l` to `l'`. */
  function Counted(c: Counts, l: Local, l': Local, env: Env, one: nat): Counts {
    Counts(c.acquires + When(l'.Looking?, one),
           c.waits + When(l'.Waiting?, one),
           c.failures + When(l.Waiting? && (l'.Looking? || (l'.Reporting? && l'.outcome.None?)), one),
           c.claims + When(l'.Reading?, one),
           c.resolutions + When(l.Dropping? || l.Resolving?, one),
           c.sent + When(l.Reporting?, one),
           if one == 1 && l.Arrived? && l.job.frozen then Some(Answer(env.ok, env.id.size)) else c.answer,
           if one == 1 && l.Reading? then Some(env.ok) else c.read)
  }

  function Noted(log: seq<nat>, noted: bool, t: nat): seq<nat> { if noted then log + [t] else log }

  lemma TallyNoted(log: seq<nat>, noted: bool, t: nat, u: nat)
    ensures Tally(Noted(log, noted, t), SameId, u) == Tally(log, SameId, u) + When(noted, Same(t, u))
  {
    hide Tallies.Tally;
    TallyAppend(log, t, SameId, u);
  }

  /** What a step notes of its thread. */
  lemma ActNotes(g: Globals, t: nat, l: Local, env: Env)
    requires Ready(l)
    ensures var (h, l') := Act(g, t, l, env);
            && h.log.acquires == Noted(g.log.acquires, l'.Looking?, t)
            && h.log.waits == Noted(g.log.waits, l'.Waiting?, t)
            && h.log.failures ==
               Noted(g.log.failures, l.Waiting? && (l'.Looking? || (l'.Reporting? && l'.outcome.None?)), t)
            && h.log.claims == Noted(g.log.claims, l'.Reading?, t)
            && h.log.resolutions == Noted(g.log.resolutions, l.Dropping? || l.Resolving?, t)
            && h.log.answers ==
               (if l.Arrived? && l.job.frozen then g.log.answers[t := Answer(env.ok, env.id.size)] else g.log.answers)
            && h.log.readable == (if l.Reading? then g.log.readable[t := env.ok] else g.log.readable)
  {
    if l.Looking? {
      LookUpOnlyNotes(g, l.job, l.id, l.n, env.index);
    }
    hide Analyze, LookUp, UseHit, LastStored;
  }

  lemma ActTallies(g: Globals, t: nat, l: Local, env: Env, u: nat)
    requires Ready(l)
    ensures var (h, l') := Act(g, t, l, env);
            var (c, d) := (Counted(CountsOf(g, u), l, l', env, Same(t, u)), CountsOf(h, u));
            && d.acquires == c.acquires && d.waits == c.waits && d.failures == c.failures
            && d.claims == c.claims && d.resolutions == c.resolutions
  {
    hide Act, Noted, Tallies.Tally, Same, When;
    var l' := Act(g, t, l, env).1;
    ActNotes(g, t, l, env);
    TallyNoted(g.log.acquires, l'.Looking?, t, u);
    TallyNoted(g.log.waits, l'.Waiting?, t, u);
    TallyNoted(g.log.failures, l.Waiting? && (l'.Looking? || (l'.Reporting? && l'.outcome.None?)), t, u);
    TallyNoted(g.log.claims, l'.Reading?, t, u);
    TallyNoted(g.log.resolutions, l.Dropping? || l.Resolving?, t, u);
  }

  lemma ActTells(g: Globals, t: nat, l: Local, env: Env, u: nat)
    requires Ready(l)
    ensures var (h, l') := Act(g, t, l, env);
            var (c, d) := (Counted(CountsOf(g, u), l, l', env, Same(t, u)), CountsOf(h, u));
            d.sent == c.sent && d.answer == c.answer && d.read == c.read
  {
    hide Act, Noted, Tallies.Tally;
    ActNotes(g, t, l, env);
    ActSends(g, t, l, env);
    if l.Reporting? {
      TallyAppend(g.log.sent, Sent(t, l.job, l.allow, l.outcome), SentBy, u);
    }
  }

  lemma ActCounts(g: Globals, t: nat, l: Local, env: Env, u: nat)
    requires Ready(l)
    ensures var (h, l') := Act(g, t, l, env);
            CountsOf(h, u) == Counted(CountsOf(g, u), l, l', env, Same(t, u))
  {
    hide Act, CountsOf, Counted, Same;
    ActTallies(g, t, l, env, u);
    ActTells(g, t, l, env, u);
  }

  lemma ActFits(g: Globals, t: nat, l: Local, env: Env, c: Counts)
    requires Ready(l) && Fits(c, l)
    ensures var l' := Act(g, t, l, env).1; Fits(Counted(c, l, l', env, 1), l')
  {
    hide Analyze, Settle, Look, LastStored, Over;
  }

  lemma ActKeepsCounts(g: Globals, t: nat, l: Local, env: Env)
    requires Ready(l) && CountsOk(g, t, l)
    ensures var (h, l') := Act(g, t, l, env); CountsOk(h, t, l')
  {
    ActCounts(g, t, l, env, t);
    ActFits(g, t, l, env, CountsOf(g, t));
    hide Act, CountsOf, Fits;
  }

  lemma ActKeepsOtherCounts(g: Globals, t: nat, l: Local, env: Env, u: nat)
    requires Ready(l) && u != t
    ensures CountsOf(Act(g, t, l, env).0, u) == CountsOf(g, u)
  {
    hide Act, CountsOf;
    ActCounts(g, t, l, env, u);
  }

  // ----- One step of the whole system

  lemma ThreadCanAct(s: State, t: nat)
    requires Inv(s) && t < |s.threads| && Ready(s.threads[t])
    ensures CanAct(s.g, s.threads[t])
  {
    hide Tallies.Tally, GlobalOk, HistoryOk;
    var l := s.threads[t];
    if l.HoldsGuard() {
      TallyUpdate(s.threads, t, l, GuardsIn, l.job.key);
    }
  }

  /** No two threads hold guards of one key. */
  lemma GuardsDiffer(s: State, t: nat, u: nat)
    requires GuardLedger(s) && t < |s.threads| && u < |s.threads| && t != u
    ensures s.threads[t].HoldsGuard() && s.threads[u].HoldsGuard() ==> s.threads[t].job.key != s.threads[u].job.key
  {
    if s.threads[t].HoldsGuard() && s.threads[u].HoldsGuard() {
      TwoInList(s.threads, t, u, GuardsIn, s.threads[t].job.key);
    }
  }

  lemma MoveKeepsGuards(s: State, t: nat, env: Env)
    requires Inv(s) && Enabled(s, Move(t, env))
    ensures GuardLedger(Apply(s, Move(t, env)))
  {
    ThreadCanAct(s, t);
    hide Act, CanAct, Tallies.Tally, GuardsIn, HistoryOk, GlobalOk;
    var l := s.threads[t];
    var (h, l') := Act(s.g, t, l, env);
    forall key
      ensures Tally(s.threads[t := l'], GuardsIn, key) == if key in h.inProgress then 1 else 0
    {
      ActMovesGuards(s.g, t, l, env, key);
      TallyUpdate(s.threads, t, l', GuardsIn, key);
    }
  }

  /** A step sends at most one verdict, the acting job's last act. */
  lemma ActSends(g: Globals, t: nat, l: Local, env: Env)
    requires Ready(l)
    ensures var (h, l') := Act(g, t, l, env);
            if l.Reporting? then
              h.log.sent == g.log.sent + [Sent(t, l.job, l.allow, l.outcome)] && l' == Finished(l.job)
            else
              h.log.sent == g.log.sent
  {
    hide Analyze, Look;
  }

  /** The verdicts sent, after a step: at most one more, by a job that is finished now. */
  lemma MoveSends(s: State, t: nat, env: Env)
    requires SentForJobs(s) && Enabled(s, Move(t, env)) && CountsOk(s.g, t, s.threads[t])
    ensures SentForJobs(Apply(s, Move(t, env)))
  {
    hide Act, CountsOf, Excused, Fits, Counted;
    var s' := Apply(s, Move(t, env));
    ActSends(s.g, t, s.threads[t], env);
    if s.threads[t].Reporting? {
      ReportFits(s.g, t, s.threads[t], env);
    }
    forall i | 0 <= i < |s'.g.log.sent|
      ensures var m := s'.g.log.sent[i];
              && m.thread < |s'.threads| && s'.threads[m.thread] == Finished(m.job)
              && (m.outcome.None? <==> Excused(CountsOf(s'.g, m.thread)))
    {
      if i < |s.g.log.sent| {
        ActKeepsOtherCounts(s.g, t, s.threads[t], env, s.g.log.sent[i].thread);
      }
    }
  }

  /** A job that reports without a scan still has its excuse when it is done. */
  lemma ReportFits(g: Globals, t: nat, l: Local, env: Env)
    requires Ready(l) && CountsOk(g, t, l) && l.Reporting?
    ensures l.outcome.None? <==> Excused(CountsOf(Act(g, t, l, env).0, t))
  {
    hide Act, CountsOf;
    ActCounts(g, t, l, env, t);
  }

  lemma MoveKeepsThread(s: State, t: nat, env: Env, u: nat)
    requires Inv(s) && Enabled(s, Move(t, env)) && u < |s.threads|
    ensures var s' := Apply(s, Move(t, env)); LocalOk(s'.g, s'.threads[u]) && CountsOk(s'.g, u, s'.threads[u])
  {
    var l := s.threads[t];
    ThreadCanAct(s, t);
    assert LocalOk(s.g, s.threads[u]) && CountsOk(s.g, u, s.threads[u]);
    assert CountsOk(s.g, t, l);
    hide GuardLedger, SentForJobs, CanAct, LocalOk, HistoryOk, GlobalOk, Act, Fits, CountsOf;
    if u == t {
      ActKeepsOwn(s.g, t, l, env);
      ActKeepsCounts(s.g, t, l, env);
    } else {
      GuardsDiffer(s, t, u);
      ActKeepsOther(s.g, t, l, env, s.threads[u]);
      ActKeepsOtherCounts(s.g, t, l, env, u);
    }
  }

  lemma MoveKeeps(s: State, t: nat, env: Env)
    requires Inv(s) && Enabled(s, Move(t, env))
    ensures Inv(Apply(s, Move(t, env)))
  {
    var s' := Apply(s, Move(t, env));
    var l := s.threads[t];
    ThreadCanAct(s, t);
    MoveKeepsGuards(s, t, env);
    MoveSends(s, t, env);
    hide GuardLedger, SentForJobs, CanAct, LocalOk, HistoryOk, GlobalOk, Act, CountsOf, CountsOk;
    ActKeepsGlobal(s.g, t, l, env);
    ActKeepsHistory(s.g, t, l, env);
    forall u | 0 <= u < |s'.threads|
      ensures LocalOk(s'.g, s'.threads[u]) && CountsOk(s'.g, u, s'.threads[u])
    {
      MoveKeepsThread(s, t, env, u);
    }
    forall u: nat | u >= |s'.threads|
      ensures Untouched(s'.g, u)
    {
      assert Untouched(s.g, u);
      ActKeepsOtherCounts(s.g, t, l, env, u);
    }
  }

  lemma SpawnKeeps(s: State, job: Job)
    requires Inv(s)
    ensures Inv(Apply(s, Spawn(job)))
  {
    hide Tallies.Tally, HistoryOk, GlobalOk;
    var l := Arrived(job);
    assert Fits(NOTHING, l);
    forall key
      ensures Tally(s.threads + [l], GuardsIn, key) == Tally(s.threads, GuardsIn, key)
    {
      TallyAppend(s.threads, l, GuardsIn, key);
    }
    assert Untouched(s.g, |s.threads|);
  }

  lemma EvictKeeps(s: State, key: Key)
    requires Inv(s)
    ensures Inv(Apply(s, Evict(key)))
  {
    var h := Remove(s.g, key);
    assert Extends(s.g, h);
    QuietKeepsGlobal(s.g, h);
    HistoryStays(s.g, h);
    RemoveKeepsCache(s.g, key);
    assert HistoryOk(h) by {
      hide Tallies.Tally, HitOk, ReportOk, CacheOk;
    }
    hide GlobalOk, HistoryOk, Tallies.Tally, CacheOk, LastStored;
    forall t | 0 <= t < |s.threads|
      ensures LocalOk(h, s.threads[t]) && CountsOk(h, t, s.threads[t])
    {
      assert LocalOk(s.g, s.threads[t]) && CountsOk(s.g, t, s.threads[t]);
      EvictKeepsLocal(s.g, key, s.threads[t]);
      hide LocalOk;
    }
    forall t: nat | t >= |s.threads|
      ensures Untouched(h, t)
    {
      assert Untouched(s.g, t);
    }
    hide LocalOk;
    assert GuardLedger(s);
  }

  lemma EvictKeepsLocal(g: Globals, key: Key, l: Local)
    requires LocalOk(g, l)
    ensures LocalOk(Remove(g, key), l)
  {
    hide LastStored;
    if l.Claiming? {
      assert Remove(g, key).log.changes[..l.missed] == g.log.changes[..l.missed];
    }
  }

  lemma StepKeeps(s: State, step: Step)
    requires Inv(s) && Enabled(s, step)
    ensures Inv(Apply(s, step))
  {
    hide Inv;
    match step
    case Spawn(job) => SpawnKeeps(s, job);
    case Move(t, env) => MoveKeeps(s, t, env);
    case Evict(key) => EvictKeeps(s, key);
  }

  lemma {:induction false} RunKeeps(run: seq<Step>)
    requires Exec(run).Some?
    ensures Inv(Exec(run).value)
  {
    if run != [] {
      hide Inv, Apply;
      RunKeeps(run[..|run| - 1]);
      StepKeeps(Exec(run[..|run| - 1]).value, run[|run| - 1]);
    }
  }

  lemma ReachableInv(s: State)
    requires Reachable(s)
    ensures Inv(s)
  {
    var run :| Exec(run) == Some(s);
    RunKeeps(run);
  }
}
