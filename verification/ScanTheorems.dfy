/**
 What every run of jobs on the scan cache guarantees, and what it does not.
 */
module ScanTheorems {
  import opened Prelude
  import opened Tallies
  import Heuristics
  import opened StaticAnalysis
  import opened ScanCache
  import opened ScanRuns
  import opened ScanSafety

  // ----- Single flight

  /** A thread holds the guard of a key exactly if the key is in progress, and never do two. */
  lemma SingleFlight(s: State, key: Key)
    requires Reachable(s)
    ensures key in s.g.inProgress <==> exists t :: 0 <= t < |s.threads| && GuardsIn(s.threads[t], key) == 1
    ensures forall t, u :: 0 <= t < u < |s.threads| ==>
              GuardsIn(s.threads[t], key) == 0 || GuardsIn(s.threads[u], key) == 0
  {
    ReachableInv(s);
    hide GlobalOk, HistoryOk, LocalOk, CountsOk;
    if key in s.g.inProgress {
      var t := TallySource(s.threads, GuardsIn, key);
    }
    forall t | 0 <= t < |s.threads| && GuardsIn(s.threads[t], key) == 1
      ensures key in s.g.inProgress
    {
      TallyUpdate(s.threads, t, s.threads[t], GuardsIn, key);
    }
    forall t, u | 0 <= t < u < |s.threads|
      ensures GuardsIn(s.threads[t], key) == 0 || GuardsIn(s.threads[u], key) == 0
    {
      TallyTwo(s.threads, t, u, GuardsIn, key);
    }
  }

  /** A barrier is pending exactly while it is in the map, under the key it was made for; it has been
      settled once if it is not, and never before. */
  lemma PendingIffInMap(s: State, b: nat)
    requires Reachable(s) && b < |s.g.barriers|
    ensures |s.g.log.owners| == |s.g.barriers|
    ensures s.g.barriers[b].Pending? <==> exists key :: key in s.g.inProgress && s.g.inProgress[key] == b
    ensures forall key :: key in s.g.inProgress && s.g.inProgress[key] == b ==> key == s.g.log.owners[b].key
    ensures Tally(s.g.log.settled, SameId, b) == if s.g.barriers[b].Pending? then 0 else 1
  {
    ReachableInv(s);
    assert BarrierOk(s.g, b);
    hide HistoryOk, LocalOk, CountsOk, GuardLedger, Tallies.Tally;
  }

  /** However a run goes on, a settled barrier keeps its result. */
  lemma {:induction false} SettledForGood(run: seq<Step>, more: seq<Step>)
    requires Exec(run + more).Some?
    ensures Exec(run).Some? && SettledStay(Exec(run).value.g, Exec(run + more).value.g)
  {
    if more == [] {
      assert run + more == run;
      RunKeeps(run);
      assert GlobalOk(Exec(run).value.g);
    } else {
      var n := |more| - 1;
      assert (run + more)[..|run + more| - 1] == run + more[..n];
      SettledForGood(run, more[..n]);
      RunKeeps(run + more[..n]);
      var s := Exec(run + more[..n]).value;
      if more[n].Move? {
        ThreadCanAct(s, more[n].t);
        ActSettlesOnce(s.g, more[n].t, s.threads[more[n].t], more[n].env);
      }
      hide Inv, Act, CanAct;
    }
  }

  /** Whoever waits on a barrier waits for a scan of its own key, and while the barrier is pending
      some thread holds the guard that will settle it. */
  lemma NoStrandedWaiter(s: State, t: nat)
    requires Reachable(s) && t < |s.threads| && s.threads[t].Waiting?
    ensures var (b, key) := (s.threads[t].barrier, s.threads[t].job.key);
            b < |s.g.barriers| && (s.g.barriers[b].Pending? ==>
              && key in s.g.inProgress && s.g.inProgress[key] == b
              && exists u :: 0 <= u < |s.threads| && GuardsIn(s.threads[u], key) == 1)
  {
    ReachableInv(s);
    var b := s.threads[t].barrier;
    assert LocalOk(s.g, s.threads[t]);
    assert BarrierOk(s.g, b);
    SingleFlight(s, s.threads[t].job.key);
    hide HistoryOk, CountsOk, GuardLedger, Tallies.Tally;
  }

  /** How many steps a guard's holder is from resolving it. */
  function StepsToResolve(l: Local): nat {
    match l
    case Reading(_, _) => 4
    case Indexing(_, _, _, _, _) => 3
    case Storing(_, _, _, _) => 2
    case Resolving(_, _, _, _) => 1
    case Dropping(_, _) => 1
    case _ => 0
  }

  /** Whatever the world answers, the holder's every step resolves the guard or brings it closer: at
      most four of its steps settle the barrier. */
  lemma GuardIsResolved(s: State, t: nat, env: Env)
    requires Reachable(s) && t < |s.threads| && s.threads[t].HoldsGuard()
    ensures var (key, s') := (s.threads[t].job.key, Apply(s, Move(t, env)));
            && key in s.g.inProgress && s.g.inProgress[key] < |s.g.barriers|
            && (if s'.threads[t].HoldsGuard() then
                  StepsToResolve(s'.threads[t]) < StepsToResolve(s.threads[t]) <= 4
                  && s'.threads[t].job == s.threads[t].job && s'.g.inProgress == s.g.inProgress
                else
                  !s'.g.barriers[s.g.inProgress[key]].Pending? && key !in s'.g.inProgress)
  {
    ReachableInv(s);
    ThreadCanAct(s, t);
    hide HistoryOk, CountsOk, LocalOk, GuardLedger, Analyze, BarrierOk, Tallies.Tally;
  }

  /** What a wait returns was completed by a guard for the waiter's key; it times out only if the
      barrier is still pending. */
  lemma WaiterGetsAScanOfItsKey(s: State, t: nat)
    requires Reachable(s) && t < |s.threads| && s.threads[t].Waiting?
    ensures var b := s.threads[t].barrier;
            b < |s.g.barriers| &&
            match WaitOn(s.g.barriers[b])
            case Done(scan) => b in s.g.log.results && Known(s.g, s.g.log.results[b], s.threads[t].job.key, scan)
            case Aborted => s.g.barriers[b] == Failed
            case Timeout => s.threads[t].job.key in s.g.inProgress
  {
    ReachableInv(s);
    assert LocalOk(s.g, s.threads[t]);
    assert BarrierOk(s.g, s.threads[t].barrier);
    hide HistoryOk, CountsOk, GuardLedger, Tallies.Tally;
  }

  /** The scan is of the size and time the waiter saw exactly if the job that claimed the scan saw the
      same: a waiter gets its own version of the file or not according to whom it waits for. */
  lemma WaiterGetsItsVersionIff(s: State, t: nat)
    requires Reachable(s) && t < |s.threads| && s.threads[t].Waiting?
    ensures var (b, id) := (s.threads[t].barrier, s.threads[t].id);
            && b < |s.g.barriers| == |s.g.log.owners|
            && (s.g.barriers[b].Completed? ==>
                  (IdOf(s.g.barriers[b].scan) == id <==> s.g.log.owners[b].id == id))
  {
    ReachableInv(s);
    assert LocalOk(s.g, s.threads[t]);
    assert BarrierOk(s.g, s.threads[t].barrier);
    hide HistoryOk, CountsOk, GuardLedger, Tallies.Tally;
  }

  /** A scan becomes known only when the holder of the guard for its key stores it, and keeps its
      number. */
  lemma ScansComeFromGuards(s: State, step: Step, from: nat, key: Key, scan: CompletedScan)
    requires Enabled(s, step) && Known(Apply(s, step).g, from, key, scan) && !Known(s.g, from, key, scan)
    ensures step.Move? && s.threads[step.t].Storing? && s.threads[step.t].scan == scan
    ensures GuardsIn(s.threads[step.t], key) == 1 && from == |s.g.log.scans|
  {
    if step.Move? && !s.threads[step.t].Storing? {
      OnlyStoringLogs(s.g, step.t, s.threads[step.t], step.env);
      hide Act;
    }
    hide Analyze, LookUp, WakeUp, ClaimSlot, Settle, LastStored;
  }

  lemma OnlyStoringLogs(g: Globals, t: nat, l: Local, env: Env)
    requires Ready(l) && !l.Storing?
    ensures Act(g, t, l, env).0.log.scans == g.log.scans
  {
    match l {
      case Looking(job, id, n) => LookUpOnlyNotes(g, job, id, n, env.index);
      case Waiting(job, id, n, b) => WakeUpOnlyNotes(g, t, job, id, n, b);
      case _ =>
    }
    hide Analyze, LookUp, WakeUp, LastStored;
  }

  // ----- Redundant scans

  /** Some change stored such a scan for the key, and no later change was of that key. */
  ghost predicate StoredAt(g: Globals, key: Key, id: Id, i: nat) {
    && i < |g.log.changes| && g.log.changes[i].Stored? && g.log.changes[i].key == key
    && g.log.changes[i].from < |g.log.scans| && IdOf(g.log.scans[g.log.changes[i].from].scan) == id
    && forall j :: i < j < |g.log.changes| ==> g.log.changes[j].key != key
  }

  predicate Usable(g: Globals, key: Key, id: Id) { key in g.completed && IdOf(g.completed[key]) == id }

  lemma {:induction false} LastStoredAt(changes: seq<Change>, key: Key, from: nat, missed: nat)
    returns (i: nat)
    requires missed <= |changes| && LastStored(changes[..missed], key).None? && LastStored(changes, key) == Some(from)
    ensures missed <= i < |changes| && changes[i] == Stored(key, from)
    ensures forall j :: i < j < |changes| ==> changes[j].key != key
  {
    var n := |changes| - 1;
    assert changes[..|changes|] == changes;
    if changes[n].key == key {
      i := n;
    } else {
      assert changes[..n][..missed] == changes[..missed];
      i := LastStoredAt(changes[..n], key, from, missed);
    }
  }

  lemma {:induction false} StoredIsLast(changes: seq<Change>, key: Key, i: nat)
    requires i < |changes| && changes[i].Stored? && changes[i].key == key
    requires forall j :: i < j < |changes| ==> changes[j].key != key
    ensures LastStored(changes, key) == Some(changes[i].from)
  {
    var n := |changes| - 1;
    if i < n {
      StoredIsLast(changes[..n], key, i);
    }
  }

  /** A job that is about to claim a scan finds a usable result cached, and so scans what need not be
      scanned, exactly if one was stored for its key after the job last found the key missing, and was
      neither evicted nor replaced since. */
  lemma ClaimIsRedundantIff(s: State, t: nat)
    requires Reachable(s) && t < |s.threads| && s.threads[t].Claiming?
    ensures var l := s.threads[t];
            Usable(s.g, l.job.key, l.id) <==> exists i :: l.missed <= i && StoredAt(s.g, l.job.key, l.id, i)
  {
    ReachableInv(s);
    var l := s.threads[t];
    assert LocalOk(s.g, l) && CacheOk(s.g, l.job.key);
    if Usable(s.g, l.job.key, l.id) {
      var i := LastStoredAt(s.g.log.changes, l.job.key, LastStored(s.g.log.changes, l.job.key).value, l.missed);
      assert StoredAt(s.g, l.job.key, l.id, i);
    }
    if i :| l.missed <= i && StoredAt(s.g, l.job.key, l.id, i) {
      StoredIsLast(s.g.log.changes, l.job.key, i);
    }
  }

  // ----- Hits

  /** A hit returns the details of a scan completed for the same key, with the size and time the
      caller saw and with the current file index whenever one was recorded. */
  lemma HitIsACompletedScan(s: State, i: nat)
    requires Reachable(s) && i < |s.g.log.hits|
    ensures HitOk(s.g, s.g.log.hits[i])
  {
    ReachableInv(s);
    hide HitOk, GlobalOk, GuardLedger;
  }

  /** What there is to see of a file in each of its versions. */
  type Content = (Key, Version) -> Inputs

  /** What a scan sees that was shown these versions: its hash, and what is known of it, its certificate,
      and all that follows from its bytes. */
  function Seen(content: Content, key: Key, seen: Versions): Inputs {
    content(key, seen.bytes).(
      md5 := content(key, seen.hash).md5,
      record := content(key, seen.hash).record,
      certificate := content(key, seen.certificate).certificate)
  }

  /** A run is faithful if every scan saw what there was to see in the versions it was shown. */
  ghost predicate Sees(s: State, step: Step, content: Content) {
    step.Move? && step.t < |s.threads| && s.threads[step.t].Reading? && step.env.ok ==>
      step.env.inp == Seen(content, s.threads[step.t].job.key, step.env.seen)
  }

  ghost predicate Faithful(run: seq<Step>, content: Content) {
    run != [] ==>
      var past := run[..|run| - 1];
      Faithful(past, content) && Exec(past).Some? && Sees(Exec(past).value, run[|run| - 1], content)
  }

  ghost predicate IsScanOf(key: Key, seen: Versions, details: Details, content: Content) {
    details == Analyze(Seen(content, key, seen)).0
  }

  ghost predicate ScanMatches(n: Scanned, content: Content) { IsScanOf(n.key, n.seen, n.scan.details, content) }

  ghost predicate LocalMatches(l: Local, content: Content) {
    match l
    case Indexing(job, _, details, _, seen) => IsScanOf(job.key, seen, details, content)
    case Storing(job, scan, _, seen) => ScanMatches(Scanned(job.key, scan, seen), content)
    case _ => true
  }

  ghost predicate Matches(s: State, content: Content) {
    && (forall n :: n in s.g.log.scans ==> ScanMatches(n, content))
    && (forall t :: 0 <= t < |s.threads| ==> LocalMatches(s.threads[t], content))
  }

  lemma ActMatches(g: Globals, t: nat, l: Local, env: Env, content: Content)
    requires Ready(l) && LocalMatches(l, content)
    requires l.Reading? && env.ok ==> env.inp == Seen(content, l.job.key, env.seen)
    requires forall n :: n in g.log.scans ==> ScanMatches(n, content)
    ensures var (h, l') := Act(g, t, l, env);
            LocalMatches(l', content) && forall n :: n in h.log.scans ==> ScanMatches(n, content)
  {
    hide Analyze, Look, LastStored, Seen;
  }

  lemma {:induction false} RunMatches(run: seq<Step>, content: Content)
    requires Exec(run).Some? && Faithful(run, content)
    ensures Matches(Exec(run).value, content)
  {
    if run != [] {
      var past, step := run[..|run| - 1], run[|run| - 1];
      RunMatches(past, content);
      var s := Exec(past).value;
      if step.Move? {
        ActMatches(s.g, step.t, s.threads[step.t], step.env, content);
      }
      hide Act, IsScanOf, Faithful, Seen;
    }
  }

  /** The version of the file that the scan's record speaks of. */
  function Recorded(scan: CompletedScan): Version { Version(IdOf(scan), scan.fileIndex) }

  /** Whatever was inserted, invalidated and evicted meanwhile, a hit is what a scan finds in the versions
      that were shown to the scan it comes from. Where that scan recorded an index, these are all the
      version the caller sees exactly if they are all the version that was recorded: the file was neither
      rewritten nor replaced between any two of the scan's looks at it. Then the hit is the caller's own
      rescan; without an index, it is the rescan of a file that has none. */
  lemma HitEqualsRescan(run: seq<Step>, content: Content, i: nat)
    requires Exec(run).Some? && Faithful(run, content) && i < |Exec(run).value.g.log.hits|
    ensures var g := Exec(run).value.g;
            var hit := g.log.hits[i];
            && hit.basis.from < |g.log.scans|
            && var n := g.log.scans[hit.basis.from];
               && hit.basis.details == Analyze(Seen(content, hit.key, n.seen)).0
               && (n.scan.fileIndex.Some? ==>
                     (n.seen == Always(Version(hit.id, hit.index)) <==> n.seen == Always(Recorded(n.scan))))
               && (n.seen == Always(Recorded(n.scan)) ==>
                     var index := if n.scan.fileIndex.Some? then hit.index else None;
                     hit.basis.details == Analyze(content(hit.key, Version(hit.id, index))).0)
  {
    var s := Exec(run).value;
    RunMatches(run, content);
    assert Reachable(s);
    HitIsACompletedScan(s, i);
    var n := s.g.log.scans[s.g.log.hits[i].basis.from];
    assert ScanMatches(n, content);
    hide Analyze, Exec, Matches, Faithful;
  }

  /** ... every verdict that has a scan to go by is the fresh verdict on the versions that were shown. */
  lemma VerdictsAreFresh(run: seq<Step>, content: Content, i: nat)
    requires Exec(run).Some? && Faithful(run, content) && i < |Exec(run).value.g.log.sent|
    requires Exec(run).value.g.log.sent[i].outcome.Some?
    ensures var g := Exec(run).value.g;
            var m := g.log.sent[i];
            && m.outcome.value.from < |g.log.scans|
            && var n := g.log.scans[m.outcome.value.from];
               && Analyze(Seen(content, m.job.key, n.seen)) == (m.outcome.value.details, m.allow)
               && (n.seen == Always(Recorded(n.scan)) ==>
                     Analyze(content(m.job.key, Recorded(n.scan))) == (m.outcome.value.details, m.allow))
  {
    var s := Exec(run).value;
    RunMatches(run, content);
    RunKeeps(run);
    var m := s.g.log.sent[i];
    assert ReportOk(s.g, m.job.key, m.allow, m.outcome);
    var n := s.g.log.scans[m.outcome.value.from];
    assert ScanMatches(n, content);
    CachedVerdictIsFresh(Seen(content, m.job.key, n.seen));
    hide Analyze, Exec, Inv, Matches, Faithful;
  }

  /** ... and what a waiter is about to report is its own rescan, if the job it waited for saw the same
      size and time, and the file was not changed while it was scanned. */
  lemma WaiterReportsItsRescan(run: seq<Step>, content: Content, t: nat)
    requires Exec(run).Some? && Faithful(run, content) && t < |Exec(run).value.threads|
    requires Exec(run).value.threads[t].Waiting?
    ensures var (g, l) := (Exec(run).value.g, Exec(run).value.threads[t]);
            && l.barrier < |g.barriers| == |g.log.owners|
            && (g.barriers[l.barrier].Completed? ==>
                  && l.barrier in g.log.results && g.log.results[l.barrier] < |g.log.scans|
                  && var (scan, seen) := (g.barriers[l.barrier].scan, g.log.scans[g.log.results[l.barrier]].seen);
                     && scan.details == Analyze(Seen(content, l.job.key, seen)).0
                     && (seen == Always(Recorded(scan)) && g.log.owners[l.barrier].id == l.id ==>
                           scan.details == Analyze(content(l.job.key, Version(l.id, scan.fileIndex))).0))
  {
    var s := Exec(run).value;
    RunMatches(run, content);
    assert Reachable(s);
    WaiterGetsAScanOfItsKey(s, t);
    WaiterGetsItsVersionIff(s, t);
    var b := s.threads[t].barrier;
    if s.g.barriers[b].Completed? {
      assert ScanMatches(s.g.log.scans[s.g.log.results[b]], content);
    }
    hide Analyze, Exec, Matches, Faithful;
  }

  // ----- Verdicts

  /** A finished job has sent exactly one verdict if its event was frozen, and none if it was not; on
      the way it acquired and waited at most twice, and resolved once whatever it claimed. */
  lemma EveryFrozenJobSendsOneVerdict(s: State, t: nat)
    requires Reachable(s) && t < |s.threads|
    ensures var c := CountsOf(s.g, t);
            && c.acquires <= 2 && c.waits <= 2 && c.resolutions <= c.claims <= 1
            && c.sent == (if s.threads[t].Finished? && s.threads[t].job.frozen then 1 else 0)
            && (s.threads[t].Finished? ==> c.resolutions == c.claims)
  {
    ReachableInv(s);
    assert CountsOk(s.g, t, s.threads[t]);
    hide GuardLedger, GlobalOk, HistoryOk, LocalOk, Tallies.Tally;
  }

  /** Each verdict sent carries the request id of the job that sent it. */
  lemma VerdictsNameTheirRequest(s: State, i: nat)
    requires Reachable(s) && i < |s.g.log.sent|
    ensures s.g.log.sent[i].thread < |s.threads|
    ensures s.threads[s.g.log.sent[i].thread] == Finished(s.g.log.sent[i].job) && s.g.log.sent[i].job.frozen
  {
    ReachableInv(s);
    var t := s.g.log.sent[i].thread;
    assert CountsOk(s.g, t, s.threads[t]);
    TallyUpdate(s.g.log.sent, i, s.g.log.sent[i], SentBy, t);
    hide GuardLedger, GlobalOk, HistoryOk, LocalOk, Tallies.Tally;
  }

  /** A verdict that allows reports a completed scan of its path that scored at most 80; one that
      reports a scan denies only above 80. */
  lemma AllowIsBacked(s: State, i: nat)
    requires Reachable(s) && i < |s.g.log.sent|
    ensures var m := s.g.log.sent[i];
            && (m.allow ==> m.outcome.Some?)
            && (m.outcome.Some? ==>
                  var basis := m.outcome.value;
                  && basis.from < |s.g.log.scans| && s.g.log.scans[basis.from].key == m.job.key
                  && s.g.log.scans[basis.from].scan.details == basis.details
                  && (m.allow <==> basis.details.threatScore as int <= 80))
  {
    ReachableInv(s);
    var m := s.g.log.sent[i];
    assert ReportOk(s.g, m.job.key, m.allow, m.outcome);
    hide GuardLedger, GlobalOk, LocalOk, CountsOk;
  }

  /** A frozen job asks for a scan exactly if its file could be looked at and is not empty. */
  lemma ScannableJobsAcquire(s: State, t: nat)
    requires Reachable(s) && t < |s.threads| && !s.threads[t].Arrived? && s.threads[t].job.frozen
    ensures t in s.g.log.answers
    ensures CountsOf(s.g, t).acquires >= 1 <==> s.g.log.answers[t].ok && s.g.log.answers[t].size > 0
  {
    ReachableInv(s);
    assert CountsOk(s.g, t, s.threads[t]);
    hide GuardLedger, GlobalOk, HistoryOk, LocalOk, Tallies.Tally;
  }

  /** A verdict rests on no scan exactly if its job's file could not be looked at or was empty, or the job
      claimed the scan and could not read the file, or two of its waits failed; then it denies. */
  lemma DenyWithoutScanHasACause(s: State, i: nat)
    requires Reachable(s) && i < |s.g.log.sent|
    ensures var (m, log) := (s.g.log.sent[i], s.g.log);
            && m.thread in log.answers
            && (m.outcome.None? <==>
                  || !log.answers[m.thread].ok || log.answers[m.thread].size == 0
                  || (m.thread in log.readable && !log.readable[m.thread])
                  || Tally(log.failures, SameId, m.thread) == 2)
            && (m.outcome.None? ==> !m.allow)
  {
    ReachableInv(s);
    var m := s.g.log.sent[i];
    VerdictsNameTheirRequest(s, i);
    assert ReportOk(s.g, m.job.key, m.allow, m.outcome);
    assert CountsOk(s.g, m.thread, s.threads[m.thread]);
    hide GuardLedger, GlobalOk, LocalOk, Tallies.Tally;
  }

  // ----- Runs

  lemma Extend(run: seq<Step>, s: State, step: Step, content: Content) returns (run': seq<Step>, s': State)
    requires Exec(run) == Some(s) && Enabled(s, step) && Faithful(run, content) && Sees(s, step, content)
    ensures Exec(run') == Some(s') && s' == Apply(s, step) && Faithful(run', content)
  {
    assert (run + [step])[..|run|] == run;
    run', s' := run + [step], Apply(s, step);
  }

  /** What a scan sees of a file without an index that nobody touches meanwhile. */
  function Undisturbed(content: Content, key: Key, id: Id): Inputs { Seen(content, key, Always(Version(id, None))) }

  const NOWHERE: Version := Version(Id(0, 0), None)

  /** What the file system says, where nothing is read. */
  function Answer(id: Id, index: Option<nat>): Env { Env(true, id, index, HARMLESS, Always(NOWHERE)) }

  /** A job scans its file, is shown these versions of it, and is told an index. */
  lemma JobScans(run: seq<Step>, s: State, t: nat, seen: Versions, index: Option<nat>, content: Content)
    returns (run': seq<Step>, s': State)
    requires Exec(run) == Some(s) && Faithful(run, content) && t < |s.threads| && s.threads[t].Reading?
    ensures Exec(run') == Some(s') && Faithful(run', content)
    ensures var (job, id) := (s.threads[t].job, s.threads[t].id);
            var (details, allow) := Analyze(Seen(content, job.key, seen));
            && s'.g == s.g.(log := s.g.log.(readable := s.g.log.readable[t := true]))
            && s'.threads
               == s.threads[t := Storing(job, CompletedScan(details, id.modTime, id.size, index), allow, seen)]
  {
    hide Faithful, Analyze, Seen;
    var (job, id) := (s.threads[t].job, s.threads[t].id);
    run', s' := Extend(run, s, Move(t, Env(true, id, index, Seen(content, job.key, seen), seen)), content);
    run', s' := Extend(run', s', Move(t, Answer(id, index)), content);
  }

  /** ... caches the scan, and settles its barrier. */
  lemma JobStores(run: seq<Step>, s: State, t: nat, content: Content) returns (run': seq<Step>, s': State)
    requires Exec(run) == Some(s) && Faithful(run, content) && t < |s.threads| && s.threads[t].Storing?
    requires s.threads[t].job.key in s.g.inProgress && s.g.inProgress[s.threads[t].job.key] < |s.g.barriers|
    ensures Exec(run') == Some(s') && Faithful(run', content)
    ensures var (g, h, l) := (s.g, s'.g, s.threads[t]);
            var key := l.job.key;
            && h.completed == g.completed[key := l.scan] && h.inProgress == g.inProgress - {key}
            && h.barriers == g.barriers[g.inProgress[key] := Completed(l.scan)]
            && h.log.results == g.log.results[g.inProgress[key] := |g.log.scans|]
            && h.log.scans == g.log.scans + [Scanned(key, l.scan, l.seen)]
            && h.log.changes == g.log.changes + [Stored(key, |g.log.scans|)] && h.log.hits == g.log.hits
            && s'.threads == s.threads[t := Reporting(l.job, l.allow, Some(Basis(l.scan.details, |g.log.scans|)))]
  {
    hide Faithful;
    var env := Answer(Id(0, 0), None);
    run', s' := Extend(run, s, Move(t, env), content);
    run', s' := Extend(run', s', Move(t, env), content);
  }

  /** A harmless file, and three malicious ones: by what is known of its hash, by its certificate, and
      by its structure. */
  const HARMLESS: Inputs := Inputs(None, None, Certificate(false, false, false, None), false, 0.0, [], None, _ => 0.0)
  const KNOWN: Inputs := HARMLESS.(md5 := Some("0"), record := Some(SignatureRecord("0", true, 100, "")))
  const REVOKED: Inputs := HARMLESS.(certificate := Certificate(true, false, true, None))
  const PACKED: Inputs := HARMLESS.(
    file := [0], pe := Some(Heuristics.Pe([Heuristics.Section(0, 1, Heuristics.RWX)], 0, Some("packer"))),
    entropy := _ => 8.0)

  lemma OneIsAllowed()
    ensures Analyze(HARMLESS).1 && !Analyze(KNOWN).1 && !Analyze(REVOKED).1
  {
    CachedVerdictIsFresh(HARMLESS);
    CachedVerdictIsFresh(KNOWN);
    assert SignatureStage(EMPTY, KNOWN).1 == Block;
    CachedVerdictIsFresh(REVOKED);
    assert SignatureStage(EMPTY, REVOKED) == (EMPTY, Continue);
    assert AuthenticodeStage(EMPTY, REVOKED).1 == Block;
  }

  lemma PackedIsBlocked()
    ensures !Analyze(PACKED).1
  {
    var pe := PACKED.pe.value;
    assert pe.sections[0] in pe.sections && Heuristics.IsRwx(pe.sections[0]);
    assert Heuristics.HighEntropy(PACKED.file, pe.sections[0], PACKED.entropy);
    var report := Heuristics.ReportOf(PACKED.file, pe, PACKED.entropy);
    Heuristics.ScoreRange(PACKED.file, pe, PACKED.entropy);
    assert report.score == 105;
    assert HeuristicStage(EMPTY, PACKED).1 == Block;
    assert StagesFrom(3, EMPTY, PACKED).1 == false;
    assert MlStage(EMPTY, PACKED) == (EMPTY, Continue);
    assert StagesFrom(2, EMPTY, PACKED).1 == false;
    assert AuthenticodeStage(EMPTY, PACKED) == (EMPTY, Continue);
    assert SignatureStage(EMPTY, PACKED) == (EMPTY, Continue);
  }

  ghost predicate SameFile(job: Job, job2: Job) { job.frozen && job2.frozen && job.key == job2.key }

  /** A job has claimed the scan of a file. */
  lemma OneClaims(job: Job, id: Id, content: Content) returns (run: seq<Step>, s: State)
    requires job.frozen && id.size > 0
    ensures Exec(run) == Some(s) && Faithful(run, content) && s.threads == [Reading(job, id)]
    ensures s.g.barriers == [Pending] && s.g.inProgress == map[job.key := 0]
    ensures s.g.completed == map[] && s.g.log.scans == [] && s.g.log.hits == [] && s.g.log.changes == []
    ensures s.g.log.results == map[]
  {
    var env := Answer(id, None);
    assert Faithful([], content);
    hide Faithful;
    run, s := Extend([], INIT, Spawn(job), content);
    run, s := Extend(run, s, Move(0, env), content);
    run, s := Extend(run, s, Move(0, env), content);
    run, s := Extend(run, s, Move(0, env), content);
  }

  /** ... has scanned it, and was told that its index is `index`. */
  lemma OneScans(job: Job, id: Id, seen: Versions, index: Option<nat>, content: Content)
    returns (run: seq<Step>, s: State)
    requires job.frozen && id.size > 0
    ensures Exec(run) == Some(s) && Faithful(run, content)
    ensures var (details, allow) := Analyze(Seen(content, job.key, seen));
            s.threads == [Storing(job, CompletedScan(details, id.modTime, id.size, index), allow, seen)]
    ensures s.g.barriers == [Pending] && s.g.inProgress == map[job.key := 0]
    ensures s.g.completed == map[] && s.g.log.scans == [] && s.g.log.hits == [] && s.g.log.changes == []
  {
    run, s := OneClaims(job, id, content);
    hide Faithful, Analyze, Seen;
    run, s := JobScans(run, s, 0, seen, index, content);
  }

  /** ... and its scan is cached and settled. */
  lemma OneHasScanned(job: Job, id: Id, seen: Versions, index: Option<nat>, content: Content)
    returns (run: seq<Step>, s: State)
    requires job.frozen && id.size > 0
    ensures Exec(run) == Some(s) && Faithful(run, content) && |s.threads| == 1
    ensures var scan := CompletedScan(Analyze(Seen(content, job.key, seen)).0, id.modTime, id.size, index);
            && s.g.completed == map[job.key := scan] && s.g.log.scans == [Scanned(job.key, scan, seen)]
            && s.g.log.changes == [Stored(job.key, 0)] && s.g.log.hits == []
  {
    run, s := OneScans(job, id, seen, index, content);
    hide Faithful, Analyze, Seen;
    run, s := JobStores(run, s, 0, content);
  }

  /** ... and another job finds it in the cache. */
  lemma AnotherProbes(job: Job, job2: Job, id: Id, seen: Versions, index: nat, content: Content)
    returns (run: seq<Step>, s: State)
    requires SameFile(job, job2) && id.size > 0
    ensures Exec(run) == Some(s) && Faithful(run, content)
    ensures var scan := CompletedScan(Analyze(Seen(content, job.key, seen)).0, id.modTime, id.size, Some(index));
            && |s.threads| == 2 && s.threads[1] == Probing(job2, id, 1, scan, 0)
            && s.g.log.scans == [Scanned(job.key, scan, seen)] && s.g.log.hits == []
  {
    run, s := OneHasScanned(job, id, seen, Some(index), content);
    hide Faithful, Analyze, Seen;
    var env := Answer(id, Some(index));
    run, s := Extend(run, s, Spawn(job2), content);
    run, s := Extend(run, s, Move(1, env), content);
    run, s := Extend(run, s, Move(1, env), content);
  }

  /** Whatever versions a scan was shown, a job that sees the size, time and index it recorded is given
      its details. */
  lemma HitOfWhateverWasSeen(job: Job, job2: Job, id: Id, seen: Versions, index: nat, content: Content)
    returns (run: seq<Step>, s: State)
    requires SameFile(job, job2) && id.size > 0
    ensures Exec(run) == Some(s) && Faithful(run, content) && |s.threads| == 2
    ensures var (details, allow) := Analyze(Seen(content, job.key, seen));
            && s.g.log.hits == [HitNote(job2.key, id, Some(index), Basis(details, 0))]
            && |s.g.log.scans| == 1 && s.g.log.scans[0].seen == seen
            && Recorded(s.g.log.scans[0].scan) == Version(id, Some(index))
            && s.threads[1] == Reporting(job2, allow, Some(Basis(details, 0)))
  {
    run, s := AnotherProbes(job, job2, id, seen, index, content);
    CachedVerdictIsFresh(Seen(content, job.key, seen));
    hide Faithful, Analyze, Seen;
    run, s := Extend(run, s, Move(1, Answer(id, Some(index))), content);
  }

  /** The condition of HitEqualsRescan cannot be weakened: whichever other version a scan was shown at any
      of its looks, there is a run in which that lets a file be allowed that the caller's own scan would
      block. */
  lemma AnyOtherVersionCanBeAllowed(job: Job, job2: Job, id: Id, seen: Versions, index: nat)
    returns (content: Content, run: seq<Step>, s: State)
    requires SameFile(job, job2) && id.size > 0 && seen != Always(Version(id, Some(index)))
    ensures Exec(run) == Some(s) && Faithful(run, content) && |s.threads| == 2 && |s.g.log.hits| == 1
    ensures s.g.log.hits[0].id == id && s.g.log.hits[0].index == Some(index)
    ensures |s.g.log.scans| == 1 && s.g.log.scans[0].seen == seen
    ensures Recorded(s.g.log.scans[0].scan) == Version(id, Some(index))
    ensures s.threads[1].Reporting? && s.threads[1].job == job2 && s.threads[1].allow
    ensures !Analyze(content(job2.key, Version(id, Some(index)))).1
  {
    var own := Version(id, Some(index));
    var malicious := if seen.hash != own then KNOWN else if seen.certificate != own then REVOKED else PACKED;
    content := (key, v) => if v == own then malicious else HARMLESS;
    OneIsAllowed();
    PackedIsBlocked();
    hide Faithful, Analyze;
    assert Seen(content, job.key, seen) == HARMLESS;
    run, s := HitOfWhateverWasSeen(job, job2, id, seen, index, content);
  }

  /** For one, a file that is rewritten after its metadata was looked at, and set back after it was
      scanned, with its time; its index never changes. */
  lemma RewrittenFileCanBeAllowed(job: Job, job2: Job, id: Id, id2: Id, index: nat)
    returns (content: Content, run: seq<Step>, s: State)
    requires SameFile(job, job2) && id.size > 0 && id != id2
    ensures Exec(run) == Some(s) && Faithful(run, content) && |s.threads| == 2 && |s.g.log.hits| == 1
    ensures |s.g.log.scans| == 1 && s.g.log.scans[0].seen == Always(Version(id2, Some(index)))
    ensures s.threads[1].Reporting? && s.threads[1].job == job2 && s.threads[1].allow
    ensures !Analyze(content(job2.key, Version(id, Some(index)))).1
  {
    content, run, s := AnyOtherVersionCanBeAllowed(job, job2, id, Always(Version(id2, Some(index))), index);
  }

  /** For another, a file that is replaced by one of the same size and time after it was scanned and
      before it is asked for its index. */
  lemma ReplacedFileCanBeAllowed(job: Job, job2: Job, id: Id, index: nat, index2: nat)
    returns (content: Content, run: seq<Step>, s: State)
    requires SameFile(job, job2) && id.size > 0 && index != index2
    ensures Exec(run) == Some(s) && Faithful(run, content) && |s.threads| == 2 && |s.g.log.hits| == 1
    ensures |s.g.log.scans| == 1 && s.g.log.scans[0].seen == Always(Version(id, Some(index2)))
    ensures s.threads[1].Reporting? && s.threads[1].job == job2 && s.threads[1].allow
    ensures !Analyze(content(job2.key, Version(id, Some(index)))).1
  {
    content, run, s := AnyOtherVersionCanBeAllowed(job, job2, id, Always(Version(id, Some(index2))), index);
  }

  /** While a job reads a file, another, that saw it as `id2`, waits for the scan. */
  lemma OneReadsOneWaits(job: Job, job2: Job, id: Id, id2: Id, content: Content) returns (run: seq<Step>, s: State)
    requires SameFile(job, job2) && id.size > 0 && id2.size > 0
    ensures Exec(run) == Some(s) && Faithful(run, content)
    ensures s.threads == [Reading(job, id), Waiting(job2, id2, 1, 0)]
    ensures s.g.barriers == [Pending] && s.g.inProgress == map[job.key := 0]
    ensures s.g.log.scans == [] && s.g.log.results == map[]
  {
    run, s := OneClaims(job, id, content);
    hide Faithful, Analyze;
    var env := Answer(id2, None);
    run, s := Extend(run, s, Spawn(job2), content);
    run, s := Extend(run, s, Move(1, env), content);
    run, s := Extend(run, s, Move(1, env), content);
    run, s := Extend(run, s, Move(1, env), content);
  }

  lemma OneStoresOneWaits(job: Job, job2: Job, id: Id, id2: Id, content: Content) returns (run: seq<Step>, s: State)
    requires SameFile(job, job2) && id.size > 0 && id2.size > 0
    ensures Exec(run) == Some(s) && Faithful(run, content)
    ensures var (details, allow) := Analyze(Undisturbed(content, job.key, id));
            s.threads == [
              Storing(job, CompletedScan(details, id.modTime, id.size, None), allow, Always(Version(id, None))),
              Waiting(job2, id2, 1, 0)]
    ensures s.g.barriers == [Pending] && s.g.inProgress == map[job.key := 0]
    ensures s.g.log.scans == [] && s.g.log.results == map[]
  {
    run, s := OneReadsOneWaits(job, job2, id, id2, content);
    hide Faithful, Analyze, Seen;
    run, s := JobScans(run, s, 0, Always(Version(id, None)), None, content);
  }

  /** ... until the scan is settled. */
  lemma WaitedScanEnds(job: Job, job2: Job, id: Id, id2: Id, content: Content) returns (run: seq<Step>, s: State)
    requires SameFile(job, job2) && id.size > 0 && id2.size > 0
    ensures Exec(run) == Some(s) && Faithful(run, content)
    ensures |s.threads| == 2 && s.threads[1] == Waiting(job2, id2, 1, 0)
    ensures var scan := CompletedScan(Analyze(Undisturbed(content, job.key, id)).0, id.modTime, id.size, None);
            s.g.barriers == [Completed(scan)] && s.g.log.results == map[0 := 0]
  {
    run, s := OneStoresOneWaits(job, job2, id, id2, content);
    hide Faithful, Analyze;
    run, s := JobStores(run, s, 0, content);
  }

  /** "Waiters can re-validate the metadata" of a completed scan, but do not: a waiter can allow a file
      that its own scan would block, because the job it waited for saw another version of it. */
  lemma WaiterCanGetAnotherVersion(job: Job, job2: Job, id: Id, id2: Id)
    returns (content: Content, run: seq<Step>, s: State)
    requires SameFile(job, job2) && id.size > 0 && id2.size > 0 && id != id2
    ensures Exec(run) == Some(s) && Faithful(run, content) && |s.threads| == 2
    ensures s.threads[1].Reporting? && s.threads[1].job == job2 && s.threads[1].allow
    ensures forall index :: !Analyze(content(job2.key, Version(id2, index))).1
  {
    content := (key: Key, v: Version) => if v.id == id2 then KNOWN else HARMLESS;
    OneIsAllowed();
    CachedVerdictIsFresh(HARMLESS);
    hide Faithful, Analyze;
    run, s := WaitedScanEnds(job, job2, id, id2, content);
    run, s := Extend(run, s, Move(1, Answer(id2, None)), content);
  }

  /** Two jobs that saw the same file both find no result, and one of them reads it. */
  lemma OneLooksOneReads(job: Job, job2: Job, id: Id, content: Content) returns (run: seq<Step>, s: State)
    requires SameFile(job, job2) && id.size > 0
    ensures Exec(run) == Some(s) && Faithful(run, content)
    ensures s.threads == [Reading(job, id), Claiming(job2, id, 1, 0)]
    ensures s.g.inProgress == map[job.key := 0] && s.g.barriers == [Pending]
    ensures s.g.completed == map[] && s.g.log.scans == [] && s.g.log.changes == []
  {
    run, s := OneClaims(job, id, content);
    hide Faithful, Analyze;
    var env := Answer(id, None);
    run, s := Extend(run, s, Spawn(job2), content);
    run, s := Extend(run, s, Move(1, env), content);
    run, s := Extend(run, s, Move(1, env), content);
  }

  /** ... scans it ... */
  lemma OneLooksOneStores(job: Job, job2: Job, id: Id, content: Content) returns (run: seq<Step>, s: State)
    requires SameFile(job, job2) && id.size > 0
    ensures Exec(run) == Some(s) && Faithful(run, content)
    ensures var (details, allow) := Analyze(Undisturbed(content, job.key, id));
            s.threads == [
              Storing(job, CompletedScan(details, id.modTime, id.size, None), allow, Always(Version(id, None))),
              Claiming(job2, id, 1, 0)]
    ensures s.g.inProgress == map[job.key := 0] && s.g.barriers == [Pending] && s.g.completed == map[]
  {
    run, s := OneLooksOneReads(job, job2, id, content);
    hide Faithful, Analyze, Seen;
    run, s := JobScans(run, s, 0, Always(Version(id, None)), None, content);
  }

  /** ... and caches its result. */
  lemma OneLooksOneIsDone(job: Job, job2: Job, id: Id, content: Content) returns (run: seq<Step>, s: State)
    requires SameFile(job, job2) && id.size > 0
    ensures Exec(run) == Some(s) && Faithful(run, content)
    ensures |s.threads| == 2 && s.threads[1] == Claiming(job2, id, 1, 0)
    ensures var scan := CompletedScan(Analyze(Undisturbed(content, job.key, id)).0, id.modTime, id.size, None);
            s.g.inProgress == map[] && s.g.completed == map[job.key := scan]
  {
    run, s := OneLooksOneStores(job, job2, id, content);
    hide Faithful, Analyze;
    run, s := JobStores(run, s, 0, content);
  }

  /** A file can be scanned again although the cache holds a result for this very version of it: the
      finished results and the scans in progress are looked at separately. */
  lemma RedundantScan(job: Job, job2: Job, id: Id) returns (s: State)
    requires SameFile(job, job2) && id.size > 0
    ensures Reachable(s) && |s.threads| == 2 && s.threads[1] == Reading(job2, id)
    ensures Usable(s.g, job2.key, id) && Look(s.g.completed, job2.key, id.modTime, id.size).Hit?
  {
    var run;
    var content: Content := (key, v) => HARMLESS;
    hide Analyze, Faithful;
    run, s := OneLooksOneIsDone(job, job2, id, content);
    run, s := Extend(run, s, Move(1, Answer(id, None)), content);
  }
}
