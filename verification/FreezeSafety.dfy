/** What every interleaving of the freeze protocol keeps. */
module FreezeSafety {
  import opened Prelude
  import opened Tallies
  import opened Freeze
  import VerdictCache

  // ----- What a thread in a given local state holds

  ghost function RequestsIn(l: Local, r: nat): nat {
    match l
    case Targeting(_, x) => Same(x, r)
    case Injecting(_, x) => Same(x, r)
    case Counted(_, x) => Same(x, r)
    case _ => 0
  }

  ghost function PidsIn(l: Local, p: nat): nat { if Mentions(l, p) then 1 else 0 }

  /** The contexts a thread owns: it will free them. */
  ghost function ContextsIn(l: Local, c: nat): nat {
    match l
    case Inserting(x) => Same(x, c)
    case InsertFailed(x) => Same(x, c)
    case Queued(x) => Same(x, c)
    case RunningDown(x) => Same(x, c)
    case EarlyHit(x, _, _) => Same(x, c)
    case Waiting(x) => Same(x, c)
    case Woken(x, _) => Same(x, c)
    case Freeing(exit) => Same(exit.ctx, c)
    case _ => 0
  }

  /** The contexts whose entry a thread leaves on the list until it acts next. */
  ghost function EntriesIn(l: Local, c: nat): nat {
    match l
    case RunningDown(x) => Same(x, c)
    case Inserting(x) => Same(x, c)
    case InsertFailed(x) => Same(x, c)
    case Unlisting(x) => Same(x, c)
    case Queued(x) => Same(x, c)
    case EarlyHit(x, _, _) => Same(x, c)
    case Waiting(x) => Same(x, c)
    case Woken(x, _) => Same(x, c)
    case _ => 0
  }

  /** Whether a thread is counted in APC_COUNT. */
  ghost function CountedIn(l: Local, unit: ()): nat {
    match l
    case Counted(_, _) => 1
    case Inserting(_) => 1
    case InsertFailed(_) => 1
    case Unlisting(_) => 1
    case Uncounting(_) => 1
    case Queued(_) => 1
    case RunningDown(_) => 1
    case EarlyHit(_, _, _) => 1
    case Waiting(_) => 1
    case Woken(_, _) => 1
    case Freeing(_) => 1
    case Leaving(_) => 1
    case _ => 0
  }

  ghost function SameId(a: nat, b: nat): nat { Same(a, b) }
  ghost function TargetRequestIs(t: Target, r: nat): nat { Same(t.requestId, r) }
  ghost function TargetPidIs(t: Target, p: nat): nat { Same(t.pid, p) }
  ghost function ScanPidIs(e: PendingScan, p: nat): nat { Same(e.pid, p) }
  ghost function CtxRequestIs(c: Ctx, r: nat): nat { Same(c.requestId, r) }
  ghost function FreedIs(f: Freed, c: nat): nat { Same(f.ctx, c) }

  // ----- The ledgers

  ghost function RequestStored(g: Globals, r: nat): nat {
    Tally(g.targets, TargetRequestIs, r) + Tally(g.contexts, CtxRequestIs, r)
    + Tally(g.log.allowlisted, SameId, r) + Tally(g.log.abandoned, SameId, r)
  }

  ghost function PidStored(g: Globals, p: nat): nat {
    Tally(g.targets, TargetPidIs, p) + Tally(g.scans, ScanPidIs, p)
  }

  ghost function FreedTimes(g: Globals, c: nat): nat { Tally(g.log.freed, FreedIs, c) }

  ghost predicate RequestLedger(s: State) {
    forall r: nat ::
      Tally(s.threads, RequestsIn, r) + RequestStored(s.g, r) == if 1 <= r < s.g.nextRequest then 1 else 0
  }

  ghost predicate PidLedger(s: State) {
    forall p: nat :: Tally(s.threads, PidsIn, p) + PidStored(s.g, p) <= 1
  }

  ghost predicate ContextLedger(s: State) {
    forall c: nat :: Tally(s.threads, ContextsIn, c) + FreedTimes(s.g, c) == if c < |s.g.contexts| then 1 else 0
  }

  ghost predicate EntryLedger(s: State) {
    forall c: nat :: Tally(s.threads, EntriesIn, c) <= if c < |s.g.contexts| then 1 else 0
  }

  ghost predicate CountLedger(s: State) { Tally(s.threads, CountedIn, ()) == s.g.apcCount }

  // ----- The rest of the invariant

  ghost predicate HasEntry(g: Globals, c: nat) { c in EventsOfScans(g.scans) }

  /** The last verdict written for a request. */
  ghost function LastWritten(written: seq<Written>, r: nat): Option<bool> {
    if written == [] then None
    else
      var w := written[|written| - 1];
      if w.requestId == r then Some(w.allow) else LastWritten(written[..|written| - 1], r)
  }

  predicate Allowed(verdict: Option<bool>) { verdict.Some? && verdict.value }
  predicate Denied(verdict: Option<bool>) { verdict.Some? && !verdict.value }

  /** An entry is its context's, holds the last verdict written for its request or deny, and its
      event is set exactly if one was written. */
  ghost predicate EntryOk(g: Globals, e: PendingScan) {
    && e.event < |g.contexts| && g.contexts[e.event] == Ctx(e.pid, e.requestId)
    && (e.allowed <==> Allowed(LastWritten(g.log.written, e.requestId)))
    && (e.event in g.signalled <==> LastWritten(g.log.written, e.requestId).Some?)
  }

  /** What an APC finds in the cache is the latest unread verdict of the request numbered by its pid. */
  ghost predicate FoundEarly(g: Globals, c: nat, uses: nat, denied: bool) {
    && c < |g.contexts| && uses <= |g.log.cacheOps|
    && var (ops, pid) := (g.log.cacheOps[..uses], g.contexts[c].pid);
       && VerdictCache.Survives(ops, pid) && VerdictCache.Ideal(ops, pid).Some?
       && (denied <==> !VerdictCache.Ideal(ops, pid).value.allowed)
  }

  /** The promise about a process that waited, or found a verdict early. */
  ghost predicate ExitOk(g: Globals, exit: Exit) {
    && exit.ctx < |g.contexts|
    && (exit.Early? ==> FoundEarly(g, exit.ctx, exit.uses, exit.terminate))
    && (exit.Waited? ==>
          && exit.writes <= |g.log.written|
          && (exit.signalled && !exit.cleared ==>
                LastWritten(g.log.written[..exit.writes], g.contexts[exit.ctx].requestId).Some?)
          && (exit.terminate <==>
                exit.signalled
                && (exit.cleared
                    || Denied(LastWritten(g.log.written[..exit.writes], g.contexts[exit.ctx].requestId)))))
  }

  ghost predicate GlobalOk(g: Globals) {
    && g.nextRequest >= 1
    && (forall i :: 0 <= i < |g.scans| ==> EntryOk(g, g.scans[i]))
    && (forall i, j :: 0 <= i < j < |g.scans| ==> g.scans[i].event != g.scans[j].event)
    && (forall c :: c in g.signalled ==> c < |g.contexts|)
    && (g.phase.Rank() >= 3 ==> g.scans == [])
    && (g.phase == Unloaded ==> g.apcCount == 0)
  }

  /** The request got as far as the list of pending scans. */
  ghost predicate Listed(g: Globals, r: nat) {
    exists c :: 0 <= c < |g.contexts| && g.contexts[c].requestId == r
  }

  /** An APC that ran took its entry with it; one that was run down left it behind. */
  ghost predicate FreedOk(g: Globals, f: Freed) {
    && f.ctx < |g.contexts|
    && (f.cause == Normal ==> !HasEntry(g, f.ctx))
    && (f.cause == RunDown && g.phase.Rank() < 3 ==> HasEntry(g, f.ctx))
  }

  ghost predicate HistoryOk(g: Globals) {
    && (forall i :: 0 <= i < |g.log.freed| ==> FreedOk(g, g.log.freed[i]))
    && (forall i :: 0 <= i < |g.log.exits| ==> ExitOk(g, g.log.exits[i]))
    && (forall i :: 0 <= i < |g.log.written| ==> Listed(g, g.log.written[i].requestId))
    && g.cache == VerdictCache.Run(g.log.cacheOps)
  }

  /** The contexts in a thread's hand exist, and an entry it has to take off is there until unload
      empties the list. */
  ghost predicate Lists(g: Globals, l: Local) {
    && (forall c: nat :: ContextsIn(l, c) == 1 ==> c < |g.contexts|)
    && (forall c: nat :: EntriesIn(l, c) == 1 ==> c < |g.contexts| && (g.phase.Rank() < 3 ==> HasEntry(g, c)))
  }

  ghost predicate LocalOk(g: Globals, l: Local) {
    && Lists(g, l)
    && (g.phase.Rank() >= 1 ==> !l.InProcessCallback())
    && (g.phase.Rank() >= 2 ==> !l.InThreadCallback())
    && match l
       case Unlisting(c) => Freed(c, NotInserted) in g.log.freed
       case EarlyHit(c, uses, denied) => FoundEarly(g, c, uses, denied)
       case Woken(c, timedOut) => !timedOut ==> c in g.signalled
       case Freeing(exit) => ExitOk(g, exit) && !HasEntry(g, exit.ctx)
       case Leaving(exit) => ExitOk(g, exit)
       case Exiting(exit) => ExitOk(g, exit)
       case _ => true
  }

  ghost predicate Inv(s: State) {
    && RequestLedger(s) && PidLedger(s) && ContextLedger(s) && EntryLedger(s) && CountLedger(s)
    && GlobalOk(s.g) && HistoryOk(s.g)
    && forall t :: 0 <= t < |s.threads| ==> LocalOk(s.g, s.threads[t])
  }

  // ----- One step of one thread

  /** What the ledgers say about the acting thread and the lists. */
  ghost predicate Separate(g: Globals, l: Local) {
    && (forall i, j :: 0 <= i < j < |g.scans| ==> g.scans[i].pid != g.scans[j].pid)
    && (forall i, j :: 0 <= i < j < |g.contexts| ==> g.contexts[i].requestId != g.contexts[j].requestId)
    && (l.Counted? ==> forall i :: 0 <= i < |g.contexts| ==> g.contexts[i].requestId != l.requestId)
    && CountedIn(l, ()) <= g.apcCount
    && (forall i :: 0 <= i < |g.log.freed| && g.log.freed[i].cause == RunDown ==> EntriesIn(l, g.log.freed[i].ctx) == 0)
  }

  ghost predicate CanAct(g: Globals, l: Local) {
    GlobalOk(g) && HistoryOk(g) && LocalOk(g, l) && Ready(g, l) && Separate(g, l)
  }

  /** Before a request has a context. */
  predicate BeforeContext(l: Local) {
    l.ProcessCreated? || l.Targeting? || l.ThreadCreated? || l.Injecting? || l.Counted?
  }

  /** From then on a step issues and moves no request. */
  lemma LateStepsStay(g: Globals, l: Local, env: Env)
    requires Ready(g, l) && !BeforeContext(l)
    ensures var (h, l') := Act(g, l, env);
            && !BeforeContext(l') && h.nextRequest == g.nextRequest
            && h.targets == g.targets && h.contexts == g.contexts
            && h.log.allowlisted == g.log.allowlisted && h.log.abandoned == g.log.abandoned
  {
    hide VerdictCache.Taken, VerdictCache.Recorded, TakeScan, WriteVerdict, EventsOfScans;
  }

  lemma ActMovesRequests(g: Globals, l: Local, env: Env, r: nat)
    requires Ready(g, l)
    ensures var (g', l') := Act(g, l, env);
            RequestsIn(l', r) + RequestStored(g', r)
            == RequestsIn(l, r) + RequestStored(g, r) + if g.nextRequest <= r < g'.nextRequest then 1 else 0
  {
    hide Tallies.Tally;
    if BeforeContext(l) {
      EarlyMovesRequests(g, l, env, r);
    } else {
      LateStepsStay(g, l, env);
      hide Act;
    }
  }

  lemma EarlyMovesRequests(g: Globals, l: Local, env: Env, r: nat)
    requires Ready(g, l) && BeforeContext(l)
    ensures var (g', l') := Act(g, l, env);
            RequestsIn(l', r) + RequestStored(g', r)
            == RequestsIn(l, r) + RequestStored(g, r) + if g.nextRequest <= r < g'.nextRequest then 1 else 0
  {
    hide Tallies.Tally, CheckEarly, Collect, Decide, TakeScan, EventsOfScans, VerdictCache.Recorded;
    match l
    case ProcessCreated(_, _) => TallyAppend(g.log.allowlisted, g.nextRequest, SameId, r);
    case Targeting(pid, rid) => TallyAppend(g.targets, Target(pid, rid), TargetRequestIs, r);
    case ThreadCreated(pid) =>
      var k := FindBy(g.targets, TargetPid, pid);
      if k.Some? {
        TallyRemove(g.targets, k.value, TargetRequestIs, r);
      }
    case Injecting(_, rid) => TallyAppend(g.log.abandoned, rid, SameId, r);
    case Counted(pid, rid) => TallyAppend(g.contexts, Ctx(pid, rid), CtxRequestIs, r);
  }

  lemma TakeScanMovesPids(scans: seq<PendingScan>, pid: nat, p: nat)
    ensures Tally(TakeScan(scans, pid).0, ScanPidIs, p) <= Tally(scans, ScanPidIs, p)
  {
    var k := FindBy(scans, ScanPid, pid);
    if k.Some? {
      TallyRemove(scans, k.value, ScanPidIs, p);
    }
  }

  /** What a step does to the list of pending scans. */
  lemma ActListsScans(g: Globals, l: Local, env: Env)
    requires Ready(g, l)
    ensures Act(g, l, env).0.scans ==
            match l
            case Counted(pid, rid) => g.scans + [PendingScan(rid, pid, |g.contexts|, false)]
            case Unlisting(c) => TakeScan(g.scans, CtxOf(g, c).pid).0
            case EarlyHit(c, _, _) => TakeScan(g.scans, CtxOf(g, c).pid).0
            case Woken(c, _) => TakeScan(g.scans, CtxOf(g, c).pid).0
            case Deciding(rid, allow) => WriteVerdict(g.scans, rid, allow).0
            case Clearing => []
            case _ => g.scans
  {
    hide VerdictCache.Taken, VerdictCache.Recorded, TakeTarget, TakeScan, EventsOfScans;
  }

  lemma ScansMovePids(g: Globals, l: Local, env: Env, p: nat)
    requires Ready(g, l)
    ensures Tally(Act(g, l, env).0.scans, ScanPidIs, p)
            <= Tally(g.scans, ScanPidIs, p) + if l.Counted? then Same(l.pid, p) else 0
  {
    ActListsScans(g, l, env);
    hide Act, Tallies.Tally;
    match l
    case Counted(pid, rid) => TallyAppend(g.scans, PendingScan(rid, pid, |g.contexts|, false), ScanPidIs, p);
    case Unlisting(c) => TakeScanMovesPids(g.scans, CtxOf(g, c).pid, p);
    case EarlyHit(c, _, _) => TakeScanMovesPids(g.scans, CtxOf(g, c).pid, p);
    case Woken(c, _) => TakeScanMovesPids(g.scans, CtxOf(g, c).pid, p);
    case Deciding(rid, allow) =>
      var k := FindBy(g.scans, ScanRequest, rid);
      if k.Some? {
        TallyUpdate(g.scans, k.value, g.scans[k.value].(allowed := allow), ScanPidIs, p);
      }
    case Clearing => TallyZero<PendingScan, nat>([], ScanPidIs, p);
    case _ =>
  }

  /** A pid leaves the targets for a thread's hand, and that for the pending scans. */
  lemma EarlyMovesPids(g: Globals, l: Local, env: Env, p: nat)
    requires Ready(g, l) && BeforeContext(l)
    ensures var (h, l') := Act(g, l, env);
            PidsIn(l', p) + Tally(h.targets, TargetPidIs, p) + (if l.Counted? then Same(l.pid, p) else 0)
            <= PidsIn(l, p) + Tally(g.targets, TargetPidIs, p)
  {
    hide Tallies.Tally, CheckEarly, Collect, Decide, TakeScan, EventsOfScans, VerdictCache.Recorded;
    match l
    case Targeting(pid, rid) => TallyAppend(g.targets, Target(pid, rid), TargetPidIs, p);
    case ThreadCreated(pid) =>
      var k := FindBy(g.targets, TargetPid, pid);
      if k.Some? {
        TallyRemove(g.targets, k.value, TargetPidIs, p);
      }
    case _ =>
  }

  lemma ActMovesPids(g: Globals, l: Local, env: Env, p: nat)
    requires Ready(g, l)
    ensures var (g', l') := Act(g, l, env);
            PidsIn(l', p) + PidStored(g', p) <= PidsIn(l, p) + PidStored(g, p)
  {
    hide Act, Tallies.Tally;
    ScansMovePids(g, l, env, p);
    if BeforeContext(l) {
      EarlyMovesPids(g, l, env, p);
    } else {
      LateStepsStay(g, l, env);
    }
  }

  /** Only three steps free a context, and those free their own; only one makes one. */
  lemma ActFrees(g: Globals, l: Local, env: Env)
    requires Ready(g, l)
    ensures var h := Act(g, l, env).0;
            && h.log.freed ==
               (match l
                case InsertFailed(x) => g.log.freed + [Freed(x, NotInserted)]
                case RunningDown(x) => g.log.freed + [Freed(x, RunDown)]
                case Freeing(exit) => g.log.freed + [Freed(exit.ctx, Normal)]
                case _ => g.log.freed)
            && |h.contexts| == |g.contexts| + if l.Counted? then 1 else 0
  {
    hide VerdictCache.Taken, VerdictCache.Recorded, TakeScan, TakeTarget, WriteVerdict, EventsOfScans;
  }

  /** A step keeps the contexts it does not free, and takes up one only where it makes it. */
  lemma ActHolds(g: Globals, l: Local, env: Env, c: nat)
    requires Ready(g, l)
    ensures ContextsIn(Act(g, l, env).1, c)
            == if l.InsertFailed? || l.RunningDown? || l.Freeing? then 0
               else ContextsIn(l, c) + (if l.Counted? then Same(|g.contexts|, c) else 0)
  {
    hide VerdictCache.Taken, VerdictCache.Recorded, TakeScan, TakeTarget, WriteVerdict, EventsOfScans;
  }

  lemma ActMovesContexts(g: Globals, l: Local, env: Env, c: nat)
    requires Ready(g, l)
    ensures var (g', l') := Act(g, l, env);
            ContextsIn(l', c) + FreedTimes(g', c)
            == ContextsIn(l, c) + FreedTimes(g, c) + (if |g.contexts| <= c < |g'.contexts| then 1 else 0)
  {
    ActFrees(g, l, env);
    ActHolds(g, l, env, c);
    hide Tallies.Tally, Act;
    match l
    case InsertFailed(x) => TallyAppend(g.log.freed, Freed(x, NotInserted), FreedIs, c);
    case RunningDown(x) => TallyAppend(g.log.freed, Freed(x, RunDown), FreedIs, c);
    case Freeing(exit) => TallyAppend(g.log.freed, Freed(exit.ctx, Normal), FreedIs, c);
    case _ =>
  }

  lemma ActMovesEntries(g: Globals, l: Local, env: Env, c: nat)
    requires Ready(g, l)
    ensures var (g', l') := Act(g, l, env);
            && EntriesIn(l', c) <= EntriesIn(l, c) + (if |g.contexts| <= c < |g'.contexts| then 1 else 0)
            && (l.Unlisting? || l.EarlyHit? || l.Woken? ==> EntriesIn(l', c) == 0)
  {
    hide VerdictCache.Taken, VerdictCache.Recorded, TakeScan, TakeTarget, WriteVerdict, EventsOfScans;
  }

  lemma ActMovesCount(g: Globals, l: Local, env: Env)
    requires Ready(g, l)
    ensures var (g', l') := Act(g, l, env);
            CountedIn(l', ()) + g.apcCount == CountedIn(l, ()) + g'.apcCount
  {
  }

  // ----- Lists and logs

  lemma LastWrittenAppend(written: seq<Written>, w: Written, r: nat)
    ensures LastWritten(written + [w], r) == if w.requestId == r then Some(w.allow) else LastWritten(written, r)
  {
    assert (written + [w])[..|written|] == written;
  }

  lemma {:induction false} LastWrittenSource(written: seq<Written>, r: nat) returns (i: nat)
    requires LastWritten(written, r).Some?
    ensures i < |written| && written[i].requestId == r && LastWritten(written, r) == Some(written[i].allow)
  {
    var n := |written| - 1;
    if written[n].requestId == r {
      i := n;
    } else {
      i := LastWrittenSource(written[..n], r);
    }
  }

  lemma TakeScanMeans(scans: seq<PendingScan>, pid: nat)
    ensures var (after, item) := TakeScan(scans, pid);
            && (forall e :: e in after ==> e in scans)
            && (forall e :: e in scans && Some(e) != item ==> e in after)
            && (item.Some? ==> item.value in scans && item.value.pid == pid)
            && (item.None? ==> after == scans)
  {
    var k := FindBy(scans, ScanPid, pid);
    if k.Some? {
      var after := RemoveAt(scans, k.value);
      forall e | e in scans && e != scans[k.value] ensures e in after {
        var i :| 0 <= i < |scans| && scans[i] == e;
        assert after[if i < k.value then i else i - 1] == e;
      }
      forall e | e in after ensures e in scans {
        var i :| 0 <= i < |after| && after[i] == e;
        assert scans[if i < k.value then i else i + 1] == e;
      }
    }
  }

  /** The entry a thread takes off the list by its pid is its own context's. */
  lemma TakesOwnEntry(g: Globals, c: nat)
    requires GlobalOk(g) && c < |g.contexts|
    requires forall i, j :: 0 <= i < j < |g.scans| ==> g.scans[i].pid != g.scans[j].pid
    requires g.phase.Rank() < 3 ==> HasEntry(g, c)
    ensures var (after, item) := TakeScan(g.scans, g.contexts[c].pid);
            && (g.phase.Rank() < 3 <==> item.Some?)
            && (item.Some? ==> item.value.event == c && EntryOk(g, item.value))
            && (forall e :: e in after <==> e in g.scans && e.event != c)
            && (forall i, j :: 0 <= i < j < |after| ==> after[i].event != after[j].event)
  {
    var pid := g.contexts[c].pid;
    TakeScanMeans(g.scans, pid);
    if g.phase.Rank() < 3 {
      var i :| 0 <= i < |g.scans| && g.scans[i].event == c;
      assert EntryOk(g, g.scans[i]);
      assert FindBy(g.scans, ScanPid, pid) == Some(i);
    }
  }

  // ----- The globals

  lemma CountedKeepsGlobal(g: Globals, l: Local, env: Env)
    requires CanAct(g, l) && l.Counted?
    ensures GlobalOk(Act(g, l, env).0)
  {
    var g' := Act(g, l, env).0;
    forall i | 0 <= i < |g.log.written| ensures g.log.written[i].requestId != l.requestId {
      assert Listed(g, g.log.written[i].requestId);
    }
    if LastWritten(g.log.written, l.requestId).Some? {
      var i := LastWrittenSource(g.log.written, l.requestId);
      assert false;
    }
    forall i | 0 <= i < |g'.scans| ensures EntryOk(g', g'.scans[i]) {
      if i < |g.scans| {
        assert EntryOk(g, g.scans[i]);
      }
    }
    forall i, j | 0 <= i < j < |g'.scans| ensures g'.scans[i].event != g'.scans[j].event {
      assert EntryOk(g, g.scans[i]);
    }
  }

  /** Entries only leave the list. */
  lemma FewerScansAreOk(g: Globals, h: Globals)
    requires GlobalOk(g) && h.contexts == g.contexts && h.signalled == g.signalled && h.log.written == g.log.written
    requires h.nextRequest >= 1 && (h.phase == Unloaded ==> h.apcCount == 0) && (h.phase.Rank() >= 3 ==> h.scans == [])
    requires forall e :: e in h.scans ==> e in g.scans
    requires forall i, j :: 0 <= i < j < |h.scans| ==> h.scans[i].event != h.scans[j].event
    ensures GlobalOk(h)
  {
    hide LastWritten;
    forall i | 0 <= i < |h.scans| ensures EntryOk(h, h.scans[i]) {
      assert h.scans[i] in g.scans;
    }
  }

  lemma TakingKeepsGlobal(g: Globals, l: Local, env: Env)
    requires CanAct(g, l) && (l.Unlisting? || l.EarlyHit? || l.Woken?)
    ensures GlobalOk(Act(g, l, env).0)
  {
    var g' := Act(g, l, env).0;
    assert EntriesIn(l, l.ctx) == 1;
    TakesOwnEntry(g, l.ctx);
    assert g'.scans == TakeScan(g.scans, g.contexts[l.ctx].pid).0;
    assert g.phase.Rank() >= 3 ==> g'.scans == [] by {
      assert g'.scans != [] ==> g'.scans[0] in g.scans;
    }
    hide TakeScan, HistoryOk, LocalOk, GlobalOk, EntryOk, HasEntry, EntriesIn;
    FewerScansAreOk(g, g');
  }

  lemma DecidingKeepsGlobal(g: Globals, l: Local, env: Env)
    requires CanAct(g, l) && l.Deciding?
    ensures GlobalOk(Act(g, l, env).0)
  {
    var g' := Act(g, l, env).0;
    var k := FindBy(g.scans, ScanRequest, l.requestId);
    if k.Some? {
      forall i | 0 <= i < |g'.scans| ensures EntryOk(g', g'.scans[i]) {
        assert EntryOk(g, g.scans[i]) && EntryOk(g, g.scans[k.value]);
        LastWrittenAppend(g.log.written, Written(l.requestId, l.allow), g.scans[i].requestId);
        if i != k.value && g.scans[i].requestId == l.requestId {
          assert false;
        }
      }
    }
  }

  lemma ClearingKeepsGlobal(g: Globals, env: Env)
    requires CanAct(g, Clearing)
    ensures GlobalOk(Act(g, Clearing, env).0)
  {
    EventsExist(g);
    hide LastWritten, EventsOfScans, HistoryOk, LocalOk, EntryOk;
  }

  lemma OthersKeepGlobal(g: Globals, l: Local, env: Env)
    requires CanAct(g, l)
    requires !l.Counted? && !l.Unlisting? && !l.EarlyHit? && !l.Woken? && !l.Deciding? && !l.Clearing?
    ensures GlobalOk(Act(g, l, env).0)
  {
    assert g.phase.Rank() >= 2 ==> !l.InThreadCallback();
    hide VerdictCache.Taken, VerdictCache.Recorded, TakeTarget, HistoryOk, LocalOk, EntryOk;
    FewerScansAreOk(g, Act(g, l, env).0);
  }

  lemma EventsExist(g: Globals)
    requires GlobalOk(g)
    ensures forall c :: c in EventsOfScans(g.scans) ==> c < |g.contexts|
  {
    forall i | 0 <= i < |g.scans| ensures g.scans[i].event < |g.contexts| {
      assert EntryOk(g, g.scans[i]);
    }
  }

  lemma ActKeepsGlobal(g: Globals, l: Local, env: Env)
    requires CanAct(g, l)
    ensures GlobalOk(Act(g, l, env).0)
  {
    assert Ready(g, l);
    hide *;
    if l.Counted? {
      CountedKeepsGlobal(g, l, env);
    } else if l.Unlisting? || l.EarlyHit? || l.Woken? {
      TakingKeepsGlobal(g, l, env);
    } else if l.Deciding? {
      DecidingKeepsGlobal(g, l, env);
    } else if l.Clearing? {
      ClearingKeepsGlobal(g, env);
    } else {
      OthersKeepGlobal(g, l, env);
    }
  }

  // ----- Entries, exits and the rest under any step

  lemma EventOf(scans: seq<PendingScan>, x: nat)
    ensures x in EventsOfScans(scans) <==> exists e :: e in scans && e.event == x
  {
    if e :| e in scans && e.event == x {
      var i :| 0 <= i < |scans| && scans[i] == e;
    }
  }

  lemma TakingEvents(g: Globals, c: nat)
    requires GlobalOk(g) && c < |g.contexts|
    requires forall i, j :: 0 <= i < j < |g.scans| ==> g.scans[i].pid != g.scans[j].pid
    requires g.phase.Rank() < 3 ==> HasEntry(g, c)
    ensures EventsOfScans(TakeScan(g.scans, CtxOf(g, c).pid).0) == EventsOfScans(g.scans) - {c}
  {
    TakesOwnEntry(g, c);
    var after := TakeScan(g.scans, g.contexts[c].pid).0;
    assert CtxOf(g, c) == g.contexts[c];
    hide *;
    forall x ensures x in EventsOfScans(after) <==> x in EventsOfScans(g.scans) && x != c {
      EventOf(after, x);
      EventOf(g.scans, x);
    }
  }

  /** The contexts that have an entry after a step. */
  lemma EventsAfter(g: Globals, l: Local, env: Env)
    requires CanAct(g, l)
    ensures EventsOfScans(Act(g, l, env).0.scans) ==
            if l.Counted? then EventsOfScans(g.scans) + {|g.contexts|}
            else if l.Unlisting? || l.EarlyHit? || l.Woken? then EventsOfScans(g.scans) - {l.ctx}
            else if l.Clearing? then {}
            else EventsOfScans(g.scans)
  {
    ActListsScans(g, l, env);
    hide Act;
    var after := Act(g, l, env).0.scans;
    if l.Counted? {
      assert after[|g.scans|].event == |g.contexts|;
      assert forall i :: 0 <= i < |g.scans| ==> after[i] == g.scans[i];
    } else if l.Unlisting? || l.EarlyHit? || l.Woken? {
      assert EntriesIn(l, l.ctx) == 1;
      TakingEvents(g, l.ctx);
    } else if l.Deciding? {
      assert |after| == |g.scans| && forall i :: 0 <= i < |after| ==> after[i].event == g.scans[i].event;
    }
  }

  /** A step only adds contexts, writes and signals, and takes off no entry but the thread's own. */
  ghost predicate Extends(g: Globals, h: Globals, l: Local) {
    && Grows(g, h)
    && (forall c: nat :: HasEntry(h, c) ==> HasEntry(g, c) || c >= |g.contexts|)
    && (forall c: nat :: HasEntry(g, c) && EntriesIn(l, c) == 0 && h.phase.Rank() < 3 ==> HasEntry(h, c))
  }

  /** The logs, the contexts and the signalled events only grow, and unload only goes on. */
  ghost predicate Grows(g: Globals, h: Globals) {
    && g.contexts <= h.contexts && g.log.written <= h.log.written && g.signalled <= h.signalled
    && g.phase.Rank() <= h.phase.Rank() && g.log.freed <= h.log.freed && g.log.cacheOps <= h.log.cacheOps
  }

  lemma ActGrows(g: Globals, l: Local, env: Env)
    requires CanAct(g, l)
    ensures Grows(g, Act(g, l, env).0)
  {
    hide EventsOfScans, LastWritten, GlobalOk, HistoryOk, FindBy, HasEntry;
  }

  lemma ActExtends(g: Globals, l: Local, env: Env)
    requires CanAct(g, l)
    ensures Extends(g, Act(g, l, env).0, l)
  {
    hide EventsOfScans, LastWritten, GlobalOk, HistoryOk, FindBy, Grows;
    ActGrows(g, l, env);
    EventsAfter(g, l, env);
  }

  lemma FoundStays(g: Globals, h: Globals, c: nat, uses: nat, denied: bool)
    requires FoundEarly(g, c, uses, denied) && g.contexts <= h.contexts && g.log.cacheOps <= h.log.cacheOps
    ensures FoundEarly(h, c, uses, denied)
  {
    assert h.log.cacheOps[..uses] == g.log.cacheOps[..uses];
  }

  /** The cache is what its uses have made of it. */
  lemma ActUsesCache(g: Globals, l: Local, env: Env)
    requires Ready(g, l) && g.cache == VerdictCache.Run(g.log.cacheOps)
    ensures var h := Act(g, l, env).0; h.cache == VerdictCache.Run(h.log.cacheOps)
  {
    hide VerdictCache.Run, VerdictCache.Recorded, VerdictCache.Taken, TakeScan, TakeTarget, WriteVerdict, EventsOfScans;
    if l.Caching? {
      VerdictCache.RunOne(g.log.cacheOps, VerdictCache.Write(l.requestId, l.allow, env.now));
    } else if l.Queued? {
      VerdictCache.RunOne(g.log.cacheOps, VerdictCache.Read(CtxOf(g, l.ctx).pid));
    }
  }

  /** An APC finds a cached verdict exactly if the request numbered by its pid has an unread one that no
      later write has expired or evicted; it will terminate its process exactly if that one denies. */
  lemma EarlyHitIff(g: Globals, c: nat)
    requires g.cache == VerdictCache.Run(g.log.cacheOps) && c < |g.contexts|
    ensures var (ops, pid) := (g.log.cacheOps, g.contexts[c].pid);
            var l := CheckEarly(g, c).1;
            if VerdictCache.Survives(ops, pid) && VerdictCache.Ideal(ops, pid).Some? then
              l == EarlyHit(c, |ops|, !VerdictCache.Ideal(ops, pid).value.allowed)
            else
              l == Waiting(c)
  {
    VerdictCache.RunRefinesMap(g.log.cacheOps, g.contexts[c].pid);
    VerdictCache.TakeMeans(g.cache, g.contexts[c].pid);
    hide VerdictCache.Run, VerdictCache.Taken, VerdictCache.Distinct;
  }

  lemma CheckEarlyIsOk(g: Globals, c: nat)
    requires g.cache == VerdictCache.Run(g.log.cacheOps) && c < |g.contexts|
    ensures var (h, l) := CheckEarly(g, c); l.EarlyHit? ==> FoundEarly(h, l.ctx, l.uses, l.denied)
  {
    EarlyHitIff(g, c);
    var h := CheckEarly(g, c).0;
    assert h.log.cacheOps[..|g.log.cacheOps|] == g.log.cacheOps;
    hide VerdictCache.Run, VerdictCache.Taken;
  }

  lemma ExitStaysOk(g: Globals, h: Globals, exit: Exit)
    requires ExitOk(g, exit) && g.contexts <= h.contexts && g.log.written <= h.log.written
    requires g.log.cacheOps <= h.log.cacheOps
    ensures ExitOk(h, exit)
  {
    if exit.Early? {
      FoundStays(g, h, exit.ctx, exit.uses, exit.terminate);
    } else {
      assert h.log.written[..exit.writes] == g.log.written[..exit.writes];
    }
  }

  lemma CollectIsOk(g: Globals, l: Local, env: Env)
    requires CanAct(g, l) && l.Woken?
    ensures ExitOk(Act(g, l, env).0, Act(g, l, env).1.exit)
  {
    assert EntriesIn(l, l.ctx) == 1;
    TakesOwnEntry(g, l.ctx);
    var item := TakeScan(g.scans, g.contexts[l.ctx].pid).1;
    var exit := Act(g, l, env).1.exit;
    assert CtxOf(g, l.ctx) == g.contexts[l.ctx];
    assert Act(g, l, env).0.log.written[..exit.writes] == g.log.written;
    if item.Some? {
      assert EntryOk(g, item.value) && item.value.requestId == g.contexts[l.ctx].requestId;
      assert !exit.cleared && exit.terminate == (!l.timedOut && !item.value.allowed);
    } else {
      assert exit.cleared;
    }
  }

  lemma FreedStaysOk(g: Globals, l: Local, env: Env, i: nat)
    requires CanAct(g, l) && i < |Act(g, l, env).0.log.freed|
    ensures var h := Act(g, l, env).0; FreedOk(h, h.log.freed[i])
  {
    var h := Act(g, l, env).0;
    ActExtends(g, l, env);
    hide EventsOfScans, LastWritten, GlobalOk, FindBy;
    var c := h.log.freed[i].ctx;
    if i == |g.log.freed| {
      assert ContextsIn(l, c) == 1;
    } else {
      assert h.log.freed[i] == g.log.freed[i];
      assert FreedOk(g, g.log.freed[i]);
    }
  }

  lemma ActKeepsHistory(g: Globals, l: Local, env: Env)
    requires CanAct(g, l)
    ensures HistoryOk(Act(g, l, env).0)
  {
    var h := Act(g, l, env).0;
    ActExtends(g, l, env);
    hide EventsOfScans, LastWritten, GlobalOk;
    forall i | 0 <= i < |h.log.exits| ensures ExitOk(h, h.log.exits[i]) {
      if i < |g.log.exits| {
        ExitStaysOk(g, h, g.log.exits[i]);
      } else {
        ExitStaysOk(g, h, l.exit);
      }
    }
    forall i | 0 <= i < |h.log.freed| ensures FreedOk(h, h.log.freed[i]) {
      FreedStaysOk(g, l, env, i);
    }
    WrittenStaysOk(g, l, env);
    ActUsesCache(g, l, env);
  }

  lemma WrittenStaysOk(g: Globals, l: Local, env: Env)
    requires CanAct(g, l)
    ensures var h := Act(g, l, env).0;
            forall i :: 0 <= i < |h.log.written| ==> Listed(h, h.log.written[i].requestId)
  {
    hide LastWritten;
    var h := Act(g, l, env).0;
    forall i | 0 <= i < |h.log.written| ensures Listed(h, h.log.written[i].requestId) {
      if i < |g.log.written| {
        assert Listed(g, g.log.written[i].requestId);
        var c :| 0 <= c < |g.contexts| && g.contexts[c].requestId == g.log.written[i].requestId;
        assert h.contexts[c] == g.contexts[c];
      } else {
        var e := g.scans[FindBy(g.scans, ScanRequest, l.requestId).value];
        assert EntryOk(g, e);
        assert h.contexts[e.event].requestId == l.requestId;
      }
    }
  }

  lemma ActKeepsLists(g: Globals, l: Local, env: Env)
    requires CanAct(g, l)
    ensures Lists(Act(g, l, env).0, Act(g, l, env).1)
  {
    EventsAfter(g, l, env);
    ActExtends(g, l, env);
    ActFrees(g, l, env);
    ActClears(g, l, env);
    hide Act, EventsOfScans, GlobalOk, HistoryOk, ExitOk, Separate, EntriesIn, ContextsIn;
    var (h, k) := Act(g, l, env);
    forall c: nat | EntriesIn(k, c) == 1
      ensures c < |h.contexts| && (h.phase.Rank() < 3 ==> HasEntry(h, c))
    {
      ActMovesEntries(g, l, env, c);
    }
    forall c: nat | ContextsIn(k, c) == 1 ensures c < |h.contexts| {
      ActHolds(g, l, env, c);
    }
  }

  /** The list is cleared in the phase in which it counts as empty. */
  lemma ActClears(g: Globals, l: Local, env: Env)
    requires Ready(g, l)
    ensures l.Clearing? ==> Act(g, l, env).0.phase == Cleared
  {
  }

  lemma ActKeepsExit(g: Globals, l: Local, env: Env)
    requires CanAct(g, l)
    ensures var (h, k) := Act(g, l, env);
            && (k.Freeing? ==> ExitOk(h, k.exit) && !HasEntry(h, k.exit.ctx))
            && (k.Leaving? || k.Exiting? ==> ExitOk(h, k.exit))
  {
    if l.Woken? || l.EarlyHit? {
      EventsAfter(g, l, env);
      assert ContextsIn(l, l.ctx) == 1;
      if l.Woken? {
        CollectIsOk(g, l, env);
      }
    } else if l.Freeing? || l.Leaving? {
      hide LastWritten, GlobalOk, HistoryOk;
      ExitStaysOk(g, Act(g, l, env).0, l.exit);
    }
    hide LastWritten, EventsOfScans, TakeScan, FindBy, GlobalOk, HistoryOk, ExitOk;
  }

  /** Callbacks do not outlive their phase. */
  lemma ActKeepsPhase(g: Globals, l: Local, env: Env)
    requires CanAct(g, l)
    ensures var (h, k) := Act(g, l, env);
            && (h.phase.Rank() >= 1 ==> !k.InProcessCallback())
            && (h.phase.Rank() >= 2 ==> !k.InThreadCallback())
  {
    hide EventsOfScans, Lists, ExitOk, GlobalOk, HistoryOk, Separate, TakeScan, TakeTarget, WriteVerdict,
      VerdictCache.Taken, VerdictCache.Recorded;
  }

  lemma ActKeepsOwn(g: Globals, l: Local, env: Env)
    requires CanAct(g, l)
    ensures LocalOk(Act(g, l, env).0, Act(g, l, env).1)
  {
    ActKeepsLists(g, l, env);
    ActKeepsExit(g, l, env);
    ActKeepsPhase(g, l, env);
    if l.Queued? {
      assert ContextsIn(l, l.ctx) == 1;
      CheckEarlyIsOk(g, l.ctx);
    }
    hide EventsOfScans, Lists, ExitOk, GlobalOk, HistoryOk, Separate, TakeScan, TakeTarget, WriteVerdict,
      VerdictCache.Taken, VerdictCache.Recorded,
      LastWritten, HasEntry, CtxOf, FoundEarly;
  }

  lemma ActKeepsOther(g: Globals, l: Local, env: Env, m: Local)
    requires CanAct(g, l) && LocalOk(g, m)
    requires forall c: nat :: EntriesIn(l, c) + EntriesIn(m, c) <= 1
    requires l.StoppingProcesses? ==> !m.InProcessCallback()
    requires l.StoppingThreads? ==> !m.InThreadCallback()
    ensures LocalOk(Act(g, l, env).0, m)
  {
    var h := Act(g, l, env).0;
    ActExtends(g, l, env);
    ActMovesOn(g, l, env);
    hide Act, GlobalOk, HistoryOk, ExitOk, FoundEarly, EventsOfScans, Separate, Lists, EntriesIn, HasEntry;
    ListsStay(g, h, l, m);
    if m.Freeing? || m.Leaving? || m.Exiting? {
      ExitStaysOk(g, h, m.exit);
      if m.Freeing? {
        NoEntryStays(g, h, l, m.exit.ctx);
      }
    } else if m.EarlyHit? {
      FoundStays(g, h, m.ctx, m.uses, m.denied);
    }
  }

  lemma ListsStay(g: Globals, h: Globals, l: Local, m: Local)
    requires Extends(g, h, l) && Lists(g, m)
    requires forall c: nat :: EntriesIn(l, c) + EntriesIn(m, c) <= 1
    ensures Lists(h, m)
  {
    hide EntriesIn, ContextsIn, HasEntry;
  }

  lemma NoEntryStays(g: Globals, h: Globals, l: Local, c: nat)
    requires Extends(g, h, l) && c < |g.contexts| && !HasEntry(g, c)
    ensures !HasEntry(h, c)
  {
    hide EntriesIn, HasEntry;
  }

  /** Only unload's own steps change the phase. */
  lemma ActMovesOn(g: Globals, l: Local, env: Env)
    requires Ready(g, l)
    ensures var h := Act(g, l, env).0;
            h.phase != g.phase ==>
              l.Clearing? || l.Draining? || (l.StoppingProcesses? && h.phase == NoProcesses)
              || (l.StoppingThreads? && h.phase == NoThreads)
    ensures l.Clearing? ==> g.phase == NoThreads
    ensures l.Draining? ==> g.phase == Cleared
    ensures l.StoppingThreads? ==> g.phase == NoProcesses
  {
    hide VerdictCache.Taken, VerdictCache.Recorded, TakeScan, TakeTarget, WriteVerdict, EventsOfScans;
  }

  // ----- Lifted to all threads

  lemma ThreadCanAct(s: State, t: nat, env: Env)
    requires Inv(s) && Enabled(s, Move(t, env))
    ensures CanAct(s.g, s.threads[t])
  {
    var l := s.threads[t];
    ScansHaveOwnPids(s);
    RunDownEntriesAreNobodys(s, t);
    ContextsHaveOwnRequests(s);
    TallyUpdate(s.threads, t, l, CountedIn, ());
    if l.Counted? {
      forall i | 0 <= i < |s.g.contexts| ensures s.g.contexts[i].requestId != l.requestId {
        var r := l.requestId;
        TallyUpdate(s.threads, t, l, RequestsIn, r);
        TallyUpdate(s.g.contexts, i, s.g.contexts[i], CtxRequestIs, r);
        assert Tally(s.threads, RequestsIn, r) + RequestStored(s.g, r) <= 1;
      }
    }
  }

  /** The context of an APC that was run down is in no thread's charge any more. */
  lemma RunDownEntriesAreNobodys(s: State, t: nat)
    requires Inv(s) && t < |s.threads|
    ensures forall i :: 0 <= i < |s.g.log.freed| && s.g.log.freed[i].cause == RunDown ==>
              EntriesIn(s.threads[t], s.g.log.freed[i].ctx) == 0
  {
    var l := s.threads[t];
    forall i | 0 <= i < |s.g.log.freed| && s.g.log.freed[i].cause == RunDown
      ensures EntriesIn(l, s.g.log.freed[i].ctx) == 0
    {
      var c := s.g.log.freed[i].ctx;
      assert Tally(s.threads, ContextsIn, c) + FreedTimes(s.g, c) <= 1;
      TallyUpdate(s.threads, t, l, ContextsIn, c);
      TallyUpdate(s.g.log.freed, i, s.g.log.freed[i], FreedIs, c);
      if l.Unlisting? && l.ctx == c {
        assert LocalOk(s.g, l);
        var j :| 0 <= j < |s.g.log.freed| && s.g.log.freed[j] == Freed(c, NotInserted);
        TwoInList(s.g.log.freed, i, j, FreedIs, c);
      }
    }
  }

  lemma ScansHaveOwnPids(s: State)
    requires PidLedger(s)
    ensures forall i, j :: 0 <= i < j < |s.g.scans| ==> s.g.scans[i].pid != s.g.scans[j].pid
  {
    forall i, j | 0 <= i < j < |s.g.scans| ensures s.g.scans[i].pid != s.g.scans[j].pid {
      var p := s.g.scans[i].pid;
      TallyTwo(s.g.scans, i, j, ScanPidIs, p);
      assert Tally(s.threads, PidsIn, p) + PidStored(s.g, p) <= 1;
    }
  }

  lemma ContextsHaveOwnRequests(s: State)
    requires RequestLedger(s)
    ensures forall i, j :: 0 <= i < j < |s.g.contexts| ==> s.g.contexts[i].requestId != s.g.contexts[j].requestId
  {
    forall i, j | 0 <= i < j < |s.g.contexts| ensures s.g.contexts[i].requestId != s.g.contexts[j].requestId {
      var r := s.g.contexts[i].requestId;
      TallyTwo(s.g.contexts, i, j, CtxRequestIs, r);
      assert Tally(s.threads, RequestsIn, r) + RequestStored(s.g, r) <= 1;
    }
  }

  lemma PidFreeTallies(s: State, p: nat)
    requires PidFree(s, p)
    ensures Tally(s.threads, PidsIn, p) + PidStored(s.g, p) == 0
  {
    TallyZero(s.threads, PidsIn, p);
    TallyZero(s.g.targets, TargetPidIs, p);
    TallyZero(s.g.scans, ScanPidIs, p);
  }

  lemma SpawnKeeps(s: State, l: Local)
    requires Inv(s) && Enabled(s, Spawn(l))
    ensures Inv(Apply(s, Spawn(l)))
  {
    hide Tallies.Tally;
    hide RequestStored, PidStored, FreedTimes, GlobalOk, HistoryOk, PidFree;
    var s' := Apply(s, Spawn(l));
    forall r: nat ensures Tally(s'.threads, RequestsIn, r) == Tally(s.threads, RequestsIn, r) {
      TallyAppend(s.threads, l, RequestsIn, r);
    }
    forall p: nat ensures Tally(s'.threads, PidsIn, p) + PidStored(s'.g, p) <= 1 {
      TallyAppend(s.threads, l, PidsIn, p);
      assert Tally(s.threads, PidsIn, p) + PidStored(s.g, p) <= 1;
      if Mentions(l, p) {
        PidFreeTallies(s, p);
      }
    }
    forall c: nat
      ensures Tally(s'.threads, ContextsIn, c) == Tally(s.threads, ContextsIn, c)
      ensures Tally(s'.threads, EntriesIn, c) == Tally(s.threads, EntriesIn, c)
    {
      TallyAppend(s.threads, l, ContextsIn, c);
      TallyAppend(s.threads, l, EntriesIn, c);
    }
    TallyAppend(s.threads, l, CountedIn, ());
  }

  lemma MoveKeepsLedgers(s: State, t: nat, env: Env)
    requires Inv(s) && Enabled(s, Move(t, env))
    ensures var s' := Apply(s, Move(t, env));
            RequestLedger(s') && PidLedger(s') && ContextLedger(s') && EntryLedger(s') && CountLedger(s')
  {
    hide Tallies.Tally;
    hide RequestStored, PidStored, FreedTimes, HistoryOk;
    var s' := Apply(s, Move(t, env));
    var l := s.threads[t];
    var l' := s'.threads[t];
    IdsGrow(s.g, l, env);
    assert s.g.nextRequest >= 1;
    hide Act, Enabled, Ready;
    forall r: nat
      ensures Tally(s'.threads, RequestsIn, r) + RequestStored(s'.g, r) == if 1 <= r < s'.g.nextRequest then 1 else 0
    {
      TallyUpdate(s.threads, t, l', RequestsIn, r);
      ActMovesRequests(s.g, l, env, r);
    }
    forall p: nat ensures Tally(s'.threads, PidsIn, p) + PidStored(s'.g, p) <= 1 {
      TallyUpdate(s.threads, t, l', PidsIn, p);
      ActMovesPids(s.g, l, env, p);
      assert Tally(s.threads, PidsIn, p) + PidStored(s.g, p) <= 1;
    }
    forall c: nat
      ensures Tally(s'.threads, ContextsIn, c) + FreedTimes(s'.g, c) == if c < |s'.g.contexts| then 1 else 0
      ensures Tally(s'.threads, EntriesIn, c) <= if c < |s'.g.contexts| then 1 else 0
    {
      TallyUpdate(s.threads, t, l', ContextsIn, c);
      TallyUpdate(s.threads, t, l', EntriesIn, c);
      ActMovesContexts(s.g, l, env, c);
      ActMovesEntries(s.g, l, env, c);
    }
    TallyUpdate(s.threads, t, l', CountedIn, ());
    ActMovesCount(s.g, l, env);
  }

  lemma IdsGrow(g: Globals, l: Local, env: Env)
    requires Ready(g, l)
    ensures g.nextRequest <= Act(g, l, env).0.nextRequest && |g.contexts| <= |Act(g, l, env).0.contexts|
  {
  }

  lemma MoveKeepsLocals(s: State, t: nat, env: Env)
    requires Inv(s) && Enabled(s, Move(t, env))
    ensures var s' := Apply(s, Move(t, env));
            forall u :: 0 <= u < |s'.threads| ==> LocalOk(s'.g, s'.threads[u])
  {
    var s' := Apply(s, Move(t, env));
    ThreadCanAct(s, t, env);
    hide Act, LocalOk, GlobalOk, HistoryOk;
    forall u | 0 <= u < |s'.threads| ensures LocalOk(s'.g, s'.threads[u]) {
      if u == t {
        ActKeepsOwn(s.g, s.threads[t], env);
      } else {
        forall c: nat ensures EntriesIn(s.threads[t], c) + EntriesIn(s.threads[u], c) <= 1 {
          TwoInList(s.threads, t, u, EntriesIn, c);
        }
        ActKeepsOther(s.g, s.threads[t], env, s.threads[u]);
      }
    }
  }

  lemma StepKeeps(s: State, step: Step)
    requires Inv(s) && Enabled(s, step)
    ensures Inv(Apply(s, step))
  {
    match step
    case Spawn(l) => SpawnKeeps(s, l);
    case Move(t, env) =>
      ThreadCanAct(s, t, env);
      MoveKeepsLedgers(s, t, env);
      MoveKeepsLocals(s, t, env);
      ActKeepsGlobal(s.g, s.threads[t], env);
      ActKeepsHistory(s.g, s.threads[t], env);
  }

  lemma {:induction false} RunKeeps(run: seq<Step>)
    ensures Exec(run).Some? ==> Inv(Exec(run).value)
  {
    if run == [] {
      InitOk();
    } else {
      RunKeeps(run[..|run| - 1]);
      var before := Exec(run[..|run| - 1]);
      if before.Some? && Enabled(before.value, run[|run| - 1]) {
        StepKeeps(before.value, run[|run| - 1]);
      }
    }
  }

  lemma InitOk()
    ensures Inv(INIT)
  {
  }

  lemma ReachableInv(s: State)
    requires Reachable(s)
    ensures Inv(s)
  {
    var run :| Exec(run) == Some(s);
    RunKeeps(run);
  }
}
