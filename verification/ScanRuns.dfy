/**
 Any number of threads running `analyze_event` on one scan cache, interleaved at the cache's
 critical sections, and what every interleaving keeps.
 */
module ScanRuns {
  import opened Prelude
  import opened Tallies
  import opened StaticAnalysis
  import opened ScanCache

  datatype Job = Job(pid: nat, requestId: nat, key: Key, frozen: bool)

  /** The metadata a job saw when it started. */
  datatype Id = Id(modTime: nat, size: nat)

  /** A version of a file, told apart by what the file system says of it. */
  datatype Version = Version(id: Id, index: Option<nat>)

  /** A scan opens the path three times, to read it, to hash it and to verify its signature, and may see
      another version each time. */
  datatype Versions = Versions(bytes: Version, hash: Version, certificate: Version)

  function Always(v: Version): Versions { Versions(v, v, v) }

  /** What a verdict rests on: some details, and the number of the scan they come from. */
  datatype Basis = Basis(details: Details, from: nat)

  /** Where a job is. `n` counts its attempts to acquire. From `Reading` on a job knows what versions
      of the file its scan got to see. */
  datatype Local =
    | Arrived(job: Job)
    | Looking(job: Job, id: Id, n: nat)
    | Probing(job: Job, id: Id, n: nat, item: CompletedScan, from: nat)  // about to ask for the file index
    | Invalidating(job: Job, id: Id, n: nat, twice: bool)
    | Claiming(job: Job, id: Id, n: nat, missed: nat)  // its key was not cached after so many changes
    | Waiting(job: Job, id: Id, n: nat, barrier: nat)
    | Reading(job: Job, id: Id)                        // holds a guard from here ...
    | Dropping(job: Job, id: Id)                       // the file was unreadable
    | Indexing(job: Job, id: Id, details: Details, allow: bool, seen: Versions)
    | Storing(job: Job, scan: CompletedScan, allow: bool, seen: Versions)
    | Resolving(job: Job, scan: CompletedScan, allow: bool, from: nat)  // ... to here
    | Reporting(job: Job, allow: bool, outcome: Option<Basis>)
    | Finished(job: Job)
  {
    predicate HoldsGuard() { Reading? || Dropping? || Indexing? || Storing? || Resolving? }

    predicate BeforeClaim() { Arrived? || Acquiring() || Waiting? }

    predicate Acquiring() { Looking? || Probing? || Invalidating? || Claiming? }

    /** What the holder of a guard saw of the file when it started. */
    function HolderId(): Id
      requires HoldsGuard()
    {
      if Storing? || Resolving? then IdOf(scan) else id
    }
  }

  function IdOf(scan: CompletedScan): Id { Id(scan.modTime, scan.fileSize) }

  datatype Owner = Owner(key: Key, id: Id)
  datatype Scanned = Scanned(key: Key, scan: CompletedScan, seen: Versions)
  datatype HitNote = HitNote(key: Key, id: Id, index: Option<nat>, basis: Basis)
  datatype Sent = Sent(thread: nat, job: Job, allow: bool, outcome: Option<Basis>)

  /** What happens to the finished results: scan number `from` is stored, or a key is removed. */
  datatype Change = Stored(key: Key, from: nat) | Removed(key: Key)

  /** What a job was told of its file when it arrived. */
  datatype Answer = Answer(ok: bool, size: nat)

  /** Logs: who each barrier was made for, the barriers settled, and with which scan; the scans, the
      changes of the cache, the hits and the verdicts; by thread, each acquire, wait, failed wait, claim
      and resolution; and for each thread, what it was told of its file, and whether it could read it. */
  datatype Log = Log(
    owners: seq<Owner>, settled: seq<nat>, results: map<nat, nat>,
    scans: seq<Scanned>, changes: seq<Change>, hits: seq<HitNote>, sent: seq<Sent>,
    acquires: seq<nat>, waits: seq<nat>, failures: seq<nat>, claims: seq<nat>, resolutions: seq<nat>,
    answers: map<nat, Answer>, readable: map<nat, bool>)

  datatype Globals = Globals(
    completed: map<Key, CompletedScan>, inProgress: map<Key, nat>, barriers: seq<BarrierState>, log: Log)

  datatype State = State(g: Globals, threads: seq<Local>)

  const INIT_LOG: Log := Log([], [], map[], [], [], [], [], [], [], [], [], [], map[], map[])
  const INIT: State := State(Globals(map[], map[], [], INIT_LOG), [])

  /** What the world answers in a step. */
  datatype Env = Env(ok: bool, id: Id, index: Option<nat>, inp: Inputs, seen: Versions)

  predicate Ready(l: Local) { !l.Finished? }

  /** The number of the scan the changes leave in the cache under a key. */
  function LastStored(changes: seq<Change>, key: Key): Option<nat> {
    if changes == [] then None
    else
      var last := changes[|changes| - 1];
      if last.key == key then (if last.Stored? then Some(last.from) else None)
      else LastStored(changes[..|changes| - 1], key)
  }

  function Cached(g: Globals, key: Key): nat {
    match LastStored(g.log.changes, key) case Some(n) => n case None => 0
  }

  function Act(g: Globals, t: nat, l: Local, env: Env): (Globals, Local)
    requires Ready(l)
  {
    match l
    case Arrived(job) =>
      if !job.frozen then (g, Finished(job))
      else
        var g := g.(log := g.log.(answers := g.log.answers[t := Answer(env.ok, env.id.size)]));
        if !env.ok || env.id.size == 0 then (g, Reporting(job, false, None))
        else (NoteAcquire(g, t), Looking(job, env.id, 1))
    case Looking(job, id, n) => LookUp(g, job, id, n, env.index)
    case Probing(job, id, n, item, from) =>
      if env.index == item.fileIndex then UseHit(g, job, id, env.index, Basis(item.details, from))
      else (g, Invalidating(job, id, n, true))
    case Invalidating(job, id, n, twice) =>
      (Remove(g, job.key),
       if twice then Invalidating(job, id, n, false) else Claiming(job, id, n, |g.log.changes| + 1))
    case Claiming(job, id, n, _) => ClaimSlot(g, t, job, id, n)
    case Waiting(job, id, n, b) => WakeUp(g, t, job, id, n, b)
    case Reading(job, id) =>
      var g := g.(log := g.log.(readable := g.log.readable[t := env.ok]));
      if env.ok then var (details, allow) := Analyze(env.inp); (g, Indexing(job, id, details, allow, env.seen))
      else (g, Dropping(job, id))
    case Dropping(job, _) => (Settle(g, t, job.key, Failed, 0), Reporting(job, false, None))
    case Indexing(job, id, details, allow, seen) =>
      (g, Storing(job, CompletedScan(details, id.modTime, id.size, env.index), allow, seen))
    case Storing(job, scan, allow, seen) =>
      (Store(g, job.key, scan, seen), Resolving(job, scan, allow, |g.log.scans|))
    case Resolving(job, scan, allow, from) =>
      (Settle(g, t, job.key, Completed(scan), from), Reporting(job, allow, Some(Basis(scan.details, from))))
    case Reporting(job, allow, outcome) =>
      (g.(log := g.log.(sent := g.log.sent + [Sent(t, job, allow, outcome)])), Finished(job))
  }

  function NoteAcquire(g: Globals, t: nat): Globals { g.(log := g.log.(acquires := g.log.acquires + [t])) }

  function Store(g: Globals, key: Key, scan: CompletedScan, seen: Versions): Globals {
    g.(completed := g.completed[key := scan],
       log := g.log.(scans := g.log.scans + [Scanned(key, scan, seen)],
                     changes := g.log.changes + [Stored(key, |g.log.scans|)]))
  }

  function Remove(g: Globals, key: Key): Globals {
    g.(completed := g.completed - {key}, log := g.log.(changes := g.log.changes + [Removed(key)]))
  }

  /** `index` is the file's index now; a hit on an entry without one does not ask for it. */
  function LookUp(g: Globals, job: Job, id: Id, n: nat, index: Option<nat>): (Globals, Local) {
    match Look(g.completed, job.key, id.modTime, id.size)
    case Missing => (g, Claiming(job, id, n, |g.log.changes|))
    case Stale => (g, Invalidating(job, id, n, false))
    case Indexed(item) => (g, Probing(job, id, n, item, Cached(g, job.key)))
    case Hit(item) => UseHit(g, job, id, index, Basis(item.details, Cached(g, job.key)))
  }

  function UseHit(g: Globals, job: Job, id: Id, index: Option<nat>, basis: Basis): (Globals, Local) {
    (g.(log := g.log.(hits := g.log.hits + [HitNote(job.key, id, index, basis)])),
     Reporting(job, !Over(basis.details.threatScore), Some(basis)))
  }

  function ClaimSlot(g: Globals, t: nat, job: Job, id: Id, n: nat): (Globals, Local) {
    match Claim(g.inProgress, g.barriers, job.key)
    case (_, _, Some(b)) => (g.(log := g.log.(waits := g.log.waits + [t])), Waiting(job, id, n, b))
    case (inProgress, barriers, None) =>
      (g.(inProgress := inProgress, barriers := barriers,
          log := g.log.(owners := g.log.owners + [Owner(job.key, id)], claims := g.log.claims + [t])),
       Reading(job, id))
  }

  /** A failed or timed-out wait is tried once more from the start; the second one blocks. */
  function WakeUp(g: Globals, t: nat, job: Job, id: Id, n: nat, b: nat): (Globals, Local) {
    match WaitOn(if b < |g.barriers| then g.barriers[b] else Failed)
    case Done(scan) =>
      var basis := Basis(scan.details, if b in g.log.results then g.log.results[b] else 0);
      (g, Reporting(job, !Over(scan.details.threatScore), Some(basis)))
    case _ =>
      var g := g.(log := g.log.(failures := g.log.failures + [t]));
      if n == 1 then (NoteAcquire(g, t), Looking(job, id, 2)) else (g, Reporting(job, false, None))
  }

  /** `from` is the number of the scan, if it was completed. */
  function Settle(g: Globals, t: nat, key: Key, state: BarrierState, from: nat): Globals {
    var (inProgress, barriers) := Resolve(g.inProgress, g.barriers, key, state);
    g.(inProgress := inProgress, barriers := barriers,
       log := g.log.(
         resolutions := g.log.resolutions + [t],
         settled := if key in g.inProgress then g.log.settled + [g.inProgress[key]] else g.log.settled,
         results := if key in g.inProgress then g.log.results[g.inProgress[key] := from] else g.log.results))
  }

  /** `Evict`: the cache of finished results may drop an entry at any time. */
  datatype Step = Spawn(job: Job) | Move(t: nat, env: Env) | Evict(key: Key)

  predicate Enabled(s: State, step: Step) {
    step.Move? ==> step.t < |s.threads| && Ready(s.threads[step.t])
  }

  function Apply(s: State, step: Step): State
    requires Enabled(s, step)
  {
    match step
    case Spawn(job) => s.(threads := s.threads + [Arrived(job)])
    case Move(t, env) =>
      var (g, l) := Act(s.g, t, s.threads[t], env);
      State(g, s.threads[t := l])
    case Evict(key) => s.(g := Remove(s.g, key))
  }

  function Exec(run: seq<Step>): Option<State> {
    if run == [] then Some(INIT)
    else
      match Exec(run[..|run| - 1])
      case None => None
      case Some(s) => if Enabled(s, run[|run| - 1]) then Some(Apply(s, run[|run| - 1])) else None
  }

  ghost predicate Reachable(s: State) { exists run :: Exec(run) == Some(s) }

  // ----- The invariant

  ghost function GuardsIn(l: Local, key: Key): nat { if l.HoldsGuard() && l.job.key == key then 1 else 0 }

  ghost function SameId(a: nat, b: nat): nat { Same(a, b) }

  ghost function SentBy(m: Sent, t: nat): nat { Same(m.thread, t) }

  /** One guard for each key in progress, and no other. */
  ghost predicate GuardLedger(s: State) {
    forall key :: Tally(s.threads, GuardsIn, key) == if key in s.g.inProgress then 1 else 0
  }

  /** Scan number `from` is that one of that key. */
  ghost predicate Known(g: Globals, from: nat, key: Key, scan: CompletedScan) {
    from < |g.log.scans| && g.log.scans[from].key == key && g.log.scans[from].scan == scan
  }

  ghost predicate BarrierOk(g: Globals, b: nat)
    requires b < |g.barriers| == |g.log.owners|
  {
    var key := g.log.owners[b].key;
    && (g.barriers[b].Pending? <==> key in g.inProgress && g.inProgress[key] == b)
    && (g.barriers[b].Completed? ==>
          && b in g.log.results && Known(g, g.log.results[b], key, g.barriers[b].scan)
          && IdOf(g.barriers[b].scan) == g.log.owners[b].id)
    && Tally(g.log.settled, SameId, b) == if g.barriers[b].Pending? then 0 else 1
  }

  /** What is cached is what the changes left there. */
  ghost predicate CacheOk(g: Globals, key: Key) {
    match LastStored(g.log.changes, key)
    case None => key !in g.completed
    case Some(n) => key in g.completed && Known(g, n, key, g.completed[key])
  }

  /** A hit is a scan completed for the key, with the size and time the caller saw, and the current
      file index if the scan recorded one. */
  ghost predicate HitOk(g: Globals, h: HitNote) {
    h.basis.from < |g.log.scans| &&
    var n := g.log.scans[h.basis.from];
    && n.key == h.key && n.scan.details == h.basis.details && IdOf(n.scan) == h.id
    && (n.scan.fileIndex.Some? ==> n.scan.fileIndex == h.index)
  }

  /** An allow verdict has a completed scan of the same path to go by, scoring at most 80. */
  ghost predicate ReportOk(g: Globals, key: Key, allow: bool, outcome: Option<Basis>) {
    match outcome
    case None => !allow
    case Some(basis) =>
      && (allow <==> !Over(basis.details.threatScore))
      && basis.from < |g.log.scans| && g.log.scans[basis.from].key == key
      && g.log.scans[basis.from].scan.details == basis.details
  }

  ghost predicate GlobalOk(g: Globals) {
    && |g.barriers| == |g.log.owners|
    && (forall b :: 0 <= b < |g.barriers| ==> BarrierOk(g, b))
    && (forall key :: key in g.inProgress ==>
          g.inProgress[key] < |g.barriers| && g.log.owners[g.inProgress[key]].key == key)
    && (forall b: nat :: b >= |g.barriers| ==> Tally(g.log.settled, SameId, b) == 0)
  }

  ghost predicate HistoryOk(g: Globals) {
    && (forall key :: CacheOk(g, key))
    && (forall i :: 0 <= i < |g.log.hits| ==> HitOk(g, g.log.hits[i]))
    && (forall i :: 0 <= i < |g.log.sent| ==>
          ReportOk(g, g.log.sent[i].job.key, g.log.sent[i].allow, g.log.sent[i].outcome))
  }

  /** The barrier of a guard's key was made for its holder. */
  ghost predicate HolderOk(g: Globals, l: Local)
    requires l.HoldsGuard()
  {
    && l.job.key in g.inProgress && g.inProgress[l.job.key] < |g.log.owners|
    && g.log.owners[g.inProgress[l.job.key]] == Owner(l.job.key, l.HolderId())
  }

  /** What a job knows where it is. */
  ghost predicate LocalOk(g: Globals, l: Local) {
    && (l.HoldsGuard() ==> HolderOk(g, l))
    && match l
       case Probing(job, id, _, item, from) => Known(g, from, job.key, item) && IdOf(item) == id
       case Claiming(job, _, _, missed) =>
         missed <= |g.log.changes| && LastStored(g.log.changes[..missed], job.key).None?
       case Waiting(job, _, _, b) => b < |g.barriers| == |g.log.owners| && g.log.owners[b].key == job.key
       case Indexing(_, _, details, allow, _) => allow <==> !Over(details.threatScore)
       case Storing(_, scan, allow, _) => allow <==> !Over(scan.details.threatScore)
       case Resolving(job, scan, allow, from) =>
         (allow <==> !Over(scan.details.threatScore)) && Known(g, from, job.key, scan)
       case Reporting(job, allow, outcome) => ReportOk(g, job.key, allow, outcome)
       case _ => true
  }

  /** What a thread has done, and been told: acquires, waits, failed waits, claims, resolutions, verdicts. */
  datatype Counts = Counts(
    acquires: nat, waits: nat, failures: nat, claims: nat, resolutions: nat, sent: nat,
    answer: Option<Answer>, read: Option<bool>)

  const NOTHING: Counts := Counts(0, 0, 0, 0, 0, 0, None, None)

  function Get<T>(m: map<nat, T>, t: nat): Option<T> { if t in m then Some(m[t]) else None }

  ghost function CountsOf(g: Globals, t: nat): Counts {
    Counts(Tally(g.log.acquires, SameId, t), Tally(g.log.waits, SameId, t), Tally(g.log.failures, SameId, t),
           Tally(g.log.claims, SameId, t), Tally(g.log.resolutions, SameId, t), Tally(g.log.sent, SentBy, t),
           Get(g.log.answers, t), Get(g.log.readable, t))
  }

  /** The file could be looked at and is not empty. */
  predicate Scannable(c: Counts) { c.answer.Some? && c.answer.value.ok && c.answer.value.size > 0 }

  predicate Unreadable(c: Counts) { c.read.Some? && !c.read.value }

  /** Why a job may have no scan to go by: there was nothing to scan, it claimed the scan and could not
      read the file, or two waits for another job's scan failed. */
  ghost predicate Excused(c: Counts) { !Scannable(c) || Unreadable(c) || c.failures == 2 }

  /** The counts of a job that is at `l`. */
  ghost predicate Fits(c: Counts, l: Local) {
    && c.acquires <= 2 && c.waits <= 2
    && (l.Arrived? ==> c.acquires == c.waits == 0)
    && (l.Acquiring() ==> 1 <= l.n <= 2 && c.acquires == l.n && c.waits == l.n - 1)
    && (l.Waiting? ==> 1 <= l.n <= 2 && c.acquires == c.waits == l.n)
    && c.claims == c.resolutions + (if l.HoldsGuard() then 1 else 0) && c.claims <= 1
    && (l.BeforeClaim() ==> c.claims == 0)
    && (!l.Arrived? && !l.Finished? ==> l.job.frozen)
    && (l.job.frozen && !l.Arrived? ==> c.answer.Some? && (c.acquires >= 1 <==> Scannable(c)))
    && (!l.job.frozen || l.Arrived? ==> c.answer.None? && c.acquires == 0)
    && (l.BeforeClaim() || l.Reading? ==> c.read.None?)
    && (l.HoldsGuard() && !l.Reading? ==> c.read == Some(!l.Dropping?))
    && (l.Acquiring() || l.Waiting? ==> c.failures == l.n - 1)
    && (l.HoldsGuard() ==> Scannable(c) && c.failures <= 1)
    && (l.Arrived? ==> c.failures == 0) && c.failures <= 2
    && (l.Reporting? ==> (l.outcome.None? <==> Excused(c)))
    && c.sent == if l.Finished? && l.job.frozen then 1 else 0
  }

  ghost predicate CountsOk(g: Globals, t: nat, l: Local) { Fits(CountsOf(g, t), l) }

  /** A thread that does not exist yet has done nothing. */
  ghost predicate Untouched(g: Globals, t: nat) { CountsOf(g, t) == NOTHING }

  /** Each verdict sent is its job's, and none is sent without a scan or an excuse. */
  ghost predicate SentForJobs(s: State) {
    forall i :: 0 <= i < |s.g.log.sent| ==>
      && s.g.log.sent[i].thread < |s.threads|
      && s.threads[s.g.log.sent[i].thread] == Finished(s.g.log.sent[i].job)
      && (s.g.log.sent[i].outcome.None? <==> Excused(CountsOf(s.g, s.g.log.sent[i].thread)))
  }

  ghost predicate Inv(s: State) {
    && GuardLedger(s) && GlobalOk(s.g) && HistoryOk(s.g) && SentForJobs(s)
    && (forall t :: 0 <= t < |s.threads| ==> LocalOk(s.g, s.threads[t]) && CountsOk(s.g, t, s.threads[t]))
    && (forall t: nat :: t >= |s.threads| ==> Untouched(s.g, t))
  }

  // ----- One step of one thread

  ghost predicate CanAct(g: Globals, l: Local) {
    GlobalOk(g) && HistoryOk(g) && LocalOk(g, l) && Ready(l)
  }

  lemma ActMovesGuards(g: Globals, t: nat, l: Local, env: Env, key: Key)
    requires CanAct(g, l)
    ensures var (g', l') := Act(g, t, l, env);
            GuardsIn(l', key) + (if key in g.inProgress then 1 else 0)
            == GuardsIn(l, key) + if key in g'.inProgress then 1 else 0
  {
    hide Analyze, Tallies.Tally, GlobalOk, HistoryOk, Look;
  }

  /** A step only adds to what is known, to the barriers and to the logs. */
  ghost predicate Extends(g: Globals, h: Globals) {
    && g.log.scans <= h.log.scans && g.log.owners <= h.log.owners && |g.barriers| <= |h.barriers|
    && g.log.changes <= h.log.changes
    && (|g.barriers| == |g.log.owners| ==> |h.barriers| == |h.log.owners|)
  }

  lemma ActExtends(g: Globals, t: nat, l: Local, env: Env)
    requires Ready(l)
    ensures Extends(g, Act(g, t, l, env).0)
  {
    hide Analyze, Look;
  }

  lemma ReportStays(g: Globals, h: Globals, key: Key, allow: bool, outcome: Option<Basis>)
    requires Extends(g, h) && ReportOk(g, key, allow, outcome)
    ensures ReportOk(h, key, allow, outcome)
  {
  }

  /** A guard of another key is not touched. */
  lemma ActKeepsHolder(g: Globals, t: nat, l: Local, env: Env, m: Local)
    requires Ready(l) && m.HoldsGuard() && HolderOk(g, m)
    requires l.HoldsGuard() ==> l.job.key != m.job.key
    ensures HolderOk(Act(g, t, l, env).0, m)
  {
    hide Analyze, Look;
  }

  lemma ActKeepsOther(g: Globals, t: nat, l: Local, env: Env, m: Local)
    requires Ready(l) && LocalOk(g, m)
    requires l.HoldsGuard() && m.HoldsGuard() ==> l.job.key != m.job.key
    ensures LocalOk(Act(g, t, l, env).0, m)
  {
    var h := Act(g, t, l, env).0;
    ActExtends(g, t, l, env);
    if m.HoldsGuard() {
      ActKeepsHolder(g, t, l, env, m);
    }
    hide Act, HolderOk, LastStored;
    match m
    case Claiming(_, _, _, missed) => assert h.log.changes[..missed] == g.log.changes[..missed];
    case Reporting(job, allow, outcome) => ReportStays(g, h, job.key, allow, outcome);
    case _ =>
  }
}
