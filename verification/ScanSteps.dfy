/** What a job does between two looks at shared state, from any state, said of the cache and the barriers
    themselves; and what a job does that nobody interferes with. */
module ScanSteps {
  import opened Prelude
  import opened StaticAnalysis
  import opened ScanCache
  import opened ScanRuns

  /** A cached result of this very version of the file, by size and time. */
  predicate SameVersion(g: Globals, key: Key, id: Id) {
    key in g.completed && g.completed[key].fileSize == id.size && g.completed[key].modTime == id.modTime
  }

  /** The finished results without those of one key, and nothing else, has changed. */
  predicate OnlyForgets(g: Globals, h: Globals, key: Key) {
    && h.inProgress == g.inProgress && h.barriers == g.barriers && key !in h.completed
    && (forall k :: k in g.completed && k != key ==> k in h.completed && h.completed[k] == g.completed[k])
    && (forall k :: k in h.completed ==> k in g.completed)
  }

  predicate SameShared(g: Globals, h: Globals) {
    h.completed == g.completed && h.inProgress == g.inProgress && h.barriers == g.barriers
  }

  /** The verdict on a scan's details: allow up to 80. */
  predicate Reports(l: Local, job: Job, details: Details) {
    l.Reporting? && l.job == job && l.outcome.Some? && l.outcome.value.details == details
    && (l.allow <==> details.threatScore as int <= 80)
  }

  /** A job whose event was not frozen is over; one whose file cannot be looked at, or is empty, denies; any
      other asks for a scan. */
  lemma ArrivalDecides(g: Globals, t: nat, job: Job, env: Env)
    ensures var (h, l) := Act(g, t, Arrived(job), env);
            && SameShared(g, h)
            && l == if !job.frozen then Finished(job)
                    else if env.ok && env.id.size > 0 then Looking(job, env.id, 1)
                    else Reporting(job, false, None)
  {
  }

  /** A cached result of this version is used, if it has no index or the file's index is the same. */
  lemma CachedResultIsUsed(g: Globals, t: nat, job: Job, id: Id, n: nat, env: Env)
    requires SameVersion(g, job.key, id)
    ensures var item := g.completed[job.key];
            var (h, l) := Act(g, t, Looking(job, id, n), env);
            && SameShared(g, h)
            && if item.fileIndex.None? then Reports(l, job, item.details)
               else
                 && l.Probing? && l.job == job
                 && var (i, k) := Act(h, t, l, env);
                    && SameShared(g, i)
                    && (env.index == item.fileIndex ==> Reports(k, job, item.details))
                    && (env.index != item.fileIndex ==> k == Invalidating(job, id, n, true))
  {
    hide LastStored;
  }

  /** A cached result of another version, or of another index, is forgotten, and the job goes on to claim. */
  lemma StaleResultIsForgotten(g: Globals, t: nat, job: Job, id: Id, n: nat, env: Env)
    requires job.key in g.completed && !SameVersion(g, job.key, id)
    ensures var (h, l) := Act(g, t, Looking(job, id, n), env);
            && l == Invalidating(job, id, n, false) && SameShared(g, h)
            && var (i, k) := Act(h, t, l, env);
               k.Claiming? && k.job == job && k.id == id && k.n == n && OnlyForgets(g, i, job.key)
    ensures var (h, l) := Act(g, t, Invalidating(job, id, n, true), env);
            l == Invalidating(job, id, n, false) && OnlyForgets(g, h, job.key)
  {
    hide LastStored;
  }

  lemma MissingResultIsClaimed(g: Globals, t: nat, job: Job, id: Id, n: nat, env: Env)
    requires job.key !in g.completed
    ensures var (h, l) := Act(g, t, Looking(job, id, n), env);
            l.Claiming? && l.job == job && l.id == id && l.n == n && SameShared(g, h)
  {
    hide LastStored;
  }

  /** A claim joins the scan in progress of its key, or starts one with a new, pending barrier. */
  lemma ClaimJoinsOrStarts(g: Globals, t: nat, job: Job, id: Id, n: nat, missed: nat, env: Env)
    ensures var (h, l) := Act(g, t, Claiming(job, id, n, missed), env);
            && h.completed == g.completed
            && if job.key in g.inProgress then
                 l == Waiting(job, id, n, g.inProgress[job.key]) && SameShared(g, h)
               else
                 && l == Reading(job, id) && h.barriers == g.barriers + [Pending]
                 && h.inProgress == g.inProgress[job.key := |g.barriers|]
  {
  }

  /** A wait for a completed scan reports it; any other wait is tried once more, and then denies. */
  lemma WaitEnds(g: Globals, t: nat, job: Job, id: Id, n: nat, b: nat, env: Env)
    requires b < |g.barriers|
    ensures var (h, l) := Act(g, t, Waiting(job, id, n, b), env);
            && SameShared(g, h)
            && match g.barriers[b]
               case Completed(scan) => Reports(l, job, scan.details)
               case _ => l == if n == 1 then Looking(job, id, 2) else Reporting(job, false, None)
  {
  }

  /** A job that can read its file stores what the scan found, with the metadata it saw at first and the
      index it is told at last, settles its barrier with it and reports it. */
  lemma ScanIsStored(g: Globals, t: nat, job: Job, id: Id, env: Env, env2: Env)
    requires env.ok && job.key in g.inProgress && g.inProgress[job.key] < |g.barriers|
    ensures var b := g.inProgress[job.key];
            var (details, allow) := Analyze(env.inp);
            var scan := CompletedScan(details, id.modTime, id.size, env2.index);
            var (g1, l1) := Act(g, t, Reading(job, id), env);
            && l1.Indexing? && SameShared(g, g1)
            && var (g2, l2) := Act(g1, t, l1, env2);
               && l2.Storing? && SameShared(g, g2)
               && var (g3, l3) := Act(g2, t, l2, env2);
                  && l3.Resolving? && g3.completed == g.completed[job.key := scan]
                  && g3.inProgress == g.inProgress && g3.barriers == g.barriers
                  && var (g4, l4) := Act(g3, t, l3, env2);
                     && g4.completed == g3.completed && g4.inProgress == g.inProgress - {job.key}
                     && g4.barriers == g.barriers[b := Completed(scan)]
                     && Reports(l4, job, details) && l4.allow == allow
  {
    CachedVerdictIsFresh(env.inp);
    hide Analyze;
  }

  /** A job that cannot read its file stores nothing, fails its barrier and denies. */
  lemma UnreadableFileAborts(g: Globals, t: nat, job: Job, id: Id, env: Env)
    requires !env.ok && job.key in g.inProgress && g.inProgress[job.key] < |g.barriers|
    ensures var (h, l) := Act(g, t, Reading(job, id), env);
            && l == Dropping(job, id) && SameShared(g, h)
            && var (k, m) := Act(h, t, l, env);
               && m == Reporting(job, false, None) && k.completed == g.completed
               && k.inProgress == g.inProgress - {job.key}
               && k.barriers == g.barriers[g.inProgress[job.key] := Failed]
  {
    hide Analyze;
  }

  /** A report is sent as it is, for the job's own request. */
  lemma ReportIsSent(g: Globals, t: nat, job: Job, allow: bool, outcome: Option<Basis>, env: Env)
    ensures var (h, l) := Act(g, t, Reporting(job, allow, outcome), env);
            && l == Finished(job) && SameShared(g, h)
            && h.log.sent == g.log.sent + [Sent(t, job, allow, outcome)]
  {
  }
}
