/**
 The agent's scan cache: finished results, and the scans in progress that concurrent callers wait
 for instead of scanning the same file twice. A claimed scan is held by a guard that resolves it on
 every path.
 */
module ScanCache {
  import opened Prelude
  import opened StaticAnalysis

  type Key = string

  /** A result with the identity of the file it was made from. */
  datatype CompletedScan = CompletedScan(details: Details, modTime: nat, fileSize: nat, fileIndex: Option<nat>)

  datatype BarrierState = Pending | Completed(scan: CompletedScan) | Failed

  datatype WaitResult = Done(scan: CompletedScan) | Aborted | Timeout

  // ----- The critical sections, as functions of the state they guard

  /** What a look at the finished results says: nothing there, an entry with other metadata, an
      entry to be checked against the current file index, or a hit. */
  datatype Found = Missing | Stale | Indexed(item: CompletedScan) | Hit(item: CompletedScan)

  function Look(completed: map<Key, CompletedScan>, key: Key, modTime: nat, fileSize: nat): Found {
    if key !in completed then Missing
    else
      var item := completed[key];
      if item.fileSize == fileSize && item.modTime == modTime then
        if item.fileIndex.Some? then Indexed(item) else Hit(item)
      else Stale
  }

  /** The in-progress section of `try_acquire_scan`: the barrier to wait on, or a new one. */
  function Claim(inProgress: map<Key, nat>, barriers: seq<BarrierState>, key: Key)
    : (map<Key, nat>, seq<BarrierState>, Option<nat>)
  {
    if key in inProgress then (inProgress, barriers, Some(inProgress[key]))
    else (inProgress[key := |barriers|], barriers + [Pending], None)
  }

  /** The in-progress section of `complete_scan_inner` and `abort_scan_inner`. */
  function Resolve(inProgress: map<Key, nat>, barriers: seq<BarrierState>, key: Key, state: BarrierState)
    : (map<Key, nat>, seq<BarrierState>)
  {
    if key in inProgress then
      (inProgress - {key}, if inProgress[key] < |barriers| then barriers[inProgress[key] := state] else barriers)
    else (inProgress, barriers)
  }

  /** `wait` returns at once if the barrier has left Pending, and times out only if it has not. */
  function WaitOn(state: BarrierState): WaitResult {
    match state
    case Pending => Timeout
    case Completed(scan) => Done(scan)
    case Failed => Aborted
  }

  /** The first state that is not pending, or else the last one. */
  function FirstSettled(states: seq<BarrierState>): BarrierState
    requires states != []
  {
    if |states| == 1 || !states[0].Pending? then states[0] else FirstSettled(states[1..])
  }

  lemma {:induction false} FirstSettledIs(states: seq<BarrierState>, i: nat)
    requires i < |states| && (!states[i].Pending? || i == |states| - 1)
    requires forall j :: 0 <= j < i ==> states[j].Pending?
    ensures FirstSettled(states) == states[i]
  {
    if i > 0 {
      FirstSettledIs(states[1..], i - 1);
    }
  }

  // ----- The same sections carried out in place

  class ScanBarrier {
    ghost const id: nat
    var state: BarrierState

    constructor (ghost id: nat)
      ensures this.id == id && state == Pending
    {
      this.id := id;
      state := Pending;
    }

    /** Blocks until the barrier has left Pending or the time is over. `wakeUps` are the states that
        other threads have left when the waiter is woken, for whatever reason, before that. */
    method Wait(wakeUps: seq<BarrierState>) returns (result: WaitResult)
      modifies this
      ensures result == WaitOn(FirstSettled([old(state)] + wakeUps))
      ensures result == Timeout <==> old(state).Pending? && forall s :: s in wakeUps ==> s.Pending?
    {
      var i := 0;
      while state.Pending? && i < |wakeUps|
        invariant i <= |wakeUps|
        invariant state == if i == 0 then old(state) else wakeUps[i - 1]
        invariant i > 0 ==> old(state).Pending? && forall j :: 0 <= j < i - 1 ==> wakeUps[j].Pending?
      {
        state := wakeUps[i];
        i := i + 1;
      }
      FirstSettledIs([old(state)] + wakeUps, i);
      match state {
        case Pending => result := Timeout;
        case Completed(scan) => result := Done(scan);
        case Failed => result := Aborted;
      }
    }
  }

  datatype ScanOutcome = CacheHit(details: Details) | Acquired(guard: ScanGuard) | Wait(barrier: ScanBarrier)

  class StaticResultCache {
    var completed: map<Key, CompletedScan>
    var inProgress: map<Key, ScanBarrier>
    ghost var made: seq<ScanBarrier>  // every barrier ever made, by id

    ghost predicate Valid()
      reads this`inProgress, this`made
    {
      && (forall i :: 0 <= i < |made| ==> made[i].id == i)
      && (forall k :: k in inProgress ==> inProgress[k] in made)
    }

    ghost function Ids(): map<Key, nat>
      reads this`inProgress
    {
      map k | k in inProgress :: inProgress[k].id
    }

    ghost function States(): seq<BarrierState>
      reads this`made, made
    {
      var ms := made;
      seq(|ms|, i requires 0 <= i < |ms| reads ms => ms[i].state)
    }

    constructor ()
      ensures Valid() && completed == map[] && Ids() == map[] && made == []
    {
      completed, inProgress, made := map[], map[], [];
    }

    /** `try_acquire_scan` with no interference; `currentIndex` is what the file system says. */
    method TryAcquireScan(key: Key, modTime: nat, fileSize: nat, currentIndex: Option<nat>)
      returns (outcome: ScanOutcome)
      requires Valid()
      modifies this
      ensures Valid() && old(made) <= made && fresh(made[|old(made)|..])
      ensures old(key in completed && completed[key].fileSize == fileSize && completed[key].modTime == modTime
                  && (completed[key].fileIndex.None? || completed[key].fileIndex == currentIndex)) ==>
                && outcome == CacheHit(old(completed)[key].details)
                && completed == old(completed) && Ids() == old(Ids()) && made == old(made)
      ensures !old(key in completed && completed[key].fileSize == fileSize && completed[key].modTime == modTime
                   && (completed[key].fileIndex.None? || completed[key].fileIndex == currentIndex)) ==>
                && !outcome.CacheHit? && (outcome.Wait? <==> key in old(inProgress))
                && (outcome.Wait? ==> outcome.barrier == old(inProgress)[key] && inProgress == old(inProgress))
                && (outcome.Acquired? ==>
                      && key in inProgress && inProgress[key] in made && inProgress[key].state == Pending
                      && inProgress[key] !in old(made))
      ensures var found := Look(old(completed), key, modTime, fileSize);
              if found.Hit? || (found.Indexed? && currentIndex == found.item.fileIndex) then
                && outcome == CacheHit(found.item.details)
                && completed == old(completed) && Ids() == old(Ids()) && made == old(made)
              else
                && completed == old(completed) - {key}
                && (Ids(), States(), if outcome.Wait? then Some(outcome.barrier.id) else None)
                   == Claim(old(Ids()), old(States()), key)
                && (outcome.Wait? ==> outcome.barrier in made)
                && (outcome.Acquired? ==> fresh(outcome.guard) && outcome.guard.key == Some(key))
                && !outcome.CacheHit?
    {
      if key in completed {
        var item := completed[key];
        if item.fileSize == fileSize && item.modTime == modTime {
          if item.fileIndex.Some? {
            if currentIndex != item.fileIndex {
              completed := completed - {key};
            } else {
              return CacheHit(item.details);
            }
          } else {
            return CacheHit(item.details);
          }
        }
        completed := completed - {key};
      }
      assert completed == old(completed) - {key} && Ids() == old(Ids()) && States() == old(States());
      outcome := ClaimScan(key);
    }

    method ClaimScan(key: Key) returns (outcome: ScanOutcome)
      requires Valid()
      modifies this`inProgress, this`made
      ensures Valid() && old(made) <= made && fresh(made[|old(made)|..])
      ensures (Ids(), States(), if outcome.Wait? then Some(outcome.barrier.id) else None)
              == Claim(old(Ids()), old(States()), key)
      ensures outcome.Wait? ==> outcome.barrier in made
      ensures outcome.Acquired? ==> fresh(outcome.guard) && outcome.guard.key == Some(key)
      ensures !outcome.CacheHit? && (outcome.Wait? <==> key in old(inProgress))
      ensures outcome.Wait? ==> outcome.barrier == old(inProgress)[key] && inProgress == old(inProgress)
      ensures outcome.Acquired? ==>
                && key in inProgress && inProgress[key] in made && inProgress[key].state == Pending
                && inProgress[key] !in old(made)
    {
      if key in inProgress {
        outcome := Wait(inProgress[key]);
        assert key in Ids() && Ids()[key] == inProgress[key].id;
        return;
      }
      var barrier := new ScanBarrier(|made|);
      inProgress := inProgress[key := barrier];
      made := made + [barrier];
      assert States() == old(States()) + [Pending];
      assert Ids() == old(Ids())[key := |old(made)|];
      assert key !in old(Ids()) && |old(States())| == |old(made)|;
      var guard := new ScanGuard(key);
      outcome := Acquired(guard);
      assert States() == old(States()) + [Pending];
    }

    /** Removes the key and settles its barrier; no other barrier changes. */
    method Settle(key: Key, state: BarrierState)
      requires Valid()
      modifies this`inProgress, if key in inProgress then {inProgress[key]} else {}
      ensures Valid() && (Ids(), States()) == Resolve(old(Ids()), old(States()), key, state)
      ensures inProgress == old(inProgress) - {key}
      ensures key in old(inProgress) ==> old(inProgress)[key].state == state
    {
      if key in inProgress {
        var barrier := inProgress[key];
        inProgress := inProgress - {key};
        barrier.state := state;
        assert made[barrier.id] == barrier;
        assert forall i :: 0 <= i < |made| && i != barrier.id ==> made[i] != barrier;
        assert States() == old(States())[barrier.id := state];
        assert Ids() == old(Ids()) - {key};
      }
    }

    method CompleteScan(key: Key, scan: CompletedScan)
      requires Valid()
      modifies this`completed, this`inProgress, if key in inProgress then {inProgress[key]} else {}
      ensures Valid() && completed == old(completed)[key := scan]
      ensures (Ids(), States()) == Resolve(old(Ids()), old(States()), key, Completed(scan))
    {
      completed := completed[key := scan];
      Settle(key, Completed(scan));
    }
  }

  class ScanGuard {
    var key: Option<Key>

    constructor (key: Key)
      ensures this.key == Some(key)
    {
      this.key := Some(key);
    }

    /** The guard's key is taken, so whatever happens to the guard later resolves nothing more. */
    method Complete(cache: StaticResultCache, scan: CompletedScan)
      requires cache.Valid()
      modifies this, cache`completed, cache`inProgress,
               if key.Some? && key.value in cache.inProgress then {cache.inProgress[key.value]} else {}
      ensures cache.Valid() && key == None
      ensures old(key).Some? ==>
                && cache.completed == old(cache.completed)[old(key).value := scan]
                && (cache.Ids(), cache.States())
                   == Resolve(old(cache.Ids()), old(cache.States()), old(key).value, Completed(scan))
      ensures old(key).None? ==> cache.completed == old(cache.completed) && cache.inProgress == old(cache.inProgress)
    {
      if key.Some? {
        var k := key.value;
        key := None;
        cache.CompleteScan(k, scan);
      }
    }

    /** `drop`: aborts the scan unless it was completed. */
    method Drop(cache: StaticResultCache)
      requires cache.Valid()
      modifies this, cache`inProgress,
               if key.Some? && key.value in cache.inProgress then {cache.inProgress[key.value]} else {}
      ensures cache.Valid() && key == None
      ensures old(key).Some? ==>
                (cache.Ids(), cache.States()) == Resolve(old(cache.Ids()), old(cache.States()), old(key).value, Failed)
      ensures old(key).None? ==> cache.inProgress == old(cache.inProgress)
    {
      if key.Some? {
        var k := key.value;
        key := None;
        cache.Settle(k, Failed);
      }
    }
  }
}
