/** Verdicts that arrive before their process is frozen: a list with a time limit, a size limit and
    update in place. It is proved to refine a map from request ids to verdicts. */
module VerdictCache {
  import opened Prelude

  const MAX_SIZE: nat := 1024
  const TTL: nat := 100_000_000  // 10 seconds of 100 ns
  const U64: int := 0x1_0000_0000_0000_0000

  datatype CachedVerdict = CachedVerdict(requestId: nat, allowed: bool, timestamp: nat)

  /** `now - timestamp` on 64 bits. Under a clock that never runs backwards it is the age; an entry
      from the future is taken to be very old. */
  predicate Fresh(e: CachedVerdict, now: nat) {
    (now - e.timestamp) % U64 < TTL
  }

  /** `Vec::retain`. */
  function Live(entries: seq<CachedVerdict>, now: nat): seq<CachedVerdict> {
    if entries == [] then []
    else
      var e := entries[|entries| - 1];
      Live(entries[..|entries| - 1], now) + if Fresh(e, now) then [e] else []
  }

  /** Dropping from the front until there is room for one more. */
  function Trimmed(entries: seq<CachedVerdict>): seq<CachedVerdict> {
    if |entries| < MAX_SIZE then entries else entries[|entries| - MAX_SIZE + 1..]
  }

  function RequestIdOf(e: CachedVerdict): nat { e.requestId }

  function Find(entries: seq<CachedVerdict>, requestId: nat): Option<nat> {
    FindBy(entries, RequestIdOf, requestId)
  }

  /** The cache section of `apply_verdict`. */
  function Recorded(entries: seq<CachedVerdict>, requestId: nat, allow: bool, now: nat): seq<CachedVerdict> {
    var kept := Trimmed(Live(entries, now));
    match Find(kept, requestId)
    case Some(k) => kept[k := CachedVerdict(requestId, allow, now)]
    case None => kept + [CachedVerdict(requestId, allow, now)]
  }

  /** `check_early_verdict`: reading an entry removes it. */
  function Taken(entries: seq<CachedVerdict>, requestId: nat): (seq<CachedVerdict>, Option<bool>) {
    match Find(entries, requestId)
    case Some(k) => (RemoveAt(entries, k), Some(entries[k].allowed))
    case None => (entries, None)
  }

  class Cache {
    var entries: seq<CachedVerdict>

    constructor () ensures entries == [] { entries := []; }

    method Retain(now: nat)
      modifies this
      ensures entries == Live(old(entries), now)
      ensures forall e :: e in entries <==> e in old(entries) && (now - e.timestamp) % U64 < 100_000_000
    {
      LiveKeeps(entries, now);
      var kept := [];
      for i := 0 to |entries|
        invariant entries == old(entries)
        invariant kept == Live(entries[..i], now)
      {
        assert entries[..i + 1][..i] == entries[..i];
        if Fresh(entries[i], now) {
          kept := kept + [entries[i]];
        }
      }
      assert entries[..|entries|] == entries;
      entries := kept;
    }

    method Position(requestId: nat) returns (k: Option<nat>)
      ensures k == Find(entries, requestId)
    {
      for i := 0 to |entries|
        invariant forall j :: 0 <= j < i ==> entries[j].requestId != requestId
      {
        if entries[i].requestId == requestId {
          return Some(i);
        }
      }
      return None;
    }

    method Record(requestId: nat, allow: bool, now: nat)
      modifies this
      ensures entries == Recorded(old(entries), requestId, allow, now)
    {
      Retain(now);
      ghost var live := entries;
      while |entries| >= MAX_SIZE
        invariant |entries| <= |live| && entries == live[|live| - |entries|..]
        invariant |entries| >= MAX_SIZE - 1 || entries == live
      {
        entries := RemoveAt(entries, 0);
      }
      assert entries == Trimmed(live);
      var k := Position(requestId);
      if k.Some? {
        entries := entries[k.value := CachedVerdict(requestId, allow, now)];
      } else {
        entries := entries + [CachedVerdict(requestId, allow, now)];
      }
    }

    method CheckEarly(requestId: nat) returns (verdict: Option<bool>)
      modifies this
      ensures (entries, verdict) == Taken(old(entries), requestId)
    {
      verdict := None;
      var k := Position(requestId);
      if k.Some? {
        verdict := Some(entries[k.value].allowed);
        entries := RemoveAt(entries, k.value);
      }
    }
  }

  // ----- What the list means

  ghost predicate Distinct(entries: seq<CachedVerdict>) {
    forall i, j :: 0 <= i < j < |entries| ==> entries[i].requestId != entries[j].requestId
  }

  function Lookup(entries: seq<CachedVerdict>, requestId: nat): Option<CachedVerdict> {
    match Find(entries, requestId)
    case Some(k) => Some(entries[k])
    case None => None
  }

  /** The entries of all other requests, in order. */
  function Without(entries: seq<CachedVerdict>, requestId: nat): seq<CachedVerdict> {
    if entries == [] then []
    else
      var e := entries[|entries| - 1];
      Without(entries[..|entries| - 1], requestId) + if e.requestId == requestId then [] else [e]
  }

  lemma FindUnique(entries: seq<CachedVerdict>, k: nat)
    requires Distinct(entries) && k < |entries|
    ensures Find(entries, entries[k].requestId) == Some(k)
  {
    var j := Find(entries, entries[k].requestId).value;
    assert j == k;
  }

  lemma {:induction false} LiveKeeps(entries: seq<CachedVerdict>, now: nat)
    ensures |Live(entries, now)| <= |entries|
    ensures forall e :: e in Live(entries, now) <==> e in entries && Fresh(e, now)
    ensures Distinct(entries) ==> Distinct(Live(entries, now))
  {
    if entries != [] {
      var n := |entries| - 1;
      LiveKeeps(entries[..n], now);
      assert forall e :: e in entries <==> e in entries[..n] || e == entries[n];
      if Distinct(entries) {
        var live := Live(entries[..n], now);
        forall i | 0 <= i < |live| ensures live[i].requestId != entries[n].requestId {
          assert live[i] in entries[..n];
        }
      }
    }
  }

  /** Expiry removes exactly the entries that are too old. */
  lemma LookupLive(entries: seq<CachedVerdict>, now: nat, requestId: nat)
    requires Distinct(entries)
    ensures Lookup(Live(entries, now), requestId) ==
            match Lookup(entries, requestId)
            case Some(e) => if Fresh(e, now) then Some(e) else None
            case None => None
  {
    LiveKeeps(entries, now);
    var live := Live(entries, now);
    match Find(live, requestId)
    case Some(k) =>
      assert live[k] in entries;
      var j :| 0 <= j < |entries| && entries[j] == live[k];
      FindUnique(entries, j);
    case None =>
      match Find(entries, requestId)
      case Some(j) => assert entries[j] !in live;
      case None =>
  }

  lemma RecordKeepsShape(entries: seq<CachedVerdict>, requestId: nat, allow: bool, now: nat)
    requires Distinct(entries)
    ensures Distinct(Recorded(entries, requestId, allow, now))
    ensures |Recorded(entries, requestId, allow, now)| <= MAX_SIZE
  {
    LiveKeeps(entries, now);
    var live := Live(entries, now);
    assert Distinct(Trimmed(live));
    FindInTrimmed(live, requestId);
  }

  lemma FindInTrimmed(live: seq<CachedVerdict>, requestId: nat)
    requires Distinct(live)
    ensures Distinct(Trimmed(live))
    ensures forall r :: Lookup(Trimmed(live), r) ==
              if |live| >= MAX_SIZE && Find(live, r).Some? && Find(live, r).value < |live| - MAX_SIZE + 1 then None
              else Lookup(live, r)
  {
    if |live| >= MAX_SIZE {
      var d := |live| - MAX_SIZE + 1;
      var kept := Trimmed(live);
      assert forall i :: 0 <= i < |kept| ==> kept[i] == live[i + d];
      forall r
        ensures Lookup(kept, r) == if Find(live, r).Some? && Find(live, r).value < d then None else Lookup(live, r)
      {
        if Find(kept, r).Some? {
          FindUnique(live, Find(kept, r).value + d);
        }
      }
    }
  }

  /** After a write the request maps to the new verdict. Another request keeps its unexpired entry,
      except that a full cache loses the one at its front. */
  lemma RecordMeans(entries: seq<CachedVerdict>, requestId: nat, allow: bool, now: nat, other: nat)
    requires Distinct(entries) && |entries| <= MAX_SIZE && other != requestId
    ensures var live := Live(entries, now); var after := Recorded(entries, requestId, allow, now);
            && Lookup(after, requestId) == Some(CachedVerdict(requestId, allow, now))
            && Lookup(after, other) == if |live| == MAX_SIZE && live[0].requestId == other then None
                                       else Lookup(live, other)
  {
    LiveKeeps(entries, now);
    RecordKeepsShape(entries, requestId, allow, now);
    var live := Live(entries, now);
    var kept := Trimmed(live);
    var after := Recorded(entries, requestId, allow, now);
    FindInTrimmed(live, other);
    FindUnique(after, if Find(kept, requestId).Some? then Find(kept, requestId).value else |kept|);
    if Find(kept, other).Some? {
      FindUnique(after, Find(kept, other).value);
    }
  }

  /** On 64-bit clocks, a verdict counts for ten seconds of 100 ns. A verdict from the future counts only
      if the difference wraps around to less. */
  lemma FreshInNumbers(e: CachedVerdict, now: nat)
    requires now < 0x1_0000_0000_0000_0000 && e.timestamp < 0x1_0000_0000_0000_0000
    ensures Fresh(e, now) <==> if e.timestamp <= now then now - e.timestamp < 100_000_000
                               else e.timestamp - now > 0x1_0000_0000_0000_0000 - 100_000_000
  {
  }

  lemma {:induction false} LiveWhole(entries: seq<CachedVerdict>, now: nat)
    ensures |Live(entries, now)| == |entries| ==>
              Live(entries, now) == entries && forall e :: e in entries ==> Fresh(e, now)
  {
    if entries != [] {
      var n := |entries| - 1;
      LiveWhole(entries[..n], now);
      LiveKeeps(entries[..n], now);
      assert entries == entries[..n] + [entries[n]];
    }
  }

  /** What a write leaves of another request's verdict: it stays exactly if it is younger than ten
      seconds, unless it stands first of 1024 such verdicts. */
  lemma WriteInNumbers(entries: seq<CachedVerdict>, requestId: nat, allow: bool, now: nat, e: CachedVerdict)
    requires Distinct(entries) && |entries| <= 1024 && e in entries && e.requestId != requestId
    requires forall f :: f in entries ==> f.timestamp <= now < 0x1_0000_0000_0000_0000
    ensures e in Recorded(entries, requestId, allow, now) <==>
            && now - e.timestamp < 100_000_000
            && !(|entries| == 1024 && entries[0] == e && forall f :: f in entries ==> now - f.timestamp < 100_000_000)
    ensures CachedVerdict(requestId, allow, now) in Recorded(entries, requestId, allow, now)
    ensures |Recorded(entries, requestId, allow, now)| <= 1024
  {
    forall f | f in entries ensures Fresh(f, now) <==> now - f.timestamp < 100_000_000 {
      FreshInNumbers(f, now);
    }
    hide Fresh;
    WriteMeans(entries, requestId, allow, now, e);
    LookupIff(Recorded(entries, requestId, allow, now), CachedVerdict(requestId, allow, now));
    hide Recorded, Lookup, Distinct;
  }

  lemma WriteMeans(entries: seq<CachedVerdict>, requestId: nat, allow: bool, now: nat, e: CachedVerdict)
    requires Distinct(entries) && |entries| <= MAX_SIZE && e in entries && e.requestId != requestId
    ensures var after := Recorded(entries, requestId, allow, now);
            && Distinct(after) && |after| <= MAX_SIZE
            && Lookup(after, requestId) == Some(CachedVerdict(requestId, allow, now))
            && (e in after <==>
                && Fresh(e, now)
                && !(|entries| == MAX_SIZE && entries[0] == e && forall f :: f in entries ==> Fresh(f, now)))
  {
    var live, after := Live(entries, now), Recorded(entries, requestId, allow, now);
    RecordMeans(entries, requestId, allow, now, e.requestId);
    RecordKeepsShape(entries, requestId, allow, now);
    LookupLive(entries, now, e.requestId);
    LookupIff(entries, e);
    LookupIff(after, e);
    LiveKeeps(entries, now);
    LiveWhole(entries, now);
    if forall f :: f in entries ==> Fresh(f, now) {
      LiveAll(entries, now);
    }
    FirstIs(entries, e);
    hide Live, Recorded, Lookup, Distinct, Fresh;
  }

  lemma FirstIs(entries: seq<CachedVerdict>, e: CachedVerdict)
    requires Distinct(entries) && e in entries
    ensures entries[0].requestId == e.requestId <==> entries[0] == e
  {
    var k :| 0 <= k < |entries| && entries[k] == e;
  }

  lemma LookupIff(entries: seq<CachedVerdict>, e: CachedVerdict)
    requires Distinct(entries)
    ensures e in entries <==> Lookup(entries, e.requestId) == Some(e)
  {
    if e in entries {
      var k :| 0 <= k < |entries| && entries[k] == e;
      FindUnique(entries, k);
    }
  }

  lemma {:induction false} WithoutAbsent(entries: seq<CachedVerdict>, requestId: nat)
    requires forall i :: 0 <= i < |entries| ==> entries[i].requestId != requestId
    ensures Without(entries, requestId) == entries
  {
    if entries != [] {
      WithoutAbsent(entries[..|entries| - 1], requestId);
    }
  }

  lemma {:induction false} WithoutUpdate(entries: seq<CachedVerdict>, k: nat, e: CachedVerdict)
    requires k < |entries| && entries[k].requestId == e.requestId
    ensures Without(entries[k := e], e.requestId) == Without(entries, e.requestId)
  {
    var n := |entries| - 1;
    if k == n {
      assert entries[k := e][..n] == entries[..n];
    } else {
      WithoutUpdate(entries[..n], k, e);
      assert entries[k := e][..n] == entries[..n][k := e];
    }
  }

  lemma {:induction false} WithoutRemove(entries: seq<CachedVerdict>, k: nat)
    requires k < |entries|
    ensures Without(RemoveAt(entries, k), entries[k].requestId) == Without(entries, entries[k].requestId)
  {
    var n := |entries| - 1;
    if k == n {
      assert RemoveAt(entries, k) == entries[..n];
    } else {
      WithoutRemove(entries[..n], k);
      assert RemoveAt(entries, k)[..n - 1] == RemoveAt(entries[..n], k);
    }
  }

  /** The other requests keep their order, whichever branch the write took. */
  lemma RecordKeepsOrder(entries: seq<CachedVerdict>, requestId: nat, allow: bool, now: nat)
    requires |entries| <= MAX_SIZE
    ensures var live := Live(entries, now);
            Without(Recorded(entries, requestId, allow, now), requestId)
            == Without(if |live| == MAX_SIZE then live[1..] else live, requestId)
  {
    LiveKeeps(entries, now);
    var kept := Trimmed(Live(entries, now));
    var e := CachedVerdict(requestId, allow, now);
    match Find(kept, requestId)
    case Some(k) => WithoutUpdate(kept, k, e);
    case None => assert (kept + [e])[..|kept|] == kept;
  }

  /** What removing an entry does to the others. */
  lemma RemoveLeavesOthers(entries: seq<CachedVerdict>, k: nat, other: nat)
    requires Distinct(entries) && k < |entries| && other != entries[k].requestId
    ensures Lookup(RemoveAt(entries, k), other) == Lookup(entries, other)
  {
    var after := RemoveAt(entries, k);
    if Find(entries, other).Some? {
      var j := Find(entries, other).value;
      FindUnique(after, if j < k then j else j - 1);
    }
  }

  lemma RemoveIsDistinct(entries: seq<CachedVerdict>, k: nat)
    requires Distinct(entries) && k < |entries|
    ensures Distinct(RemoveAt(entries, k)) && Lookup(RemoveAt(entries, k), entries[k].requestId) == None
  {
  }

  /** Reading returns the entry's verdict and removes the entry and nothing else, so a second read
      finds nothing. Reading does not look at the age. */
  lemma TakeMeans(entries: seq<CachedVerdict>, requestId: nat)
    requires Distinct(entries)
    ensures var (after, verdict) := Taken(entries, requestId);
            && verdict == (match Lookup(entries, requestId) case Some(e) => Some(e.allowed) case None => None)
            && Distinct(after) && |after| <= |entries|
            && Without(after, requestId) == Without(entries, requestId)
            && Lookup(after, requestId) == None && Taken(after, requestId) == (after, None)
            && forall other :: other != requestId ==> Lookup(after, other) == Lookup(entries, other)
  {
    var found := Find(entries, requestId);
    if found.Some? {
      var after := RemoveAt(entries, found.value);
      WithoutRemove(entries, found.value);
      RemoveIsDistinct(entries, found.value);
      forall other | other != requestId ensures Lookup(after, other) == Lookup(entries, other) {
        RemoveLeavesOthers(entries, found.value, other);
      }
      assert Taken(entries, requestId) == (after, Some(entries[found.value].allowed));
      assert Find(after, requestId) == None;
      hide Without, Distinct;
    }
  }

  // ----- Every sequence of writes and reads

  datatype Op = Write(requestId: nat, allow: bool, now: nat) | Read(requestId: nat)

  function After(entries: seq<CachedVerdict>, op: Op): seq<CachedVerdict> {
    match op
    case Write(r, allow, now) => Recorded(entries, r, allow, now)
    case Read(r) => Taken(entries, r).0
  }

  function Run(ops: seq<Op>): seq<CachedVerdict> {
    if ops == [] then [] else After(Run(ops[..|ops| - 1]), ops[|ops| - 1])
  }

  /** The map the cache stands for: the last verdict written and not read since. */
  function Ideal(ops: seq<Op>, requestId: nat): Option<CachedVerdict> {
    if ops == [] then None
    else
      match ops[|ops| - 1]
      case Write(r, allow, now) =>
        if r == requestId then Some(CachedVerdict(r, allow, now)) else Ideal(ops[..|ops| - 1], requestId)
      case Read(r) => if r == requestId then None else Ideal(ops[..|ops| - 1], requestId)
  }

  predicate EvictsFirst(entries: seq<CachedVerdict>, requestId: nat, now: nat) {
    var live := Live(entries, now);
    |live| == MAX_SIZE && live[0].requestId == requestId
  }

  /** No write after the request's own found its entry expired, or first in a full cache. */
  ghost predicate Survives(ops: seq<Op>, requestId: nat) {
    ops != [] ==>
      var past := ops[..|ops| - 1];
      match ops[|ops| - 1]
      case Write(r, _, now) =>
        r == requestId
        || (Survives(past, requestId)
            && (Ideal(past, requestId).Some? ==>
                  Fresh(Ideal(past, requestId).value, now) && !EvictsFirst(Run(past), requestId, now)))
      case Read(r) => r == requestId || Survives(past, requestId)
  }

  /** In every run the cache is bounded and holds one entry a request, and what it answers is the latest
      unread verdict or nothing; it has that verdict exactly if every later write spared it. */
  lemma {:induction false} RunRefinesMap(ops: seq<Op>, requestId: nat)
    ensures Distinct(Run(ops)) && |Run(ops)| <= MAX_SIZE
    ensures Lookup(Run(ops), requestId).Some? ==> Lookup(Run(ops), requestId) == Ideal(ops, requestId)
    ensures Lookup(Run(ops), requestId) == Ideal(ops, requestId) <==> Survives(ops, requestId)
  {
    if ops != [] {
      var before := Run(ops[..|ops| - 1]);
      RunRefinesMap(ops[..|ops| - 1], requestId);
      match ops[|ops| - 1]
      case Write(r, allow, now) =>
        RecordKeepsShape(before, r, allow, now);
        RecordMeans(before, r, allow, now, if r == requestId then r + 1 else requestId);
        LookupLive(before, now, requestId);
        hide Recorded, Live, Lookup, Distinct;
      case Read(r) =>
        TakeMeans(before, r);
        hide Taken, Lookup, Distinct;
    }
  }

  // ----- "The oldest is evicted"

  ghost predicate OldestFirst(entries: seq<CachedVerdict>) {
    forall i, j :: 0 <= i < j < |entries| ==> entries[i].timestamp <= entries[j].timestamp
  }

  lemma {:induction false} LiveOldestFirst(entries: seq<CachedVerdict>, now: nat)
    requires OldestFirst(entries)
    ensures OldestFirst(Live(entries, now))
  {
    if entries != [] {
      var n := |entries| - 1;
      LiveOldestFirst(entries[..n], now);
      LiveKeeps(entries[..n], now);
      var live := Live(entries[..n], now);
      forall i | 0 <= i < |live| ensures live[i].timestamp <= entries[n].timestamp {
        assert live[i] in entries[..n];
      }
    }
  }

  /** A write moves no entry's time past that of one behind it. */
  ghost predicate InOrder(entries: seq<CachedVerdict>, requestId: nat, now: nat) {
    var kept := Trimmed(Live(entries, now));
    forall k, j :: 0 <= k < j < |kept| && kept[k].requestId == requestId ==> kept[j].timestamp == now
  }

  /** A write keeps the list oldest first, whatever it expires and evicts, exactly if it is in order. */
  lemma WriteKeepsOldestFirst(entries: seq<CachedVerdict>, requestId: nat, allow: bool, now: nat)
    requires Distinct(entries) && OldestFirst(entries) && forall e :: e in entries ==> e.timestamp <= now
    ensures OldestFirst(Recorded(entries, requestId, allow, now)) <==> InOrder(entries, requestId, now)
  {
    LiveKeeps(entries, now);
    LiveOldestFirst(entries, now);
    FindInTrimmed(Live(entries, now), requestId);
    var kept := Trimmed(Live(entries, now));
    assert OldestFirst(kept) && forall e :: e in kept ==> e.timestamp <= now;
    hide Live, Trimmed;
    KeptOldestFirst(kept, requestId, allow, now);
  }

  lemma KeptOldestFirst(kept: seq<CachedVerdict>, requestId: nat, allow: bool, now: nat)
    requires Distinct(kept) && OldestFirst(kept) && forall e :: e in kept ==> e.timestamp <= now
    ensures var e := CachedVerdict(requestId, allow, now);
            var after := match Find(kept, requestId) case Some(k) => kept[k := e] case None => kept + [e];
            OldestFirst(after) <==>
              forall k, j :: 0 <= k < j < |kept| && kept[k].requestId == requestId ==> kept[j].timestamp == now
  {
    match Find(kept, requestId)
    case Some(k) =>
      var after := kept[k := CachedVerdict(requestId, allow, now)];
      forall i | 0 <= i < |kept| && kept[i].requestId == requestId ensures i == k {
        FindUnique(kept, i);
      }
      if OldestFirst(after) {
        forall j | k < j < |kept| ensures kept[j].timestamp == now {
          assert after[k].timestamp <= after[j].timestamp;
          assert kept[j] in kept;
        }
      }
    case None =>
  }

  /** The clock does not run backwards. */
  ghost predicate Clocked(ops: seq<Op>) {
    forall i, j :: 0 <= i < j < |ops| && ops[i].Write? && ops[j].Write? ==> ops[i].now <= ops[j].now
  }

  /** When a request was last written. */
  function LastWrite(ops: seq<Op>, requestId: nat): nat {
    if ops == [] then 0
    else
      var op := ops[|ops| - 1];
      if op.Write? && op.requestId == requestId then |ops| - 1 else LastWrite(ops[..|ops| - 1], requestId)
  }

  lemma {:induction false} IdealIsLastWrite(ops: seq<Op>, requestId: nat)
    requires Ideal(ops, requestId).Some?
    ensures var w := LastWrite(ops, requestId);
            w < |ops| && ops[w].Write? && ops[w].requestId == requestId
            && Ideal(ops, requestId) == Some(CachedVerdict(requestId, ops[w].allow, ops[w].now))
  {
    var n := |ops| - 1;
    if !(ops[n].Write? && ops[n].requestId == requestId) {
      IdealIsLastWrite(ops[..n], requestId);
    }
  }

  /** The time of an entry is that of its request's last write. */
  lemma EntryIsLastWrite(ops: seq<Op>, e: CachedVerdict)
    requires e in Run(ops)
    ensures var w := LastWrite(ops, e.requestId); w < |ops| && ops[w].Write? && e.timestamp == ops[w].now
  {
    RunRefinesMap(ops, e.requestId);
    var k :| 0 <= k < |Run(ops)| && Run(ops)[k] == e;
    FindUnique(Run(ops), k);
    IdealIsLastWrite(ops, e.requestId);
  }

  /** A write that finds its request in the list, and so updates the entry where it is. */
  predicate Updates(past: seq<Op>, op: Op) {
    op.Write? && Find(Trimmed(Live(Run(past), op.now)), op.requestId).Some?
  }

  /** When a request's entry was last put at the end of the list. */
  function LastInsert(ops: seq<Op>, requestId: nat): nat {
    if ops == [] then 0
    else
      var (past, op) := (ops[..|ops| - 1], ops[|ops| - 1]);
      if op.Write? && op.requestId == requestId && !Updates(past, op) then |ops| - 1 else LastInsert(past, requestId)
  }

  lemma {:induction false} InsertIsAWrite(ops: seq<Op>, requestId: nat)
    ensures LastInsert(ops, requestId) <= LastWrite(ops, requestId) && (ops != [] ==> LastWrite(ops, requestId) < |ops|)
  {
    if ops != [] {
      InsertIsAWrite(ops[..|ops| - 1], requestId);
      hide Updates;
    }
  }

  /** The entries stand in the order in which they were put into the list. */
  ghost predicate ByInsertion(entries: seq<CachedVerdict>, ops: seq<Op>) {
    forall i, j :: 0 <= i < j < |entries| ==>
      LastInsert(ops, entries[i].requestId) < LastInsert(ops, entries[j].requestId)
  }

  lemma {:induction false} LiveByInsertion(entries: seq<CachedVerdict>, now: nat, ops: seq<Op>)
    requires ByInsertion(entries, ops)
    ensures ByInsertion(Live(entries, now), ops)
  {
    hide LastInsert;
    if entries != [] {
      var n := |entries| - 1;
      LiveByInsertion(entries[..n], now, ops);
      LiveKeeps(entries[..n], now);
      var live := Live(entries[..n], now);
      forall i | 0 <= i < |live|
        ensures LastInsert(ops, live[i].requestId) < LastInsert(ops, entries[n].requestId)
      {
        assert live[i] in entries[..n];
      }
    }
  }

  /** A write that does not insert leaves the order as it was. */
  lemma SameInserts(entries: seq<CachedVerdict>, past: seq<Op>, op: Op)
    requires ByInsertion(entries, past)
    requires op.Write? && !Updates(past, op) ==> forall e :: e in entries ==> e.requestId != op.requestId
    ensures ByInsertion(entries, past + [op])
  {
    assert (past + [op])[..|past|] == past;
    forall i | 0 <= i < |entries|
      ensures LastInsert(past + [op], entries[i].requestId) == LastInsert(past, entries[i].requestId)
    {
      assert entries[i] in entries;
    }
    hide LastInsert;
  }

  lemma NextByInsertion(past: seq<Op>, op: Op)
    requires ByInsertion(Run(past), past) && Distinct(Run(past))
    ensures ByInsertion(Run(past + [op]), past + [op])
  {
    RunOne(past, op);
    match op
    case Write(r, allow, now) => WriteByInsertion(past, r, allow, now);
    case Read(r) =>
      var k := Find(Run(past), r);
      hide LastInsert, Run;
      if k.Some? {
        assert ByInsertion(RemoveAt(Run(past), k.value), past);
        SameInserts(RemoveAt(Run(past), k.value), past, op);
      } else {
        SameInserts(Run(past), past, op);
      }
  }

  lemma WriteByInsertion(past: seq<Op>, requestId: nat, allow: bool, now: nat)
    requires ByInsertion(Run(past), past) && Distinct(Run(past))
    ensures ByInsertion(Recorded(Run(past), requestId, allow, now), past + [Write(requestId, allow, now)])
  {
    var op := Write(requestId, allow, now);
    LiveByInsertion(Run(past), now, past);
    var kept := Trimmed(Live(Run(past), now));
    assert ByInsertion(kept, past) && (past == [] ==> kept == []);
    assert Updates(past, op) <==> Find(kept, requestId).Some?;
    hide Run, Live, Trimmed, Updates;
    SameInserts(kept, past, op);
    if Find(kept, requestId).None? {
      AppendByInsertion(kept, past, op, CachedVerdict(requestId, allow, now));
    }
  }

  /** A new entry comes after all others. */
  lemma AppendByInsertion(kept: seq<CachedVerdict>, past: seq<Op>, op: Op, e: CachedVerdict)
    requires ByInsertion(kept, past + [op]) && op.Write? && !Updates(past, op) && e.requestId == op.requestId
    requires forall i :: 0 <= i < |kept| ==> kept[i].requestId != op.requestId
    requires past == [] ==> kept == []
    ensures ByInsertion(kept + [e], past + [op])
  {
    assert (past + [op])[..|past|] == past;
    assert LastInsert(past + [op], e.requestId) == |past|;
    forall i | 0 <= i < |kept|
      ensures LastInsert(past + [op], kept[i].requestId) < |past|
    {
      assert LastInsert(past + [op], kept[i].requestId) == LastInsert(past, kept[i].requestId);
      InsertIsAWrite(past, kept[i].requestId);
    }
    hide LastInsert;
  }

  lemma {:induction false} RunIsByInsertion(ops: seq<Op>)
    ensures ByInsertion(Run(ops), ops)
  {
    hide LastInsert, After, Distinct, Lookup, Ideal, Survives;
    if ops != [] {
      hide ByInsertion, Run;
      var n := |ops| - 1;
      RunIsByInsertion(ops[..n]);
      RunRefinesMap(ops[..n], 0);
      NextByInsertion(ops[..n], ops[n]);
      assert ops == ops[..n] + [ops[n]];
    }
  }

  /** A request written since it was last inserted was updated in place. */
  lemma {:induction false} LastWriteUpdates(ops: seq<Op>, requestId: nat)
    requires LastInsert(ops, requestId) < LastWrite(ops, requestId)
    ensures var w := LastWrite(ops, requestId); w < |ops| && Updates(ops[..w], ops[w])
  {
    hide Updates;
    var n := |ops| - 1;
    if !(ops[n].Write? && ops[n].requestId == requestId) {
      LastWriteUpdates(ops[..n], requestId);
      var w := LastWrite(ops, requestId);
      assert ops[..n][..w] == ops[..w];
    }
  }

  /** The last write of a request updated its entry in place, after the other entry was last written and
      at a later time. */
  ghost predicate UpdatedPast(ops: seq<Op>, requestId: nat, e: CachedVerdict) {
    var w := LastWrite(ops, requestId);
    w < |ops| && Updates(ops[..w], ops[w]) && LastWrite(ops, e.requestId) < w && e.timestamp < ops[w].now
  }

  /** After any run, what a full cache evicts is its oldest entry exactly if that entry was not updated in
      place past any other live one: the list is in the order of insertion, so only the update branch can
      make its first entry younger than another. */
  lemma EvictedIsOldestIff(ops: seq<Op>, now: nat)
    requires Clocked(ops) && |Live(Run(ops), now)| == MAX_SIZE
    ensures var live := Live(Run(ops), now);
            (forall e :: e in live ==> live[0].timestamp <= e.timestamp)
            <==> !(exists e :: e in live && UpdatedPast(ops, live[0].requestId, e))
  {
    LiveKeeps(Run(ops), now);
    RunIsByInsertion(ops);
    LiveByInsertion(Run(ops), now, ops);
    var live := Live(Run(ops), now);
    assert live[0] in live;
    EntryIsLastWrite(ops, live[0]);
    hide Live, Run, LastWrite, LastInsert, Updates;
    forall e | e in live
      ensures live[0].timestamp <= e.timestamp <==> !UpdatedPast(ops, live[0].requestId, e)
    {
      EntryIsLastWrite(ops, e);
      YoungerIffUpdated(ops, live, e);
    }
  }

  lemma YoungerIffUpdated(ops: seq<Op>, live: seq<CachedVerdict>, e: CachedVerdict)
    requires Clocked(ops) && ByInsertion(live, ops) && e in live
    requires forall x | x in {live[0], e} ::
               var w := LastWrite(ops, x.requestId); w < |ops| && ops[w].Write? && x.timestamp == ops[w].now
    ensures live[0].timestamp <= e.timestamp <==> !UpdatedPast(ops, live[0].requestId, e)
  {
    hide LastWrite, LastInsert, Updates;
    var f := live[0];
    if e.timestamp < f.timestamp {
      var i :| 0 <= i < |live| && live[i] == e;
      assert LastInsert(ops, f.requestId) < LastInsert(ops, e.requestId);
      InsertIsAWrite(ops, e.requestId);
      assert LastWrite(ops, e.requestId) < LastWrite(ops, f.requestId);
      LastWriteUpdates(ops, f.requestId);
    }
  }

  /** Every write of the run was in order. */
  ghost predicate AllInOrder(ops: seq<Op>) {
    ops != [] ==>
      var past := ops[..|ops| - 1];
      AllInOrder(past)
      && (ops[|ops| - 1].Write? ==> InOrder(Run(past), ops[|ops| - 1].requestId, ops[|ops| - 1].now))
  }

  ghost predicate AlwaysOldestFirst(ops: seq<Op>) {
    OldestFirst(Run(ops)) && (ops != [] ==> AlwaysOldestFirst(ops[..|ops| - 1]))
  }

  /** The list is oldest first throughout a run, so that every eviction is of the oldest, exactly if
      every write was in order. */
  lemma {:induction false} AlwaysOldestFirstIff(ops: seq<Op>)
    requires Clocked(ops)
    ensures AlwaysOldestFirst(ops) <==> AllInOrder(ops)
  {
    if ops != [] {
      var past := ops[..|ops| - 1];
      AlwaysOldestFirstIff(past);
      if AlwaysOldestFirst(past) {
        assert past + [ops[|ops| - 1]] == ops;
        NextOldestFirstIff(past, ops[|ops| - 1]);
      }
      hide InOrder, OldestFirst, Run;
    }
  }

  lemma NextOldestFirstIff(past: seq<Op>, op: Op)
    requires Clocked(past + [op]) && OldestFirst(Run(past))
    ensures OldestFirst(Run(past + [op])) <==> (op.Write? ==> InOrder(Run(past), op.requestId, op.now))
  {
    RunOne(past, op);
    RunRefinesMap(past, op.requestId);
    hide Run, InOrder;
    assert (past + [op])[|past|] == op;
    match op
    case Write(r, allow, now) =>
      forall e | e in Run(past) ensures e.timestamp <= now {
        EntryIsLastWrite(past, e);
        assert (past + [op])[LastWrite(past, e.requestId)] == past[LastWrite(past, e.requestId)];
      }
      WriteKeepsOldestFirst(Run(past), r, allow, now);
    case Read(r) =>
  }

  lemma {:induction false} LiveAll(entries: seq<CachedVerdict>, now: nat)
    requires forall e :: e in entries ==> Fresh(e, now)
    ensures Live(entries, now) == entries
  {
    if entries != [] {
      LiveAll(entries[..|entries| - 1], now);
    }
  }

  lemma RunOne(ops: seq<Op>, op: Op)
    ensures Run(ops + [op]) == After(Run(ops), op)
  {
    assert (ops + [op])[..|ops|] == ops;
  }

  /** A write that finds room and nothing expired. */
  lemma RecordedWithRoom(entries: seq<CachedVerdict>, requestId: nat, now: nat)
    requires |entries| < MAX_SIZE && now < TTL && forall e :: e in entries ==> e.timestamp <= now
    ensures Recorded(entries, requestId, true, now) ==
            match Find(entries, requestId)
            case Some(k) => entries[k := CachedVerdict(requestId, true, now)]
            case None => entries + [CachedVerdict(requestId, true, now)]
  {
    LiveAll(entries, now);
  }

  /** `n` requests answered at time 0. */
  function Fill(n: nat): seq<Op> { if n == 0 then [] else Fill(n - 1) + [Write(n, true, 0)] }

  ghost predicate Filled(entries: seq<CachedVerdict>, n: nat) {
    |entries| == n && forall i :: 0 <= i < n ==> entries[i] == CachedVerdict(i + 1, true, 0)
  }

  lemma FillOne(n: nat)
    requires 0 < n < MAX_SIZE && Filled(Run(Fill(n - 1)), n - 1)
    ensures Filled(Run(Fill(n)), n)
  {
    hide Run, Recorded;
    RunOne(Fill(n - 1), Write(n, true, 0));
    RecordedWithRoom(Run(Fill(n - 1)), n, 0);
  }

  lemma {:induction false} FillFills(n: nat)
    requires n < MAX_SIZE
    ensures Filled(Run(Fill(n)), n)
  {
    if n == 0 {
      assert Filled(Run([]), 0);
    } else {
      hide Filled, Run, Fill;
      FillFills(n - 1);
      FillOne(n);
    }
  }

  /** 1023 entries from time 0, the first rewritten at time 1. */
  lemma Rewritten() returns (ops: seq<Op>)
    ensures var full := Run(ops);
            && |full| == 1023 && full[0] == CachedVerdict(1, true, 1)
            && forall i :: 1 <= i < 1023 ==> full[i] == CachedVerdict(i + 1, true, 0)
  {
    hide Run, Fill, Recorded, Survives, Ideal;
    FillFills(1023);
    RunOne(Fill(1023), Write(1, true, 1));
    RecordedWithRoom(Run(Fill(1023)), 1, 1);
    ops := Fill(1023) + [Write(1, true, 1)];
  }

  /** ... and one more added then. */
  lemma FullAfterRewrite() returns (ops: seq<Op>)
    ensures var full := Run(ops);
            && Distinct(full) && |full| == MAX_SIZE && (forall e :: e in full ==> e.timestamp <= 1)
            && full[0] == CachedVerdict(1, true, 1) && full[1] == CachedVerdict(2, true, 0)
  {
    var past := Rewritten();
    hide Run, Recorded, Survives, Ideal;
    RunOne(past, Write(1024, true, 1));
    RecordedWithRoom(Run(past), 1024, 1);
    ops := past + [Write(1024, true, 1)];
    RunRefinesMap(ops, 1);
  }

  /** The comment on MAX_VERDICT_CACHE_SIZE says that the oldest entry is evicted. It is not: in a
      full cache whose first entry was rewritten, the next write drops that entry, while the
      second, which is older, stays. */
  lemma NewestCanBeEvicted() returns (ops: seq<Op>)
    ensures Lookup(Run(ops), 1) == Some(CachedVerdict(1, true, 1))
    ensures Lookup(Run(ops + [Write(1025, true, 1)]), 1) == None
    ensures Lookup(Run(ops + [Write(1025, true, 1)]), 2) == Some(CachedVerdict(2, true, 0))
  {
    ops := FullAfterRewrite();
    hide Run, Recorded;
    var full := Run(ops);
    LiveAll(full, 1);
    FindUnique(full, 0);
    FindUnique(full, 1);
    RunOne(ops, Write(1025, true, 1));
    RecordMeans(full, 1025, true, 1, 1);
    RecordMeans(full, 1025, true, 1, 2);
  }
}
