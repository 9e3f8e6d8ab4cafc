/** Values shared by all modules, and the bookkeeping used by every conservation law:
    the multiset of everything a pool of threads holds in its local states. */
module Prelude {
  datatype Option<+T> = None | Some(value: T)

  datatype Result<+T, +E> = Ok(value: T) | Err(error: E)

  /** `Vec::remove`. */
  function RemoveAt<T>(s: seq<T>, k: nat): (r: seq<T>)
    requires k < |s|
    ensures |r| == |s| - 1
    ensures forall i :: 0 <= i < k ==> r[i] == s[i]
    ensures forall i :: k <= i < |r| ==> r[i] == s[i + 1]
  {
    s[..k] + s[k + 1..]
  }

  /** The first element with a given key: `iter().position` and `iter_mut().find`. */
  function FindBy<T>(s: seq<T>, key: T -> nat, wanted: nat): (k: Option<nat>)
    ensures k.Some? ==> k.value < |s| && key(s[k.value]) == wanted
                        && forall i :: 0 <= i < k.value ==> key(s[i]) != wanted
    ensures k.None? ==> forall i :: 0 <= i < |s| ==> key(s[i]) != wanted
  {
    if s == [] then None
    else if key(s[0]) == wanted then Some(0)
    else
      match FindBy(s[1..], key, wanted)
      case None => None
      case Some(k) =>
        assert s[k + 1] == s[1..][k];
        Some(k + 1)
  }
}

module Tallies {
  import opened Prelude

  /** How much of `x` the elements of `ts` hold, when one element holds `f` of it. */
  ghost function Tally<L, X>(ts: seq<L>, f: (L, X) -> nat, x: X): nat {
    if ts == [] then 0 else Tally(ts[..|ts| - 1], f, x) + f(ts[|ts| - 1], x)
  }

  ghost function Same<X>(a: X, b: X): nat { if a == b then 1 else 0 }

  lemma TallyAppend<L, X>(ts: seq<L>, l: L, f: (L, X) -> nat, x: X)
    ensures Tally(ts + [l], f, x) == Tally(ts, f, x) + f(l, x)
  {
    assert (ts + [l])[..|ts|] == ts;
  }

  lemma {:induction false} TallyUpdate<L, X>(ts: seq<L>, i: nat, l: L, f: (L, X) -> nat, x: X)
    requires i < |ts|
    ensures Tally(ts[i := l], f, x) + f(ts[i], x) == Tally(ts, f, x) + f(l, x)
    ensures f(ts[i], x) <= Tally(ts, f, x)
  {
    var n := |ts| - 1;
    var us := ts[i := l];
    if i == n {
      assert us[..n] == ts[..n];
    } else {
      TallyUpdate(ts[..n], i, l, f, x);
      assert us[..n] == ts[..n][i := l];
    }
  }

  lemma {:induction false} TallyRemove<L, X>(ts: seq<L>, k: nat, f: (L, X) -> nat, x: X)
    requires k < |ts|
    ensures Tally(RemoveAt(ts, k), f, x) + f(ts[k], x) == Tally(ts, f, x)
  {
    var n := |ts| - 1;
    if k == n {
      assert RemoveAt(ts, k) == ts[..n];
    } else {
      TallyRemove(ts[..n], k, f, x);
      assert RemoveAt(ts, k) == RemoveAt(ts[..n], k) + [ts[n]];
      TallyAppend(RemoveAt(ts[..n], k), ts[n], f, x);
    }
  }

  lemma {:induction false} TallyTwo<L, X>(ts: seq<L>, i: nat, j: nat, f: (L, X) -> nat, x: X)
    requires i < j < |ts|
    ensures f(ts[i], x) + f(ts[j], x) <= Tally(ts, f, x)
  {
    var n := |ts| - 1;
    if j == n {
      TallyUpdate(ts[..n], i, ts[i], f, x);
    } else {
      TallyTwo(ts[..n], i, j, f, x);
    }
  }

  /** Any two elements of one list that hold the same thing make its tally 2. */
  lemma TwoInList<L, X>(ts: seq<L>, i: nat, j: nat, f: (L, X) -> nat, x: X)
    requires i < |ts| && j < |ts| && i != j
    ensures f(ts[i], x) + f(ts[j], x) <= Tally(ts, f, x)
  {
    TallyTwo(ts, if i < j then i else j, if i < j then j else i, f, x);
  }

  lemma {:induction false} TallySource<L, X>(ts: seq<L>, f: (L, X) -> nat, x: X) returns (i: nat)
    requires Tally(ts, f, x) > 0
    ensures i < |ts| && f(ts[i], x) > 0
  {
    var n := |ts| - 1;
    if f(ts[n], x) > 0 {
      i := n;
    } else {
      i := TallySource(ts[..n], f, x);
    }
  }

  lemma {:induction false} TallyZero<L, X>(ts: seq<L>, f: (L, X) -> nat, x: X)
    requires forall i :: 0 <= i < |ts| ==> f(ts[i], x) == 0
    ensures Tally(ts, f, x) == 0
  {
    if ts != [] {
      TallyZero(ts[..|ts| - 1], f, x);
    }
  }

  lemma {:induction false} TallyAtMostOne<L, X>(ts: seq<L>, f: (L, X) -> nat, x: X)
    requires forall i :: 0 <= i < |ts| ==> f(ts[i], x) <= 1
    requires forall i, j :: 0 <= i < j < |ts| ==> f(ts[i], x) == 0 || f(ts[j], x) == 0
    ensures Tally(ts, f, x) <= 1
  {
    if ts != [] {
      var n := |ts| - 1;
      TallyAtMostOne(ts[..n], f, x);
      if f(ts[n], x) == 1 {
        TallyZero(ts[..n], f, x);
      }
    }
  }
}
