/** First-occurrence deduplication, the shape every collector and the engine share:
    walk the records in order, keep a record when it is eligible and its key has not been
    seen, and remember the key. `Distinct` is the reference definition the imperative
    loops are proved against; the lemmas below are what it guarantees. */
module Dedup {

  /** The keys of `xs`. */
  function Keys<T, K(==)>(xs: seq<T>, key: T -> K): set<K>
    decreases |xs|
  {
    if xs == [] then {} else Keys(xs[..|xs| - 1], key) + {key(xs[|xs| - 1])}
  }

  lemma {:induction false} KeysMembership<T, K>(xs: seq<T>, key: T -> K, k: K)
    ensures k in Keys(xs, key) <==> exists i :: 0 <= i < |xs| && key(xs[i]) == k
    decreases |xs|
  {
    if xs != [] {
      var init := xs[..|xs| - 1];
      KeysMembership(init, key, k);
      assert forall i :: 0 <= i < |init| ==> init[i] == xs[i];
      if k in Keys(init, key) {
        var i :| 0 <= i < |init| && key(init[i]) == k;
        assert key(xs[i]) == k;
      }
    }
  }

  lemma KeysAppend<T, K>(xs: seq<T>, x: T, key: T -> K)
    ensures Keys(xs + [x], key) == Keys(xs, key) + {key(x)}
  {
    assert (xs + [x])[..|xs|] == xs;
  }

  /** `r` is the subsequence of `xs` at the increasing positions `idx`. */
  ghost predicate Picks<T>(r: seq<T>, xs: seq<T>, idx: seq<nat>) {
    |idx| == |r| &&
    (forall j :: 0 <= j < |idx| ==> idx[j] < |xs| && r[j] == xs[idx[j]]) &&
    (forall j, j' :: 0 <= j < j' < |idx| ==> idx[j] < idx[j'])
  }

  /** Appending an element the subsequence skips. */
  lemma PicksSkip<T>(r: seq<T>, xs: seq<T>, idx: seq<nat>, x: T)
    requires Picks(r, xs, idx)
    ensures Picks(r, xs + [x], idx)
  {
    forall j | 0 <= j < |idx|
      ensures (xs + [x])[idx[j]] == xs[idx[j]]
    {
    }
  }

  /** Appending an element the subsequence takes. */
  lemma PicksKeep<T>(r: seq<T>, xs: seq<T>, idx: seq<nat>, x: T)
    requires Picks(r, xs, idx)
    ensures Picks(r + [x], xs + [x], idx + [|xs|])
  {
    PicksSkip(r, xs, idx, x);
  }

  /** The records kept, in input order: the eligible ones whose key was not seen before. */
  function Distinct<T, K(==)>(xs: seq<T>, key: T -> K, keep: T -> bool): seq<T>
    decreases |xs|
  {
    if xs == [] then []
    else
      var init := Distinct(xs[..|xs| - 1], key, keep);
      var x := xs[|xs| - 1];
      if keep(x) && key(x) !in Keys(init, key) then init + [x] else init
  }

  /** One loop step: what `Distinct` does with one more record. */
  lemma DistinctStep<T, K>(xs: seq<T>, x: T, key: T -> K, keep: T -> bool)
    ensures Distinct(xs + [x], key, keep) ==
      if keep(x) && key(x) !in Keys(Distinct(xs, key, keep), key)
      then Distinct(xs, key, keep) + [x] else Distinct(xs, key, keep)
  {
    assert (xs + [x])[..|xs|] == xs;
  }

  lemma TakeSnoc<T>(xs: seq<T>, i: nat)
    requires i < |xs|
    ensures xs[..i + 1] == xs[..i] + [xs[i]]
  {
  }

  lemma LastSplit<T>(xs: seq<T>)
    requires xs != []
    ensures xs == xs[..|xs| - 1] + [xs[|xs| - 1]]
  {
  }

  /** One loop step with the seen-set: what `Distinct` and its key set become with one
      more record. */
  lemma DistinctSnoc<T, K>(xs: seq<T>, x: T, key: T -> K, keep: T -> bool)
    ensures var d := Distinct(xs, key, keep);
      var isNew := keep(x) && key(x) !in Keys(d, key);
      Distinct(xs + [x], key, keep) == (if isNew then d + [x] else d) &&
      Keys(Distinct(xs + [x], key, keep), key) == (if isNew then Keys(d, key) + {key(x)} else Keys(d, key))
  {
    DistinctStep(xs, x, key, keep);
    KeysAppend(Distinct(xs, key, keep), x, key);
  }

  /** A record whose key an earlier kept record already has is dropped. */
  lemma DistinctSameKeyPair<T, K>(x: T, y: T, key: T -> K, keep: T -> bool)
    requires keep(x) && key(x) == key(y)
    ensures Distinct([x, y], key, keep) == [x]
  {
    assert [x] == [] + [x];
    assert [x, y] == [x] + [y];
    DistinctStep([], x, key, keep);
    DistinctStep([x], y, key, keep);
  }

  /** The result is a subsequence of the input: `idx` picks its elements, in increasing
      positions. */
  lemma {:induction false} DistinctIsSubsequence<T, K>(xs: seq<T>, key: T -> K, keep: T -> bool)
    returns (idx: seq<nat>)
    ensures Picks(Distinct(xs, key, keep), xs, idx)
    decreases |xs|
  {
    if xs == [] {
      idx := [];
    } else {
      var init, x := xs[..|xs| - 1], xs[|xs| - 1];
      var prev := DistinctIsSubsequence(init, key, keep);
      var d := Distinct(init, key, keep);
      assert xs == init + [x];
      if keep(x) && key(x) !in Keys(d, key) {
        PicksKeep(d, init, prev, x);
        idx := prev + [|init|];
      } else {
        PicksSkip(d, init, prev, x);
        idx := prev;
      }
    }
  }

  /** Every kept record is eligible, and no two kept records share a key. */
  lemma {:induction false} DistinctKeysUnique<T, K>(xs: seq<T>, key: T -> K, keep: T -> bool)
    ensures forall j :: 0 <= j < |Distinct(xs, key, keep)| ==> keep(Distinct(xs, key, keep)[j])
    ensures forall j, j' :: 0 <= j < j' < |Distinct(xs, key, keep)| ==>
      key(Distinct(xs, key, keep)[j]) != key(Distinct(xs, key, keep)[j'])
    decreases |xs|
  {
    if xs != [] {
      var init := xs[..|xs| - 1];
      var d := Distinct(init, key, keep);
      DistinctKeysUnique(init, key, keep);
      var x := xs[|xs| - 1];
      if keep(x) && key(x) !in Keys(d, key) {
        forall j | 0 <= j < |d|
          ensures key(d[j]) != key(x)
        {
          KeysMembership(d, key, key(d[j]));
        }
      }
    }
  }

  /** Every eligible record's key is represented in the result. */
  lemma {:induction false} DistinctCoversKeys<T, K>(xs: seq<T>, key: T -> K, keep: T -> bool)
    ensures forall i :: 0 <= i < |xs| && keep(xs[i]) ==> key(xs[i]) in Keys(Distinct(xs, key, keep), key)
    decreases |xs|
  {
    if xs != [] {
      var init := xs[..|xs| - 1];
      var d := Distinct(init, key, keep);
      DistinctCoversKeys(init, key, keep);
      var x := xs[|xs| - 1];
      var r := Distinct(xs, key, keep);
      if keep(x) && key(x) !in Keys(d, key) {
        KeysAppend(d, x, key);
      }
      assert Keys(d, key) <= Keys(r, key);
      forall i | 0 <= i < |xs| && keep(xs[i])
        ensures key(xs[i]) in Keys(r, key)
      {
        if i < |init| {
          assert xs[i] == init[i];
        }
      }
    }
  }

  /** The record kept for a key is its first eligible occurrence: no eligible record before
      it has the same key. */
  lemma {:induction false} DistinctKeepsFirst<T, K>(xs: seq<T>, key: T -> K, keep: T -> bool, i: nat)
    requires i < |xs| && keep(xs[i])
    requires forall i' :: 0 <= i' < i && keep(xs[i']) ==> key(xs[i']) != key(xs[i])
    ensures xs[i] in Distinct(xs, key, keep)
    decreases |xs|
  {
    var init := xs[..|xs| - 1];
    var d := Distinct(init, key, keep);
    if i < |init| {
      assert forall i' :: 0 <= i' <= i ==> init[i'] == xs[i'];
      DistinctKeepsFirst(init, key, keep, i);
    } else {
      // no earlier eligible record carries the key, so it is not among the kept ones
      if key(xs[i]) in Keys(d, key) {
        KeysMembership(d, key, key(xs[i]));
        var j :| 0 <= j < |d| && key(d[j]) == key(xs[i]);
        var idx := DistinctIsSubsequence(init, key, keep);
        DistinctKeysUnique(init, key, keep);
        assert false;
      }
    }
  }

  lemma {:induction false} DistinctLength<T, K>(xs: seq<T>, key: T -> K, keep: T -> bool)
    ensures |Distinct(xs, key, keep)| <= |xs|
    decreases |xs|
  {
    if xs != [] {
      DistinctLength(xs[..|xs| - 1], key, keep);
    }
  }

  // ---------------------------------------------------------------- identity keys

  function Identity<T>(x: T): T { x }

  function Always<T>(x: T): bool { true }

  /** `out = []; for x in xs: if x not in out: out.append(x)` */
  function Nub<T(==)>(xs: seq<T>): seq<T> {
    Distinct(xs, Identity, Always)
  }

  lemma NubStep<T>(xs: seq<T>, x: T)
    ensures Nub(xs + [x]) == if x in Nub(xs) then Nub(xs) else Nub(xs) + [x]
  {
    DistinctStep(xs, x, Identity, Always);
    KeysMembership(Nub(xs), Identity, x);
    assert x in Nub(xs) <==> exists i :: 0 <= i < |Nub(xs)| && Identity(Nub(xs)[i]) == x;
  }

  /** `Nub` keeps exactly the elements of its input, each once. */
  lemma NubProperties<T>(xs: seq<T>)
    ensures |Nub(xs)| <= |xs|
    ensures forall j, j' :: 0 <= j < j' < |Nub(xs)| ==> Nub(xs)[j] != Nub(xs)[j']
    ensures forall y :: y in Nub(xs) <==> y in xs
  {
    DistinctLength(xs, Identity, Always);
    DistinctKeysUnique(xs, Identity, Always);
    DistinctCoversKeys(xs, Identity, Always);
    var idx := DistinctIsSubsequence(xs, Identity, Always);
    forall y | y in xs
      ensures y in Nub(xs)
    {
      var i :| 0 <= i < |xs| && xs[i] == y;
      KeysMembership(Nub(xs), Identity, y);
    }
  }

  // ---------------------------------------------------------------- filtering

  /** `[x for x in xs if p(x)]` */
  function Filter<T>(p: T -> bool, xs: seq<T>): seq<T>
    decreases |xs|
  {
    if xs == [] then []
    else
      var init := Filter(p, xs[..|xs| - 1]);
      var x := xs[|xs| - 1];
      if p(x) then init + [x] else init
  }

  lemma FilterStep<T>(p: T -> bool, xs: seq<T>, i: nat)
    requires i < |xs|
    ensures Filter(p, xs[..i + 1]) == Filter(p, xs[..i]) + (if p(xs[i]) then [xs[i]] else [])
  {
    assert xs[..i + 1][..i] == xs[..i];
  }

  /** The kept elements are exactly the input elements satisfying `p`. */
  lemma {:induction false} FilterFacts<T>(p: T -> bool, xs: seq<T>)
    ensures |Filter(p, xs)| <= |xs|
    ensures forall y :: y in Filter(p, xs) <==> y in xs && p(y)
    decreases |xs|
  {
    if xs != [] {
      FilterFacts(p, xs[..|xs| - 1]);
      assert xs == xs[..|xs| - 1] + [xs[|xs| - 1]];
    }
  }

  lemma {:induction false} FilterMultiset<T>(p: T -> bool, xs: seq<T>)
    ensures multiset(Filter(p, xs)) <= multiset(xs)
    decreases |xs|
  {
    if xs != [] {
      var init := xs[..|xs| - 1];
      FilterMultiset(p, init);
      assert xs == init + [xs[|xs| - 1]];
    }
  }

  /** The kept elements keep their input order: `idx` picks them in increasing positions. */
  lemma {:induction false} FilterIsSubsequence<T>(p: T -> bool, xs: seq<T>) returns (idx: seq<nat>)
    ensures Picks(Filter(p, xs), xs, idx)
    decreases |xs|
  {
    if xs == [] {
      idx := [];
    } else {
      var init, x := xs[..|xs| - 1], xs[|xs| - 1];
      var prev := FilterIsSubsequence(p, init);
      assert xs == init + [x];
      if p(x) {
        PicksKeep(Filter(p, init), init, prev, x);
        idx := prev + [|init|];
      } else {
        PicksSkip(Filter(p, init), init, prev, x);
        idx := prev;
      }
    }
  }
}
