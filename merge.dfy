/** First-occurrence deduplication that folds later duplicates into the kept record, the
    shape of a Python dictionary filled in one pass: a new key is inserted with its record,
    a known key has the newcomer merged into the stored record (when the newcomer carries
    anything to merge), and the result is the stored records in insertion order. */
module Merging {
  import opened Dedup

  /** The dictionary: its keys in insertion order and the record stored under each. */
  datatype Seen<K, T> = Seen(order: seq<K>, records: map<K, T>)

  ghost predicate WellFormed<K, T>(s: Seen<K, T>) {
    (forall i :: 0 <= i < |s.order| ==> s.order[i] in s.records) &&
    (forall k :: k in s.records ==> k in s.order) &&
    (forall i, j :: 0 <= i < j < |s.order| ==> s.order[i] != s.order[j])
  }

  /** One step: insert a new key, or merge the newcomer into the stored record. */
  function Absorb<K, T>(s: Seen<K, T>, x: T, key: T -> K, merge: (T, T) -> T, merges: T -> bool)
    : Seen<K, T>
  {
    var k := key(x);
    if k in s.records then
      if merges(x) then Seen(s.order, s.records[k := merge(s.records[k], x)]) else s
    else Seen(s.order + [k], s.records[k := x])
  }

  lemma AbsorbWellFormed<K, T>(s: Seen<K, T>, x: T, key: T -> K, merge: (T, T) -> T, merges: T -> bool)
    requires WellFormed(s)
    ensures WellFormed(Absorb(s, x, key, merge, merges))
  {
    if key(x) !in s.records {
      var s' := Absorb(s, x, key, merge, merges);
      forall i, j | 0 <= i < j < |s'.order|
        ensures s'.order[i] != s'.order[j]
      {
        if j == |s.order| {
          assert s'.order[i] == s.order[i];
        }
      }
    }
  }

  /** The dictionary after the whole input. */
  function Absorbed<K, T>(xs: seq<T>, key: T -> K, merge: (T, T) -> T, merges: T -> bool): (s: Seen<K, T>)
    ensures WellFormed(s)
    decreases |xs|
  {
    if xs == [] then Seen([], map[])
    else
      var init := Absorbed(xs[..|xs| - 1], key, merge, merges);
      AbsorbWellFormed(init, xs[|xs| - 1], key, merge, merges);
      Absorb(init, xs[|xs| - 1], key, merge, merges)
  }

  lemma AbsorbedSnoc<K, T>(xs: seq<T>, i: nat, key: T -> K, merge: (T, T) -> T, merges: T -> bool)
    requires i < |xs|
    ensures Absorbed(xs[..i + 1], key, merge, merges) ==
      Absorb(Absorbed(xs[..i], key, merge, merges), xs[i], key, merge, merges)
  {
    assert xs[..i + 1][..i] == xs[..i];
  }

  /** `list(d.values())` */
  function Values<K, T>(s: Seen<K, T>): (r: seq<T>)
    requires WellFormed(s)
    ensures |r| == |s.order|
  {
    seq(|s.order|, i requires 0 <= i < |s.order| => s.records[s.order[i]])
  }

  // ---------------------------------------------------------------- which records are kept

  /** `s` stores, key for key and in the same order, the records `d` holds, up to what a
      merge may change (`shape` is what it leaves alone). */
  ghost predicate Mirrors<K, T, S>(s: Seen<K, T>, d: seq<T>, key: T -> K, shape: T -> S) {
    WellFormed(s) && |s.order| == |d| &&
    forall j :: 0 <= j < |d| ==>
      s.order[j] == key(d[j]) && shape(s.records[s.order[j]]) == shape(d[j])
  }

  lemma MirrorsStep<K, T, S>(s: Seen<K, T>, d: seq<T>, x: T, key: T -> K, merge: (T, T) -> T,
                             merges: T -> bool, shape: T -> S)
    requires Mirrors(s, d, key, shape)
    requires forall a, b :: shape(merge(a, b)) == shape(a)
    ensures Mirrors(Absorb(s, x, key, merge, merges), if key(x) in Keys(d, key) then d else d + [x], key, shape)
  {
    KeysMembership(d, key, key(x));
    if key(x) in s.records {
      var j :| 0 <= j < |s.order| && s.order[j] == key(x);
      assert key(d[j]) == key(x);
      MirrorsMerge(s, d, x, key, merge, merges, shape);
    } else {
      MirrorsInsert(s, d, x, key, shape);
    }
  }

  lemma MirrorsMerge<K, T, S>(s: Seen<K, T>, d: seq<T>, x: T, key: T -> K, merge: (T, T) -> T,
                              merges: T -> bool, shape: T -> S)
    requires Mirrors(s, d, key, shape) && key(x) in s.records
    requires forall a, b :: shape(merge(a, b)) == shape(a)
    ensures Mirrors(Absorb(s, x, key, merge, merges), d, key, shape)
  {
    AbsorbWellFormed(s, x, key, merge, merges);
  }

  lemma MirrorsInsert<K, T, S>(s: Seen<K, T>, d: seq<T>, x: T, key: T -> K, shape: T -> S)
    requires Mirrors(s, d, key, shape) && key(x) !in s.records
    ensures Mirrors(Seen(s.order + [key(x)], s.records[key(x) := x]), d + [x], key, shape)
  {
    var s' := Seen(s.order + [key(x)], s.records[key(x) := x]);
    forall i, j | 0 <= i < j < |s'.order|
      ensures s'.order[i] != s'.order[j]
    {
      if j == |s.order| {
        assert s'.order[i] == s.order[i];
      }
    }
  }

  /** The stored records are, in order and up to merging, the first record of each key. */
  lemma {:induction false} AbsorbedMirrorsDistinct<K, T, S>(xs: seq<T>, key: T -> K, merge: (T, T) -> T,
                                                          merges: T -> bool, shape: T -> S)
    requires forall a, b :: shape(merge(a, b)) == shape(a)
    ensures Mirrors(Absorbed(xs, key, merge, merges), Distinct(xs, key, Always), key, shape)
    decreases |xs|
  {
    if xs != [] {
      var init, x := xs[..|xs| - 1], xs[|xs| - 1];
      var s, d := Absorbed(init, key, merge, merges), Distinct(init, key, Always);
      AbsorbedMirrorsDistinct(init, key, merge, merges, shape);
      MirrorsStep(s, d, x, key, merge, merges, shape);
      LastSplit(xs);
      DistinctStep(init, x, key, Always);
      assert Absorbed(xs, key, merge, merges) == Absorb(s, x, key, merge, merges);
      assert Distinct(xs, key, Always) == if key(x) in Keys(d, key) then d else d + [x];
    }
  }

  // ---------------------------------------------------------------- what the merges gather

  /** The union of `vals` over the records carrying key `k`. */
  ghost function KeyValues<K, T, V>(xs: seq<T>, key: T -> K, vals: T -> set<V>, k: K): set<V>
    decreases |xs|
  {
    if xs == [] then {}
    else
      var x := xs[|xs| - 1];
      KeyValues(xs[..|xs| - 1], key, vals, k) + (if key(x) == k then vals(x) else {})
  }

  lemma {:induction false} KeyValuesMembership<K, T, V>(xs: seq<T>, key: T -> K, vals: T -> set<V>, k: K, v: V)
    ensures v in KeyValues(xs, key, vals, k) <==> exists i :: 0 <= i < |xs| && key(xs[i]) == k && v in vals(xs[i])
    decreases |xs|
  {
    if xs != [] {
      var init := xs[..|xs| - 1];
      KeyValuesMembership(init, key, vals, k, v);
      assert forall i :: 0 <= i < |init| ==> init[i] == xs[i];
      if v in KeyValues(init, key, vals, k) {
        var i :| 0 <= i < |init| && key(init[i]) == k && v in vals(init[i]);
        assert key(xs[i]) == k && v in vals(xs[i]);
      }
    }
  }

  /** The values stored under `k`, none when the key is absent. */
  ghost function Held<K, T, V>(s: Seen<K, T>, vals: T -> set<V>, k: K): set<V> {
    if k in s.records then vals(s.records[k]) else {}
  }

  lemma HeldStep<K, T, V>(s: Seen<K, T>, x: T, key: T -> K, merge: (T, T) -> T, merges: T -> bool,
                          vals: T -> set<V>, k: K)
    requires forall a, b :: vals(merge(a, b)) == vals(a) + vals(b)
    requires forall b :: !merges(b) ==> vals(b) == {}
    ensures Held(Absorb(s, x, key, merge, merges), vals, k) ==
      Held(s, vals, k) + (if key(x) == k then vals(x) else {})
  {
  }

  /** A stored record gathers the values of every record of its key: when merging unions
      the values, and a newcomer that does not merge brings none, the record stored under
      `k` holds exactly the union over the input records carrying `k`. */
  lemma {:induction false} AbsorbedGathers<K, T, V>(xs: seq<T>, key: T -> K, merge: (T, T) -> T,
                                                  merges: T -> bool, vals: T -> set<V>, k: K)
    requires forall a, b :: vals(merge(a, b)) == vals(a) + vals(b)
    requires forall b :: !merges(b) ==> vals(b) == {}
    ensures Held(Absorbed(xs, key, merge, merges), vals, k) == KeyValues(xs, key, vals, k)
    decreases |xs|
  {
    if xs != [] {
      var init, x := xs[..|xs| - 1], xs[|xs| - 1];
      AbsorbedGathers(init, key, merge, merges, vals, k);
      HeldStep(Absorbed(init, key, merge, merges), x, key, merge, merges, vals, k);
    }
  }
}
