/** Failure isolation, the shape every collector and the engine share: each source
    (a YC batch, an RSS feed, a search term, a whole collector) runs inside its own
    `try`; a source that raises contributes nothing and the next one still runs. A
    source's outcome is a `Result`: `Failure` stands for the exception. */
module Collect {
  import opened Wrappers

  /** What one source adds to the aggregate. */
  function Contribution<T>(r: Result<seq<T>>): seq<T> {
    if r.Success? then r.value else []
  }

  /** The concatenation of the successful sources' records, in source order. */
  function Successes<T>(rs: seq<Result<seq<T>>>): seq<T>
    decreases |rs|
  {
    if rs == [] then [] else Successes(rs[..|rs| - 1]) + Contribution(rs[|rs| - 1])
  }

  lemma SuccessesSnoc<T>(rs: seq<Result<seq<T>>>, r: Result<seq<T>>)
    ensures Successes(rs + [r]) == Successes(rs) + Contribution(r)
  {
    assert (rs + [r])[..|rs|] == rs;
  }

  lemma SuccessesStep<T>(rs: seq<Result<seq<T>>>, i: nat)
    requires i < |rs|
    ensures Successes(rs[..i + 1]) == Successes(rs[..i]) + Contribution(rs[i])
  {
    assert rs[..i + 1] == rs[..i] + [rs[i]];
    SuccessesSnoc(rs[..i], rs[i]);
  }

  /** Aggregation is concatenation. */
  lemma {:induction false} SuccessesAppend<T>(a: seq<Result<seq<T>>>, b: seq<Result<seq<T>>>)
    ensures Successes(a + b) == Successes(a) + Successes(b)
    decreases |b|
  {
    if b == [] {
      assert a + b == a;
    } else {
      var b', last := b[..|b| - 1], b[|b| - 1];
      assert b == b' + [last];
      assert a + b == (a + b') + [last];
      SuccessesAppend(a, b');
      SuccessesSnoc(a + b', last);
      SuccessesSnoc(b', last);
    }
  }

  /** Three sources pool to the concatenation of their contributions. */
  lemma SuccessesOfThree<T>(a: Result<seq<T>>, b: Result<seq<T>>, c: Result<seq<T>>)
    ensures Successes([a, b, c]) == Contribution(a) + Contribution(b) + Contribution(c)
  {
    assert [a] == [] + [a];
    assert [a, b] == [a] + [b];
    assert [a, b, c] == [a, b] + [c];
    SuccessesSnoc([], a);
    SuccessesSnoc([a], b);
    SuccessesSnoc([a, b], c);
  }

  lemma SplitAt<T>(rs: seq<T>, i: nat)
    requires i < |rs|
    ensures rs == rs[..i] + [rs[i]] + rs[i + 1..]
  {
  }

  lemma SuccessesAround<T>(a: seq<Result<seq<T>>>, f: Result<seq<T>>, b: seq<Result<seq<T>>>)
    requires f.Failure?
    ensures Successes(a + [f] + b) == Successes(a) + Successes(b)
  {
    SuccessesSnoc(a, f);
    SuccessesAppend(a + [f], b);
  }

  /** A failing source contributes nothing, and the sources after it still do. */
  lemma SuccessesSkipFailure<T>(rs: seq<Result<seq<T>>>, i: nat)
    requires i < |rs| && rs[i].Failure?
    ensures Successes(rs) == Successes(rs[..i]) + Successes(rs[i + 1..])
  {
    var a, f, b := rs[..i], rs[i], rs[i + 1..];
    SuccessesAround(a, f, b);
    SplitAt(rs, i);
  }

  /** A record is gathered exactly when some successful source produced it. */
  lemma {:induction false} SuccessesMembership<T>(rs: seq<Result<seq<T>>>, x: T)
    ensures x in Successes(rs) <==> exists k :: 0 <= k < |rs| && rs[k].Success? && x in rs[k].value
    decreases |rs|
  {
    if rs != [] {
      var init := rs[..|rs| - 1];
      SuccessesMembership(init, x);
      assert forall k :: 0 <= k < |init| ==> init[k] == rs[k];
    }
  }
}
