/**
 * Building a list element by element where the first element that throws aborts the
 * whole list: the shape of every `for` loop in the builder.
 */
module FailFast {
  import opened Wrappers

  /** Apply f to each element in order; the first Err stops the walk and is the result. */
  function MapAll<A, B, E>(xs: seq<A>, f: A -> Result<B, E>): (r: Result<seq<B>, E>)
    ensures r.Ok? ==> |r.value| == |xs|
  {
    if xs == [] then Ok([])
    else
      var init :- MapAll(xs[..|xs| - 1], f);
      var last :- f(xs[|xs| - 1]);
      Ok(init + [last])
  }

  /** Applying f to each element of a list where none fails. */
  function MapTotal<A, B>(xs: seq<A>, f: A -> B): (r: seq<B>)
    ensures |r| == |xs|
    ensures forall i | 0 <= i < |xs| :: r[i] == f(xs[i])
  {
    if xs == [] then [] else MapTotal(xs[..|xs| - 1], f) + [f(xs[|xs| - 1])]
  }

  /** The walk succeeds with ys exactly when every element succeeds, ys holding the values in order. */
  lemma {:induction false} MapAllOk<A, B, E>(xs: seq<A>, f: A -> Result<B, E>, ys: seq<B>)
    ensures MapAll(xs, f) == Ok(ys) <==>
      (|ys| == |xs| && forall i | 0 <= i < |xs| :: f(xs[i]) == Ok(ys[i]))
  {
    if xs != [] {
      var n := |xs| - 1;
      if |ys| == |xs| {
        MapAllOk(xs[..n], f, ys[..n]);
        if forall i | 0 <= i < |xs| :: f(xs[i]) == Ok(ys[i]) {
          assert forall i | 0 <= i < n :: xs[..n][i] == xs[i] && ys[..n][i] == ys[i];
          assert ys == ys[..n] + [ys[n]];
        }
        if MapAll(xs, f) == Ok(ys) {
          assert MapAll(xs[..n], f) == Ok(ys[..n]);
          forall i | 0 <= i < |xs|
            ensures f(xs[i]) == Ok(ys[i])
          {
            if i < n {
              assert xs[..n][i] == xs[i];
            }
          }
        }
      }
    }
  }

  /** The walk fails with e exactly when some element fails with e and every earlier one succeeds. */
  lemma {:induction false} MapAllErr<A, B, E>(xs: seq<A>, f: A -> Result<B, E>, e: E)
    ensures MapAll(xs, f) == Err(e) <==>
      exists k | 0 <= k < |xs| :: f(xs[k]) == Err(e) && forall i | 0 <= i < k :: f(xs[i]).Ok?
  {
    if xs != [] {
      var n := |xs| - 1;
      MapAllErr(xs[..n], f, e);
      if MapAll(xs, f) == Err(e) {
        if MapAll(xs[..n], f) == Err(e) {
          var k :| 0 <= k < n && f(xs[..n][k]) == Err(e) && forall i | 0 <= i < k :: f(xs[..n][i]).Ok?;
          assert xs[..n][k] == xs[k];
          assert forall i | 0 <= i < k :: xs[..n][i] == xs[i];
        } else {
          MapAllSucceedsAll(xs[..n], f);
          assert forall i | 0 <= i < n :: xs[..n][i] == xs[i];
          assert f(xs[n]) == Err(e);
        }
      }
      if exists k | 0 <= k < |xs| :: f(xs[k]) == Err(e) && forall i | 0 <= i < k :: f(xs[i]).Ok? {
        var k :| 0 <= k < |xs| && f(xs[k]) == Err(e) && forall i | 0 <= i < k :: f(xs[i]).Ok?;
        if k < n {
          assert xs[..n][k] == xs[k];
          assert forall i | 0 <= i < k :: xs[..n][i] == xs[i];
        } else {
          MapAllAllSucceed(xs[..n], f);
          assert forall i | 0 <= i < n :: xs[..n][i] == xs[i];
        }
      }
    }
  }

  /** A successful walk means every element succeeded. */
  lemma {:induction false} MapAllSucceedsAll<A, B, E>(xs: seq<A>, f: A -> Result<B, E>)
    requires MapAll(xs, f).Ok?
    ensures forall i | 0 <= i < |xs| :: f(xs[i]).Ok?
  {
    MapAllOk(xs, f, MapAll(xs, f).value);
  }

  /** When every element succeeds, so does the walk. */
  lemma {:induction false} MapAllAllSucceed<A, B, E>(xs: seq<A>, f: A -> Result<B, E>)
    requires forall i | 0 <= i < |xs| :: f(xs[i]).Ok?
    ensures MapAll(xs, f).Ok?
  {
    if xs != [] {
      var n := |xs| - 1;
      assert forall i | 0 <= i < n :: xs[..n][i] == xs[i];
      MapAllAllSucceed(xs[..n], f);
    }
  }

  /** One more successful element extends a successful walk over a prefix. */
  lemma MapAllExtend<A, B, E>(xs: seq<A>, i: nat, f: A -> Result<B, E>, acc: seq<B>)
    requires i < |xs| && MapAll(xs[..i], f) == Ok(acc) && f(xs[i]).Ok?
    ensures MapAll(xs[..i + 1], f) == Ok(acc + [f(xs[i]).value])
  {
    assert xs[..i + 1][..i] == xs[..i];
  }

  /** A failing element after a successful prefix is the failure of every longer walk. */
  lemma {:induction false} MapAllFailsAt<A, B, E>(xs: seq<A>, i: nat, f: A -> Result<B, E>)
    requires i < |xs| && MapAll(xs[..i], f).Ok? && f(xs[i]).Err?
    ensures MapAll(xs, f) == Err(f(xs[i]).error)
  {
    MapAllSucceedsAll(xs[..i], f);
    assert forall j | 0 <= j < i :: xs[..i][j] == xs[j];
    MapAllErr(xs, f, f(xs[i]).error);
  }

  // ---------------------------------------------------------------------------------------
  // Checks run one after another

  /** The exception a step that builds a value throws, if it throws. */
  function Thrown<T, E>(r: Result<T, E>): Option<E> {
    if r.Err? then Some(r.error) else None
  }

  /** The exception a check throws, if it throws. */
  function Raised<E>(o: Outcome<E>): Option<E> {
    if o.Fail? then Some(o.error) else None
  }

  /** Step k throws and every step before it returns normally. */
  predicate FirstThrownAt<E>(steps: seq<Option<E>>, k: int) {
    0 <= k < |steps| && steps[k].Some? && forall i | 0 <= i < k :: steps[i].None?
  }

  /** When some step throws, one of them is the first to throw. */
  lemma {:induction false} FirstThrownExists<E>(steps: seq<Option<E>>, j: nat)
    requires j < |steps| && steps[j].Some?
    ensures exists k | 0 <= k <= j :: FirstThrownAt(steps, k)
  {
    if forall i | 0 <= i < j :: steps[i].None? {
      assert FirstThrownAt(steps, j);
    } else {
      var i :| 0 <= i < j && steps[i].Some?;
      FirstThrownExists(steps, i);
    }
  }
}
