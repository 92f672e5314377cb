/**
 * The shape shared by every mapping loop of the scraper tools: walk the items in
 * order and, for each, either append one record, `continue` past it, or raise.
 * `Collect` is that loop as a function; the lemmas say it is a stable filter-map.
 */
module StableFilter {
  import opened Wrappers

  /** What one iteration of a mapping loop does with its item. */
  datatype Step<+T, +E> = Keep(record: T) | Skip | Abort(error: E)

  /**
   * Runs `step` over `xs` from left to right: kept records are appended in order,
   * skipped items leave no trace, and the first item whose step raises ends the
   * whole run with that error.
   */
  function Collect<A, T, E>(xs: seq<A>, step: A -> Step<T, E>): (r: Result<seq<T>, E>)
    ensures r.Success? ==> |r.value| <= |xs|
    decreases |xs|
  {
    if xs == [] then Success([])
    else
      var n := |xs| - 1;
      match Collect(xs[..n], step)
      case Failure(e) => Failure(e)
      case Success(acc) =>
        match step(xs[n])
        case Keep(t) => Success(acc + [t])
        case Skip => Success(acc)
        case Abort(e) => Failure(e)
  }

  /** Running two parts one after the other: the first failure wins, otherwise the outputs are joined. */
  function AndThen<T, E>(first: Result<seq<T>, E>, second: Result<seq<T>, E>): Result<seq<T>, E> {
    match first
    case Failure(e) => Failure(e)
    case Success(u) =>
      match second
      case Failure(e) => Failure(e)
      case Success(v) => Success(u + v)
  }

  /** The positions of `xs` whose step keeps a record, in increasing order. */
  function KeptIndices<A, T, E>(xs: seq<A>, step: A -> Step<T, E>): (idx: seq<int>)
    ensures forall j :: 0 <= j < |idx| ==> 0 <= idx[j] < |xs| && step(xs[idx[j]]).Keep?
    ensures forall j, k :: 0 <= j < k < |idx| ==> idx[j] < idx[k]
    ensures forall i :: 0 <= i < |xs| && step(xs[i]).Keep? ==> i in idx
    decreases |xs|
  {
    if xs == [] then []
    else
      var n := |xs| - 1;
      var front := KeptIndices(xs[..n], step);
      assert forall j :: 0 <= j < |front| ==> xs[..n][front[j]] == xs[front[j]];
      assert forall i :: 0 <= i < n ==> xs[..n][i] == xs[i];
      front + (if step(xs[n]).Keep? then [n] else [])
  }

  /** Mapping a concatenation is mapping the parts in turn. */
  lemma {:induction false} CollectAppend<A, T, E>(a: seq<A>, b: seq<A>, step: A -> Step<T, E>)
    ensures Collect(a + b, step) == AndThen(Collect(a, step), Collect(b, step))
    decreases |b|
  {
    if b == [] {
      assert a + b == a;
      if Collect(a, step).Success? {
        assert Collect(a, step).value + [] == Collect(a, step).value;
      }
    } else {
      var n := |b| - 1;
      assert (a + b)[..|a + b| - 1] == a + b[..n];
      assert (a + b)[|a + b| - 1] == b[n];
      CollectAppend(a, b[..n], step);
      match Collect(a, step)
      case Failure(_) =>
      case Success(u) =>
        match Collect(b[..n], step)
        case Failure(_) =>
        case Success(v) =>
          match step(b[n])
          case Keep(t) => assert u + (v + [t]) == (u + v) + [t];
          case Skip =>
          case Abort(_) =>
    }
  }

  /** Once a prefix has run cleanly, the first item that raises decides the result of the whole run. */
  lemma CollectAbortsAt<A, T, E>(xs: seq<A>, n: nat, step: A -> Step<T, E>)
    requires n < |xs|
    requires Collect(xs[..n], step).Success? && step(xs[n]).Abort?
    ensures Collect(xs, step) == Failure(step(xs[n]).error)
  {
    var front := xs[..n + 1];
    assert front[..n] == xs[..n] && front[n] == xs[n];
    assert Collect(front, step) == Failure(step(xs[n]).error);
    assert xs == front + xs[n + 1..];
    CollectAppend(front, xs[n + 1..], step);
  }

  /** The run fails exactly when some item raises, and then with the error of the first such item. */
  lemma {:induction false} CollectFailsIff<A, T, E>(xs: seq<A>, step: A -> Step<T, E>)
    ensures Collect(xs, step).Failure? <==> exists i :: 0 <= i < |xs| && step(xs[i]).Abort?
    ensures Collect(xs, step).Failure? ==>
      exists i :: 0 <= i < |xs| && step(xs[i]) == Abort(Collect(xs, step).error) &&
        forall j :: 0 <= j < i ==> !step(xs[j]).Abort?
    decreases |xs|
  {
    if xs != [] {
      var n := |xs| - 1;
      CollectFailsIff(xs[..n], step);
      assert forall i :: 0 <= i < n ==> xs[..n][i] == xs[i];
      if Collect(xs[..n], step).Success? && step(xs[n]).Abort? {
        assert forall j :: 0 <= j < n ==> !step(xs[j]).Abort?;
      }
    }
  }

  /**
   * A successful run is a stable filter-map: its i-th record is the record kept
   * by the i-th kept item, so the output follows the input order with exactly
   * the skipped items removed.
   */
  lemma {:induction false} CollectFollowsKeptIndices<A, T, E>(xs: seq<A>, step: A -> Step<T, E>)
    requires Collect(xs, step).Success?
    ensures var r, idx := Collect(xs, step).value, KeptIndices(xs, step);
      |r| == |idx| && forall j :: 0 <= j < |r| ==> step(xs[idx[j]]) == Keep(r[j])
    decreases |xs|
  {
    if xs != [] {
      var n := |xs| - 1;
      CollectFollowsKeptIndices(xs[..n], step);
      var front := KeptIndices(xs[..n], step);
      assert forall j :: 0 <= j < |front| ==> xs[..n][front[j]] == xs[front[j]];
    }
  }

  /** A skipped item can be removed without changing anything else of the output. */
  lemma CollectIgnoresSkipped<A, T, E>(a: seq<A>, x: A, b: seq<A>, step: A -> Step<T, E>)
    requires step(x) == Skip
    ensures Collect(a + [x] + b, step) == Collect(a + b, step)
  {
    CollectAppend(a + [x], b, step);
    CollectAppend(a, [x], step);
    CollectAppend(a, b, step);
    assert [x][..0] == [];
  }

  /** Nothing is deduplicated: a repeated run of items yields its records twice. */
  lemma CollectKeepsDuplicates<A, T, E>(xs: seq<A>, step: A -> Step<T, E>)
    requires Collect(xs, step).Success?
    ensures Collect(xs + xs, step) == Success(Collect(xs, step).value + Collect(xs, step).value)
  {
    CollectAppend(xs, xs, step);
  }
}
