/** Failure-compatible wrappers and the list combinators the compiler stages are built from. */
module Results {

  datatype Option<+T> = None | Some(value: T) {
    function GetOr(default: T): T {
      match this
      case Some(v) => v
      case None => default
    }
  }

  datatype Result<+T, +E> = Ok(value: T) | Err(error: E) {
    predicate IsFailure() { Err? }

    function PropagateFailure<U>(): Result<U, E>
      requires Err?
    {
      Err(error)
    }

    function Extract(): T
      requires Ok?
    {
      value
    }
  }

  /** Applies `f` to the elements of `s` in order and stops at the first failure, the way a
      loop that raises on a bad element does. Defined on the last element so that a loop
      over a prefix `s[..i]` can keep `Collect(f, s[..i]) == Ok(done)` as its invariant. */
  function Collect<A, B, E>(f: A -> Result<B, E>, s: seq<A>): Result<seq<B>, E>
    decreases |s|
  {
    if |s| == 0 then Ok([])
    else
      var init :- Collect(f, s[..|s| - 1]);
      var last :- f(s[|s| - 1]);
      Ok(init + [last])
  }

  /** `Collect` succeeds exactly when every element succeeds, and then it keeps length and order. */
  lemma {:induction false} CollectOk<A, B, E>(f: A -> Result<B, E>, s: seq<A>)
    ensures Collect(f, s).Ok? <==> forall i :: 0 <= i < |s| ==> f(s[i]).Ok?
    ensures Collect(f, s).Ok? ==>
              |Collect(f, s).value| == |s| &&
              forall i :: 0 <= i < |s| ==> Collect(f, s).value[i] == f(s[i]).value
    decreases |s|
  {
    if |s| > 0 {
      var init := s[..|s| - 1];
      CollectOk(f, init);
      assert forall i :: 0 <= i < |init| ==> init[i] == s[i];
    }
  }

  /** A failing `Collect` reports the error of its first failing element. */
  lemma {:induction false} CollectErr<A, B, E>(f: A -> Result<B, E>, s: seq<A>)
    requires Collect(f, s).Err?
    ensures exists k :: 0 <= k < |s| && f(s[k]) == Err(Collect(f, s).error) &&
                        forall j :: 0 <= j < k ==> f(s[j]).Ok?
    decreases |s|
  {
    var init := s[..|s| - 1];
    assert forall i :: 0 <= i < |init| ==> init[i] == s[i];
    if Collect(f, init).Err? {
      CollectErr(f, init);
      var k :| 0 <= k < |init| && f(init[k]) == Err(Collect(f, init).error) &&
               forall j :: 0 <= j < k ==> f(init[j]).Ok?;
      assert f(s[k]) == Err(Collect(f, s).error);
    } else {
      CollectOk(f, init);
      assert f(s[|s| - 1]) == Err(Collect(f, s).error);
    }
  }

  /** Once a prefix fails, every longer prefix fails with the same error. */
  lemma {:induction false} CollectErrExtends<A, B, E>(f: A -> Result<B, E>, s: seq<A>, k: nat)
    requires k <= |s|
    requires Collect(f, s[..k]).Err?
    ensures Collect(f, s) == Collect(f, s[..k])
    decreases |s| - k
  {
    if k < |s| {
      assert s[..k + 1][..k] == s[..k];
      CollectErrExtends(f, s, k + 1);
    } else {
      assert s[..k] == s;
    }
  }

  /** A loop over `s` that meets a failing element at index `i` reports what `Collect` reports. */
  lemma CollectFailsAt<A, B, E>(f: A -> Result<B, E>, s: seq<A>, i: nat)
    requires i < |s|
    requires Collect(f, s[..i]).Ok? && f(s[i]).Err?
    ensures Collect(f, s) == Err(f(s[i]).error)
  {
    assert s[..i + 1][..i] == s[..i];
    CollectErrExtends(f, s, i + 1);
  }

  /** One successful step of a loop over `s`. */
  lemma CollectStep<A, B, E>(f: A -> Result<B, E>, s: seq<A>, i: nat, done: seq<B>, b: B)
    requires i < |s|
    requires Collect(f, s[..i]) == Ok(done) && f(s[i]) == Ok(b)
    ensures Collect(f, s[..i + 1]) == Ok(done + [b])
  {
    assert s[..i + 1][..i] == s[..i];
  }

  /** Collecting one more element at the end. */
  lemma CollectAppend<A, B, E>(f: A -> Result<B, E>, s: seq<A>, x: A, done: seq<B>, b: B)
    requires Collect(f, s) == Ok(done) && f(x) == Ok(b)
    ensures Collect(f, s + [x]) == Ok(done + [b])
  {
    assert (s + [x])[..|s|] == s;
  }

  /** Concatenates a list of lists in order. */
  function Flatten<T>(ss: seq<seq<T>>): seq<T>
    decreases |ss|
  {
    if |ss| == 0 then [] else Flatten(ss[..|ss| - 1]) + ss[|ss| - 1]
  }

  lemma FlattenAppend<T>(ss: seq<seq<T>>, s: seq<T>)
    ensures Flatten(ss + [s]) == Flatten(ss) + s
  {
    assert (ss + [s])[..|ss|] == ss;
  }
}
