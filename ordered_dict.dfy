/** Python's `dict` as far as the adapter uses it: entries kept in insertion order, an
    assignment to a present key replaces its value in place, an assignment to a new key appends. */
module OrderedDict {
  import opened Results

  /** The keys in entry order. */
  function Keys<K, V>(d: seq<(K, V)>): seq<K> {
    seq(|d|, i requires 0 <= i < |d| => d[i].0)
  }

  /** No key occurs twice, the invariant of every dictionary. */
  predicate UniqueKeys<K(==, !new), V>(d: seq<(K, V)>) {
    forall i, j :: 0 <= i < j < |d| ==> d[i].0 != d[j].0
  }

  /** `d.get(k)`. */
  function Get<K(==, !new), V>(d: seq<(K, V)>, k: K): Option<V>
    decreases |d|
  {
    if |d| == 0 then None
    else if d[0].0 == k then Some(d[0].1)
    else Get(d[1..], k)
  }

  /** `d[k] = v`. */
  function Put<K(==, !new), V>(d: seq<(K, V)>, k: K, v: V): seq<(K, V)>
    decreases |d|
  {
    if |d| == 0 then [(k, v)]
    else if d[0].0 == k then [(k, v)] + d[1..]
    else [d[0]] + Put(d[1..], k, v)
  }

  /** Assignment appends the key only when it is absent, and otherwise keeps the key order. */
  lemma {:induction false} PutKeys<K(!new), V>(d: seq<(K, V)>, k: K, v: V)
    ensures Keys(Put(d, k, v)) == if k in Keys(d) then Keys(d) else Keys(d) + [k]
    decreases |d|
  {
    if |d| > 0 {
      assert Keys(d) == [d[0].0] + Keys(d[1..]);
      if d[0].0 == k {
        assert Keys([(k, v)] + d[1..]) == [k] + Keys(d[1..]);
      } else {
        PutKeys(d[1..], k, v);
        assert Keys([d[0]] + Put(d[1..], k, v)) == [d[0].0] + Keys(Put(d[1..], k, v));
      }
    }
  }

  /** After assignment the key holds the new value and every other key keeps its own. */
  lemma {:induction false} PutGet<K(!new), V>(d: seq<(K, V)>, k: K, v: V)
    ensures Get(Put(d, k, v), k) == Some(v)
    ensures forall k' :: k' != k ==> Get(Put(d, k, v), k') == Get(d, k')
    decreases |d|
  {
    if |d| > 0 && d[0].0 != k {
      PutGet(d[1..], k, v);
      var r := Put(d, k, v);
      assert r[1..] == Put(d[1..], k, v);
    } else if |d| > 0 {
      assert Put(d, k, v)[1..] == d[1..];
    }
  }

  /** Assignment keeps the keys unique. */
  lemma PutUnique<K(!new), V>(d: seq<(K, V)>, k: K, v: V)
    requires UniqueKeys(d)
    ensures UniqueKeys(Put(d, k, v))
  {
    var r := Put(d, k, v);
    PutKeys(d, k, v);
    assert forall i :: 0 <= i < |r| ==> r[i].0 == Keys(r)[i];
    assert forall i :: 0 <= i < |d| ==> d[i].0 == Keys(d)[i];
  }

  /** A dictionary built by assigning the pairs one after another (a dict comprehension). */
  function FromPairs<K(==, !new), V>(ps: seq<(K, V)>): seq<(K, V)>
    decreases |ps|
  {
    if |ps| == 0 then []
    else Put(FromPairs(ps[..|ps| - 1]), ps[|ps| - 1].0, ps[|ps| - 1].1)
  }

  /** The value of the last pair with key `k`. */
  function LastValue<K(==, !new), V>(ps: seq<(K, V)>, k: K): Option<V>
    decreases |ps|
  {
    if |ps| == 0 then None
    else if ps[|ps| - 1].0 == k then Some(ps[|ps| - 1].1)
    else LastValue(ps[..|ps| - 1], k)
  }

  /** The elements of `s` in order of their first occurrence. */
  function Distinct<T(==)>(s: seq<T>): seq<T>
    decreases |s|
  {
    if |s| == 0 then []
    else
      var init := Distinct(s[..|s| - 1]);
      if s[|s| - 1] in init then init else init + [s[|s| - 1]]
  }

  lemma KeysAppend<K, V>(a: seq<(K, V)>, b: seq<(K, V)>)
    ensures Keys(a + b) == Keys(a) + Keys(b)
  {
  }

  /** Assigning one more pair. */
  lemma FromPairsAppend<K(!new), V>(ps: seq<(K, V)>, k: K, v: V)
    ensures FromPairs(ps + [(k, v)]) == Put(FromPairs(ps), k, v)
  {
    assert (ps + [(k, v)])[..|ps|] == ps;
  }

  /** A dictionary built from pairs has unique keys, in order of first assignment, and each
      key holds the value it was assigned last. */
  lemma {:induction false} FromPairsLaws<K(!new), V>(ps: seq<(K, V)>)
    ensures UniqueKeys(FromPairs(ps))
    ensures Keys(FromPairs(ps)) == Distinct(Keys(ps))
    ensures forall k :: Get(FromPairs(ps), k) == LastValue(ps, k)
    decreases |ps|
  {
    if |ps| > 0 {
      var init := ps[..|ps| - 1];
      FromPairsLaws(init);
      PutUnique(FromPairs(init), ps[|ps| - 1].0, ps[|ps| - 1].1);
      PutKeys(FromPairs(init), ps[|ps| - 1].0, ps[|ps| - 1].1);
      PutGet(FromPairs(init), ps[|ps| - 1].0, ps[|ps| - 1].1);
      assert Keys(ps)[..|ps| - 1] == Keys(init);
    }
  }

  /** A key is present after the pairs exactly when some pair assigned it. */
  lemma {:induction false} LastValueSome<K(!new), V>(ps: seq<(K, V)>, k: K)
    ensures LastValue(ps, k).Some? <==> k in Keys(ps)
    decreases |ps|
  {
    if |ps| > 0 {
      var init := ps[..|ps| - 1];
      LastValueSome(init, k);
      assert Keys(ps) == Keys(init) + [ps[|ps| - 1].0];
    }
  }

  /** `Distinct` keeps exactly the elements of its argument, each once. */
  lemma {:induction false} DistinctLaws<T>(s: seq<T>)
    ensures forall x :: x in Distinct(s) <==> x in s
    ensures forall i, j :: 0 <= i < j < |Distinct(s)| ==> Distinct(s)[i] != Distinct(s)[j]
    decreases |s|
  {
    if |s| > 0 {
      var init := s[..|s| - 1];
      DistinctLaws(init);
      assert s == init + [s[|s| - 1]];
    }
  }

  /** The key of the entry at `i` has it as its value. */
  lemma {:induction false} GetAt<K(!new), V>(d: seq<(K, V)>, i: nat)
    requires UniqueKeys(d) && i < |d|
    ensures Get(d, d[i].0) == Some(d[i].1)
    decreases |d|
  {
    if i > 0 {
      GetAt(d[1..], i - 1);
    }
  }
}
