/**
 * Filling a dictionary from a list in order, where each element either gives a
 * key and a value or is skipped, and a later element with the same key
 * overwrites an earlier one. The rule loader fills `lectures`/`labs`/`exercises`
 * this way, and both directory loaders key rule documents this way.
 */
module KeyedFold {
  import opened Wrappers

  /** `entry(x)` gives key `k`. */
  predicate HasKey<X, K(==), V>(entry: X -> Option<(K, V)>, x: X, k: K) {
    entry(x).Some? && entry(x).value.0 == k
  }

  /** `for x in xs: if entry(x) is (k, v): d[k] = v`, starting from `d`. */
  function Upsert<X, K(==), V>(d: map<K, V>, xs: seq<X>, entry: X -> Option<(K, V)>): map<K, V>
    decreases |xs|
  {
    if xs == [] then d
    else
      var r := Upsert(d, xs[..|xs| - 1], entry);
      match entry(xs[|xs| - 1])
      case None => r
      case Some(kv) => r[kv.0 := kv.1]
  }

  /** One more element is one more step of the fold. */
  lemma UpsertSnoc<X, K, V>(d: map<K, V>, xs: seq<X>, x: X, entry: X -> Option<(K, V)>)
    ensures Upsert(d, xs + [x], entry) ==
      (match entry(x) case None => Upsert(d, xs, entry) case Some(kv) => Upsert(d, xs, entry)[kv.0 := kv.1])
  {
    assert (xs + [x])[..|xs + [x]| - 1] == xs;
  }

  /** The fold over one more element of `xs`, from the fold `r` over the elements before it. */
  lemma UpsertNext<X, K, V>(d: map<K, V>, xs: seq<X>, i: nat, entry: X -> Option<(K, V)>, r: map<K, V>)
    requires i < |xs| && r == Upsert(d, xs[..i], entry)
    ensures Upsert(d, xs[..i + 1], entry) ==
      (match entry(xs[i]) case None => r case Some(kv) => r[kv.0 := kv.1])
  {
    assert xs[..i + 1][..i] == xs[..i];
  }

  /** The keys afterwards are the keys before plus the keys of the elements that were not skipped. */
  lemma {:induction false} UpsertKeys<X, K, V>(d: map<K, V>, xs: seq<X>, entry: X -> Option<(K, V)>, k: K)
    ensures k in Upsert(d, xs, entry) <==> k in d || exists i :: 0 <= i < |xs| && HasKey(entry, xs[i], k)
    decreases |xs|
  {
    if xs != [] {
      var front := xs[..|xs| - 1];
      UpsertKeys(d, front, entry, k);
      if exists i :: 0 <= i < |xs| && HasKey(entry, xs[i], k) {
        var i :| 0 <= i < |xs| && HasKey(entry, xs[i], k);
        if i < |xs| - 1 {
          assert front[i] == xs[i];
        }
      }
      if exists i :: 0 <= i < |front| && HasKey(entry, front[i], k) {
        var i :| 0 <= i < |front| && HasKey(entry, front[i], k);
        assert xs[i] == front[i];
      }
    }
  }

  /** A key that no element gives keeps its value from `d`, or stays absent. */
  lemma {:induction false} UpsertUntouched<X, K, V>(d: map<K, V>, xs: seq<X>, entry: X -> Option<(K, V)>, k: K)
    requires forall i :: 0 <= i < |xs| ==> !HasKey(entry, xs[i], k)
    ensures k in Upsert(d, xs, entry) <==> k in d
    ensures k in d ==> Upsert(d, xs, entry)[k] == d[k]
    decreases |xs|
  {
    if xs != [] {
      var front := xs[..|xs| - 1];
      assert forall i :: 0 <= i < |front| ==> front[i] == xs[i];
      UpsertUntouched(d, front, entry, k);
      assert !HasKey(entry, xs[|xs| - 1], k);
    }
  }

  /** Last wins: the value stored for a key is the one of the last element giving that key. */
  lemma {:induction false} UpsertLastWins<X, K, V>(d: map<K, V>, xs: seq<X>, entry: X -> Option<(K, V)>, i: nat)
    requires i < |xs| && entry(xs[i]).Some?
    requires forall j :: i < j < |xs| ==> !HasKey(entry, xs[j], entry(xs[i]).value.0)
    ensures entry(xs[i]).value.0 in Upsert(d, xs, entry)
    ensures Upsert(d, xs, entry)[entry(xs[i]).value.0] == entry(xs[i]).value.1
    decreases |xs|
  {
    var front := xs[..|xs| - 1];
    if i < |xs| - 1 {
      assert front[i] == xs[i];
      assert forall j :: i < j < |front| ==> front[j] == xs[j];
      UpsertLastWins(d, front, entry, i);
      assert !HasKey(entry, xs[|xs| - 1], entry(xs[i]).value.0);
    }
  }

  /** A property of key-value pairs that holds for `d` and for every pair the elements give holds afterwards. */
  lemma {:induction false} UpsertPreserves<X, K, V>(d: map<K, V>, xs: seq<X>, entry: X -> Option<(K, V)>, p: (K, V) -> bool)
    requires forall k :: k in d ==> p(k, d[k])
    requires forall i :: 0 <= i < |xs| && entry(xs[i]).Some? ==> p(entry(xs[i]).value.0, entry(xs[i]).value.1)
    ensures forall k :: k in Upsert(d, xs, entry) ==> p(k, Upsert(d, xs, entry)[k])
    decreases |xs|
  {
    if xs != [] {
      var front := xs[..|xs| - 1];
      assert forall i :: 0 <= i < |front| ==> front[i] == xs[i];
      UpsertPreserves(d, front, entry, p);
    }
  }
}
