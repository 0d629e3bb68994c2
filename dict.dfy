/**
 * Python dictionaries as the scripts use them: insertion-ordered association
 * lists. `Set` is `d[k] = v` (the value of an existing key is replaced where it
 * stands, a new key goes to the end) and `Get` is `d.get(k)`.
 */
module Dict {
  import opened Wrappers

  type Dict<K, V> = seq<(K, V)>

  /** The keys in insertion order (`list(d.keys())`). */
  function Keys<K, V>(d: Dict<K, V>): (ks: seq<K>)
    ensures |ks| == |d|
    ensures forall i :: 0 <= i < |d| ==> ks[i] == d[i].0
  {
    if d == [] then [] else [d[0].0] + Keys(d[1..])
  }

  /** `k in d`. */
  predicate HasKey<K(==), V>(d: Dict<K, V>, k: K) {
    k in Keys(d)
  }

  /** Every key occurs once, as in a real Python dictionary. */
  predicate DistinctKeys<K(==), V>(d: Dict<K, V>) {
    forall i, j :: 0 <= i < j < |d| ==> d[i].0 != d[j].0
  }

  /** `d.get(k)`. */
  function Get<K(==), V>(d: Dict<K, V>, k: K): (r: Option<V>)
    ensures r.Some? <==> HasKey(d, k)
  {
    if d == [] then None
    else if d[0].0 == k then Some(d[0].1)
    else Get(d[1..], k)
  }

  /** `d[k] = v`. */
  function Set<K(==), V>(d: Dict<K, V>, k: K, v: V): (r: Dict<K, V>)
    ensures Keys(r) == if HasKey(d, k) then Keys(d) else Keys(d) + [k]
  {
    if d == [] then [(k, v)]
    else if d[0].0 == k then [(k, v)] + d[1..]
    else [d[0]] + Set(d[1..], k, v)
  }

  /** After `d[k] = v`, looking `k` up gives `v` and every other key is looked up as before. */
  lemma {:induction false} GetSet<K, V>(d: Dict<K, V>, k: K, v: V, k': K)
    ensures Get(Set(d, k, v), k') == if k' == k then Some(v) else Get(d, k')
  {
    if d != [] && d[0].0 != k {
      GetSet(d[1..], k, v, k');
    }
  }

  /** `d[k] = v` keeps the keys distinct. */
  lemma SetDistinct<K, V>(d: Dict<K, V>, k: K, v: V)
    requires DistinctKeys(d)
    ensures DistinctKeys(Set(d, k, v))
  {
    var r := Set(d, k, v);
    assert Keys(r) == if HasKey(d, k) then Keys(d) else Keys(d) + [k];
    forall i, j | 0 <= i < j < |r| ensures r[i].0 != r[j].0 {
      assert r[i].0 == Keys(r)[i] && r[j].0 == Keys(r)[j];
    }
  }

  /** A new key is appended at the end. */
  lemma {:induction false} SetNewKey<K, V>(d: Dict<K, V>, k: K, v: V)
    requires !HasKey(d, k)
    ensures Set(d, k, v) == d + [(k, v)]
  {
    if d != [] {
      HasKeyTail(d, k);
      SetNewKey(d[1..], k, v);
      assert Set(d, k, v) == [d[0]] + (d[1..] + [(k, v)]);
      assert d == [d[0]] + d[1..];
    }
  }

  /** `k in d` for a non-empty `d`: `k` is the first key or a key of the rest. */
  lemma HasKeyTail<K, V>(d: Dict<K, V>, k: K)
    requires d != []
    ensures HasKey(d, k) <==> d[0].0 == k || HasKey(d[1..], k)
  {
    assert Keys(d) == [d[0].0] + Keys(d[1..]);
  }

  /** Storing the same value twice under the same key is storing it once. */
  lemma {:induction false} SetTwice<K, V>(d: Dict<K, V>, k: K, v: V)
    ensures Set(Set(d, k, v), k, v) == Set(d, k, v)
  {
    if d != [] && d[0].0 != k {
      SetTwice(d[1..], k, v);
      assert Set(d, k, v)[1..] == Set(d[1..], k, v);
    }
  }

  /** Every value stored after `d[k] = v` is `v` or was already stored in `d`. */
  lemma SetValues<K, V>(d: Dict<K, V>, k: K, v: V, i: int)
    requires 0 <= i < |Set(d, k, v)|
    ensures Set(d, k, v)[i].1 == v || exists j :: 0 <= j < |d| && Set(d, k, v)[i] == d[j]
  {
    SetEntries(d, k, v, i);
    if Set(d, k, v)[i] != (k, v) {
      var j :| 0 <= j < |d| && d[j] == Set(d, k, v)[i];
    }
  }

  /** `d.pop(k)` without the returned value: the entry for `k` is removed, the others keep their order. */
  function Remove<K(==), V>(d: Dict<K, V>, k: K): (r: Dict<K, V>)
    ensures |r| <= |d|
  {
    if d == [] then []
    else if d[0].0 == k then d[1..]
    else [d[0]] + Remove(d[1..], k)
  }

  /** `dict(pairs)` or a dict comprehension: the pairs inserted one after another. */
  function FromPairs<K(==), V>(ps: seq<(K, V)>): (d: Dict<K, V>)
  {
    if ps == [] then [] else Set(FromPairs(ps[..|ps| - 1]), ps[|ps| - 1].0, ps[|ps| - 1].1)
  }

  /** Building a dict yields distinct keys. */
  lemma {:induction false} FromPairsDistinct<K, V>(ps: seq<(K, V)>)
    ensures DistinctKeys(FromPairs(ps))
  {
    if ps != [] {
      FromPairsDistinct(ps[..|ps| - 1]);
      SetDistinct(FromPairs(ps[..|ps| - 1]), ps[|ps| - 1].0, ps[|ps| - 1].1);
    }
  }

  /** Every entry of a built dict is one of the pairs it was built from. */
  lemma {:induction false} FromPairsEntries<K, V>(ps: seq<(K, V)>)
    ensures forall e :: e in FromPairs(ps) ==> e in ps
  {
    if ps != [] {
      var init := ps[..|ps| - 1];
      var (k, v) := ps[|ps| - 1];
      FromPairsEntries(init);
      forall e | e in FromPairs(ps) ensures e in ps {
        var i :| 0 <= i < |Set(FromPairs(init), k, v)| && Set(FromPairs(init), k, v)[i] == e;
        SetEntries(FromPairs(init), k, v, i);
        if e != (k, v) {
          assert e in FromPairs(init);
          assert e in init;
        }
      }
    }
  }

  /** Every entry after `d[k] = v` is `(k, v)` or an entry of `d`. */
  lemma {:induction false} SetEntries<K, V>(d: Dict<K, V>, k: K, v: V, i: int)
    requires 0 <= i < |Set(d, k, v)|
    ensures Set(d, k, v)[i] == (k, v) || Set(d, k, v)[i] in d
  {
    if d != [] && d[0].0 != k && i > 0 {
      SetEntries(d[1..], k, v, i - 1);
    }
  }

  /** The keys of a built dict are exactly the keys of its pairs. */
  lemma {:induction false} FromPairsKeys<K, V>(ps: seq<(K, V)>, k: K)
    ensures HasKey(FromPairs(ps), k) <==> exists i :: 0 <= i < |ps| && ps[i].0 == k
  {
    if ps != [] {
      var init := ps[..|ps| - 1];
      var last := ps[|ps| - 1];
      FromPairsKeys(init, k);
      SetHasKey(FromPairs(init), last.0, last.1, k);
      if exists i :: 0 <= i < |ps| && ps[i].0 == k {
        var i :| 0 <= i < |ps| && ps[i].0 == k;
        if i < |ps| - 1 {
          assert init[i].0 == k;
        }
      }
      if exists i :: 0 <= i < |init| && init[i].0 == k {
        var i :| 0 <= i < |init| && init[i].0 == k;
        assert ps[i].0 == k;
      }
    }
  }

  /** After `d[k] = v` the keys are those of `d` and `k`. */
  lemma SetHasKey<K, V>(d: Dict<K, V>, k: K, v: V, k': K)
    ensures HasKey(Set(d, k, v), k') <==> HasKey(d, k') || k' == k
  {
    if !HasKey(d, k) {
      assert Keys(Set(d, k, v)) == Keys(d) + [k];
    }
  }

  /** Pairs whose keys are already distinct build the dict that lists them in order. */
  lemma {:induction false} FromDistinctPairs<K, V>(ps: seq<(K, V)>)
    requires DistinctKeys(ps)
    ensures FromPairs(ps) == ps
  {
    if ps != [] {
      var init := ps[..|ps| - 1];
      FromDistinctPairs(init);
      var k := ps[|ps| - 1].0;
      forall i | 0 <= i < |init| ensures Keys(init)[i] != k {
        assert ps[i].0 != ps[|ps| - 1].0;
      }
      SetNewKey(init, k, ps[|ps| - 1].1);
      assert init + [ps[|ps| - 1]] == ps;
    }
  }
}
