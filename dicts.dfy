/**
 * Python dictionaries as the pipeline uses them: keys kept in insertion order,
 * one value per key, and `d[k] = v` overwriting the value of an existing key
 * without moving it.
 */
module Dicts {

  /** The keys in insertion order and the value stored under each. */
  datatype RawDict<K, V> = RawDict(keys: seq<K>, items: map<K, V>)

  ghost predicate Distinct<T>(s: seq<T>) {
    forall i, j :: 0 <= i < j < |s| ==> s[i] != s[j]
  }

  /** Every key occurs once in the order, and the order lists exactly the stored keys. */
  ghost predicate WellFormed<K, V>(d: RawDict<K, V>) {
    Distinct(d.keys) && d.items.Keys == set k | k in d.keys
  }

  type Dict<K, V> = d: RawDict<K, V> | WellFormed(d) witness RawDict([], map[])

  function Empty<K, V>(): Dict<K, V> {
    RawDict([], map[])
  }

  /** `d[k] = v`: a new key goes last, an existing key keeps its place and takes the new value. */
  function Put<K, V>(d: Dict<K, V>, k: K, v: V): Dict<K, V> {
    if k in d.items then RawDict(d.keys, d.items[k := v])
    else RawDict(d.keys + [k], d.items[k := v])
  }

  /** `d.items()`: the entries in insertion order. */
  function Items<K, V>(d: Dict<K, V>): (ps: seq<(K, V)>)
    ensures |ps| == |d.keys|
    ensures forall k | 0 <= k < |ps| :: ps[k].0 == d.keys[k] && ps[k].0 in d.items && ps[k].1 == d.items[ps[k].0]
    ensures Distinct(Firsts(ps))
    ensures forall key | key in d.items :: key in Firsts(ps)
  {
    var ps := seq(|d.keys|, k requires 0 <= k < |d.keys| => (d.keys[k], d.items[d.keys[k]]));
    assert Firsts(ps) == d.keys;
    ps
  }

  /** The elements of `s` in the order of their first occurrence. */
  function FirstOccurrences<T(==)>(s: seq<T>): (r: seq<T>)
    ensures Distinct(r)
    ensures forall x | x in r :: x in s
    ensures forall x | x in s :: x in r
    decreases |s|
  {
    if s == [] then []
    else
      var p := FirstOccurrences(s[..|s| - 1]);
      assert forall x | x in s :: x in s[..|s| - 1] || x == s[|s| - 1];
      if s[|s| - 1] in p then p else p + [s[|s| - 1]]
  }

  function Firsts<K, V>(ps: seq<(K, V)>): (ks: seq<K>)
    ensures |ks| == |ps|
  {
    seq(|ps|, i requires 0 <= i < |ps| => ps[i].0)
  }

  /** `dict(ps)`: the pairs assigned one after the other to an empty dict. */
  function FromPairs<K, V>(ps: seq<(K, V)>): Dict<K, V>
    decreases |ps|
  {
    if ps == [] then Empty()
    else Put(FromPairs(ps[..|ps| - 1]), ps[|ps| - 1].0, ps[|ps| - 1].1)
  }

  /** The keys of `dict(ps)` are the assigned keys, in the order of their first assignment. */
  lemma {:induction false} FromPairsKeyOrder<K, V>(ps: seq<(K, V)>)
    ensures FromPairs(ps).keys == FirstOccurrences(Firsts(ps))
    decreases |ps|
  {
    if ps != [] {
      var init := ps[..|ps| - 1];
      FromPairsKeyOrder(init);
      assert Firsts(init) == Firsts(ps)[..|ps| - 1];
    }
  }

  /** A key is stored in `dict(ps)` exactly when some pair assigns it. */
  lemma {:induction false} FromPairsKeySet<K, V>(ps: seq<(K, V)>)
    ensures FromPairs(ps).items.Keys == set i | 0 <= i < |ps| :: ps[i].0
    decreases |ps|
  {
    if ps != [] {
      var init := ps[..|ps| - 1];
      FromPairsKeySet(init);
      assert (set i | 0 <= i < |ps| :: ps[i].0) == (set i | 0 <= i < |init| :: init[i].0) + {ps[|ps| - 1].0};
    }
  }

  /** Building from one more pair is one more assignment. */
  lemma FromPairsStep<K, V>(ps: seq<(K, V)>, i: nat)
    requires i < |ps|
    ensures FromPairs(ps[..i + 1]) == Put(FromPairs(ps[..i]), ps[i].0, ps[i].1)
  {
    assert ps[..i + 1][..i] == ps[..i];
  }

  /** Assigning to a dict whose keys are the first occurrences of `ks` keeps that correspondence. */
  lemma PutFirstOccurrences<K, V>(d: Dict<K, V>, ks: seq<K>, k: K, v: V)
    requires d.keys == FirstOccurrences(ks)
    ensures Put(d, k, v).keys == FirstOccurrences(ks + [k])
  {
    assert (ks + [k])[..|ks|] == ks;
  }

  /** When a key is assigned several times, the value of its last assignment is the one kept. */
  lemma {:induction false} FromPairsLastWins<K, V>(ps: seq<(K, V)>, i: nat)
    requires i < |ps|
    requires forall j | i < j < |ps| :: ps[j].0 != ps[i].0
    ensures ps[i].0 in FromPairs(ps).items
    ensures FromPairs(ps).items[ps[i].0] == ps[i].1
  {
    if i < |ps| - 1 {
      var init := ps[..|ps| - 1];
      FromPairsLastWins(init, i);
    }
  }

  lemma PrefixStep<T>(s: seq<T>, m: nat)
    requires m < |s|
    ensures s[..m + 1] == s[..m] + [s[m]]
  {
  }

  /** The first `n` entries of `d.items()` rebuild the first `n` keys of `d`, with their values. */
  lemma {:induction false} ItemsPrefix<K, V>(d: Dict<K, V>, n: nat)
    requires n <= |d.keys|
    ensures FromPairs(Items(d)[..n]).keys == d.keys[..n]
    ensures forall k | k in FromPairs(Items(d)[..n]).items :: k in d.items && FromPairs(Items(d)[..n]).items[k] == d.items[k]
  {
    if n > 0 {
      var m := n - 1;
      var ps := Items(d);
      ItemsPrefix(d, m);
      FromPairsStep(ps, m);
      var key := d.keys[m];
      var before := FromPairs(ps[..m]);
      assert key !in d.keys[..m];
      assert key !in before.items;
      assert ps[m].0 == key && ps[m].1 == d.items[key];
      var after := FromPairs(ps[..n]);
      assert after.keys == before.keys + [key];
      assert after.items == before.items[key := d.items[key]];
      PrefixStep(d.keys, m);
    }
  }

  /** `dict(d.items())` is `d` again: same keys, same order, same values. */
  lemma ItemsRoundTrip<K, V>(d: Dict<K, V>)
    ensures FromPairs(Items(d)) == d
  {
    var n := |d.keys|;
    ItemsPrefix(d, n);
    assert Items(d)[..n] == Items(d);
    assert d.keys[..n] == d.keys;
    var e := FromPairs(Items(d));
    assert e.items.Keys == d.items.Keys;
    assert e.items == d.items;
  }

  /** `d[k] = f(k)` for each `k` of `ks` in turn, starting from an empty dict. */
  function Tabulate<K, V>(ks: seq<K>, f: K -> V): Dict<K, V>
    decreases |ks|
  {
    if ks == [] then Empty()
    else Put(Tabulate(ks[..|ks| - 1], f), ks[|ks| - 1], f(ks[|ks| - 1]))
  }

  lemma TabulateStep<K, V>(ks: seq<K>, f: K -> V, i: nat)
    requires i < |ks|
    ensures Tabulate(ks[..i + 1], f) == Put(Tabulate(ks[..i], f), ks[i], f(ks[i]))
  {
    assert ks[..i + 1][..i] == ks[..i];
  }

  /** The keys are those of `ks`, each once, in the order of first occurrence. */
  lemma {:induction false} TabulateKeys<K, V>(ks: seq<K>, f: K -> V)
    ensures Tabulate(ks, f).keys == FirstOccurrences(ks)
    ensures Tabulate(ks, f).items.Keys == set k | k in ks
    decreases |ks|
  {
    if ks != [] {
      var n := |ks| - 1;
      TabulateKeys(ks[..n], f);
      PutFirstOccurrences(Tabulate(ks[..n], f), ks[..n], ks[n], f(ks[n]));
      assert ks == ks[..n] + [ks[n]];
    }
  }

  /** Every stored value is `f` of its key, whatever the repetitions in `ks`. */
  lemma {:induction false} TabulateValues<K, V>(ks: seq<K>, f: K -> V)
    ensures forall k | k in Tabulate(ks, f).items :: Tabulate(ks, f).items[k] == f(k)
    decreases |ks|
  {
    if ks != [] {
      TabulateValues(ks[..|ks| - 1], f);
    }
  }
}
