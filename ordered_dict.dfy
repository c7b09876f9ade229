/** Python's `dict`: key/value entries in insertion order, each key at most
    once. Assigning to a present key overwrites its value where it stands;
    assigning to a new key appends it. Result rows and the schema map are
    built this way. */
module OrderedDict {
  import opened Outcomes

  type Dict<K, V> = seq<(K, V)>

  /** `list(d.keys())`. */
  function Keys<K, V>(d: Dict<K, V>): (ks: seq<K>)
    ensures |ks| == |d| && forall i | 0 <= i < |d| :: ks[i] == d[i].0
  {
    seq(|d|, i requires 0 <= i < |d| => d[i].0)
  }

  predicate Distinct<K(==)>(ks: seq<K>) {
    forall i, j | 0 <= i < j < |ks| :: ks[i] != ks[j]
  }

  /** The position of key `k` in `d`, if present. */
  function Find<K(==), V>(d: Dict<K, V>, k: K): (r: Option<nat>)
    ensures r.Some? ==> r.value < |d| && d[r.value].0 == k
    ensures r.Some? ==> forall j | 0 <= j < r.value :: d[j].0 != k
    ensures r.None? ==> forall j | 0 <= j < |d| :: d[j].0 != k
    ensures r.Some? <==> k in Keys(d)
    decreases |d|
  {
    if d == [] then None
    else if d[0].0 == k then Some(0)
    else
      match Find(d[1..], k)
      case None => None
      case Some(i) => Some(i + 1)
  }

  /** `d.get(k)`. */
  function Get<K(==), V>(d: Dict<K, V>, k: K): Option<V> {
    match Find(d, k)
    case None => None
    case Some(i) => Some(d[i].1)
  }

  /** `d[k] = v`. */
  function Set<K(==), V>(d: Dict<K, V>, k: K, v: V): Dict<K, V> {
    match Find(d, k)
    case None => d + [(k, v)]
    case Some(i) => d[i := (k, v)]
  }

  /** After `d[k] = v` the keys stay distinct and their order only grows,
      by `k` at the end when `k` is new. */
  lemma SetKeys<K, V>(d: Dict<K, V>, k: K, v: V)
    requires Distinct(Keys(d))
    ensures Distinct(Keys(Set(d, k, v)))
    ensures Keys(Set(d, k, v)) == if k in Keys(d) then Keys(d) else Keys(d) + [k]
  {
    var r := Set(d, k, v);
    match Find(d, k)
    case None =>
      assert Keys(r) == Keys(d) + [k];
    case Some(i) =>
      assert Keys(r) == Keys(d);
  }

  /** After `d[k] = v`, `k` maps to `v` and every other key keeps its
      value. */
  lemma SetGet<K, V>(d: Dict<K, V>, k: K, v: V, other: K)
    requires Distinct(Keys(d))
    ensures Get(Set(d, k, v), k) == Some(v)
    ensures other != k ==> Get(Set(d, k, v), other) == Get(d, other)
  {
    var r := Set(d, k, v);
    SetKeys(d, k, v);
    match Find(d, k)
    case None =>
      FindDistinct(r, k, |d|);
      if other != k {
        match Find(d, other)
        case None =>
        case Some(j) => FindDistinct(r, other, j);
      }
    case Some(i) =>
      FindDistinct(r, k, i);
      if other != k {
        match Find(d, other)
        case None =>
        case Some(j) => FindDistinct(r, other, j);
      }
  }

  /** In a dictionary with distinct keys, a key is found where it stands. */
  lemma {:induction false} FindDistinct<K, V>(d: Dict<K, V>, k: K, i: nat)
    requires Distinct(Keys(d)) && i < |d| && d[i].0 == k
    ensures Find(d, k) == Some(i)
    decreases |d|
  {
    if i > 0 {
      assert d[0].0 != k by { assert Keys(d)[0] != Keys(d)[i]; }
      assert Keys(d[1..]) == Keys(d)[1..];
      FindDistinct(d[1..], k, i - 1);
    }
  }

  /** `dict(pairs)`: the pairs assigned one after another. */
  function FromPairs<K(==), V>(pairs: seq<(K, V)>): Dict<K, V>
    decreases |pairs|
  {
    if pairs == [] then []
    else
      var last := pairs[|pairs| - 1];
      Set(FromPairs(pairs[..|pairs| - 1]), last.0, last.1)
  }

  /** The keys in order of first occurrence, each once. */
  function Dedup<K(==)>(ks: seq<K>): seq<K>
    decreases |ks|
  {
    if ks == [] then []
    else
      var x := ks[|ks| - 1];
      if x in ks[..|ks| - 1] then Dedup(ks[..|ks| - 1]) else Dedup(ks[..|ks| - 1]) + [x]
  }

  /** The value of the last pair with key `k`. */
  function LastValue<K(==), V>(pairs: seq<(K, V)>, k: K): Option<V>
    decreases |pairs|
  {
    if pairs == [] then None
    else if pairs[|pairs| - 1].0 == k then Some(pairs[|pairs| - 1].1)
    else LastValue(pairs[..|pairs| - 1], k)
  }

  /** `Dedup` keeps exactly the elements it is given. */
  lemma {:induction false} DedupMembers<K>(ks: seq<K>, x: K)
    ensures x in Dedup(ks) <==> x in ks
    decreases |ks|
  {
    if ks != [] {
      var n := |ks| - 1;
      DedupMembers(ks[..n], x);
      assert ks == ks[..n] + [ks[n]];
    }
  }

  lemma KeysPrefix<K, V>(d: Dict<K, V>, n: nat)
    requires n < |d|
    ensures Keys(d[..n]) == Keys(d)[..n] && Keys(d)[n] == d[n].0
  {
  }

  /** `dict(pairs)` keeps each key once, in order of first occurrence. */
  lemma {:induction false} FromPairsKeys<K, V>(pairs: seq<(K, V)>)
    ensures Distinct(Keys(FromPairs(pairs)))
    ensures Keys(FromPairs(pairs)) == Dedup(Keys(pairs))
    decreases |pairs|
  {
    if pairs != [] {
      var n := |pairs| - 1;
      var init := pairs[..n];
      var last := pairs[n];
      var d := FromPairs(init);
      FromPairsKeys(init);
      SetKeys(d, last.0, last.1);
      assert FromPairs(pairs) == Set(d, last.0, last.1);
      var ks := Keys(pairs);
      assert Dedup(ks) == Keys(Set(d, last.0, last.1)) by {
        KeysPrefix(pairs, n);
        DedupMembers(Keys(init), last.0);
        assert Dedup(ks) == if last.0 in Keys(init) then Dedup(Keys(init)) else Dedup(Keys(init)) + [last.0];
      }
    }
  }

  /** `dict(pairs)` maps each key to the value of its LAST pair. */
  lemma {:induction false} FromPairsGet<K, V>(pairs: seq<(K, V)>, k: K)
    ensures Get(FromPairs(pairs), k) == LastValue(pairs, k)
    decreases |pairs|
  {
    if pairs != [] {
      var n := |pairs| - 1;
      var init := pairs[..n];
      var last := pairs[n];
      FromPairsGet(init, k);
      FromPairsKeys(init);
      SetGet(FromPairs(init), last.0, last.1, k);
    }
  }

  /** `dict(pairs)` keeps each key once, in order of first occurrence, and
      maps it to the value of its LAST pair. */
  lemma FromPairsProperties<K, V>(pairs: seq<(K, V)>, k: K)
    ensures Distinct(Keys(FromPairs(pairs)))
    ensures Keys(FromPairs(pairs)) == Dedup(Keys(pairs))
    ensures Get(FromPairs(pairs), k) == LastValue(pairs, k)
  {
    FromPairsKeys(pairs);
    FromPairsGet(pairs, k);
  }
}
