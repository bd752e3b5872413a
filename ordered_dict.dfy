/**
 * Python dictionaries whose insertion order is observable (iteration, dict
 * literals returned to callers, `collections.Counter`), as association lists:
 * a new key goes to the end, assigning to an existing key keeps its place.
 */
module OrderedDict {
  import opened Wrappers

  type Dict<K, V> = seq<(K, V)>

  predicate DistinctKeys<K(==), V>(d: Dict<K, V>) {
    forall i, j :: 0 <= i < j < |d| ==> d[i].0 != d[j].0
  }

  function Keys<K, V>(d: Dict<K, V>): (ks: seq<K>)
    ensures |ks| == |d| && forall i :: 0 <= i < |d| ==> ks[i] == d[i].0
  {
    seq(|d|, i requires 0 <= i < |d| => d[i].0)
  }

  /** The position of the first entry with key `k`. */
  function FindKey<K(==), V>(d: Dict<K, V>, k: K): (r: Option<nat>)
    ensures r.None? <==> k !in Keys(d)
    ensures r.Some? ==> r.value < |d| && d[r.value].0 == k && forall j :: 0 <= j < r.value ==> d[j].0 != k
  {
    if |d| == 0 then None
    else if d[0].0 == k then Some(0)
    else
      assert Keys(d) == [d[0].0] + Keys(d[1..]);
      match FindKey(d[1..], k)
      case None => None
      case Some(i) => Some(i + 1)
  }

  /** `d.get(k)`: the value of the first entry with key `k`. */
  function Get<K(==), V>(d: Dict<K, V>, k: K): (r: Option<V>)
    ensures r.None? <==> k !in Keys(d)
    ensures r.Some? ==> exists i :: 0 <= i < |d| && d[i] == (k, r.value)
  {
    match FindKey(d, k)
    case Some(i) => Some(d[i].1)
    case None => None
  }

  /** The first position holding key `k` is what `FindKey` finds. */
  lemma FindKeyFirst<K, V>(d: Dict<K, V>, k: K, i: nat)
    requires i < |d| && d[i].0 == k && forall j :: 0 <= j < i ==> d[j].0 != k
    ensures FindKey(d, k) == Some(i)
  {
    assert k in Keys(d) by { assert Keys(d)[i] == k; }
  }

  /** `d[k] = v`: an existing key keeps its place, a new one goes to the end. */
  function Put<K(==), V>(d: Dict<K, V>, k: K, v: V): (r: Dict<K, V>)
    ensures k in Keys(d) ==> exists i :: 0 <= i < |d| && d[i].0 == k && r == d[i := (k, v)]
    ensures k !in Keys(d) ==> r == d + [(k, v)]
  {
    match FindKey(d, k)
    case Some(i) => d[i := (k, v)]
    case None => d + [(k, v)]
  }

  /** With distinct keys, the entry at any position is what `Get` finds for its key. */
  lemma GetDistinct<K, V>(d: Dict<K, V>, i: nat)
    requires DistinctKeys(d) && i < |d|
    ensures Get(d, d[i].0) == Some(d[i].1)
  {
    FindKeyFirst(d, d[i].0, i);
  }

  lemma PutGet<K, V>(d: Dict<K, V>, k: K, v: V, k': K)
    ensures Get(Put(d, k, v), k') == if k' == k then Some(v) else Get(d, k')
  {
    var r := Put(d, k, v);
    var at := match FindKey(d, k) case Some(i) => i case None => |d|;
    assert |r| == |d| || |r| == |d| + 1;
    assert forall j :: 0 <= j < |d| && j != at ==> r[j] == d[j];
    assert at < |r| && r[at] == (k, v);
    assert forall j :: 0 <= j < |d| ==> r[j].0 == d[j].0;
    if k' == k {
      FindKeyFirst(r, k, at);
    } else {
      match FindKey(d, k')
      case Some(x) =>
        FindKeyFirst(r, k', x);
      case None =>
        assert forall j :: 0 <= j < |r| ==> r[j].0 != k' by {
          forall j | 0 <= j < |r| ensures r[j].0 != k' {
            if j < |d| { assert Keys(d)[j] == d[j].0; }
          }
        }
        assert k' !in Keys(r);
    }
  }

  /** `PutGet` for every key at once. */
  lemma PutGetAll<K, V>(d: Dict<K, V>, k: K, v: V)
    ensures forall k' :: Get(Put(d, k, v), k') == if k' == k then Some(v) else Get(d, k')
  {
    forall k' ensures Get(Put(d, k, v), k') == if k' == k then Some(v) else Get(d, k') {
      PutGet(d, k, v, k');
    }
  }

  lemma {:induction false} PutKeys<K, V>(d: Dict<K, V>, k: K, v: V)
    ensures Keys(Put(d, k, v)) == if k in Keys(d) then Keys(d) else Keys(d) + [k]
  {
    if |d| > 0 {
      assert Keys(d) == [d[0].0] + Keys(d[1..]);
      if d[0].0 != k {
        PutKeys(d[1..], k, v);
        assert Keys(Put(d, k, v)) == [d[0].0] + Keys(Put(d[1..], k, v));
      } else {
        assert Keys(Put(d, k, v)) == [k] + Keys(d[1..]);
      }
    }
  }

  lemma PutDistinct<K, V>(d: Dict<K, V>, k: K, v: V)
    requires DistinctKeys(d)
    ensures DistinctKeys(Put(d, k, v))
  {
    PutKeys(d, k, v);
    var r := Put(d, k, v);
    assert Keys(r) == if k in Keys(d) then Keys(d) else Keys(d) + [k];
    forall i, j | 0 <= i < j < |r| ensures r[i].0 != r[j].0 {
      assert Keys(r)[i] == r[i].0 && Keys(r)[j] == r[j].0;
    }
  }

  // ---------------------------------------------------------------------
  // Counters
  // ---------------------------------------------------------------------

  /** The sum of the values, `sum(d.values())`. */
  function Total<K>(d: Dict<K, nat>): nat {
    if |d| == 0 then 0 else d[0].1 + Total(d[1..])
  }

  /** `d[k] = d.get(k, 0) + 1`. */
  function Increment<K(==)>(d: Dict<K, nat>, k: K): Dict<K, nat> {
    Put(d, k, Get(d, k).GetOr(0) + 1)
  }

  /** Incrementing one key raises the total by exactly one. */
  lemma {:induction false} IncrementTotal<K>(d: Dict<K, nat>, k: K)
    requires DistinctKeys(d)
    ensures Total(Increment(d, k)) == Total(d) + 1
  {
    if |d| > 0 {
      if d[0].0 == k {
        assert Increment(d, k) == [(k, d[0].1 + 1)] + d[1..];
        assert Total(Increment(d, k)) == d[0].1 + 1 + Total(d[1..]);
      } else {
        assert Get(d, k) == Get(d[1..], k);
        assert Increment(d, k) == [d[0]] + Increment(d[1..], k);
        IncrementTotal(d[1..], k);
      }
    }
  }

  /** How often `x` occurs in `xs`. */
  function Occurrences<K(==)>(xs: seq<K>, x: K): nat {
    if |xs| == 0 then 0 else Occurrences(xs[..|xs| - 1], x) + (if xs[|xs| - 1] == x then 1 else 0)
  }

  /** An item that occurs nowhere is counted 0 times. */
  lemma {:induction false} OccurrencesAbsent<K>(xs: seq<K>, x: K)
    requires forall i :: 0 <= i < |xs| ==> xs[i] != x
    ensures Occurrences(xs, x) == 0
  {
    if |xs| > 0 {
      OccurrencesAbsent(xs[..|xs| - 1], x);
    }
  }

  /** An item at some index is counted at least once. */
  lemma {:induction false} OccurrencesPresent<K>(xs: seq<K>, i: nat)
    requires i < |xs|
    ensures Occurrences(xs, xs[i]) > 0
  {
    if i < |xs| - 1 {
      OccurrencesPresent(xs[..|xs| - 1], i);
    }
  }

  /** `collections.Counter(xs)`: keys in order of first occurrence. */
  function CountAll<K(==)>(xs: seq<K>): (c: Dict<K, nat>)
    ensures DistinctKeys(c)
  {
    if |xs| == 0 then [] else
      var c := CountAll(xs[..|xs| - 1]);
      PutDistinct(c, xs[|xs| - 1], Get(c, xs[|xs| - 1]).GetOr(0) + 1);
      Increment(c, xs[|xs| - 1])
  }

  /** A counter's entry for `x` is the number of occurrences of `x` (0 when absent). */
  lemma {:induction false} CountAllGet<K>(xs: seq<K>, x: K)
    ensures Get(CountAll(xs), x).GetOr(0) == Occurrences(xs, x)
  {
    if |xs| > 0 {
      var y := xs[|xs| - 1];
      var c := CountAll(xs[..|xs| - 1]);
      assert CountAll(xs) == Put(c, y, Get(c, y).GetOr(0) + 1);
      CountAllGet(xs[..|xs| - 1], x);
      PutGet(c, y, Get(c, y).GetOr(0) + 1, x);
      assert Occurrences(xs, x) == Occurrences(xs[..|xs| - 1], x) + (if y == x then 1 else 0);
    }
  }

  /** The counts of a counter add up to the number of items counted. */
  lemma {:induction false} CountAllTotal<K>(xs: seq<K>)
    ensures Total(CountAll(xs)) == |xs|
  {
    if |xs| > 0 {
      CountAllTotal(xs[..|xs| - 1]);
      IncrementTotal(CountAll(xs[..|xs| - 1]), xs[|xs| - 1]);
    }
  }
}
