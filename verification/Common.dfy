/**
  Vocabulary shared by the whole model: bytes, optional values, byte strings
  read as numbers, and the two sums the accounting arguments rest on.
  */
module Common {

  type byte = x: int | 0 <= x < 256

  type Bytes = seq<byte>

  datatype Option<+T> = None | Some(value: T)

  datatype Result<+T, +E> = Ok(value: T) | Err(error: E)

  function Min(a: int, b: int): int { if a <= b then a else b }

  /** Index of the first element that `good` accepts. */
  function FindFirst<T>(xs: seq<T>, good: T -> bool): (r: Option<nat>)
    ensures r.Some? ==> r.value < |xs| && good(xs[r.value]) && forall i :: 0 <= i < r.value ==> !good(xs[i])
    ensures r.None? ==> forall i :: 0 <= i < |xs| ==> !good(xs[i])
  {
    if xs == [] then None
    else if good(xs[0]) then Some(0)
    else match FindFirst(xs[1..], good)
      case None => assert forall i :: 0 < i < |xs| ==> xs[i] == xs[1..][i - 1]; None
      case Some(i) => assert forall k :: 0 < k <= i + 1 ==> xs[k] == xs[1..][k - 1]; Some(i + 1)
  }

  /** The concatenation of a list of byte strings. */
  function Concat(parts: seq<Bytes>): Bytes {
    if parts == [] then [] else parts[0] + Concat(parts[1..])
  }

  lemma {:induction false} ConcatAppend(a: seq<Bytes>, b: seq<Bytes>)
    ensures Concat(a + b) == Concat(a) + Concat(b)
  {
    if a == [] {
      assert a + b == b;
    } else {
      assert (a + b)[1..] == a[1..] + b;
      ConcatAppend(a[1..], b);
      assert a[0] + (Concat(a[1..]) + Concat(b)) == (a[0] + Concat(a[1..])) + Concat(b);
    }
  }

  lemma ConcatOne(part: Bytes)
    ensures Concat([part]) == part
  {
    assert Concat([part]) == part + Concat([]);
  }

  /** Sum of the values of a map: bytes held by a set of requests. */
  ghost function Sum<K>(m: map<K, nat>): nat
    decreases |m|
  {
    if m == map[] then 0 else
      var k :| k in m;
      m[k] + Sum(m - {k})
  }

  lemma SumOfNothing<K>()
    ensures Sum<K>(map[]) == 0
  {
  }

  lemma {:induction false} SumRemove<K>(m: map<K, nat>, k: K)
    requires k in m
    ensures Sum(m) == m[k] + Sum(m - {k})
    decreases |m|
  {
    var j :| j in m && Sum(m) == m[j] + Sum(m - {j});
    if j != k {
      SumRemove(m - {j}, k);
      SumRemove(m - {k}, j);
      assert m - {j} - {k} == m - {k} - {j};
    }
  }

  lemma SumInsert<K>(m: map<K, nat>, k: K, v: nat)
    requires k !in m
    ensures Sum(m[k := v]) == Sum(m) + v
    ensures |m[k := v]| == |m| + 1
  {
    SumRemove(m[k := v], k);
    assert m[k := v] - {k} == m;
    assert m[k := v].Keys == m.Keys + {k};
  }

  lemma SumUpdate<K>(m: map<K, nat>, k: K, v: nat)
    requires k in m
    ensures Sum(m[k := v]) == Sum(m) - m[k] + v
  {
    SumRemove(m, k);
    SumRemove(m[k := v], k);
    assert m[k := v] - {k} == m - {k};
  }

  lemma SizeRemove<K, V>(m: map<K, V>, k: K)
    requires k in m
    ensures |m - {k}| == |m| - 1
  {
    assert (m - {k}).Keys == m.Keys - {k};
  }
}
