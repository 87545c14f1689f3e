// A map over strings that iterates in insertion order: writing an existing key keeps its
// position, a new key goes last. Held as the sequence of its entries.
module InsertionMap {
  import opened Prelude

  function KeySet<V(!new)>(m: seq<(string, V)>): set<string> {
    if m == [] then {} else {m[0].0} + KeySet(m[1..])
  }

  predicate Unique<V(!new)>(m: seq<(string, V)>) {
    m == [] || (m[0].0 !in KeySet(m[1..]) && Unique(m[1..]))
  }

  function Keys<V(!new)>(m: seq<(string, V)>): (r: seq<string>)
    ensures |r| == |m|
  {
    if m == [] then [] else [m[0].0] + Keys(m[1..])
  }

  function Find<V(!new)>(m: seq<(string, V)>, k: string): (r: Option<V>)
    ensures r.Some? <==> k in KeySet(m)
  {
    if m == [] then None else if m[0].0 == k then Some(m[0].1) else Find(m[1..], k)
  }

  function Put<V(!new)>(m: seq<(string, V)>, k: string, v: V): (r: seq<(string, V)>)
    ensures KeySet(r) == KeySet(m) + {k}
    ensures Find(r, k) == Some(v)
    ensures Unique(m) ==> Unique(r)
  {
    if m == [] then [(k, v)]
    else if m[0].0 == k then [(k, v)] + m[1..]
    else [m[0]] + Put(m[1..], k, v)
  }

  function Remove<V(!new)>(m: seq<(string, V)>, k: string): (r: seq<(string, V)>)
    ensures KeySet(r) <= KeySet(m)
    ensures Unique(m) ==> Unique(r) && KeySet(r) == KeySet(m) - {k}
  {
    if m == [] then []
    else if m[0].0 == k then m[1..]
    else [m[0]] + Remove(m[1..], k)
  }

  /** Writing a new key puts it last. */
  lemma {:induction false} PutAbsent<V(!new)>(m: seq<(string, V)>, k: string, v: V)
    requires k !in KeySet(m)
    ensures Put(m, k, v) == m + [(k, v)]
  {
    if m != [] {
      PutAbsent(m[1..], k, v);
      assert m == [m[0]] + m[1..];
    }
  }

  /** Writing or removing one key changes no other, and a write keeps every key where it was. */
  lemma {:induction false} PutElsewhere<V(!new)>(m: seq<(string, V)>, k: string, v: V, j: string)
    ensures j != k ==> Find(Put(m, k, v), j) == Find(m, j)
    ensures Keys(Put(m, k, v)) == if k in KeySet(m) then Keys(m) else Keys(m) + [k]
  {
    if m != [] && m[0].0 != k {
      PutElsewhere(m[1..], k, v, j);
    }
  }

  lemma {:induction false} RemoveElsewhere<V(!new)>(m: seq<(string, V)>, k: string, j: string)
    ensures j != k ==> Find(Remove(m, k), j) == Find(m, j)
    ensures |Remove(m, k)| == if k in KeySet(m) then |m| - 1 else |m|
  {
    if m != [] && m[0].0 != k {
      RemoveElsewhere(m[1..], k, j);
    }
  }
}
