/**
 A dictionary that remembers insertion order, as Python's `dict` and JavaScript's `Map`
 do: writing to a present key keeps its place, a removed key comes back last.
 */
module OrderedDict {
  import opened Basics

  datatype Dict<!K(==), V> = Dict(items: map<K, V>, order: seq<K>)

  predicate Distinct<K(==)>(order: seq<K>) {
    forall i, j | 0 <= i < j < |order| :: order[i] != order[j]
  }

  ghost predicate Valid<K(!new), V>(d: Dict<K, V>) {
    && Distinct(d.order)
    && (forall k :: k in d.order <==> k in d.items)
  }

  function Empty<K, V>(): Dict<K, V> {
    Dict(map[], [])
  }

  function Get<K, V>(d: Dict<K, V>, k: K): Option<V> {
    if k in d.items then Some(d.items[k]) else None
  }

  function Put<K, V>(d: Dict<K, V>, k: K, v: V): Dict<K, V> {
    Dict(d.items[k := v], if k in d.items then d.order else d.order + [k])
  }

  function Removed<K(==)>(order: seq<K>, k: K): seq<K> {
    if order == [] then []
    else if order[0] == k then order[1..]
    else [order[0]] + Removed(order[1..], k)
  }

  function Pop<K, V>(d: Dict<K, V>, k: K): Dict<K, V> {
    Dict(d.items - {k}, Removed(d.order, k))
  }

  lemma DistinctCons<K>(head: K, rest: seq<K>)
    requires Distinct(rest) && head !in rest
    ensures Distinct([head] + rest)
  {
    var all := [head] + rest;
    forall i, j | 0 <= i < j < |all| ensures all[i] != all[j] {
      assert all[j] == rest[j - 1] && (i > 0 ==> all[i] == rest[i - 1]);
    }
  }

  lemma {:induction false} RemovedContents<K>(order: seq<K>, k: K)
    requires Distinct(order)
    ensures var rest := Removed(order, k);
            && Distinct(rest)
            && (forall x <- order :: x == k || x in rest) && (forall x <- rest :: x in order && x != k)
            && |rest| == |order| - (if k in order then 1 else 0)
            && (k !in order ==> rest == order)
    decreases |order|
  {
    if order != [] {
      var head, rest := order[0], order[1..];
      assert order == [head] + rest;
      if head != k {
        RemovedContents(rest, k);
        DistinctCons(head, Removed(rest, k));
      } else {
        assert forall x <- rest :: x != head;
      }
    }
  }

  lemma PopValid<K(!new), V>(d: Dict<K, V>, k: K)
    requires Valid(d)
    ensures Valid(Pop(d, k))
    ensures |Pop(d, k).order| == |d.order| - if k in d.items then 1 else 0
    ensures k !in d.items ==> Pop(d, k) == d
  {
    RemovedContents(d.order, k);
    hide Removed;
    assert k !in d.items ==> d.items - {k} == d.items;
  }

  lemma PutValid<K(!new), V>(d: Dict<K, V>, k: K, v: V)
    requires Valid(d)
    ensures Valid(Put(d, k, v))
    ensures |Put(d, k, v).order| == |d.order| + if k in d.items then 0 else 1
  {
    if k !in d.items {
      assert k !in d.order;
      assert forall x :: x in d.order + [k] <==> x in d.order || x == k;
    }
  }

  lemma {:induction false} Size<K(!new), V>(d: Dict<K, V>)
    requires Valid(d)
    ensures |d.order| == |d.items|
    decreases |d.order|
  {
    if d.order == [] {
      assert d.items == map[];
    } else {
      var head := d.order[0];
      assert head in d.order;
      PopValid(d, head);
      Size(Pop(d, head));
      assert d.items.Keys == (d.items - {head}).Keys + {head};
    }
  }

  /** Pop, insert at the end, and when that is one too many take the oldest out. */
  function Reinsert<K, V>(d: Dict<K, V>, k: K, v: V, limit: nat): Dict<K, V> {
    var written := Put(Pop(d, k), k, v);
    if |written.order| > limit && written.order != [] then Pop(written, written.order[0]) else written
  }

  lemma ReinsertLast<K(!new), V>(d: Dict<K, V>, k: K, v: V)
    requires Valid(d)
    ensures var written := Put(Pop(d, k), k, v);
            && Valid(written) && written.items == d.items[k := v]
            && |written.order| == |d.order| + (if k in d.items then 0 else 1)
            && written.order == Pop(d, k).order + [k]
            && (k !in d.items ==> written.order == d.order + [k])
  {
    PopValid(d, k);
    hide Valid, Removed;
    PutValid(Pop(d, k), k, v);
  }

  lemma EvictOldest<K(!new), V>(d: Dict<K, V>)
    requires Valid(d) && |d.order| > 1
    ensures var next := Pop(d, d.order[0]);
            && Valid(next) && next.order == d.order[1..] && d.order[|d.order| - 1] in next.items
            && next.items == d.items - {d.order[0]}
  {
    PopValid(d, d.order[0]);
    assert d.order[|d.order| - 1] == d.order[1..][|d.order| - 2];
  }

  /**
   The entry just written stays, and is last.  An eviction takes the oldest of the
   others, and only when the dictionary was full and the key is new.
   */
  lemma ReinsertContents<K(!new), V>(d: Dict<K, V>, k: K, v: V, limit: nat)
    requires Valid(d) && |d.order| <= limit && limit > 0
    ensures var next := Reinsert(d, k, v, limit);
            && Valid(next) && |next.order| <= limit && Get(next, k) == Some(v)
            && next.order != [] && next.order[|next.order| - 1] == k
            && if k in d.items || |d.items| < limit
               then next.items == d.items[k := v]
               else d.order != [] && next.items == d.items[k := v] - {d.order[0]}
  {
    hide Valid, Pop, Put;
    Size(d);
    ReinsertLast(d, k, v);
    var written := Put(Pop(d, k), k, v);
    if |written.order| > limit {
      EvictOldest(written);
    }
  }
}
