/** A map that remembers the order in which its keys were first inserted. */
module OrderedMaps {
  import opened Options

  datatype Entry<K, V> = Entry(key: K, value: V)

  type OrderedMap<K, V> = seq<Entry<K, V>>

  function Lookup<K(==), V>(m: OrderedMap<K, V>, k: K): Option<V> {
    if m == [] then None else if m[0].key == k then Some(m[0].value) else Lookup(m[1..], k)
  }

  /** Sets a key in place, or appends it. */
  function Put<K(==), V>(m: OrderedMap<K, V>, k: K, v: V): OrderedMap<K, V> {
    if m == [] then [Entry(k, v)]
    else if m[0].key == k then [Entry(k, v)] + m[1..]
    else [m[0]] + Put(m[1..], k, v)
  }

  lemma {:induction false} LookupPut<K, V>(m: OrderedMap<K, V>, k: K, v: V, x: K)
    ensures Lookup(Put(m, k, v), x) == if x == k then Some(v) else Lookup(m, x)
    decreases |m|
  {
    if m != [] && m[0].key != k {
      LookupPut(m[1..], k, v, x);
      assert Put(m, k, v)[1..] == Put(m[1..], k, v);
    }
  }

  /** Setting a key to the value it has changes nothing. */
  lemma {:induction false} PutSame<K, V>(m: OrderedMap<K, V>, k: K, v: V)
    requires Lookup(m, k) == Some(v)
    ensures Put(m, k, v) == m
    decreases |m|
  {
    if m[0].key == k {
      assert [m[0]] + m[1..] == m;
    } else {
      PutSame(m[1..], k, v);
      assert [m[0]] + m[1..] == m;
    }
  }

  lemma {:induction false} PutNew<K, V>(m: OrderedMap<K, V>, k: K, v: V)
    requires forall j :: 0 <= j < |m| ==> m[j].key != k
    ensures Put(m, k, v) == m + [Entry(k, v)] && Lookup(m, k) == None
  {
    if m != [] {
      PutNew(m[1..], k, v);
      assert [m[0]] + (m[1..] + [Entry(k, v)]) == m + [Entry(k, v)];
    }
  }

  ghost predicate DistinctKeys<K(!new), V>(m: OrderedMap<K, V>) {
    forall i, j :: 0 <= i < j < |m| ==> m[i].key != m[j].key
  }

  /** Setting a key keeps the keys distinct and adds at most that one. */
  lemma {:induction false} PutKeys<K(!new), V>(m: OrderedMap<K, V>, k: K, v: V)
    requires DistinctKeys(m)
    ensures DistinctKeys(Put(m, k, v))
    ensures forall i :: 0 <= i < |Put(m, k, v)| ==> Put(m, k, v)[i].key == k || exists j :: 0 <= j < |m| && m[j].key == Put(m, k, v)[i].key
  {
    if m != [] && m[0].key != k {
      var rest := Put(m[1..], k, v);
      PutKeys(m[1..], k, v);
      forall i | 0 <= i < |rest| ensures rest[i].key == k || exists j :: 0 <= j < |m| && m[j].key == rest[i].key {
        if rest[i].key != k {
          var j :| 0 <= j < |m[1..]| && m[1..][j].key == rest[i].key;
          assert m[j + 1].key == rest[i].key;
        }
      }
      forall i | 0 <= i < |rest| ensures rest[i].key != m[0].key {
        if rest[i].key != k {
          var j :| 0 <= j < |m[1..]| && m[1..][j].key == rest[i].key;
          assert m[j + 1].key == rest[i].key;
        }
      }
    }
  }

  lemma {:induction false} LookupAbsent<K, V>(m: OrderedMap<K, V>, k: K)
    requires forall j :: 0 <= j < |m| ==> m[j].key != k
    ensures Lookup(m, k) == None
  {
    if m != [] { LookupAbsent(m[1..], k); }
  }

  /** Dropping the oldest entry takes away its key and changes no other. */
  lemma DropFirst<K(!new), V>(m: OrderedMap<K, V>, k: K)
    requires m != [] && DistinctKeys(m)
    ensures DistinctKeys(m[1..]) && Lookup(m[1..], k) == if m[0].key == k then None else Lookup(m, k)
  {
    if m[0].key == k { LookupAbsent(m[1..], k); }
  }
}
