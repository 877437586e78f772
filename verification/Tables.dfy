/** Keyed tables with rows in insertion order, and the two statements the catalogue uses on them:
    INSERT OR REPLACE at the row that has the key, and UPDATE of the rows that have it. */
module Tables {
  import opened Wrappers

  type Table<K, V> = seq<(K, V)>

  /** The first row with the key. */
  function Get<K(==), V>(t: Table<K, V>, k: K): (v: Option<V>)
  {
    if t == [] then None else if t[0].0 == k then Some(t[0].1) else Get(t[1..], k)
  }

  /** The last row with the key. */
  function Last<K(==), V>(t: Table<K, V>, k: K): (v: Option<V>)
  {
    if t == [] then None
    else
      var later := Last(t[1..], k);
      if later.Some? then later else if t[0].0 == k then Some(t[0].1) else None
  }

  /** The number of rows with the key. */
  function Count<K(==), V>(t: Table<K, V>, k: K): (n: nat)
  {
    if t == [] then 0 else (if t[0].0 == k then 1 else 0) + Count(t[1..], k)
  }

  function Upsert<K(==), V>(t: Table<K, V>, k: K, v: V): (t': Table<K, V>)
  {
    if t == [] then [(k, v)]
    else if t[0].0 == k then [(k, v)] + t[1..]
    else [t[0]] + Upsert(t[1..], k, v)
  }

  function Update<K(==), V>(t: Table<K, V>, k: K, f: V -> V): (t': Table<K, V>)
    ensures |t'| == |t|
  {
    if t == [] then []
    else [if t[0].0 == k then (k, f(t[0].1)) else t[0]] + Update(t[1..], k, f)
  }

  /** One row per key. */
  ghost predicate UniqueKeys<K, V>(t: Table<K, V>)
  {
    forall i, j :: 0 <= i < j < |t| ==> t[i].0 != t[j].0
  }

  lemma {:induction false} GetUpsert<K, V>(t: Table<K, V>, k: K, v: V, q: K)
    ensures Get(Upsert(t, k, v), q) == if q == k then Some(v) else Get(t, q)
  {
    if t == [] {
    } else if t[0].0 != k {
      GetUpsert(t[1..], k, v, q);
    }
  }

  lemma {:induction false} GetUpdate<K, V>(t: Table<K, V>, k: K, f: V -> V, q: K)
    ensures Get(Update(t, k, f), q)
            == if q == k && Get(t, k).Some? then Some(f(Get(t, k).value)) else Get(t, q)
  {
    if t == [] {
    } else {
      GetUpdate(t[1..], k, f, q);
    }
  }

  lemma {:induction false} CountAndLast<K, V>(t: Table<K, V>, k: K)
    ensures Count(t, k) == 0 <==> Last(t, k) == None
  {
    if t == [] {
    } else {
      CountAndLast(t[1..], k);
    }
  }

  lemma {:induction false} CountUpsert<K, V>(t: Table<K, V>, k: K, v: V, q: K)
    ensures Count(Upsert(t, k, v), q) == if q == k && Count(t, k) == 0 then 1 else Count(t, q)
  {
    if t == [] {
    } else if t[0].0 != k {
      CountUpsert(t[1..], k, v, q);
    }
  }

  /** An upsert writes to the first row with the key, which is the last when it is the only one. */
  lemma {:induction false} LastUpsert<K, V>(t: Table<K, V>, k: K, v: V, q: K)
    ensures Last(Upsert(t, k, v), q) == if q == k && Count(t, k) <= 1 then Some(v) else Last(t, q)
  {
    if t == [] {
    } else if t[0].0 == k {
      CountAndLast(t[1..], k);
    } else {
      LastUpsert(t[1..], k, v, q);
    }
  }

  lemma {:induction false} UniqueCount<K, V>(t: Table<K, V>, k: K)
    requires UniqueKeys(t)
    ensures Count(t, k) <= 1
  {
    if t == [] {
    } else {
      assert UniqueKeys(t[1..]) by { assert forall i :: 0 <= i < |t| - 1 ==> t[1..][i] == t[i + 1]; }
      UniqueCount(t[1..], k);
      if t[0].0 == k {
        assert forall i :: 0 <= i < |t| - 1 ==> t[1..][i].0 != k;
        NoRows(t[1..], k);
      }
    }
  }

  lemma {:induction false} NoRows<K, V>(t: Table<K, V>, k: K)
    requires forall i :: 0 <= i < |t| ==> t[i].0 != k
    ensures Count(t, k) == 0
  {
    if t == [] {
    } else {
      assert forall i :: 0 <= i < |t| - 1 ==> t[1..][i] == t[i + 1];
      NoRows(t[1..], k);
    }
  }

  lemma {:induction false} GetMember<K, V>(t: Table<K, V>, k: K)
    ensures Get(t, k).Some? ==> (k, Get(t, k).value) in t
    ensures Get(t, k).None? ==> forall i :: 0 <= i < |t| ==> t[i].0 != k
  {
    if t == [] {
    } else if t[0].0 != k {
      GetMember(t[1..], k);
    }
  }

  /** With one row per key, looking up is membership. */
  lemma {:induction false} GetIsMembership<K, V>(t: Table<K, V>, k: K, v: V)
    requires UniqueKeys(t)
    ensures Get(t, k) == Some(v) <==> (k, v) in t
  {
    GetMember(t, k);
    if (k, v) in t {
      var i :| 0 <= i < |t| && t[i] == (k, v);
      var w := Get(t, k).value;
      var j :| 0 <= j < |t| && t[j] == (k, w);
      assert i == j;
    }
  }

  lemma {:induction false} UpsertKeys<K, V>(t: Table<K, V>, k: K, v: V)
    ensures var t' := Upsert(t, k, v);
            && |t'| == (if Get(t, k).Some? then |t| else |t| + 1)
            && (forall i :: 0 <= i < |t| ==> t'[i].0 == t[i].0)
            && (Get(t, k).None? ==> t'[|t|].0 == k)
  {
    if t == [] {
    } else if t[0].0 != k {
      UpsertKeys(t[1..], k, v);
    }
  }

  /** The upsert keeps one row per key, and the order of the rows. */
  lemma UpsertUnique<K, V>(t: Table<K, V>, k: K, v: V)
    requires UniqueKeys(t)
    ensures UniqueKeys(Upsert(t, k, v))
  {
    UpsertKeys(t, k, v);
    GetMember(t, k);
  }

  lemma {:induction false} UpdateKeys<K, V>(t: Table<K, V>, k: K, f: V -> V)
    ensures forall i :: 0 <= i < |t| ==> Update(t, k, f)[i].0 == t[i].0
  {
    if t == [] {
    } else {
      UpdateKeys(t[1..], k, f);
    }
  }

  lemma UpdateUnique<K, V>(t: Table<K, V>, k: K, f: V -> V)
    requires UniqueKeys(t)
    ensures UniqueKeys(Update(t, k, f))
  {
    UpdateKeys(t, k, f);
  }
}
