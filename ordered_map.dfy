/** Insertion-ordered maps with string keys. Kotlin's `associate` builds a
    LinkedHashMap, and org.json's JSONObject keeps its members the same way: a new
    key is added at the end, an existing key keeps its place and takes the new value. */
module OrderedMap {
  import opened Wrappers

  type Entries<V> = seq<(string, V)>

  predicate UniqueKeys<V>(m: Entries<V>) {
    forall i, j | 0 <= i < j < |m| :: m[i].0 != m[j].0
  }

  predicate HasKey<V>(m: Entries<V>, k: string) {
    exists i | 0 <= i < |m| :: m[i].0 == k
  }

  /** The value stored under k (the last entry with that key). */
  function Get<V(==)>(m: Entries<V>, k: string): (r: Option<V>)
    ensures r.None? <==> !HasKey(m, k)
    ensures r.Some? ==> exists i | 0 <= i < |m| :: m[i].0 == k && m[i].1 == r.value
  {
    if m == [] then None
    else if m[|m| - 1].0 == k then Some(m[|m| - 1].1)
    else
      var r := Get(m[..|m| - 1], k);
      assert forall i | 0 <= i < |m| - 1 :: m[..|m| - 1][i] == m[i];
      r
  }

  /** In a map with unique keys, Get finds the one entry that holds the key. */
  lemma GetUnique<V>(m: Entries<V>, i: nat)
    requires UniqueKeys(m) && i < |m|
    ensures Get(m, m[i].0) == Some(m[i].1)
  {
    if i < |m| - 1 {
      assert m[..|m| - 1][i] == m[i];
      GetUnique(m[..|m| - 1], i);
    }
  }

  /** Get finds entry i when no later entry has the same key. */
  lemma {:induction false} GetLast<V>(m: Entries<V>, i: nat)
    requires i < |m| && forall j | i < j < |m| :: m[j].0 != m[i].0
    ensures Get(m, m[i].0) == Some(m[i].1)
  {
    if i < |m| - 1 {
      assert m[..|m| - 1][i] == m[i];
      GetLast(m[..|m| - 1], i);
    }
  }

  /** The position of key k, if it is present. */
  function IndexOf<V>(m: Entries<V>, k: string): (r: Option<nat>)
    ensures r.None? <==> !HasKey(m, k)
    ensures r.Some? ==> r.value < |m| && m[r.value].0 == k
  {
    if m == [] then None
    else if m[|m| - 1].0 == k then Some(|m| - 1)
    else
      assert forall i | 0 <= i < |m| - 1 :: m[..|m| - 1][i] == m[i];
      IndexOf(m[..|m| - 1], k)
  }

  lemma PutNewKey<V>(m: Entries<V>, k: string, v: V)
    requires UniqueKeys(m) && !HasKey(m, k)
    ensures UniqueKeys(m + [(k, v)]) && Get(m + [(k, v)], k) == Some(v)
    ensures forall k' | k' != k :: Get(m + [(k, v)], k') == Get(m, k')
  {
    assert (m + [(k, v)])[..|m|] == m;
  }

  lemma PutExistingKey<V>(m: Entries<V>, i: nat, v: V)
    requires UniqueKeys(m) && i < |m|
    ensures UniqueKeys(m[i := (m[i].0, v)]) && Get(m[i := (m[i].0, v)], m[i].0) == Some(v)
    ensures forall k' | k' != m[i].0 :: Get(m[i := (m[i].0, v)], k') == Get(m, k')
  {
    var r := m[i := (m[i].0, v)];
    assert forall j | 0 <= j < |m| :: r[j].0 == m[j].0;
    GetUnique(r, i);
    forall k' | k' != m[i].0 ensures Get(r, k') == Get(m, k') {
      if HasKey(m, k') {
        var j :| 0 <= j < |m| && m[j].0 == k';
        GetUnique(m, j);
        GetUnique(r, j);
      } else {
        assert !HasKey(r, k');
      }
    }
  }

  /** `LinkedHashMap.put` and `JSONObject.put`. */
  function Put<V(==)>(m: Entries<V>, k: string, v: V): (r: Entries<V>)
    requires UniqueKeys(m)
    ensures UniqueKeys(r) && Get(r, k) == Some(v)
    ensures forall k' | k' != k :: Get(r, k') == Get(m, k')
    ensures !HasKey(m, k) ==> r == m + [(k, v)]
    ensures HasKey(m, k) ==>
              |r| == |m| && forall i | 0 <= i < |m| :: r[i] == if m[i].0 == k then (k, v) else m[i]
  {
    match IndexOf(m, k)
    case None =>
      PutNewKey(m, k, v);
      m + [(k, v)]
    case Some(i) =>
      PutExistingKey(m, i, v);
      m[i := (k, v)]
  }

  /** The entries put one after another, first to last, into m. */
  function PutAll<V(==)>(m: Entries<V>, pairs: seq<(string, V)>): (r: Entries<V>)
    requires UniqueKeys(m)
    ensures UniqueKeys(r)
  {
    if pairs == [] then m
    else Put(PutAll(m, pairs[..|pairs| - 1]), pairs[|pairs| - 1].0, pairs[|pairs| - 1].1)
  }

  /** Kotlin's `associate`: a fresh LinkedHashMap with every pair put in turn. */
  function Associate<V(==)>(pairs: seq<(string, V)>): (r: Entries<V>)
    ensures UniqueKeys(r)
  {
    PutAll([], pairs)
  }

  /** The value of the last pair with key k. */
  function LastValue<V>(pairs: seq<(string, V)>, k: string): Option<V> {
    if pairs == [] then None
    else if pairs[|pairs| - 1].0 == k then Some(pairs[|pairs| - 1].1)
    else LastValue(pairs[..|pairs| - 1], k)
  }

  /** The pair at i is the last with its key when no later pair shares the key. */
  lemma {:induction false} LastValueAt<V>(pairs: seq<(string, V)>, i: nat)
    requires i < |pairs| && forall j | i < j < |pairs| :: pairs[j].0 != pairs[i].0
    ensures LastValue(pairs, pairs[i].0) == Some(pairs[i].1)
  {
    if i < |pairs| - 1 {
      assert pairs[..|pairs| - 1][i] == pairs[i];
      LastValueAt(pairs[..|pairs| - 1], i);
    }
  }

  /** Putting pairs into m: the last pair with key k wins, and keys none of the
      pairs mention keep their value from m. */
  lemma {:induction false} PutAllGet<V>(m: Entries<V>, pairs: seq<(string, V)>, k: string)
    requires UniqueKeys(m)
    ensures Get(PutAll(m, pairs), k) == if LastValue(pairs, k).Some? then LastValue(pairs, k) else Get(m, k)
  {
    if pairs != [] {
      PutAllGet(m, pairs[..|pairs| - 1], k);
    }
  }

  /** `associate` keeps, for every key, the value of its last pair. */
  lemma AssociateLastWins<V>(pairs: seq<(string, V)>, k: string)
    ensures Get(Associate(pairs), k) == LastValue(pairs, k)
  {
    PutAllGet([], pairs, k);
  }

  /** `associate` gives an empty map exactly when it is given no pairs. */
  lemma AssociateEmpty<V>(pairs: seq<(string, V)>)
    ensures Associate(pairs) == [] <==> pairs == []
  {
    if pairs != [] {
      var k := pairs[|pairs| - 1].0;
      AssociateLastWins(pairs, k);
      LastValueAt(pairs, |pairs| - 1);
    }
  }

  /** Copying a map entry by entry into an empty one, as the toJson loops do,
      reproduces it exactly, order included. */
  lemma {:induction false} PutAllIntoEmpty<V>(m: Entries<V>)
    requires UniqueKeys(m)
    ensures PutAll([], m) == m
  {
    if m != [] {
      var p := m[..|m| - 1];
      assert UniqueKeys(p);
      PutAllIntoEmpty(p);
      assert !HasKey(p, m[|m| - 1].0);
      assert p + [m[|m| - 1]] == m;
    }
  }
}
