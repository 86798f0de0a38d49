/** JavaScript's `Map` keyed by string: a finite map together with the order
    in which keys were first inserted. `set` on a present key replaces the value
    in place, `set` on a new key appends it, `delete` removes it, and
    `Array.from(m.values())` lists the values in insertion order. */
module OrderedMap {
  import opened Wrappers

  type Key = string

  datatype Table<T> = Table(entries: map<Key, T>, order: seq<Key>)

  /** Every key of the map occurs exactly once in the insertion order. */
  ghost predicate Valid<T>(t: Table<T>)
  {
    && (forall i, j :: 0 <= i < j < |t.order| ==> t.order[i] != t.order[j])
    && (forall k :: k in t.entries <==> k in t.order)
  }

  function Empty<T>(): (r: Table<T>)
    ensures Valid(r) && r.entries == map[]
  {
    Table(map[], [])
  }

  /** `m.get(k)` */
  function Get<T>(t: Table<T>, k: Key): (r: Option<T>)
    ensures r.Some? <==> k in t.entries
    ensures r.Some? ==> r.value == t.entries[k]
  {
    if k in t.entries then Some(t.entries[k]) else None
  }

  /** The position of a key in the insertion order. */
  function IndexOf(s: seq<Key>, k: Key): (i: nat)
    requires k in s
    ensures i < |s| && s[i] == k
    ensures forall j :: 0 <= j < i ==> s[j] != k
  {
    if s[0] == k then 0 else 1 + IndexOf(s[1..], k)
  }

  /** `m.set(k, v)`: a present key keeps its position, a new key goes last. */
  function Put<T>(t: Table<T>, k: Key, v: T): (r: Table<T>)
    requires Valid(t)
    ensures Valid(r)
    ensures r.entries.Keys == t.entries.Keys + {k} && r.entries[k] == v
    ensures forall k' :: k' in t.entries && k' != k ==> r.entries[k'] == t.entries[k']
    ensures k in t.entries ==> r.order == t.order
    ensures k !in t.entries ==> r.order == t.order + [k]
  {
    if k in t.entries then Table(t.entries[k := v], t.order)
    else Table(t.entries[k := v], t.order + [k])
  }

  /** `m.delete(k)`: the key leaves the map and the order; the other keys keep
      their relative order. */
  function Delete<T>(t: Table<T>, k: Key): (r: Table<T>)
    requires Valid(t)
    ensures Valid(r)
    ensures r.entries.Keys == t.entries.Keys - {k}
    ensures forall k' :: k' in r.entries ==> r.entries[k'] == t.entries[k']
    ensures k !in t.entries ==> r == t
    ensures k in t.entries ==>
      var i := IndexOf(t.order, k); r.order == t.order[..i] + t.order[i + 1..]
  {
    if k !in t.entries then t
    else
      var i := IndexOf(t.order, k);
      RemoveAtKeepsDistinct(t.order, i);
      Table(t.entries - {k}, t.order[..i] + t.order[i + 1..])
  }

  /** Removing one position from a repetition-free key list leaves it
      repetition-free and drops exactly the key that stood there. */
  lemma RemoveAtKeepsDistinct(s: seq<Key>, i: nat)
    requires i < |s|
    requires forall a, b :: 0 <= a < b < |s| ==> s[a] != s[b]
    ensures var s' := s[..i] + s[i + 1..];
      && (forall a, b :: 0 <= a < b < |s'| ==> s'[a] != s'[b])
      && (forall x :: x in s' <==> x in s && x != s[i])
  {
    var s' := s[..i] + s[i + 1..];
    assert forall a :: 0 <= a < |s'| ==> s'[a] == s[if a < i then a else a + 1];
    forall x | x in s && x != s[i] ensures x in s' {
      var j :| 0 <= j < |s| && s[j] == x;
      assert s'[if j < i then j else j - 1] == x;
    }
  }

  /** `Array.from(m.values())` */
  function Values<T>(t: Table<T>): (vs: seq<T>)
    requires Valid(t)
    ensures |vs| == |t.order|
    ensures forall i :: 0 <= i < |vs| ==> vs[i] == t.entries[t.order[i]]
  {
    seq(|t.order|, i requires 0 <= i < |t.order| => t.entries[t.order[i]])
  }

  /** A value is listed exactly when some key maps to it. */
  lemma ValuesMembership<T>(t: Table<T>, v: T)
    requires Valid(t)
    ensures v in Values(t) <==> exists k :: k in t.entries && t.entries[k] == v
  {
    var vs := Values(t);
    if exists k :: k in t.entries && t.entries[k] == v {
      var k :| k in t.entries && t.entries[k] == v;
      assert vs[IndexOf(t.order, k)] == v;
    }
  }

  /** Replacing the value of a present key replaces it at the same position of
      the listing; nothing else in the listing moves. */
  lemma {:induction false} PutPresentValues<T>(t: Table<T>, k: Key, v: T)
    requires Valid(t) && k in t.entries
    ensures Values(Put(t, k, v)) == Values(t)[IndexOf(t.order, k) := v]
  {
    var i := IndexOf(t.order, k);
    var a, b := Values(Put(t, k, v)), Values(t)[i := v];
    assert |a| == |b|;
    forall j | 0 <= j < |a| ensures a[j] == b[j] {
      if j != i {
        assert t.order[j] != k;
      }
    }
  }

  /** Inserting a new key appends its value to the listing. */
  lemma {:induction false} PutAbsentValues<T>(t: Table<T>, k: Key, v: T)
    requires Valid(t) && k !in t.entries
    ensures Values(Put(t, k, v)) == Values(t) + [v]
  {
    var a, b := Values(Put(t, k, v)), Values(t) + [v];
    assert |a| == |b|;
    forall j | 0 <= j < |a| ensures a[j] == b[j] {
      if j < |t.order| {
        assert t.order[j] != k;
      }
    }
  }

  /** A map filled by `set` calls on fresh, distinct keys, in that order. */
  function Of1<T>(k1: Key, v1: T): (t: Table<T>)
    ensures Valid(t) && t.order == [k1] && Values(t) == [v1]
  {
    Table(map[k1 := v1], [k1])
  }

  function Of2<T>(k1: Key, v1: T, k2: Key, v2: T): (t: Table<T>)
    requires k1 != k2
    ensures Valid(t) && t.order == [k1, k2] && Values(t) == [v1, v2]
  {
    Table(map[k1 := v1, k2 := v2], [k1, k2])
  }

  function Of3<T>(k1: Key, v1: T, k2: Key, v2: T, k3: Key, v3: T): (t: Table<T>)
    requires k1 != k2 && k1 != k3 && k2 != k3
    ensures Valid(t) && t.order == [k1, k2, k3] && Values(t) == [v1, v2, v3]
  {
    var t := Table(map[k1 := v1, k2 := v2, k3 := v3], [k1, k2, k3]);
    assert Values(t)[2] == v3;
    t
  }

  /** An upper bound on the length of every key in a finite set. */
  ghost function MaxKeyLength(keys: set<Key>): (n: nat)
    ensures forall k :: k in keys ==> |k| <= n
    decreases keys
  {
    if keys == {} then 0
    else
      var k :| k in keys;
      var m := MaxKeyLength(keys - {k});
      if |k| > m then |k| else m
  }

  /** A finite map never uses up all keys, so a fresh identifier can always
      be drawn (the model of `randomUUID`). */
  lemma FreshKeyExists(keys: set<Key>)
    ensures exists k: Key :: k !in keys
  {
    var k: Key := seq(MaxKeyLength(keys) + 1, _ => 'x');
    assert k !in keys;
  }
}
