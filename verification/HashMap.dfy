/** The hash map from TLA+ values: buckets by hash, equality within a bucket, and the keys in the order they came. */
module HashMap {
  import opened Values

  datatype Option<+T> = None | Some(value: T)

  /** A hash as a key of the bucket map. */
  datatype Code = Code(bits: bv32)

  function CodeOf(h: Hasher, k: Value): Code {
    Code(Hash(h, k))
  }

  datatype Entry<V> = Entry(key: Value, value: V)

  function Find<V>(h: Hasher, entries: seq<Entry<V>>, k: Value): Option<V> {
    if entries == [] then None
    else if Equal(h, entries[0].key, k) then Some(entries[0].value)
    else Find(h, entries[1..], k)
  }

  /** A bucket with `k` set: the first entry with an equal key, or else a new one at the end. */
  function Put<V>(h: Hasher, entries: seq<Entry<V>>, k: Value, v: V): seq<Entry<V>> {
    if entries == [] then [Entry(k, v)]
    else if Equal(h, entries[0].key, k) then [entries[0].(value := v)] + entries[1..]
    else [entries[0]] + Put(h, entries[1..], k, v)
  }

  predicate KeysWellFormed<V>(h: Hasher, entries: seq<Entry<V>>) {
    forall i {:trigger entries[i]} :: 0 <= i < |entries| ==> WellFormed(h, entries[i].key)
  }

  /** Equal keys are equal to the same values. */
  lemma EqualKeys(h: Hasher, a: Value, b: Value, c: Value)
    requires WellFormed(h, a) && WellFormed(h, b) && Equal(h, a, b)
    ensures Equal(h, a, c) <==> Equal(h, b, c)
  {
    Symmetric(h, a, b);
    if Equal(h, a, c) {
      Transitive(h, b, a, c);
    }
    if Equal(h, b, c) {
      Transitive(h, a, b, c);
    }
  }

  lemma {:induction false} FindAfterPut<V>(h: Hasher, entries: seq<Entry<V>>, k: Value, v: V, k': Value)
    requires KeysWellFormed(h, entries) && WellFormed(h, k) && WellFormed(h, k')
    ensures KeysWellFormed(h, Put(h, entries, k, v))
    ensures Find(h, Put(h, entries, k, v), k') == if Equal(h, k, k') then Some(v) else Find(h, entries, k')
  {
    if entries != [] {
      var e := entries[0];
      assert WellFormed(h, e.key);
      if Equal(h, e.key, k) {
        EqualKeys(h, e.key, k, k');
        assert ([e.(value := v)] + entries[1..])[1..] == entries[1..];
      } else {
        FindAfterPut(h, entries[1..], k, v, k');
        var rest := Put(h, entries[1..], k, v);
        assert ([e] + rest)[1..] == rest;
        if Equal(h, e.key, k') && Equal(h, k, k') {
          Symmetric(h, k, k');
          Transitive(h, e.key, k', k);
        }
      }
    }
  }

  /** Skipping entries with other keys. */
  lemma PutAfter<V>(h: Hasher, entries: seq<Entry<V>>, k: Value, v: V, i: nat)
    requires i <= |entries|
    requires forall j :: 0 <= j < i ==> !Equal(h, entries[j].key, k)
    ensures Put(h, entries, k, v) == entries[..i] + Put(h, entries[i..], k, v)
    ensures Find(h, entries, k) == Find(h, entries[i..], k)
  {
    PutSkips(h, entries, k, v, i);
    FindSkips(h, entries, k, i);
  }

  lemma {:induction false} PutSkips<V>(h: Hasher, entries: seq<Entry<V>>, k: Value, v: V, i: nat)
    requires i <= |entries|
    requires forall j :: 0 <= j < i ==> !Equal(h, entries[j].key, k)
    ensures Put(h, entries, k, v) == entries[..i] + Put(h, entries[i..], k, v)
  {
    hide Equal;
    if i > 0 {
      PutSkips(h, entries[1..], k, v, i - 1);
      assert entries[1..][i - 1..] == entries[i..];
      assert entries[..i] == [entries[0]] + entries[1..][..i - 1];
    } else {
      assert entries[0..] == entries;
    }
  }

  lemma {:induction false} FindSkips<V>(h: Hasher, entries: seq<Entry<V>>, k: Value, i: nat)
    requires i <= |entries|
    requires forall j :: 0 <= j < i ==> !Equal(h, entries[j].key, k)
    ensures Find(h, entries, k) == Find(h, entries[i..], k)
  {
    hide Equal;
    if i > 0 {
      FindSkips(h, entries[1..], k, i - 1);
      assert entries[1..][i - 1..] == entries[i..];
    } else {
      assert entries[0..] == entries;
    }
  }

  /** What the map holds for a key. */
  function Lookup<V>(h: Hasher, m: map<Code, seq<Entry<V>>>, k: Value): Option<V> {
    if CodeOf(h, k) in m then Find(h, m[CodeOf(h, k)], k) else None
  }

  predicate InKeys(h: Hasher, keys: seq<Value>, k: Value) {
    exists i {:trigger keys[i]} :: 0 <= i < |keys| && Equal(h, keys[i], k)
  }

  /** The keys are listed once each, up to equality, and they are the values something is held for. */
  ghost predicate MapOk<V>(h: Hasher, m: map<Code, seq<Entry<V>>>, keys: seq<Value>) {
    && (forall x {:trigger m[x]} :: x in m ==> KeysWellFormed(h, m[x]))
    && (forall i {:trigger keys[i]} :: 0 <= i < |keys| ==> WellFormed(h, keys[i]))
    && Distinct(h, keys)
    && (forall k {:trigger Lookup(h, m, k)} :: WellFormed(h, k) ==> (Lookup(h, m, k).Some? <==> InKeys(h, keys, k)))
  }

  function Bucket<V>(h: Hasher, m: map<Code, seq<Entry<V>>>, k: Value): seq<Entry<V>> {
    if CodeOf(h, k) in m then m[CodeOf(h, k)] else []
  }

  function MapSet<V>(h: Hasher, m: map<Code, seq<Entry<V>>>, k: Value, v: V): map<Code, seq<Entry<V>>> {
    m[CodeOf(h, k) := Put(h, Bucket(h, m, k), k, v)]
  }

  /** Equal keys share a bucket because they hash alike; the other buckets hold no key equal to the one set. */
  lemma LookupAfterSet<V>(h: Hasher, m: map<Code, seq<Entry<V>>>, k: Value, v: V, k': Value)
    requires KeysWellFormed(h, Bucket(h, m, k)) && WellFormed(h, k) && WellFormed(h, k')
    ensures Lookup(h, MapSet(h, m, k, v), k') == if Equal(h, k, k') then Some(v) else Lookup(h, m, k')
  {
    if Equal(h, k, k') {
      EqualHashAlike(h, k, k');
    }
    FindAfterPut(h, Bucket(h, m, k), k, v, k');
    OtherBuckets(h, m, k, v, k');
  }

  lemma OtherBuckets<V>(h: Hasher, m: map<Code, seq<Entry<V>>>, k: Value, v: V, k': Value)
    ensures Lookup(h, MapSet(h, m, k, v), k') ==
              if CodeOf(h, k) == CodeOf(h, k') then Find(h, Put(h, Bucket(h, m, k), k, v), k') else Lookup(h, m, k')
    ensures CodeOf(h, k) == CodeOf(h, k') ==> Lookup(h, m, k') == Find(h, Bucket(h, m, k), k')
  {
    hide CodeOf, Put, Equal;
    var x, x' := CodeOf(h, k), CodeOf(h, k');
    var m' := MapSet(h, m, k, v);
    assert m' == m[x := Put(h, Bucket(h, m, k), k, v)];
    if x == x' {
      assert m'[x'] == Put(h, Bucket(h, m, k), k, v);
    } else {
      assert x' in m' <==> x' in m;
    }
  }

  lemma SetKeepsMapOk<V>(h: Hasher, m: map<Code, seq<Entry<V>>>, keys: seq<Value>, k: Value, v: V)
    requires MapOk(h, m, keys) && WellFormed(h, k)
    ensures MapOk(h, MapSet(h, m, k, v), if Lookup(h, m, k).Some? then keys else keys + [k])
  {
    hide Equal, CodeOf, Put, Find, InKeys, WellFormed, Distinct;
    var m' := MapSet(h, m, k, v);
    var keys' := if Lookup(h, m, k).Some? then keys else keys + [k];
    FindAfterPut(h, Bucket(h, m, k), k, v, k);
    assert Lookup(h, m, k).Some? <==> InKeys(h, keys, k);
    forall k' | WellFormed(h, k') ensures Lookup(h, m', k').Some? <==> InKeys(h, keys', k') {
      LookupAfterSet(h, m, k, v, k');
      assert Lookup(h, m, k').Some? <==> InKeys(h, keys, k');
      KeysAfterSet(h, keys, k, k');
    }
    NewKeyDistinct(h, keys, k);
    assert KeysWellFormed(h, m'[CodeOf(h, k)]);
  }

  lemma KeysAfterSet(h: Hasher, keys: seq<Value>, k: Value, k': Value)
    requires forall i {:trigger keys[i]} :: 0 <= i < |keys| ==> WellFormed(h, keys[i])
    requires WellFormed(h, k)
    ensures InKeys(h, keys + [k], k') <==> InKeys(h, keys, k') || Equal(h, k, k')
    ensures InKeys(h, keys, k) && Equal(h, k, k') ==> InKeys(h, keys, k')
  {
    if Equal(h, k, k') {
      assert (keys + [k])[|keys|] == k;
      if InKeys(h, keys, k) {
        var i :| 0 <= i < |keys| && Equal(h, keys[i], k);
        Transitive(h, keys[i], k, k');
      }
    }
    if InKeys(h, keys, k') {
      var i :| 0 <= i < |keys| && Equal(h, keys[i], k');
      assert (keys + [k])[i] == keys[i];
    }
  }

  lemma NewKeyDistinct(h: Hasher, keys: seq<Value>, k: Value)
    requires forall i {:trigger keys[i]} :: 0 <= i < |keys| ==> WellFormed(h, keys[i])
    requires Distinct(h, keys) && WellFormed(h, k)
    ensures !InKeys(h, keys, k) ==> Distinct(h, keys + [k])
  {
    forall i | 0 <= i < |keys| && Equal(h, k, keys[i]) ensures Equal(h, keys[i], k) {
      Symmetric(h, k, keys[i]);
    }
  }

  lemma UpdatedBucket<V>(bucket: seq<Entry<V>>, i: nat, e: Entry<V>)
    requires i < |bucket|
    ensures bucket[i := e] == bucket[..i] + ([e] + bucket[i..][1..])
  {
  }

  class HashMap<V(0)> {
    const h: Hasher
    var m: map<Code, seq<Entry<V>>>
    var keys: seq<Value>

    ghost predicate Valid()
      reads this
    {
      MapOk(h, m, keys)
    }

    constructor (hasher: Hasher)
      ensures Valid() && h == hasher && keys == [] && forall k :: Lookup(h, m, k) == None
    {
      h, m, keys := hasher, map[], [];
    }

    method Get(k: Value) returns (r: Option<V>)
      requires Valid()
      ensures r == Lookup(h, m, k)
    {
      var hash := CodeOf(h, k);
      if hash !in m {
        return None;
      }
      var entries := m[hash];
      for i := 0 to |entries|
        invariant Find(h, entries, k) == Find(h, entries[i..], k)
      {
        if Equal(h, entries[i].key, k) {
          return Some(entries[i].value);
        }
        assert entries[i..][1..] == entries[i + 1..];
      }
      return None;
    }

    /** Every key equal to `k` now leads to `v`; all others lead where they did. A new key is listed last. */
    method Set(k: Value, v: V)
      requires Valid() && WellFormed(h, k)
      modifies this
      ensures Valid()
      ensures forall k' :: WellFormed(h, k') ==>
                Lookup(h, m, k') == if Equal(h, k, k') then Some(v) else Lookup(h, old(m), k')
      ensures keys == if Lookup(h, old(m), k).Some? then old(keys) else old(keys) + [k]
    {
      var hash := CodeOf(h, k);
      ghost var bucket := Bucket(h, m, k);
      if hash !in m {
        keys := keys + [k];
        m := m[hash := [Entry(k, v)]];
      } else {
        var i := 0;
        while i < |m[hash]| && !Equal(h, m[hash][i].key, k)
          invariant 0 <= i <= |bucket| && m == old(m) && keys == old(keys)
          invariant forall j :: 0 <= j < i ==> !Equal(h, bucket[j].key, k)
        {
          i := i + 1;
        }
        PutAfter(h, bucket, k, v, i);
        if i < |m[hash]| {
          m := m[hash := m[hash][i := m[hash][i].(value := v)]];
          UpdatedBucket(bucket, i, bucket[i].(value := v));
        } else {
          keys := keys + [k];
          m := m[hash := m[hash] + [Entry(k, v)]];
          assert bucket[i..] == [] && bucket[..i] == bucket;
        }
      }
      assert m == MapSet(h, old(m), k, v);
      SetKeepsMapOk(h, old(m), old(keys), k, v);
      forall k' | WellFormed(h, k')
        ensures Lookup(h, m, k') == if Equal(h, k, k') then Some(v) else Lookup(h, old(m), k')
      {
        LookupAfterSet(h, old(m), k, v, k');
      }
    }

    method Clear()
      modifies this
      ensures Valid() && keys == [] && forall k :: Lookup(h, m, k) == None
    {
      m, keys := map[], [];
    }
  }
}
