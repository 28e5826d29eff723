/** A `LinkedHashMap<String, T>` as the sequence of its entries in insertion
    order, with the two ways the service fills one: `put`, which replaces the
    value of a present key where it stands, and `Collectors.toMap` with a
    merge function that keeps the existing value (first wins). */
module LinkedMaps {
  import opened Wrappers

  function Keys<T>(entries: seq<(string, T)>): (ks: seq<string>)
    ensures |ks| == |entries|
    ensures forall i :: 0 <= i < |entries| ==> ks[i] == entries[i].0
  {
    seq(|entries|, i requires 0 <= i < |entries| => entries[i].0)
  }

  /** No key occurs twice. */
  predicate DistinctKeys<T>(entries: seq<(string, T)>) {
    forall i, j :: 0 <= i < j < |entries| ==> entries[i].0 != entries[j].0
  }

  /** `get`: the value of the first entry with the key. */
  function Lookup<T>(entries: seq<(string, T)>, key: string): (r: Option<T>)
    ensures r.Some? <==> key in Keys(entries)
    decreases |entries|
  {
    if entries == [] then None
    else if entries[0].0 == key then Some(entries[0].1)
    else
      var r := Lookup(entries[1..], key);
      assert Keys(entries) == [entries[0].0] + Keys(entries[1..]);
      r
  }

  /** Appending an entry never changes the value of a key already present. */
  lemma {:induction false} LookupSnoc<T>(entries: seq<(string, T)>, x: (string, T), key: string)
    ensures Lookup(entries + [x], key)
         == if Lookup(entries, key).Some? then Lookup(entries, key) else if x.0 == key then Some(x.1) else None
    decreases |entries|
  {
    if entries != [] {
      assert (entries + [x])[1..] == entries[1..] + [x];
      LookupSnoc(entries[1..], x, key);
    }
  }

  /** `put`. */
  function Put<T>(entries: seq<(string, T)>, key: string, value: T): (r: seq<(string, T)>)
    ensures key in Keys(entries) ==> Keys(r) == Keys(entries)
    ensures key !in Keys(entries) ==> Keys(r) == Keys(entries) + [key]
    decreases |entries|
  {
    if entries == [] then [(key, value)]
    else if entries[0].0 == key then [(key, value)] + entries[1..]
    else
      var rest := Put(entries[1..], key, value);
      assert Keys(entries) == [entries[0].0] + Keys(entries[1..]);
      var r := [entries[0]] + rest;
      assert Keys(r) == [entries[0].0] + Keys(rest);
      r
  }

  /** After `put` the key maps to the new value and every other key keeps
      its value. */
  lemma {:induction false} PutLookup<T>(entries: seq<(string, T)>, key: string, value: T)
    ensures var r := Put(entries, key, value);
      && Lookup(r, key) == Some(value)
      && (forall k :: k != key ==> Lookup(r, k) == Lookup(entries, k))
    decreases |entries|
  {
    if entries != [] && entries[0].0 != key {
      PutLookup(entries[1..], key, value);
      var rest := Put(entries[1..], key, value);
      assert Put(entries, key, value)[1..] == rest;
    }
  }

  /** `put` never introduces a duplicate key. */
  lemma PutKeepsDistinct<T>(entries: seq<(string, T)>, key: string, value: T)
    requires DistinctKeys(entries)
    ensures DistinctKeys(Put(entries, key, value))
  {
    var r := Put(entries, key, value);
    var ks, rs := Keys(entries), Keys(r);
    forall i, j | 0 <= i < j < |r|
      ensures r[i].0 != r[j].0
    {
      assert r[i].0 == rs[i] && r[j].0 == rs[j];
      if j < |entries| {
        assert rs[i] == ks[i] && rs[j] == ks[j];
      } else {
        assert rs[i] == ks[i] && rs[j] == key;
      }
    }
  }

  /** `put` of a new key appends it. */
  lemma {:induction false} PutNewKey<T>(entries: seq<(string, T)>, key: string, value: T)
    requires key !in Keys(entries)
    ensures Put(entries, key, value) == entries + [(key, value)]
    decreases |entries|
  {
    if entries != [] {
      assert Keys(entries) == [entries[0].0] + Keys(entries[1..]);
      PutNewKey(entries[1..], key, value);
      assert entries == [entries[0]] + entries[1..];
    }
  }

  /** `Collectors.toMap(key, value, (existing, replacement) -> existing,
      LinkedHashMap::new)` over entries in stream order. */
  function FirstWins<T>(entries: seq<(string, T)>): (r: seq<(string, T)>)
    decreases |entries|
  {
    if entries == [] then []
    else
      var prefix := FirstWins(entries[..|entries| - 1]);
      var last := entries[|entries| - 1];
      if last.0 in Keys(prefix) then prefix else prefix + [last]
  }

  /** The position of the first entry with the key. */
  function FirstIndex<T>(entries: seq<(string, T)>, key: string): (i: nat)
    requires key in Keys(entries)
    ensures i < |entries| && entries[i].0 == key
    ensures forall j :: 0 <= j < i ==> entries[j].0 != key
    decreases |entries|
  {
    if entries[0].0 == key then 0
    else
      assert Keys(entries) == [entries[0].0] + Keys(entries[1..]);
      FirstIndex(entries[1..], key) + 1
  }

  /** The collected map has each key once, holds exactly the keys of the
      stream, gives each key its first value, and keeps the keys in the order
      of their first appearance. */
  lemma {:induction false} FirstWinsIsFirstOccurrenceMap<T>(entries: seq<(string, T)>)
    ensures var r := FirstWins(entries);
      && DistinctKeys(r)
      && (forall k :: k in Keys(r) <==> k in Keys(entries))
      && (forall k :: Lookup(r, k) == Lookup(entries, k))
      && (forall i, j :: 0 <= i < j < |r| ==> FirstIndex(entries, r[i].0) < FirstIndex(entries, r[j].0))
    decreases |entries|
  {
    if entries != [] {
      var init := entries[..|entries| - 1];
      var last := entries[|entries| - 1];
      var prefix := FirstWins(init);
      FirstWinsIsFirstOccurrenceMap(init);
      assert entries == init + [last];
      assert Keys(entries) == Keys(init) + [last.0];
      forall k
        ensures Lookup(entries, k) == if Lookup(init, k).Some? then Lookup(init, k) else if last.0 == k then Some(last.1) else None
      {
        LookupSnoc(init, last, k);
      }
      forall k | k in Keys(init)
        ensures FirstIndex(entries, k) == FirstIndex(init, k)
      {
        FirstIndexSnoc(init, last, k);
      }
      if last.0 !in Keys(prefix) {
        var r := prefix + [last];
        assert Keys(r) == Keys(prefix) + [last.0];
        forall k
          ensures Lookup(r, k) == Lookup(entries, k)
        {
          LookupSnoc(prefix, last, k);
        }
        assert last.0 !in Keys(init);
        assert FirstIndex(entries, last.0) == |init|;
        forall i, j | 0 <= i < j < |r|
          ensures FirstIndex(entries, r[i].0) < FirstIndex(entries, r[j].0)
        {
          assert r[i] == prefix[i];
          if j < |prefix| {
            assert r[j] == prefix[j];
          }
        }
      }
    }
  }

  lemma {:induction false} FirstIndexSnoc<T>(entries: seq<(string, T)>, x: (string, T), key: string)
    requires key in Keys(entries)
    ensures key in Keys(entries + [x]) && FirstIndex(entries + [x], key) == FirstIndex(entries, key)
    decreases |entries|
  {
    assert Keys(entries + [x]) == Keys(entries) + [x.0];
    if entries[0].0 != key {
      assert (entries + [x])[1..] == entries[1..] + [x];
      assert Keys(entries) == [entries[0].0] + Keys(entries[1..]);
      FirstIndexSnoc(entries[1..], x, key);
    }
  }
}
