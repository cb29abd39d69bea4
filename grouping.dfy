/**
 * A C# `Dictionary<K, List<V>>` filled by one loop that, for each entry in turn,
 * creates the list for a new key and appends the value to its key's list. A .NET
 * dictionary that never loses a key enumerates its keys in insertion order, so the
 * dictionary is fully described by the sequence of `(key, value)` entries it was
 * fed: `Keys` is its enumeration order and `Bucket(k)` the list stored under `k`.
 * Both the vertex grid of the simplifier and the material groups of the merger are
 * dictionaries of this kind.
 */
module Grouping {
  import opened Common

  /** The dictionary's keys in enumeration (first insertion) order. */
  function Keys<K(==), V>(entries: seq<(K, V)>): (ks: seq<K>)
    ensures |ks| <= |entries|
    decreases |entries|
  {
    if entries == [] then []
    else
      var ks := Keys(entries[..|entries| - 1]);
      var k := entries[|entries| - 1].0;
      if k in ks then ks else ks + [k]
  }

  /** The list stored under key `k`: the values fed with that key, in order. */
  function Bucket<K(==), V>(entries: seq<(K, V)>, k: K): seq<V>
    decreases |entries|
  {
    if entries == [] then []
    else
      var b := Bucket(entries[..|entries| - 1], k);
      if entries[|entries| - 1].0 == k then b + [entries[|entries| - 1].1] else b
  }

  /** Sum of the sizes of the lists stored under `ks`. */
  function TotalSize<K(==), V>(entries: seq<(K, V)>, ks: seq<K>): nat
  {
    if ks == [] then 0
    else TotalSize(entries, ks[..|ks| - 1]) + |Bucket(entries, ks[|ks| - 1])|
  }

  /**
   * `dict` with enumeration order `order` is the dictionary fed `entries`: it
   * holds exactly the keys of `Keys(entries)`, and each key's list is its bucket.
   */
  ghost predicate Mirrors<K(!new), V>(dict: map<K, seq<V>>, order: seq<K>, entries: seq<(K, V)>)
  {
    && order == Keys(entries)
    && (forall k :: k in dict <==> k in order)
    && (forall k :: k in dict ==> dict[k] == Bucket(entries, k))
  }

  /**
   * One step of the filling loop: create the list of a new key, then append the
   * value to its key's list. The result is the dictionary fed one more entry.
   */
  lemma MirrorsAppend<K(!new), V>(dict: map<K, seq<V>>, order: seq<K>, entries: seq<(K, V)>, k: K, v: V,
                                  fed: seq<(K, V)>)
    requires Mirrors(dict, order, entries) && fed == entries + [(k, v)]
    ensures k in dict ==> Mirrors(dict[k := dict[k] + [v]], order, fed)
    ensures k !in dict ==> Mirrors(dict[k := []][k := dict[k := []][k] + [v]], order + [k], fed)
  {
    assert fed[..|fed| - 1] == entries;
    if k !in dict {
      BucketEmpty(entries, k);
    }
  }

  /** The same step, stated for a prefix of a fixed list of entries. */
  lemma MirrorsStep<K(!new), V>(dict: map<K, seq<V>>, order: seq<K>, entries: seq<(K, V)>, i: nat)
    requires i < |entries| && Mirrors(dict, order, entries[..i])
    ensures var (k, v) := entries[i];
            var d := if k in dict then dict else dict[k := []];
            Mirrors(d[k := d[k] + [v]], if k in dict then order else order + [k], entries[..i + 1])
  {
    assert entries[..i + 1] == entries[..i] + [entries[i]];
    MirrorsAppend(dict, order, entries[..i], entries[i].0, entries[i].1, entries[..i + 1]);
  }

  /** A key is in the dictionary iff some entry carried it. */
  lemma {:induction false} KeysMembership<K, V>(entries: seq<(K, V)>, k: K)
    ensures k in Keys(entries) <==> exists j :: 0 <= j < |entries| && entries[j].0 == k
    decreases |entries|
  {
    if entries != [] {
      var p := entries[..|entries| - 1];
      KeysMembership(p, k);
      if k in Keys(p) {
        var j :| 0 <= j < |p| && p[j].0 == k;
        assert entries[j] == p[j];
      }
      if exists j :: 0 <= j < |entries| && entries[j].0 == k {
        var j :| 0 <= j < |entries| && entries[j].0 == k;
        if j < |p| {
          assert p[j] == entries[j];
        }
      }
    }
  }

  /** No key is enumerated twice. */
  lemma {:induction false} KeysDistinct<K, V>(entries: seq<(K, V)>)
    ensures Distinct(Keys(entries))
    decreases |entries|
  {
    if entries != [] {
      KeysDistinct(entries[..|entries| - 1]);
    }
  }

  /** A value is in the list of `k` iff an entry paired it with `k`. */
  lemma {:induction false} BucketMembership<K, V>(entries: seq<(K, V)>, k: K, v: V)
    ensures v in Bucket(entries, k) <==> exists j :: 0 <= j < |entries| && entries[j] == (k, v)
    decreases |entries|
  {
    if entries != [] {
      var p := entries[..|entries| - 1];
      BucketMembership(p, k, v);
      if v in Bucket(p, k) {
        var j :| 0 <= j < |p| && p[j] == (k, v);
        assert entries[j] == p[j];
      }
      if exists j :: 0 <= j < |entries| && entries[j] == (k, v) {
        var j :| 0 <= j < |entries| && entries[j] == (k, v);
        if j < |p| {
          assert p[j] == entries[j];
        }
      }
    }
  }

  /** The list of a key that was never inserted is empty, and only such lists are. */
  lemma {:induction false} BucketEmpty<K, V>(entries: seq<(K, V)>, k: K)
    ensures Bucket(entries, k) == [] <==> k !in Keys(entries)
    decreases |entries|
  {
    if entries != [] {
      BucketEmpty(entries[..|entries| - 1], k);
    }
  }

  /** Lists that keep their sizes keep their total. */
  lemma {:induction false} TotalSizeUnchanged<K, V>(e: seq<(K, V)>, p: seq<(K, V)>, ks: seq<K>)
    requires forall x :: x in ks ==> |Bucket(e, x)| == |Bucket(p, x)|
    ensures TotalSize(e, ks) == TotalSize(p, ks)
  {
    if ks != [] {
      TotalSizeUnchanged(e, p, ks[..|ks| - 1]);
    }
  }

  /** One list that grows by one grows the total by one. */
  lemma {:induction false} TotalSizeGrow<K, V>(e: seq<(K, V)>, p: seq<(K, V)>, ks: seq<K>, k: K)
    requires Distinct(ks) && k in ks
    requires forall x :: x in ks && x != k ==> |Bucket(e, x)| == |Bucket(p, x)|
    requires |Bucket(e, k)| == |Bucket(p, k)| + 1
    ensures TotalSize(e, ks) == TotalSize(p, ks) + 1
  {
    var init := ks[..|ks| - 1];
    if ks[|ks| - 1] == k {
      assert k !in init;
      TotalSizeUnchanged(e, p, init);
    } else {
      TotalSizeGrow(e, p, init, k);
    }
  }

  /**
   * The lists partition the entries: every entry lands in exactly one list, so
   * the sizes of all lists add up to the number of entries.
   */
  lemma {:induction false} BucketsPartition<K, V>(entries: seq<(K, V)>)
    ensures TotalSize(entries, Keys(entries)) == |entries|
    decreases |entries|
  {
    if entries != [] {
      var p := entries[..|entries| - 1];
      var k := entries[|entries| - 1].0;
      BucketsPartition(p);
      KeysDistinct(p);
      var ks := Keys(p);
      if k in ks {
        TotalSizeGrow(entries, p, ks, k);
      } else {
        BucketEmpty(p, k);
        TotalSizeUnchanged(entries, p, ks);
        assert Keys(entries) == ks + [k];
        assert (ks + [k])[..|ks|] == ks;
      }
    }
  }
}
