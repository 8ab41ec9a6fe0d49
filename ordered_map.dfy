/** PHP's string-keyed array as an insertion-ordered list of (key, value)
    pairs: writing `$a[$k] = $v` overwrites the value in place when `$k` is
    present and appends the pair otherwise. */
module OrderedMap {
  import opened Wrappers

  type Entries<V> = seq<(string, V)>

  /** The keys, in array order. */
  function Keys<V>(m: Entries<V>): seq<string>
  {
    seq(|m|, i requires 0 <= i < |m| => m[i].0)
  }

  function KeySet<V>(m: Entries<V>): set<string>
  {
    set i | 0 <= i < |m| :: m[i].0
  }

  /** No key occurs twice: every PHP array has this shape. */
  predicate DistinctKeys<V>(m: Entries<V>)
  {
    forall i, j :: 0 <= i < j < |m| ==> m[i].0 != m[j].0
  }

  /** The position of the first pair with key `k`. */
  function IndexOf<V>(m: Entries<V>, k: string): (r: Option<nat>)
    ensures r.Some? ==> r.value < |m| && m[r.value].0 == k
    ensures r.Some? ==> forall j :: 0 <= j < r.value ==> m[j].0 != k
    ensures r.None? <==> k !in KeySet(m)
  {
    if |m| == 0 then None
    else if m[0].0 == k then Some(0)
    else
      var r := IndexOf(m[1..], k);
      assert KeySet(m) == {m[0].0} + KeySet(m[1..]) by {
        forall x | x in KeySet(m) ensures x in {m[0].0} + KeySet(m[1..]) {
          var i :| 0 <= i < |m| && m[i].0 == x;
          if i > 0 { assert m[1..][i - 1].0 == x; }
        }
      }
      if r.None? then None else Some(r.value + 1)
  }

  /** `$m[$k]` (null when absent). */
  function Get<V>(m: Entries<V>, k: string): Option<V>
  {
    match IndexOf(m, k)
    case None => None
    case Some(i) => Some(m[i].1)
  }

  /** `$m[$k] = $v`: overwrite in place, or append. */
  function Put<V>(m: Entries<V>, k: string, v: V): (r: Entries<V>)
    ensures Get(r, k) == Some(v)
    ensures forall k' :: k' != k ==> Get(r, k') == Get(m, k')
    ensures KeySet(r) == KeySet(m) + {k}
    ensures k in KeySet(m) ==> Keys(r) == Keys(m)
    ensures k !in KeySet(m) ==> r == m + [(k, v)]
    ensures DistinctKeys(m) ==> DistinctKeys(r)
    ensures forall i :: 0 <= i < |r| ==> r[i] == (k, v) || r[i] in m
  {
    match IndexOf(m, k)
    case None =>
      AppendEntry(m, k, v);
      m + [(k, v)]
    case Some(i) =>
      OverwriteEntry(m, k, v, i);
      m[i := (k, v)]
  }

  /** Appending an entry for an absent key. */
  lemma AppendEntry<V>(m: Entries<V>, k: string, v: V)
    requires k !in KeySet(m)
    ensures var r := m + [(k, v)];
      && Get(r, k) == Some(v)
      && (forall k' :: k' != k ==> Get(r, k') == Get(m, k'))
      && KeySet(r) == KeySet(m) + {k}
      && (DistinctKeys(m) ==> DistinctKeys(r))
  {
    var r := m + [(k, v)];
    KeySetSnoc(m, (k, v));
    assert r[|m|].0 == k;
    assert IndexOf(r, k) == Some(|m|) by {
      var ir := IndexOf(r, k);
      if ir.Some? && ir.value < |m| {
        assert false;
      }
    }
    forall k' | k' != k ensures Get(r, k') == Get(m, k') {
      var a, b := IndexOf(r, k'), IndexOf(m, k');
      if b.Some? { assert r[b.value] == m[b.value]; }
      if a.Some? { assert a.value < |m|; assert r[a.value] == m[a.value]; }
    }
  }

  /** Overwriting the entry of a present key, in place. */
  lemma OverwriteEntry<V>(m: Entries<V>, k: string, v: V, i: nat)
    requires IndexOf(m, k) == Some(i)
    ensures i < |m|
    ensures var r := m[i := (k, v)];
      && Get(r, k) == Some(v)
      && (forall k' :: k' != k ==> Get(r, k') == Get(m, k'))
      && Keys(r) == Keys(m)
      && KeySet(r) == KeySet(m)
  {
    var r := m[i := (k, v)];
    assert Keys(r) == Keys(m);
    assert KeySet(r) == KeySet(m) by {
      forall x | x in KeySet(r) ensures x in KeySet(m) {
        var j :| 0 <= j < |r| && r[j].0 == x;
        assert m[j].0 == x;
      }
      forall x | x in KeySet(m) ensures x in KeySet(r) {
        var j :| 0 <= j < |m| && m[j].0 == x;
        assert r[j].0 == x;
      }
    }
    assert r[i].0 == k;
    assert k in KeySet(r);
    assert IndexOf(r, k) == Some(i);
    forall k' | k' != k ensures Get(r, k') == Get(m, k') {
      var a, b := IndexOf(r, k'), IndexOf(m, k');
      if b.Some? { assert r[b.value] == m[b.value]; }
      if a.Some? { assert r[a.value] == m[a.value]; }
    }
  }

  /** Writing the pairs of `es` one after the other into `m`. */
  function PutAll<V>(m: Entries<V>, es: Entries<V>): Entries<V>
  {
    if es == [] then m
    else
      var last := es[|es| - 1];
      Put(PutAll(m, es[..|es| - 1]), last.0, last.1)
  }

  /** The key order PHP produces: the keys of `ks`, then each key of `xs`
      at its first occurrence, later occurrences keeping that position. */
  function FirstOccurrences(ks: seq<string>, xs: seq<string>): seq<string>
  {
    if xs == [] then ks
    else
      var p := FirstOccurrences(ks, xs[..|xs| - 1]);
      if xs[|xs| - 1] in p then p else p + [xs[|xs| - 1]]
  }

  lemma KeySetSnoc<V>(m: Entries<V>, e: (string, V))
    ensures KeySet(m + [e]) == KeySet(m) + {e.0}
  {
    var r := m + [e];
    forall x | x in KeySet(r) ensures x in KeySet(m) + {e.0} {
      var i :| 0 <= i < |r| && r[i].0 == x;
      if i < |m| { assert m[i].0 == x; }
    }
    assert r[|m|].0 == e.0;
    forall x | x in KeySet(m) ensures x in KeySet(r) {
      var i :| 0 <= i < |m| && m[i].0 == x;
      assert r[i].0 == x;
    }
  }

  /** Writing pairs keeps the keys distinct. */
  lemma {:induction false} PutAllDistinct<V>(m: Entries<V>, es: Entries<V>)
    requires DistinctKeys(m)
    ensures DistinctKeys(PutAll(m, es))
  {
    if es != [] {
      PutAllDistinct(m, es[..|es| - 1]);
    }
  }

  /** The keys after the writes are the keys before plus every key written. */
  lemma {:induction false} PutAllKeySet<V>(m: Entries<V>, es: Entries<V>)
    ensures KeySet(PutAll(m, es)) == KeySet(m) + KeySet(es)
  {
    if es != [] {
      var init := es[..|es| - 1];
      PutAllKeySet(m, init);
      KeySetSnoc(init, es[|es| - 1]);
      assert init + [es[|es| - 1]] == es;
    }
  }

  /** The value under a key is the one of the LAST pair that wrote it. */
  lemma {:induction false} PutAllLastWins<V>(m: Entries<V>, es: Entries<V>, i: nat)
    requires i < |es|
    requires forall j :: i < j < |es| ==> es[j].0 != es[i].0
    ensures Get(PutAll(m, es), es[i].0) == Some(es[i].1)
  {
    if i < |es| - 1 {
      var init := es[..|es| - 1];
      assert init[i] == es[i];
      PutAllLastWins(m, init, i);
    }
  }

  /** A key nobody wrote keeps its old value (or stays absent). */
  lemma {:induction false} PutAllUntouched<V>(m: Entries<V>, es: Entries<V>, k: string)
    requires forall j :: 0 <= j < |es| ==> es[j].0 != k
    ensures Get(PutAll(m, es), k) == Get(m, k)
  {
    if es != [] {
      PutAllUntouched(m, es[..|es| - 1], k);
    }
  }

  /** Keys appear in the order of their first write; overwriting does not
      move a key. */
  lemma {:induction false} PutAllOrder<V>(m: Entries<V>, es: Entries<V>)
    ensures Keys(PutAll(m, es)) == FirstOccurrences(Keys(m), Keys(es))
  {
    if es != [] {
      var init := es[..|es| - 1];
      PutAllOrder(m, init);
      assert Keys(init) == Keys(es)[..|es| - 1];
      var r := PutAll(m, init);
      var k := es[|es| - 1].0;
      assert k in KeySet(r) <==> k in Keys(r) by {
        if k in KeySet(r) {
          var j :| 0 <= j < |r| && r[j].0 == k;
          assert Keys(r)[j] == k;
        }
        if k in Keys(r) {
          var j :| 0 <= j < |r| && Keys(r)[j] == k;
          assert r[j].0 == k;
        }
      }
    }
  }

  /** Every pair of the result is a pair of `m` or one of the writes. */
  lemma {:induction false} PutAllEntriesFrom<V>(m: Entries<V>, es: Entries<V>)
    ensures forall i :: 0 <= i < |PutAll(m, es)| ==> PutAll(m, es)[i] in m || PutAll(m, es)[i] in es
  {
    if es != [] {
      var init := es[..|es| - 1];
      PutAllEntriesFrom(m, init);
      forall i | 0 <= i < |PutAll(m, es)|
        ensures PutAll(m, es)[i] in m || PutAll(m, es)[i] in es
      {
        var x := PutAll(m, es)[i];
        if x != es[|es| - 1] {
          assert x in PutAll(m, init);
          if x in init {
            var j :| 0 <= j < |init| && init[j] == x;
            assert es[j] == x;
          }
        }
      }
    }
  }
}
