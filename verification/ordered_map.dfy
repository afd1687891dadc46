/** An insertion-ordered dictionary: the JavaScript `Map` and the Python
    `dict` the source keeps its registries in. Setting a key that is already
    present replaces its value where it stands; a new key goes to the end, so
    iterating the values follows first-insertion order. */
module OrderedMap {
  import opened Wrappers

  datatype Entry<K, V> = Entry(key: K, value: V)

  function Keys<K, V>(r: seq<Entry<K, V>>): (ks: set<K>)
  {
    set i | 0 <= i < |r| :: r[i].key
  }

  predicate UniqueKeys<K(==), V>(r: seq<Entry<K, V>>) {
    forall i, j :: 0 <= i < j < |r| ==> r[i].key != r[j].key
  }

  lemma KeysCons<K, V>(e: Entry<K, V>, rest: seq<Entry<K, V>>)
    ensures Keys([e] + rest) == {e.key} + Keys(rest)
  {
    var r := [e] + rest;
    assert r[0] == e;
    forall k | k in Keys(r) ensures k in {e.key} + Keys(rest) {
      var i :| 0 <= i < |r| && r[i].key == k;
      if i > 0 { assert rest[i - 1].key == k; }
    }
    forall k | k in Keys(rest) ensures k in Keys(r) {
      var i :| 0 <= i < |rest| && rest[i].key == k;
      assert r[i + 1].key == k;
    }
  }

  lemma UniqueKeysCons<K, V>(e: Entry<K, V>, rest: seq<Entry<K, V>>)
    ensures UniqueKeys([e] + rest) <==> e.key !in Keys(rest) && UniqueKeys(rest)
  {
    var r := [e] + rest;
    assert forall i :: 0 < i < |r| ==> r[i] == rest[i - 1];
    if UniqueKeys(r) {
      forall i | 0 <= i < |rest| ensures rest[i].key != e.key {
        assert r[0].key != r[i + 1].key;
      }
      forall i, j | 0 <= i < j < |rest| ensures rest[i].key != rest[j].key {
        assert r[i + 1].key != r[j + 1].key;
      }
    }
    if e.key !in Keys(rest) && UniqueKeys(rest) {
      forall i, j | 0 <= i < j < |r| ensures r[i].key != r[j].key {
        if i == 0 { assert r[j].key == rest[j - 1].key; }
      }
    }
  }

  lemma GetCons<K, V>(e: Entry<K, V>, rest: seq<Entry<K, V>>, k: K)
    ensures Get([e] + rest, k) == if e.key == k then Some(e.value) else Get(rest, k)
  {
    assert ([e] + rest)[0] == e;
    assert ([e] + rest)[1..] == rest;
  }

  /** `map.get(k)`: the value under `k`, or `None` when `k` was never set. */
  function Get<K(==), V>(r: seq<Entry<K, V>>, k: K): (o: Option<V>)
    ensures o.Some? <==> k in Keys(r)
    ensures o.Some? ==> Entry(k, o.value) in r
    decreases |r|
  {
    if |r| == 0 then None
    else if r[0].key == k then Some(r[0].value)
    else
      KeysCons(r[0], r[1..]);
      assert [r[0]] + r[1..] == r;
      Get(r[1..], k)
  }

  /** What setting `k` to `v` in `r` must give. */
  ghost predicate PutSpec<K(!new), V>(r: seq<Entry<K, V>>, k: K, v: V, r': seq<Entry<K, V>>) {
    && Get(r', k) == Some(v)
    && (forall k' :: k' != k ==> Get(r', k') == Get(r, k'))
    && Keys(r') == Keys(r) + {k}
    && |r'| == (if k in Keys(r) then |r| else |r| + 1)
    && (UniqueKeys(r) ==> UniqueKeys(r'))
  }

  /** `map.set(k, v)`. */
  function Put<K(==,!new), V>(r: seq<Entry<K, V>>, k: K, v: V): (r': seq<Entry<K, V>>)
    ensures Get(r', k) == Some(v)
    ensures forall k' :: k' != k ==> Get(r', k') == Get(r, k')
    ensures Keys(r') == Keys(r) + {k}
    ensures |r'| == if k in Keys(r) then |r| else |r| + 1
    ensures UniqueKeys(r) ==> UniqueKeys(r')
    decreases |r|
  {
    if |r| == 0 then
      KeysCons(Entry(k, v), r);
      assert [Entry(k, v)] + r == [Entry(k, v)];
      [Entry(k, v)]
    else if r[0].key == k then
      PutFront(r, k, v);
      [Entry(k, v)] + r[1..]
    else
      var rest := Put(r[1..], k, v);
      PutBehind(r, k, v, rest);
      [r[0]] + rest
  }

  /** Setting the key of the first entry replaces that entry. */
  lemma PutFront<K(!new), V>(r: seq<Entry<K, V>>, k: K, v: V)
    requires |r| > 0 && r[0].key == k
    ensures PutSpec(r, k, v, [Entry(k, v)] + r[1..])
  {
    assert [r[0]] + r[1..] == r;
    KeysCons(r[0], r[1..]);
    UniqueKeysCons(r[0], r[1..]);
    KeysCons(Entry(k, v), r[1..]);
    UniqueKeysCons(Entry(k, v), r[1..]);
    forall k' | k' != k ensures Get([Entry(k, v)] + r[1..], k') == Get(r, k') {
      GetCons(Entry(k, v), r[1..], k');
      GetCons(r[0], r[1..], k');
    }
    GetCons(Entry(k, v), r[1..], k);
  }

  /** Setting any other key keeps the first entry in front of the rest, set. */
  lemma PutBehind<K(!new), V>(r: seq<Entry<K, V>>, k: K, v: V, rest: seq<Entry<K, V>>)
    requires |r| > 0 && r[0].key != k
    requires PutSpec(r[1..], k, v, rest)
    ensures PutSpec(r, k, v, [r[0]] + rest)
  {
    assert [r[0]] + r[1..] == r;
    KeysCons(r[0], r[1..]);
    UniqueKeysCons(r[0], r[1..]);
    KeysCons(r[0], rest);
    UniqueKeysCons(r[0], rest);
    forall k' ensures Get([r[0]] + rest, k') == (if k' == k then Some(v) else Get(r, k')) {
      GetCons(r[0], rest, k');
      GetCons(r[0], r[1..], k');
    }
  }

  /** The position of `k`, if it is present. */
  function IndexOf<K(==), V>(r: seq<Entry<K, V>>, k: K): (o: Option<nat>)
    ensures o.Some? ==> o.value < |r| && r[o.value].key == k
    ensures o.Some? ==> forall j :: 0 <= j < o.value ==> r[j].key != k
    ensures o.None? ==> forall j :: 0 <= j < |r| ==> r[j].key != k
    decreases |r|
  {
    if |r| == 0 then None
    else if r[0].key == k then Some(0)
    else
      var o := IndexOf(r[1..], k);
      if o.Some? then Some(o.value + 1) else None
  }

  lemma PutStep<K(!new), V>(r: seq<Entry<K, V>>, k: K, v: V)
    requires |r| > 0 && r[0].key != k
    ensures Put(r, k, v) == [r[0]] + Put(r[1..], k, v)
  {
  }

  lemma PutHead<K(!new), V>(r: seq<Entry<K, V>>, k: K, v: V)
    requires |r| > 0 && r[0].key == k
    ensures Put(r, k, v) == r[0 := Entry(k, v)]
  {
    assert [Entry(k, v)] + r[1..] == r[0 := Entry(k, v)];
  }

  lemma IndexOfStep<K, V>(r: seq<Entry<K, V>>, k: K)
    requires |r| > 0 && r[0].key != k
    ensures IndexOf(r, k).Some? <==> IndexOf(r[1..], k).Some?
    ensures IndexOf(r, k).Some? ==> IndexOf(r, k).value == IndexOf(r[1..], k).value + 1
  {
  }

  /** Setting a present key overwrites its entry where it stands, ... */
  lemma {:induction false} PutPresent<K(!new), V>(r: seq<Entry<K, V>>, k: K, v: V)
    requires IndexOf(r, k).Some?
    ensures Put(r, k, v) == r[IndexOf(r, k).value := Entry(k, v)]
  {
    PutAt(r, k, v, IndexOf(r, k).value);
  }

  lemma {:induction false} PutAt<K(!new), V>(r: seq<Entry<K, V>>, k: K, v: V, i: nat)
    requires i < |r| && r[i].key == k
    requires forall j :: 0 <= j < i ==> r[j].key != k
    ensures Put(r, k, v) == r[i := Entry(k, v)]
    decreases i
  {
    if i == 0 {
      PutHead(r, k, v);
    } else {
      var tail := r[1..];
      assert forall j :: 0 <= j < i - 1 ==> tail[j] == r[j + 1];
      calc {
        Put(r, k, v);
        == { PutStep(r, k, v); }
        [r[0]] + Put(tail, k, v);
        == { PutAt(tail, k, v, i - 1); }
        [r[0]] + tail[i - 1 := Entry(k, v)];
        == { ConsUpdate(r, i, Entry(k, v)); }
        r[i := Entry(k, v)];
      }
    }
  }

  /** Updating past the head of a sequence updates its tail. */
  lemma ConsUpdate<T>(r: seq<T>, i: nat, e: T)
    requires 0 < i < |r|
    ensures [r[0]] + r[1..][i - 1 := e] == r[i := e]
  {
  }

  /** ... and a new key is appended, so the order of first insertion is kept. */
  lemma {:induction false} PutAbsent<K(!new), V>(r: seq<Entry<K, V>>, k: K, v: V)
    requires IndexOf(r, k).None?
    ensures Put(r, k, v) == r + [Entry(k, v)]
    decreases |r|
  {
    if |r| > 0 {
      PutStep(r, k, v);
      IndexOfStep(r, k);
      PutAbsent(r[1..], k, v);
      assert [r[0]] + (r[1..] + [Entry(k, v)]) == r + [Entry(k, v)];
    }
  }

  /** `Get` reads the entry at the key's first position. */
  lemma {:induction false} GetAtFirst<K, V>(r: seq<Entry<K, V>>, k: K)
    requires IndexOf(r, k).Some?
    ensures Get(r, k) == Some(r[IndexOf(r, k).value].value)
    decreases |r|
  {
    if r[0].key != k {
      IndexOfStep(r, k);
      GetAtFirst(r[1..], k);
    }
  }

  /** Setting a key to the value it already has changes nothing. */
  lemma PutUnchanged<K(!new), V>(r: seq<Entry<K, V>>, k: K)
    requires k in Keys(r)
    ensures Put(r, k, Get(r, k).value) == r
  {
    assert IndexOf(r, k).Some? by {
      var j :| 0 <= j < |r| && r[j].key == k;
    }
    var i := IndexOf(r, k).value;
    GetAtFirst(r, k);
    PutPresent(r, k, Get(r, k).value);
    assert r[i := Entry(k, Get(r, k).value)] == r;
  }

  /** `Array.from(map.values())`. */
  function Values<K, V>(r: seq<Entry<K, V>>): (vs: seq<V>)
    ensures |vs| == |r|
    ensures forall i :: 0 <= i < |r| ==> vs[i] == r[i].value
  {
    seq(|r|, i requires 0 <= i < |r| => r[i].value)
  }

  lemma ValuesAppend<K, V>(r: seq<Entry<K, V>>, e: Entry<K, V>)
    ensures Values(r + [e]) == Values(r) + [e.value]
  {
    assert forall i :: 0 <= i < |r| ==> (r + [e])[i] == r[i];
  }

  lemma ValuesUpdate<K, V>(r: seq<Entry<K, V>>, i: nat, e: Entry<K, V>)
    requires i < |r|
    ensures Values(r[i := e]) == Values(r)[i := e.value]
  {
  }

  /** With distinct keys, the entry count is the number of keys (`map.size`). */
  lemma {:induction false} UniqueKeysCardinality<K, V>(r: seq<Entry<K, V>>)
    requires UniqueKeys(r)
    ensures |Keys(r)| == |r|
    decreases |r|
  {
    if |r| > 0 {
      var rest := r[1..];
      assert UniqueKeys(rest);
      UniqueKeysCardinality(rest);
      KeysCons(r[0], rest);
      assert [r[0]] + rest == r;
      assert r[0].key !in Keys(rest);
    }
  }
}
