/** Ruby's Hash as Operatic uses it: symbol keys, insertion order kept,
    `h[k]` answers nil for a missing key, and `h[k] = v` replaces an existing
    entry in place or appends a new one at the end. */
module Hashes {

  /** A Ruby Symbol, the key type of every payload and of every input bundle. */
  type Symbol = string

  /** The values an operation stores. `Nil` is also what a lookup of a missing key gives. */
  datatype Value = Nil | Bool(b: bool) | Int(i: int) | Str(s: string) | Sym(name: Symbol)

  type Entry = (Symbol, Value)

  /** The keys of `h`, in insertion order. */
  function Keys(h: seq<Entry>): (ks: seq<Symbol>)
    ensures |ks| == |h|
    ensures forall i :: 0 <= i < |h| ==> ks[i] == h[i].0
  {
    seq(|h|, i requires 0 <= i < |h| => h[i].0)
  }

  predicate UniqueKeys(h: seq<Entry>) {
    forall i, j :: 0 <= i < j < |h| ==> h[i].0 != h[j].0
  }

  /** A Ruby Hash: no key occurs twice. */
  type Hash = h: seq<Entry> | UniqueKeys(h) witness []

  /** `h[k]`: the value stored under `k`, or nil. */
  function Fetch(h: Hash, k: Symbol): Value
    decreases |h|
  {
    if h == [] then Nil
    else if h[0].0 == k then h[0].1
    else Fetch(h[1..], k)
  }

  /** `h[k] = v`: an existing key keeps its position, a new key goes last. */
  function Store(h: Hash, k: Symbol, v: Value): (r: Hash)
    ensures Keys(r) == if k in Keys(h) then Keys(h) else Keys(h) + [k]
    decreases |h|
  {
    if h == [] then [(k, v)]
    else if h[0].0 == k then [(k, v)] + h[1..]
    else
      var rest := Store(h[1..], k, v);
      assert Keys(h) == [h[0].0] + Keys(h[1..]);
      ConsKeys(h[0], rest);
      [h[0]] + rest
  }

  /** An entry put in front of a hash that does not hold its key leaves the keys unique. */
  lemma ConsKeys(e: Entry, t: Hash)
    requires e.0 !in Keys(t)
    ensures UniqueKeys([e] + t) && Keys([e] + t) == [e.0] + Keys(t)
  {
    assert forall j :: 0 <= j < |t| ==> t[j].0 == Keys(t)[j];
  }

  /** `src.each { |key, value| h[key] = value }`: every entry of `src` stored into `h`, in order. */
  function StoreAll(h: Hash, src: seq<Entry>): Hash
    decreases |src|
  {
    if src == [] then h
    else
      var last := src[|src| - 1];
      Store(StoreAll(h, src[..|src| - 1]), last.0, last.1)
  }

  /** After storing `src` into `h`, the keys of `h` keep their positions at the
      front, and the keys are those of `h` and of `src`. */
  lemma {:induction false} StoreAllKeys(h: Hash, src: seq<Entry>)
    ensures |StoreAll(h, src)| >= |h| && Keys(StoreAll(h, src))[..|h|] == Keys(h)
    ensures forall k :: k in Keys(StoreAll(h, src)) <==> k in Keys(h) || k in Keys(src)
    decreases |src|
  {
    if src != [] {
      var prefix, last := src[..|src| - 1], src[|src| - 1];
      var before := StoreAll(h, prefix);
      StoreAllKeys(h, prefix);
      assert Keys(src) == Keys(prefix) + [last.0];
      assert Keys(StoreAll(h, src))[..|h|] == Keys(before)[..|h|];
      forall j
        ensures j in Keys(StoreAll(h, src)) <==> j in Keys(h) || j in Keys(src)
      {
        StoreKeys(before, last.0, last.1, j);
      }
    }
  }

  /** The order-free view of a Hash: Ruby compares two hashes by this view. */
  function ToMap(h: Hash): (m: map<Symbol, Value>)
    ensures forall k :: k in m <==> k in Keys(h)
  {
    map k | k in Keys(h) :: Fetch(h, k)
  }

  /** Looking up a key that was never stored does not fail: it gives nil. */
  lemma {:induction false} FetchMissing(h: Hash, k: Symbol)
    requires k !in Keys(h)
    ensures Fetch(h, k) == Nil
    decreases |h|
  {
    if h != [] {
      assert Keys(h)[0] == h[0].0;
      assert Keys(h[1..]) == Keys(h)[1..];
      FetchMissing(h[1..], k);
    }
  }

  /** After `h[k] = v`, `h[k]` is `v` and every other key keeps its value. */
  lemma {:induction false} FetchStore(h: Hash, k: Symbol, v: Value, j: Symbol)
    ensures Fetch(Store(h, k, v), j) == if j == k then v else Fetch(h, j)
    decreases |h|
  {
    if h != [] && h[0].0 != k {
      FetchStore(h[1..], k, v, j);
    }
  }

  /** In the map view, `h[k] = v` is a map update. */
  lemma ToMapStore(h: Hash, k: Symbol, v: Value)
    ensures ToMap(Store(h, k, v)) == ToMap(h)[k := v]
  {
    forall j
      ensures j in ToMap(Store(h, k, v)) <==> j in ToMap(h)[k := v]
      ensures j in ToMap(h)[k := v] ==> ToMap(Store(h, k, v))[j] == ToMap(h)[k := v][j]
    {
      FetchStore(h, k, v, j);
      StoreKeys(h, k, v, j);
    }
  }

  /** After `h[k] = v` the hash holds the keys it held, and `k`. */
  lemma StoreKeys(h: Hash, k: Symbol, v: Value, j: Symbol)
    ensures j in Keys(Store(h, k, v)) <==> j in Keys(h) || j == k
  {
    if k !in Keys(h) {
      assert Keys(Store(h, k, v)) == Keys(h) + [k];
    }
  }

  /** Storing a key the hash does not hold appends it. */
  lemma {:induction false} StoreNew(h: Hash, k: Symbol, v: Value)
    requires k !in Keys(h)
    ensures Store(h, k, v) == h + [(k, v)]
    decreases |h|
  {
    if h != [] {
      assert Keys(h)[0] == h[0].0;
      var rest: Hash := h[1..];
      assert Keys(rest) == Keys(h)[1..];
      StoreNew(rest, k, v);
      calc {
        Store(h, k, v);
        [h[0]] + Store(rest, k, v);
        [h[0]] + (rest + [(k, v)]);
        { assert [h[0]] + rest == h; }
        h + [(k, v)];
      }
    }
  }

  /** The last key of a hash does not occur before it. */
  lemma LastKeyIsNew(h: Hash)
    requires h != []
    ensures h[|h| - 1].0 !in Keys(h[..|h| - 1])
  {
    var prefix := h[..|h| - 1];
    assert forall i :: 0 <= i < |prefix| ==> Keys(prefix)[i] == h[i].0;
  }

  /** Copying a hash entry by entry into an empty one gives back the same hash. */
  lemma {:induction false} StoreAllIntoEmpty(h: Hash)
    ensures StoreAll([], h) == h
    decreases |h|
  {
    if h != [] {
      var prefix := h[..|h| - 1];
      var last := h[|h| - 1];
      StoreAllIntoEmpty(prefix);
      LastKeyIsNew(h);
      StoreNew(prefix, last.0, last.1);
      assert prefix + [last] == h;
    }
  }

  /** A lookup in `h + [e]`, where `e` holds a key `h` does not. */
  lemma {:induction false} FetchAppend(h: Hash, e: Entry, j: Symbol)
    requires e.0 !in Keys(h)
    ensures UniqueKeys(h + [e])
    ensures Fetch(h + [e], j) == if j in Keys(h) then Fetch(h, j) else if j == e.0 then e.1 else Nil
    decreases |h|
  {
    assert Keys(h + [e]) == Keys(h) + [e.0];
    if h == [] {
    } else {
      assert Keys(h)[0] == h[0].0;
      assert Keys(h[1..]) == Keys(h)[1..];
      FetchAppend(h[1..], e, j);
      assert (h + [e])[1..] == h[1..] + [e];
    }
  }

  /** `merge`'s lookup: a key of `src` reads from `src`, any other key reads from `h`. */
  lemma {:induction false} FetchStoreAll(h: Hash, src: Hash, j: Symbol)
    ensures Fetch(StoreAll(h, src), j) == if j in Keys(src) then Fetch(src, j) else Fetch(h, j)
    decreases |src|
  {
    if src != [] {
      var prefix: Hash := src[..|src| - 1];
      var last := src[|src| - 1];
      assert src == prefix + [last];
      assert Keys(src) == Keys(prefix) + [last.0];
      LastKeyIsNew(src);
      FetchStoreAll(h, prefix, j);
      FetchStore(StoreAll(h, prefix), last.0, last.1, j);
      FetchAppend(prefix, last, j);
    }
  }

  /** In the map view, storing all of `src` into `h` is the map union in which `src` wins. */
  lemma ToMapStoreAll(h: Hash, src: Hash)
    ensures ToMap(StoreAll(h, src)) == ToMap(h) + ToMap(src)
  {
    StoreAllKeys(h, src);
    var l, r := ToMap(StoreAll(h, src)), ToMap(h) + ToMap(src);
    forall j | j in l
      ensures j in r && l[j] == r[j]
    {
      FetchStoreAll(h, src, j);
    }
  }
}
