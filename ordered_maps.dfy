/**
 * JavaScript objects with string keys as ordered association lists: the
 * entries in insertion order, each key at most once. Assigning to an existing
 * key replaces its value where it stands; assigning to a new key appends it.
 */
module OrderedMaps {
  import opened Wrappers

  predicate DistinctKeys<V>(m: seq<(string, V)>) {
    forall i, j :: 0 <= i < j < |m| ==> m[i].0 != m[j].0
  }

  /** A list of names none of which appears twice, as the server's `SHOW` lists are. */
  predicate NoDuplicates(names: seq<string>) {
    forall i, j :: 0 <= i < j < |names| ==> names[i] != names[j]
  }

  lemma NoDuplicatesTail(names: seq<string>)
    requires names != [] && NoDuplicates(names)
    ensures NoDuplicates(names[1..])
  {
    forall i, j | 0 <= i < j < |names| - 1 ensures names[1..][i] != names[1..][j] {
      assert names[1..][i] == names[i + 1] && names[1..][j] == names[j + 1];
    }
  }

  /** An object's own enumerable properties, in `for...in` / `Object.keys` order. */
  type OMap<V> = m: seq<(string, V)> | DistinctKeys(m) witness []

  /** `Object.keys(m)`. */
  function Keys<V>(m: seq<(string, V)>): (ks: seq<string>)
    ensures |ks| == |m|
    ensures forall i :: 0 <= i < |m| ==> ks[i] == m[i].0
  {
    seq(|m|, i requires 0 <= i < |m| => m[i].0)
  }

  /** The position of key `k` in `m`, or `|m|` when it is absent. */
  function IndexOfKey<V>(m: seq<(string, V)>, k: string): (i: nat)
    ensures i <= |m|
    ensures i < |m| ==> m[i].0 == k
  {
    if m == [] then 0 else if m[0].0 == k then 0 else 1 + IndexOfKey(m[1..], k)
  }

  predicate HasKey<V>(m: seq<(string, V)>, k: string) {
    IndexOfKey(m, k) < |m|
  }

  /** `k in m`: the key is one of `Object.keys(m)`. */
  lemma {:induction false} HasKeyIff<V>(m: seq<(string, V)>, k: string)
    ensures HasKey(m, k) <==> k in Keys(m)
  {
    if m != [] && m[0].0 != k {
      HasKeyIff(m[1..], k);
      assert Keys(m) == [m[0].0] + Keys(m[1..]);
    }
  }

  /** `m[k]`: the value stored under `k`, or `None` (JavaScript's `undefined`). */
  function Get<V>(m: OMap<V>, k: string): (r: Option<V>)
    ensures r.Some? <==> HasKey(m, k)
  {
    var i := IndexOfKey(m, k);
    if i < |m| then Some(m[i].1) else None
  }

  /** `m[k]` for a key known to be present. */
  function Lookup<V>(m: OMap<V>, k: string): V
    requires HasKey(m, k)
  {
    Get(m, k).value
  }

  /** In a map with distinct keys, a key's entry is the only one with that key. */
  lemma {:induction false} GetAt<V>(m: OMap<V>, i: nat)
    requires i < |m|
    ensures IndexOfKey(m, m[i].0) == i
    ensures Get(m, m[i].0) == Some(m[i].1)
  {
    if i > 0 {
      var tail: OMap<V> := m[1..];
      assert tail[i - 1] == m[i];
      GetAt(tail, i - 1);
    }
  }

  lemma GetIff<V>(m: OMap<V>, k: string, v: V)
    ensures Get(m, k) == Some(v) <==> (k, v) in m
  {
    if (k, v) in m {
      var i :| 0 <= i < |m| && m[i] == (k, v);
      GetAt(m, i);
    }
  }

  /**
   * `m[k] = v`. What happens to the keys and to the other values is stated by
   * `PutKeys` and `PutOthersUnchanged`, so that only proofs that need those
   * facts pay for them.
   */
  function Put<V>(m: OMap<V>, k: string, v: V): (r: OMap<V>)
    ensures |r| == if HasKey(m, k) then |m| else |m| + 1
    ensures |r| > 0
    ensures Get(r, k) == Some(v)
  {
    var i := IndexOfKey(m, k);
    var r: seq<(string, V)> := if i < |m| then m[i := (k, v)] else m + [(k, v)];
    HasKeyIff(m, k);
    assert Keys(r) == if HasKey(m, k) then Keys(m) else Keys(m) + [k];
    assert DistinctKeys(r);
    GetIff(r, k, v);
    r
  }

  /** Assigning to a present key keeps the keys; assigning to a new one appends it. */
  lemma PutKeys<V>(m: OMap<V>, k: string, v: V)
    ensures Keys(Put(m, k, v)) == if HasKey(m, k) then Keys(m) else Keys(m) + [k]
  {
    var i := IndexOfKey(m, k);
    var r: seq<(string, V)> := if i < |m| then m[i := (k, v)] else m + [(k, v)];
    assert Put(m, k, v) == r;
    HasKeyIff(m, k);
    assert Keys(r) == if HasKey(m, k) then Keys(m) else Keys(m) + [k];
  }

  /** Assigning to `k` leaves the value of every other key as it was. */
  lemma PutOthersUnchanged<V>(m: OMap<V>, k: string, v: V)
    ensures forall k' :: k' != k ==> Get(Put(m, k, v), k') == Get(m, k')
  {
    var i := IndexOfKey(m, k);
    var r: OMap<V> := Put(m, k, v);
    assert r == if i < |m| then m[i := (k, v)] else m + [(k, v)];
    if i < |m| {
      forall e | e in m && e.0 != k ensures e in r {
        var j :| 0 <= j < |m| && m[j] == e;
        assert r[j] == e;
      }
      forall e | e in r && e.0 != k ensures e in m {
        var j :| 0 <= j < |r| && r[j] == e;
        assert m[j] == e;
      }
    }
    PutOthers(m, r, k);
  }

  lemma PutOthers<V>(m: OMap<V>, r: OMap<V>, k: string)
    requires forall e :: e in r && e.0 != k <==> e in m && e.0 != k
    ensures forall k' :: k' != k ==> Get(r, k') == Get(m, k')
  {
    forall k' | k' != k ensures Get(r, k') == Get(m, k') {
      if Get(r, k').Some? {
        GetIff(m, k', Get(r, k').value);
      }
      if Get(m, k').Some? {
        GetIff(r, k', Get(m, k').value);
      }
    }
  }

  /**
   * Assigning the first of a list of fresh, distinct names appends it to the
   * keys and leaves the rest of the list fresh for the grown map.
   */
  lemma PutFirstFresh<V>(m: OMap<V>, names: seq<string>, v: V)
    requires names != [] && NoDuplicates(names)
    requires forall n :: n in names ==> !HasKey(m, n)
    ensures Keys(Put(m, names[0], v)) == Keys(m) + [names[0]]
    ensures forall n :: n in names[1..] ==> !HasKey(Put(m, names[0], v), n)
  {
    PutKeys(m, names[0], v);
    PutOthersUnchanged(m, names[0], v);
    forall n | n in names[1..] ensures !HasKey(Put(m, names[0], v), n) {
      var j :| 0 <= j < |names[1..]| && names[1..][j] == n;
      assert names[j + 1] == n;
      assert Get(Put(m, names[0], v), n) == Get(m, n);
    }
  }

  /** Assigning to a key that is not yet present appends it. */
  lemma PutNew<V>(m: OMap<V>, k: string, v: V)
    requires !HasKey(m, k)
    ensures Put(m, k, v) == m + [(k, v)]
  {
  }

  /** Assigning to a key that is present replaces its value where it stands. */
  lemma PutExisting<V>(m: OMap<V>, i: nat, v: V)
    requires i < |m|
    ensures Put(m, m[i].0, v) == m[i := (m[i].0, v)]
  {
    GetAt(m, i);
  }

  /** Assigning twice to one key leaves only the second value, where the key first stood. */
  lemma PutTwice<V>(m: OMap<V>, k: string, v1: V, v2: V)
    ensures Put(Put(m, k, v1), k, v2) == Put(m, k, v2)
  {
    var i := IndexOfKey(m, k);
    if i < |m| {
      PutExisting(m, i, v1);
      PutExisting(m[i := (k, v1)], i, v2);
      PutExisting(m, i, v2);
    } else {
      PutNew(m, k, v1);
      PutExisting(m + [(k, v1)], |m|, v2);
      PutNew(m, k, v2);
    }
  }

  /** A map with distinct keys whose entries are those of `m` in the same order,
      each value transformed by `f`. */
  function MapValues<V, W>(m: OMap<V>, f: V -> W): (r: OMap<W>)
    ensures |r| == |m| && Keys(r) == Keys(m)
    ensures forall i :: 0 <= i < |m| ==> r[i] == (m[i].0, f(m[i].1))
  {
    var r := seq(|m|, i requires 0 <= i < |m| => (m[i].0, f(m[i].1)));
    assert Keys(r) == Keys(m);
    r
  }

  /** Looking a key up in a non-empty map: the first entry, or the rest. */
  lemma GetCons<V>(m: OMap<V>, k: string)
    requires m != []
    ensures Get(m, k) == if m[0].0 == k then Some(m[0].1) else Get(m[1..], k)
  {
    if m[0].0 != k {
      var r: OMap<V> := m[1..];
      if Get(r, k).Some? {
        GetIff(m, k, Get(r, k).value);
      }
      if Get(m, k).Some? {
        GetIff(r, k, Get(m, k).value);
      }
    }
  }

  /** The first `n` entries of `m` (all of them when it has fewer). */
  function Take<V>(m: OMap<V>, n: nat): (r: OMap<V>)
    ensures |r| == if n < |m| then n else |m|
    ensures r == m[..|r|]
  {
    if n < |m| then m[..n] else m
  }

  /** `{ ...a, ...b }`: the entries of `a`, then those of `b` assigned in order. */
  function Merge<V>(a: OMap<V>, b: OMap<V>): OMap<V>
    decreases |b|
  {
    if b == [] then a else Merge(Put(a, b[0].0, b[0].1), b[1..])
  }

  /** The keys of `ks` not in `known`, in order. */
  function NewKeys(known: seq<string>, ks: seq<string>): seq<string>
    decreases |ks|
  {
    if ks == [] then []
    else (if ks[0] in known then [] else [ks[0]]) + NewKeys(known, ks[1..])
  }

  /** A key of the merge holds the value of `b` when `b` has it, and that of `a` otherwise. */
  lemma {:induction false} MergeGet<V>(a: OMap<V>, b: OMap<V>, k: string)
    ensures Get(Merge(a, b), k) == if HasKey(b, k) then Get(b, k) else Get(a, k)
    decreases |b|
  {
    if b != [] {
      var rest: OMap<V> := b[1..];
      var next := Put(a, b[0].0, b[0].1);
      assert Merge(a, b) == Merge(next, rest);
      MergeGet(next, rest, k);
      PutOthersUnchanged(a, b[0].0, b[0].1);
    }
  }

  lemma {:induction false} NewKeysSkips(known: seq<string>, k: string, ks: seq<string>)
    requires k !in ks
    ensures NewKeys(known + [k], ks) == NewKeys(known, ks)
    decreases |ks|
  {
    if ks != [] {
      NewKeysSkips(known, k, ks[1..]);
    }
  }

  /** One assignment of the merge, on key lists alone. */
  lemma MergeKeysStep(known: seq<string>, k: string, rest: seq<string>, nextKeys: seq<string>, mergedKeys: seq<string>)
    requires nextKeys == if k in known then known else known + [k]
    requires k !in rest
    requires mergedKeys == nextKeys + NewKeys(nextKeys, rest)
    ensures mergedKeys == known + NewKeys(known, [k] + rest)
  {
    assert NewKeys(known, [k] + rest) == (if k in known then [] else [k]) + NewKeys(known, rest) by {
      assert ([k] + rest)[1..] == rest;
    }
    if k !in known {
      NewKeysSkips(known, k, rest);
      assert mergedKeys == known + ([k] + NewKeys(known, rest));
    }
  }

  lemma KeysTail<V>(m: OMap<V>)
    requires m != []
    ensures Keys(m) == [m[0].0] + Keys(m[1..]) && m[0].0 !in Keys(m[1..])
  {
  }

  /** The merge lists the keys of `a` in their order, then the new keys of `b` in theirs. */
  lemma {:induction false} MergeKeys<V>(a: OMap<V>, b: OMap<V>)
    ensures Keys(Merge(a, b)) == Keys(a) + NewKeys(Keys(a), Keys(b))
    decreases |b|
  {
    if b == [] {
      assert Keys(b) == [];
    } else {
      var rest: OMap<V> := b[1..];
      var k := b[0].0;
      var next := Put(a, k, b[0].1);
      var merged := Merge(next, rest);
      assert Merge(a, b) == merged;
      MergeKeys(next, rest);
      PutKeys(a, k, b[0].1);
      HasKeyIff(a, k);
      KeysTail(b);
      MergeKeysStep(Keys(a), k, Keys(rest), Keys(next), Keys(merged));
    }
  }
  /** Assigning the next entry of `m` to its first `i` entries yields its first `i + 1`. */
  lemma PutNextEntry<V>(m: OMap<V>, i: nat)
    requires i < |m|
    ensures Put(m[..i], m[i].0, m[i].1) == m[..i + 1]
  {
    var pre: OMap<V> := m[..i];
    assert !HasKey(pre, m[i].0);
    PutNew(pre, m[i].0, m[i].1);
    assert pre + [m[i]] == m[..i + 1];
  }

  /** Assigning the next transformed entry extends the transformed prefix by one entry. */
  lemma MapValuesNext<V, W>(m: OMap<V>, f: V -> W, i: nat)
    requires i < |m|
    ensures Put(MapValues(m[..i], f), m[i].0, f(m[i].1)) == MapValues(m[..i + 1], f)
  {
    var pre: OMap<V> := m[..i];
    var r := MapValues(pre, f);
    assert !HasKey(r, m[i].0);
    PutNew(r, m[i].0, f(m[i].1));
    assert r + [(m[i].0, f(m[i].1))] == MapValues(m[..i + 1], f);
  }

  /** Looking a key up in a non-empty map: the last entry, or the entries before it. */
  lemma GetSnoc<V>(m: OMap<V>, k: string)
    requires m != []
    ensures Get(m, k) == if m[|m| - 1].0 == k then Some(m[|m| - 1].1) else Get(m[..|m| - 1], k)
  {
    var n := |m| - 1;
    var pre: OMap<V> := m[..n];
    if m[n].0 == k {
      GetAt(m, n);
    } else {
      if Get(pre, k).Some? {
        GetIff(pre, k, Get(pre, k).value);
        GetIff(m, k, Get(pre, k).value);
      }
      if Get(m, k).Some? {
        GetIff(m, k, Get(m, k).value);
        GetIff(pre, k, Get(m, k).value);
      }
    }
  }

  /** No entry before the last one of a map has the last one's key. */
  lemma LastKeyFresh<V>(m: OMap<V>)
    requires m != []
    ensures !HasKey(m[..|m| - 1], m[|m| - 1].0)
    ensures Get(m[..|m| - 1], m[|m| - 1].0) == None
  {
    var pre: OMap<V> := m[..|m| - 1];
    assert forall j :: 0 <= j < |pre| ==> Keys(pre)[j] != m[|m| - 1].0;
  }

}
