/**
 Insertion-ordered maps, in the manner of Python's `OrderedDict`: an association
 list whose keys appear in the order they were first inserted. Assigning to a key
 that is already present replaces its value where it stands; assigning to a new
 key appends it.
 */
module OrderedMaps {
  import opened Wrappers

  type OrderedMap<K, V> = seq<(K, V)>

  /** The keys of `m`, in iteration order. */
  function Keys<K, V>(m: OrderedMap<K, V>): (ks: seq<K>)
    ensures |ks| == |m|
    ensures forall i :: 0 <= i < |m| ==> ks[i] == m[i].0
  {
    if |m| == 0 then [] else [m[0].0] + Keys(m[1..])
  }

  function Values<K, V>(m: OrderedMap<K, V>): (vs: seq<V>)
    ensures |vs| == |m|
    ensures forall i :: 0 <= i < |m| ==> vs[i] == m[i].1
  {
    seq(|m|, i requires 0 <= i < |m| => m[i].1)
  }

  /** No element occurs twice in `xs`. */
  predicate NoDuplicates<T(==)>(xs: seq<T>)
  {
    forall i, j :: 0 <= i < j < |xs| ==> xs[i] != xs[j]
  }

  /** No key occurs twice in `m`: the invariant every `OrderedDict` keeps. */
  predicate UniqueKeys<K(==), V>(m: OrderedMap<K, V>)
  {
    NoDuplicates(Keys(m))
  }

  /** The position of the first occurrence of `k` in `ks`, or -1 when there is none. */
  function IndexOf<K(==)>(ks: seq<K>, k: K): (i: int)
    ensures -1 <= i < |ks|
    ensures i >= 0 ==> ks[i] == k
    ensures i < 0 <==> k !in ks
    ensures forall j :: 0 <= j < i ==> ks[j] != k
  {
    if |ks| == 0 then -1
    else if ks[0] == k then 0
    else
      var i := IndexOf(ks[1..], k);
      if i < 0 then -1 else i + 1
  }

  /** The position of the last occurrence of `k` in `ks`, or -1 when there is none. */
  function LastIndexOf<K(==)>(ks: seq<K>, k: K): (i: int)
    ensures -1 <= i < |ks|
    ensures i >= 0 ==> ks[i] == k
    ensures i < 0 <==> k !in ks
    ensures forall j :: i < j < |ks| ==> ks[j] != k
  {
    if |ks| == 0 then -1
    else if ks[|ks| - 1] == k then |ks| - 1
    else LastIndexOf(ks[..|ks| - 1], k)
  }

  /** Looks `k` up in `m` (Python's `k in m` and `m[k]` together). */
  function Get<K(==), V>(m: OrderedMap<K, V>, k: K): (r: Option<V>)
    ensures r.Some? <==> k in Keys(m)
    ensures r.Some? ==> (k, r.value) in m
  {
    var i := IndexOf(Keys(m), k);
    if i < 0 then None else Some(m[i].1)
  }

  /** `m[k] = v`: an existing key keeps its position, a new key goes last. */
  function Put<K(==, !new), V>(m: OrderedMap<K, V>, k: K, v: V): (r: OrderedMap<K, V>)
    ensures k in Keys(m) ==> Keys(r) == Keys(m)
    ensures k !in Keys(m) ==> r == m + [(k, v)]
    ensures k !in Keys(m) ==> Keys(r) == Keys(m) + [k]
    ensures Get(r, k) == Some(v)
    ensures forall k' :: k' != k ==> Get(r, k') == Get(m, k')
    ensures forall e :: e in r ==> e == (k, v) || e in m
    ensures UniqueKeys(m) ==> UniqueKeys(r)
  {
    var i := IndexOf(Keys(m), k);
    if i < 0 then
      KeysAppend(m, [(k, v)]);
      IndexOfAppendOther(Keys(m), k);
      m + [(k, v)]
    else
      UpdateKeepsOthers(m, i, k, v);
      m[i := (k, v)]
  }

  /** In a map without repeated keys, each pair is what its key looks up. */
  lemma GetAt<K, V>(m: OrderedMap<K, V>, i: int)
    requires UniqueKeys(m) && 0 <= i < |m|
    ensures Get(m, m[i].0) == Some(m[i].1)
  {
    IndexOfUnique(Keys(m), m[i].0, i);
  }

  /** Replacing the pair at the position of `k` changes no other key's value. */
  lemma UpdateKeepsOthers<K, V>(m: OrderedMap<K, V>, i: int, k: K, v: V)
    requires 0 <= i < |m| && m[i].0 == k
    ensures Keys(m[i := (k, v)]) == Keys(m)
    ensures forall k' :: k' != k ==> Get(m[i := (k, v)], k') == Get(m, k')
  {
    var r := m[i := (k, v)];
    assert Keys(r) == Keys(m);
    forall k' | k' != k
      ensures Get(r, k') == Get(m, k')
    {
      var j := IndexOf(Keys(m), k');
      if j >= 0 {
        assert j != i;
      }
    }
  }

  /** `IndexOf` returns the first occurrence and no other position. */
  lemma IndexOfUnique<K>(ks: seq<K>, k: K, i: int)
    requires 0 <= i < |ks| && ks[i] == k
    requires forall j :: 0 <= j < i ==> ks[j] != k
    ensures IndexOf(ks, k) == i
  {
  }

  /** Appending `k` moves no other element's first occurrence. */
  lemma IndexOfAppendOther<K>(ks: seq<K>, k: K)
    ensures forall k' :: k' != k ==> IndexOf(ks + [k], k') == IndexOf(ks, k')
  {
    forall k' | k' != k
      ensures IndexOf(ks + [k], k') == IndexOf(ks, k')
    {
      var b := IndexOf(ks, k');
      if b >= 0 {
        IndexOfUnique(ks + [k], k', b);
      } else {
        assert k' !in ks + [k];
      }
    }
  }

  /** Assigns every pair of `ps` to `m`, first to last. */
  function PutAll<K(==, !new), V>(m: OrderedMap<K, V>, ps: seq<(K, V)>): (r: OrderedMap<K, V>)
    ensures forall e :: e in r ==> e in m || e in ps
    ensures UniqueKeys(m) ==> UniqueKeys(r)
  {
    if |ps| == 0 then m
    else
      var last := ps[|ps| - 1];
      Put(PutAll(m, ps[..|ps| - 1]), last.0, last.1)
  }

  /**
   `ks` followed by the elements of `xs` that `ks` lacks, each once, in the order
   of their first occurrence in `xs`.
   */
  function AddNew<T(==, !new)>(ks: seq<T>, xs: seq<T>): (r: seq<T>)
    ensures forall x :: x in r <==> x in ks || x in xs
    ensures |ks| <= |r| && r[..|ks|] == ks
    ensures NoDuplicates(ks) ==> NoDuplicates(r)
  {
    if |xs| == 0 then ks
    else
      var before := AddNew(ks, xs[..|xs| - 1]);
      if xs[|xs| - 1] in before then before else before + [xs[|xs| - 1]]
  }

  /** The value of the last pair of `ps` with key `k`: what a run of assignments leaves behind. */
  function LastValue<K(==), V>(ps: seq<(K, V)>, k: K): (r: Option<V>)
    ensures r.Some? <==> k in Keys(ps)
    ensures r.Some? ==> exists i :: 0 <= i < |ps| && ps[i] == (k, r.value) && forall j :: i < j < |ps| ==> ps[j].0 != k
  {
    var i := LastIndexOf(Keys(ps), k);
    if i < 0 then None else Some(ps[i].1)
  }

  /** Elements that are new and distinct are appended as they come. */
  lemma {:induction false} AddNewFresh<T(!new)>(ks: seq<T>, xs: seq<T>)
    requires NoDuplicates(xs)
    requires forall x :: x in xs ==> x !in ks
    ensures AddNew(ks, xs) == ks + xs
    decreases |xs|
  {
    if |xs| > 0 {
      var init := xs[..|xs| - 1];
      AddNewFresh(ks, init);
      assert xs[|xs| - 1] !in init;
      assert xs == init + [xs[|xs| - 1]];
    }
  }

  /** Where `a` first occurs in `s + [x]`. */
  lemma IndexOfSnoc<T>(s: seq<T>, x: T, a: T)
    ensures IndexOf(s + [x], a) == if a in s then IndexOf(s, a) else if a == x then |s| else -1
  {
    var i := IndexOf(s, a);
    if i >= 0 {
      IndexOfUnique(s + [x], a, i);
    } else if a == x {
      IndexOfUnique(s + [x], a, |s|);
    } else {
      assert a !in s + [x];
    }
  }

  /**
   `AddNew([], xs)` keeps the order of first occurrence: of two elements of `xs`,
   the one `xs` mentions first comes first.
   */
  lemma {:induction false} AddNewOrder<T(!new)>(xs: seq<T>, a: T, b: T)
    requires a in xs && b in xs
    ensures IndexOf(AddNew([], xs), a) < IndexOf(AddNew([], xs), b) <==> IndexOf(xs, a) < IndexOf(xs, b)
    decreases |xs|
  {
    var init, last := xs[..|xs| - 1], xs[|xs| - 1];
    assert xs == init + [last];
    var before := AddNew([], init);
    IndexOfSnoc(init, last, a);
    IndexOfSnoc(init, last, b);
    if last !in before {
      IndexOfSnoc(before, last, a);
      IndexOfSnoc(before, last, b);
    }
    if a in init && b in init {
      AddNewOrder(init, a, b);
    }
  }

  /** Assigning keys that are distinct and new appends the pairs as they are. */
  lemma {:induction false} PutAllFresh<K(!new), V>(m: OrderedMap<K, V>, ps: seq<(K, V)>)
    requires NoDuplicates(Keys(ps))
    requires forall k :: k in Keys(ps) ==> k !in Keys(m)
    ensures PutAll(m, ps) == m + ps
    decreases |ps|
  {
    if |ps| > 0 {
      var init, last := ps[..|ps| - 1], ps[|ps| - 1];
      KeysOfInit(ps);
      NoDuplicatesInit(Keys(ps));
      PutAllFresh(m, init);
      PutNew(m, init, last);
      InitLast(ps);
    }
  }

  /** A pair with a new key is appended. */
  lemma PutNew<K(!new), V>(m: OrderedMap<K, V>, init: seq<(K, V)>, last: (K, V))
    requires last.0 !in Keys(init) && last.0 !in Keys(m)
    ensures Put(m + init, last.0, last.1) == m + (init + [last])
  {
    KeysAppend(m, init);
    assert last.0 !in Keys(m + init);
    assert (last.0, last.1) == last;
    assert (m + init) + [last] == m + (init + [last]);
  }

  lemma InitLast<T>(xs: seq<T>)
    requires |xs| > 0
    ensures xs[..|xs| - 1] + [xs[|xs| - 1]] == xs
  {
  }

  lemma NoDuplicatesCons<T>(x: T, xs: seq<T>)
    requires NoDuplicates(xs) && x !in xs
    ensures NoDuplicates([x] + xs)
  {
  }

  lemma NoDuplicatesInit<T>(xs: seq<T>)
    requires NoDuplicates(xs) && |xs| > 0
    ensures NoDuplicates(xs[..|xs| - 1])
    ensures xs[|xs| - 1] !in xs[..|xs| - 1]
  {
  }

  lemma {:induction false} KeysAppend<K, V>(a: OrderedMap<K, V>, b: OrderedMap<K, V>)
    ensures Keys(a + b) == Keys(a) + Keys(b)
  {
  }

  /**
   The keys after a run of assignments: the old keys in their old order, then each
   new key at its first assignment.
   */
  lemma {:induction false} PutAllKeys<K(!new), V>(m: OrderedMap<K, V>, ps: seq<(K, V)>)
    ensures Keys(PutAll(m, ps)) == AddNew(Keys(m), Keys(ps))
    decreases |ps|
  {
    if |ps| > 0 {
      PutAllKeys(m, ps[..|ps| - 1]);
      KeysOfInit(ps);
    }
  }

  /** Dropping the last pair drops the last key. */
  lemma KeysOfInit<K, V>(ps: seq<(K, V)>)
    requires |ps| > 0
    ensures Keys(ps[..|ps| - 1]) == Keys(ps)[..|ps| - 1]
  {
  }

  /** The last pair decides the last value of its own key and of no other. */
  lemma LastValueOfLast<K, V>(ps: seq<(K, V)>, k: K)
    requires |ps| > 0
    ensures k in Keys(ps) <==> k == ps[|ps| - 1].0 || k in Keys(ps[..|ps| - 1])
    ensures LastValue(ps, k) == if k == ps[|ps| - 1].0 then Some(ps[|ps| - 1].1) else LastValue(ps[..|ps| - 1], k)
  {
    var init := ps[..|ps| - 1];
    KeysOfInit(ps);
    InitLast(Keys(ps));
    if k != ps[|ps| - 1].0 {
      assert LastIndexOf(Keys(ps), k) == LastIndexOf(Keys(init), k);
    }
  }

  /**
   The value under `k` after a run of assignments: the last one assigned to `k`,
   or the old value when `k` was never assigned.
   */
  lemma {:induction false} PutAllGet<K(!new), V>(m: OrderedMap<K, V>, ps: seq<(K, V)>, k: K)
    ensures Get(PutAll(m, ps), k) == if k in Keys(ps) then LastValue(ps, k) else Get(m, k)
    decreases |ps|
  {
    if |ps| > 0 {
      PutAllGet(m, ps[..|ps| - 1], k);
      LastValueOfLast(ps, k);
    }
  }
}
