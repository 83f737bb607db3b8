/** Generic sequence operations behind the source's `filter`, `map`, `find`,
    `reduce` and keyed-dictionary idioms. Every recursion peels the LAST element,
    so that the loops elsewhere, which extend a prefix, unfold them directly. */
module Seqs {
  import opened Ledger

  /** `s.filter(p)` */
  function Filter<T(!new)>(s: seq<T>, p: T -> bool): (r: seq<T>)
    ensures |r| <= |s|
    ensures forall x :: x in r <==> x in s && p(x)
  {
    if s == [] then []
    else
      var init, last := s[..|s| - 1], s[|s| - 1];
      assert s == init + [last];
      var r0 := Filter(init, p);
      if p(last) then r0 + [last] else r0
  }

  lemma {:induction false} FilterAll<T(!new)>(s: seq<T>, p: T -> bool)
    requires forall x :: x in s ==> p(x)
    ensures Filter(s, p) == s
  {
    if s != [] {
      var init := s[..|s| - 1];
      assert s == init + [s[|s| - 1]];
      FilterAll(init, p);
    }
  }

  lemma FilterSnoc<T(!new)>(s: seq<T>, x: T, p: T -> bool)
    ensures Filter(s + [x], p) == Filter(s, p) + (if p(x) then [x] else [])
  {
    assert (s + [x])[..|s|] == s;
  }

  /** Each element is kept as many times as it occurs, if it passes, and dropped otherwise. */
  lemma {:induction false} FilterCounts<T(!new)>(s: seq<T>, p: T -> bool, x: T)
    ensures multiset(Filter(s, p))[x] == if p(x) then multiset(s)[x] else 0
  {
    if s != [] {
      var init, last := s[..|s| - 1], s[|s| - 1];
      assert s == init + [last];
      FilterCounts(init, p, x);
      FilterSnoc(init, last, p);
    }
  }

  /** The same, for every element at once. */
  lemma FilterMultiset<T(!new)>(s: seq<T>, p: T -> bool)
    ensures forall x :: multiset(Filter(s, p))[x] == if p(x) then multiset(s)[x] else 0
  {
    forall x ensures multiset(Filter(s, p))[x] == if p(x) then multiset(s)[x] else 0 {
      FilterCounts(s, p, x);
    }
  }

  /** Predicates that agree on the elements select the same subsequence. */
  lemma {:induction false} FilterCongruent<T(!new)>(s: seq<T>, p: T -> bool, q: T -> bool)
    requires forall x :: x in s ==> p(x) == q(x)
    ensures Filter(s, p) == Filter(s, q)
  {
    if s != [] {
      var init := s[..|s| - 1];
      assert s == init + [s[|s| - 1]];
      FilterCongruent(init, p, q);
    }
  }

  /** The elements whose key is `k`, in their original order: `s.filter(x => key(x) === k)`. */
  function WithKey<T(!new)>(s: seq<T>, key: T -> string, k: string): (r: seq<T>)
    ensures |r| <= |s|
    ensures forall x :: x in r <==> x in s && key(x) == k
  {
    if s == [] then []
    else
      var init, last := s[..|s| - 1], s[|s| - 1];
      assert s == init + [last];
      var r0 := WithKey(init, key, k);
      if key(last) == k then r0 + [last] else r0
  }

  /** The elements whose key is not `k`: `s.filter(x => key(x) !== k)`. */
  function WithoutKey<T(!new)>(s: seq<T>, key: T -> string, k: string): (r: seq<T>)
    ensures |r| <= |s|
    ensures forall x :: x in r <==> x in s && key(x) != k
  {
    if s == [] then []
    else
      var init, last := s[..|s| - 1], s[|s| - 1];
      assert s == init + [last];
      var r0 := WithoutKey(init, key, k);
      if key(last) != k then r0 + [last] else r0
  }

  lemma WithKeySnoc<T(!new)>(s: seq<T>, x: T, key: T -> string, k: string)
    ensures WithKey(s + [x], key, k) == WithKey(s, key, k) + (if key(x) == k then [x] else [])
  {
    assert (s + [x])[..|s|] == s;
  }

  /** No element carries the key: nothing is selected. */
  lemma WithKeyNone<T(!new)>(s: seq<T>, key: T -> string, k: string)
    requires forall x :: x in s ==> key(x) != k
    ensures WithKey(s, key, k) == []
  {
  }

  /** `s.map(x => key(x) === k ? f(x) : x)`: rewrites every element whose key is `k`. */
  function UpdateWhere<T>(s: seq<T>, key: T -> string, k: string, f: T -> T): (r: seq<T>)
    ensures |r| == |s|
    ensures forall j :: 0 <= j < |s| ==> r[j] == if key(s[j]) == k then f(s[j]) else s[j]
  {
    seq(|s|, j requires 0 <= j < |s| => if key(s[j]) == k then f(s[j]) else s[j])
  }

  /** `s.map(f)` */
  function Map<T, U>(s: seq<T>, f: T -> U): (r: seq<U>)
    ensures |r| == |s|
    ensures forall i :: 0 <= i < |s| ==> r[i] == f(s[i])
  {
    if s == [] then [] else Map(s[..|s| - 1], f) + [f(s[|s| - 1])]
  }

  /** Summing after mapping is summing the composite. */
  lemma {:induction false} SumMap<T(!new), U(!new)>(s: seq<T>, f: T -> U, g: U -> int, h: T -> int)
    requires forall x :: x in s ==> g(f(x)) == h(x)
    ensures Sum(Map(s, f), g) == Sum(s, h)
  {
    if s != [] {
      var init, last := s[..|s| - 1], s[|s| - 1];
      assert forall x :: x in init ==> x in s;
      assert last in s;
      SumMap(init, f, g, h);
      assert Map(s, f) == Map(init, f) + [f(last)];
      SumSnoc(Map(init, f), f(last), g);
    }
  }

  lemma MapSnoc<T(!new)>(s: seq<T>, x: T, key: T -> string)
    ensures Map(s + [x], key) == Map(s, key) + [key(x)]
  {
    assert (s + [x])[..|s|] == s;
  }

  lemma InMap<T(!new)>(s: seq<T>, key: T -> string, k: string)
    ensures k in Map(s, key) <==> exists x :: x in s && key(x) == k
  {
    if k in Map(s, key) {
      var i :| 0 <= i < |s| && Map(s, key)[i] == k;
      assert s[i] in s;
    }
  }

  /** `s.reduce((acc, x) => acc + f(x), 0)` */
  function Sum<T(!new)>(s: seq<T>, f: T -> int): int {
    if s == [] then 0 else Sum(s[..|s| - 1], f) + f(s[|s| - 1])
  }

  lemma SumSnoc<T(!new)>(s: seq<T>, x: T, f: T -> int)
    ensures Sum(s + [x], f) == Sum(s, f) + f(x)
  {
    assert (s + [x])[..|s|] == s;
  }

  lemma {:induction false} SumAppend<T(!new)>(s: seq<T>, t: seq<T>, f: T -> int)
    ensures Sum(s + t, f) == Sum(s, f) + Sum(t, f)
  {
    if t == [] {
      assert s + t == s;
    } else {
      var init, last := t[..|t| - 1], t[|t| - 1];
      assert t == init + [last];
      assert s + t == (s + init) + [last];
      SumAppend(s, init, f);
      SumSnoc(s + init, last, f);
    }
  }

  /** Reordering a sequence does not change its sum. */
  lemma {:induction false} SumPermutation<T(!new)>(s: seq<T>, t: seq<T>, f: T -> int)
    requires multiset(s) == multiset(t)
    ensures Sum(s, f) == Sum(t, f)
  {
    if s == [] {
      assert |t| == |multiset(t)| == 0;
    } else {
      var init := s[..|s| - 1];
      RemoveLast(s);
      var k := IndexIn(s[|s| - 1], t);
      RemoveAt(t, k);
      SumPermutation(init, t[..k] + t[k + 1..], f);
      SumRemoveAt(t, k, f);
    }
  }

  /** A prefix one longer is the prefix extended by the next element. */
  lemma TakeSnoc<T>(s: seq<T>, j: nat)
    requires j < |s|
    ensures s[..j + 1] == s[..j] + [s[j]]
  {
  }

  /** The same, after some `done` elements. */
  lemma PrefixSnoc<T>(done: seq<T>, s: seq<T>, j: nat)
    requires j < |s|
    ensures done + s[..j + 1] == (done + s[..j]) + [s[j]]
  {
    TakeSnoc(s, j);
  }

  /** Dropping the last element removes one occurrence of it. */
  lemma RemoveLast<T>(s: seq<T>)
    requires s != []
    ensures multiset(s[..|s| - 1]) == multiset(s) - multiset{s[|s| - 1]}
    ensures s[|s| - 1] in multiset(s)
  {
    assert s == s[..|s| - 1] + [s[|s| - 1]];
  }

  /** A position at which an element of the bag occurs. */
  lemma IndexIn<T>(x: T, t: seq<T>) returns (k: nat)
    requires x in multiset(t)
    ensures k < |t| && t[k] == x
  {
    assert x in t;
    k :| 0 <= k < |t| && t[k] == x;
  }

  /** Dropping the element at `k` removes one occurrence of it. */
  lemma RemoveAt<T>(t: seq<T>, k: nat)
    requires k < |t|
    ensures multiset(t[..k] + t[k + 1..]) == multiset(t) - multiset{t[k]}
  {
    SplitAt(t, k);
  }

  /** A sequence is its part before `k`, its element at `k` and the rest. */
  lemma SplitAt<T>(t: seq<T>, k: nat)
    requires k < |t|
    ensures t == t[..k] + [t[k]] + t[k + 1..]
  {
  }

  /** Dropping the element at `k` takes its value off the sum. */
  lemma SumRemoveAt<T(!new)>(t: seq<T>, k: nat, f: T -> int)
    requires k < |t|
    ensures Sum(t, f) == Sum(t[..k] + t[k + 1..], f) + f(t[k])
  {
    SplitAt(t, k);
    SumSplit(t[..k], t[k], t[k + 1..], f);
  }

  /** An element in the middle adds its value to the sum of the rest. */
  lemma SumSplit<T(!new)>(a: seq<T>, x: T, b: seq<T>, f: T -> int)
    ensures Sum(a + [x] + b, f) == Sum(a + b, f) + f(x)
  {
    SumAppend(a + [x], b, f);
    SumSnoc(a, x, f);
    SumAppend(a, b, f);
  }

  /** Sums of sequences that agree position by position are equal. */
  lemma {:induction false} SumPointwise<A(!new), B(!new)>(s: seq<A>, f: A -> int, t: seq<B>, g: B -> int)
    requires |s| == |t|
    requires forall i :: 0 <= i < |s| ==> f(s[i]) == g(t[i])
    ensures Sum(s, f) == Sum(t, g)
  {
    if s != [] {
      SumPointwise(s[..|s| - 1], f, t[..|t| - 1], g);
    }
  }

  /** The sum of a function that is 1 everywhere is the length. */
  lemma {:induction false} SumOfOnes<T(!new)>(s: seq<T>, f: T -> int)
    requires forall x :: x in s ==> f(x) == 1
    ensures Sum(s, f) == |s|
  {
    if s != [] {
      var init := s[..|s| - 1];
      assert forall x :: x in init ==> x in s;
      SumOfOnes(init, f);
    }
  }

  /** `s.findIndex(x => key(x) === k)`, absent as None. */
  function FirstIndex<T(!new)>(s: seq<T>, key: T -> string, k: string): (r: Option<nat>)
    ensures r.Some? ==> r.value < |s| && key(s[r.value]) == k
    ensures r.Some? ==> forall i :: 0 <= i < r.value ==> key(s[i]) != k
    ensures r.None? <==> forall i :: 0 <= i < |s| ==> key(s[i]) != k
  {
    if s == [] then None
    else
      var r0 := FirstIndex(s[..|s| - 1], key, k);
      if r0.Some? then r0
      else if key(s[|s| - 1]) == k then Some(|s| - 1)
      else None
  }

  lemma FirstIndexSnoc<T(!new)>(s: seq<T>, x: T, key: T -> string, k: string)
    ensures FirstIndex(s + [x], key, k)
         == if FirstIndex(s, key, k).Some? then FirstIndex(s, key, k)
            else if key(x) == k then Some(|s|) else None
  {
    assert (s + [x])[..|s|] == s;
  }

  /** The first index of a key among the keys is its first index among the elements. */
  lemma {:induction false} KeysFirstIndex<T(!new)>(s: seq<T>, key: T -> string, k: string)
    ensures FirstIndex(Map(s, key), Itself, k) == FirstIndex(s, key, k)
  {
    if s != [] {
      var init, last := s[..|s| - 1], s[|s| - 1];
      assert s == init + [last];
      KeysFirstIndex(init, key, k);
      MapSnoc(init, last, key);
      FirstIndexSnoc(Map(init, key), key(last), Itself, k);
      FirstIndexSnoc(init, last, key, k);
    }
  }

  /** `s.find(x => key(x) === k)`, decided element by element. */
  function Find<T>(s: seq<T>, key: T -> string, k: string): Option<T> {
    if s == [] then None
    else
      var found := Find(s[..|s| - 1], key, k);
      if found.Some? then found
      else if key(s[|s| - 1]) == k then Some(s[|s| - 1])
      else None
  }

  lemma FindSnoc<T>(s: seq<T>, x: T, key: T -> string, k: string)
    ensures Find(s + [x], key, k) == if Find(s, key, k).Some? then Find(s, key, k) else if key(x) == k then Some(x) else None
  {
    assert (s + [x])[..|s|] == s;
  }

  /** `find` returns the element at the first index carrying the key. */
  lemma {:induction false} FindFirst<T(!new)>(s: seq<T>, key: T -> string, k: string)
    ensures Find(s, key, k) == if FirstIndex(s, key, k).Some? then Some(s[FirstIndex(s, key, k).value]) else None
  {
    if s != [] {
      var init, last := s[..|s| - 1], s[|s| - 1];
      assert s == init + [last];
      FindFirst(init, key, k);
      FirstIndexSnoc(init, last, key, k);
    }
  }

  /** `find` succeeds exactly when some element carries the key, and returns one that does. */
  lemma FindFound<T(!new)>(s: seq<T>, key: T -> string, k: string)
    ensures Find(s, key, k).Some? <==> k in Map(s, key)
    ensures Find(s, key, k).Some? <==> exists x :: x in s && key(x) == k
    ensures Find(s, key, k).Some? ==> Find(s, key, k).value in s && key(Find(s, key, k).value) == k
  {
    FindFirst(s, key, k);
    InMap(s, key, k);
    if Find(s, key, k).Some? {
      assert s[FirstIndex(s, key, k).value] in s;
    } else {
      forall x | x in s ensures key(x) != k {
        var j :| 0 <= j < |s| && s[j] == x;
      }
    }
  }

  /** The key order of a dictionary filled from `s` under `key`: each key where
      its first element is met. */
  function KeyOrder<T>(s: seq<T>, key: T -> string): seq<string> {
    if s == [] then []
    else
      var init, last := s[..|s| - 1], s[|s| - 1];
      if Find(init, key, key(last)).Some? then KeyOrder(init, key) else KeyOrder(init, key) + [key(last)]
  }

  lemma KeyOrderSnoc<T>(s: seq<T>, x: T, key: T -> string)
    ensures KeyOrder(s + [x], key) == if Find(s, key, key(x)).Some? then KeyOrder(s, key) else KeyOrder(s, key) + [key(x)]
  {
    assert (s + [x])[..|s|] == s;
  }

  /** The key order lists exactly the keys found. */
  lemma {:induction false} KeyOrderHas<T>(s: seq<T>, key: T -> string, k: string)
    ensures k in KeyOrder(s, key) <==> Find(s, key, k).Some?
  {
    if s != [] {
      KeyOrderHas(s[..|s| - 1], key, k);
    }
  }

  predicate Distinct(s: seq<string>) {
    forall i, j :: 0 <= i < j < |s| ==> s[i] != s[j]
  }

  function Itself(x: string): string { x }

  /** The distinct elements of `s` in order of first appearance: the key order of a
      dictionary into which the elements of `s` are inserted one after another. */
  function FirstAppearances(s: seq<string>): (r: seq<string>)
    ensures Distinct(r)
    ensures forall x :: x in r <==> x in s
  {
    if s == [] then []
    else
      var init, last := s[..|s| - 1], s[|s| - 1];
      assert s == init + [last];
      var r0 := FirstAppearances(init);
      if last in r0 then r0 else r0 + [last]
  }

  lemma FirstAppearancesSnoc(s: seq<string>, x: string)
    ensures FirstAppearances(s + [x])
         == var r0 := FirstAppearances(s); if x in r0 then r0 else r0 + [x]
  {
    assert (s + [x])[..|s|] == s;
  }

  /** The dictionary's key order is the order of first appearance of the keys. */
  lemma {:induction false} KeyOrderIsFirstAppearances<T(!new)>(s: seq<T>, key: T -> string)
    ensures KeyOrder(s, key) == FirstAppearances(Map(s, key))
  {
    if s != [] {
      var init, last := s[..|s| - 1], s[|s| - 1];
      assert s == init + [last];
      KeyOrderIsFirstAppearances(init, key);
      MapSnoc(init, last, key);
      FirstAppearancesSnoc(Map(init, key), key(last));
      FindFound(init, key, key(last));
    }
  }

  /** Keys come out in the order in which each first occurs in `s`. */
  lemma {:induction false} FirstAppearancesOrdered(s: seq<string>, r: seq<string>)
    requires r == FirstAppearances(s)
    ensures forall i, j :: 0 <= i < j < |r| ==>
        && FirstIndex(s, Itself, r[i]).Some? && FirstIndex(s, Itself, r[j]).Some?
        && FirstIndex(s, Itself, r[i]).value < FirstIndex(s, Itself, r[j]).value
  {
    if s != [] {
      var init, last := s[..|s| - 1], s[|s| - 1];
      assert s == init + [last];
      var r0 := FirstAppearances(init);
      FirstAppearancesOrdered(init, r0);
      forall x | x in r0
        ensures FirstIndex(s, Itself, x) == FirstIndex(init, Itself, x)
        ensures FirstIndex(s, Itself, x).Some? && FirstIndex(s, Itself, x).value < |init|
      {
        FirstIndexSnoc(init, last, Itself, x);
        var j :| 0 <= j < |init| && init[j] == x;
        assert Itself(init[j]) == x;
      }
      if last !in r0 {
        FirstIndexSnoc(init, last, Itself, last);
        assert FirstIndex(init, Itself, last).None?;
        assert r == r0 + [last];
        assert FirstIndex(s, Itself, last) == Some(|init|);
        forall i, j | 0 <= i < j < |r|
          ensures FirstIndex(s, Itself, r[i]).Some? && FirstIndex(s, Itself, r[j]).Some?
          ensures FirstIndex(s, Itself, r[i]).value < FirstIndex(s, Itself, r[j]).value
        {
          assert r[i] == r0[i] && r[i] in r0;
          if j < |r0| {
            assert r[j] == r0[j] && r[j] in r0;
            assert 0 <= i < j < |r0|;
          } else {
            assert r[j] == last;
          }
        }
      }
    }
  }

  /** The total of `f` over the elements of each key in `keys`, key by key. */
  function SumPerKey<T(!new)>(s: seq<T>, key: T -> string, f: T -> int, keys: seq<string>): int {
    if keys == [] then 0
    else SumPerKey(s, key, f, keys[..|keys| - 1]) + Sum(WithKey(s, key, keys[|keys| - 1]), f)
  }

  lemma {:induction false} SumPerKeyEmpty<T(!new)>(key: T -> string, f: T -> int, keys: seq<string>)
    ensures SumPerKey([], key, f, keys) == 0
  {
    if keys != [] {
      SumPerKeyEmpty(key, f, keys[..|keys| - 1]);
    }
  }

  lemma {:induction false} SumPerKeySnoc<T(!new)>(s: seq<T>, x: T, key: T -> string, f: T -> int, keys: seq<string>)
    requires Distinct(keys)
    ensures SumPerKey(s + [x], key, f, keys)
         == SumPerKey(s, key, f, keys) + (if key(x) in keys then f(x) else 0)
  {
    if keys != [] {
      var ks, k := keys[..|keys| - 1], keys[|keys| - 1];
      DistinctInit(keys);
      SumPerKeySnoc(s, x, key, f, ks);
      WithKeySnoc(s, x, key, k);
      if key(x) == k {
        SumSnoc(WithKey(s, key, k), x, f);
      }
    }
  }

  /** Dropping the last of distinct keys leaves distinct keys without it. */
  lemma DistinctInit(keys: seq<string>)
    requires keys != [] && Distinct(keys)
    ensures Distinct(keys[..|keys| - 1])
    ensures keys[|keys| - 1] !in keys[..|keys| - 1]
    ensures forall c :: c in keys <==> c in keys[..|keys| - 1] || c == keys[|keys| - 1]
  {
    var ks := keys[..|keys| - 1];
    assert keys == ks + [keys[|keys| - 1]];
    forall i, j | 0 <= i < j < |ks| ensures ks[i] != ks[j] {
      assert ks[i] == keys[i] && ks[j] == keys[j];
    }
  }

  /** Splitting a sequence by key and adding up the parts gives the total,
      as long as every element's key is listed exactly once. */
  lemma {:induction false} PartitionSum<T(!new)>(s: seq<T>, key: T -> string, f: T -> int, keys: seq<string>)
    requires Distinct(keys)
    requires forall x :: x in s ==> key(x) in keys
    ensures SumPerKey(s, key, f, keys) == Sum(s, f)
  {
    if s == [] {
      SumPerKeyEmpty(key, f, keys);
    } else {
      var init, last := s[..|s| - 1], s[|s| - 1];
      assert s == init + [last];
      PartitionSum(init, key, f, keys);
      SumPerKeySnoc(init, last, key, f, keys);
    }
  }
}
