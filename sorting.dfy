/** The engine's `Array.prototype.sort` with a comparator, which is stable
    (ECMAScript 2019 onwards). A comparator `cmp` is modelled by the relation
    `le(a, b) := cmp(a, b) <= 0`, assumed to be a total preorder; the
    reference sort is an insertion sort, whose output is the unique stable
    ordering. */
module Sorting {

  ghost predicate TotalPreorder<T(!new)>(le: (T, T) -> bool) {
    && (forall a, b :: le(a, b) || le(b, a))
    && (forall a, b, c :: le(a, b) && le(b, c) ==> le(a, c))
  }

  predicate SortedBy<T>(s: seq<T>, le: (T, T) -> bool) {
    forall i, j :: 0 <= i < j < |s| ==> le(s[i], s[j])
  }

  /** Places `x` in front of the first element it does not come after. */
  function InsertBefore<T>(x: T, s: seq<T>, le: (T, T) -> bool): (r: seq<T>)
    ensures multiset(r) == multiset(s) + multiset{x}
    ensures |r| == |s| + 1
  {
    if s == [] then [x]
    else if le(x, s[0]) then [x] + s
    else
      assert s == [s[0]] + s[1..];
      [s[0]] + InsertBefore(x, s[1..], le)
  }

  function StableSort<T(!new)>(s: seq<T>, le: (T, T) -> bool): (r: seq<T>)
    requires TotalPreorder(le)
    ensures multiset(r) == multiset(s)
    ensures |r| == |s|
    ensures SortedBy(r, le)
  {
    if s == [] then []
    else
      assert s == [s[0]] + s[1..];
      var t := StableSort(s[1..], le);
      InsertKeepsSorted(s[0], t, le);
      InsertBefore(s[0], t, le)
  }

  /** Sorting neither adds nor drops an element. */
  lemma StableSortMembers<T(!new)>(s: seq<T>, le: (T, T) -> bool)
    requires TotalPreorder(le)
    ensures forall x :: x in StableSort(s, le) <==> x in s
  {
    var r := StableSort(s, le);
    forall x ensures x in r <==> x in s {
      assert x in r <==> x in multiset(r);
      assert x in s <==> x in multiset(s);
    }
  }

  lemma {:induction false} InsertKeepsSorted<T(!new)>(x: T, s: seq<T>, le: (T, T) -> bool)
    requires TotalPreorder(le)
    requires SortedBy(s, le)
    ensures SortedBy(InsertBefore(x, s, le), le)
  {
    if s != [] && !le(x, s[0]) {
      var t := InsertBefore(x, s[1..], le);
      InsertKeepsSorted(x, s[1..], le);
      assert s == [s[0]] + s[1..];
      forall y | y in t ensures le(s[0], y) {
        assert y in multiset(t);
        if y != x {
          assert y in s[1..];
        }
      }
    }
  }

  ghost predicate Equivalent<T>(le: (T, T) -> bool, a: T, b: T) {
    le(a, b) && le(b, a)
  }

  /** The elements of `s` that the order cannot tell apart from `x`, in order. */
  ghost function Peers<T>(s: seq<T>, le: (T, T) -> bool, x: T): seq<T> {
    if s == [] then []
    else (if Equivalent(le, s[0], x) then [s[0]] else []) + Peers(s[1..], le, x)
  }

  lemma PeersCons<T>(z: T, t: seq<T>, le: (T, T) -> bool, x: T)
    ensures Peers([z] + t, le, x) == (if Equivalent(le, z, x) then [z] else []) + Peers(t, le, x)
  {
    assert ([z] + t)[0] == z && ([z] + t)[1..] == t;
  }

  lemma {:induction false} InsertPeers<T(!new)>(y: T, s: seq<T>, le: (T, T) -> bool, x: T)
    requires TotalPreorder(le)
    ensures Peers(InsertBefore(y, s, le), le, x)
         == (if Equivalent(le, y, x) then [y] else []) + Peers(s, le, x)
  {
    if s == [] {
      PeersCons(y, [], le, x);
    } else if le(y, s[0]) {
      PeersCons(y, s, le, x);
    } else {
      var t := InsertBefore(y, s[1..], le);
      var mine := if Equivalent(le, y, x) then [y] else [];
      var first := if Equivalent(le, s[0], x) then [s[0]] else [];
      var rest := Peers(s[1..], le, x);
      assert InsertBefore(y, s, le) == [s[0]] + t;
      assert Peers(s, le, x) == first + rest;
      InsertPeers(y, s[1..], le, x);
      PeersCons(s[0], t, le, x);
      if Equivalent(le, y, x) {
        NotBothPeers(y, s[0], le, x);
      }
      SwapFront(first, mine, rest);
    }
  }

  lemma SwapFront<T>(first: seq<T>, mine: seq<T>, rest: seq<T>)
    requires first == [] || mine == []
    ensures first + (mine + rest) == mine + (first + rest)
  {
    if first == [] {
      assert first + (mine + rest) == mine + rest;
    } else {
      assert mine + (first + rest) == first + rest;
    }
  }

  /** Two elements of `x`'s class compare both ways. */
  lemma NotBothPeers<T(!new)>(y: T, z: T, le: (T, T) -> bool, x: T)
    requires TotalPreorder(le)
    requires Equivalent(le, y, x) && !le(y, z)
    ensures !Equivalent(le, z, x)
  {
  }

  /** Stability: elements that compare equal keep their relative order. */
  lemma {:induction false} StableSortKeepsPeers<T(!new)>(s: seq<T>, le: (T, T) -> bool, x: T)
    requires TotalPreorder(le)
    ensures Peers(StableSort(s, le), le, x) == Peers(s, le, x)
  {
    if s != [] {
      StableSortKeepsPeers(s[1..], le, x);
      InsertPeers(s[0], StableSort(s[1..], le), le, x);
    }
  }

  /** No element outside the class `inA` comes before an element of `inA`
      that it is not strictly smaller than. */
  ghost predicate BlockOrdered<T>(s: seq<T>, le: (T, T) -> bool, inA: T -> bool) {
    forall i, j :: 0 <= i < j < |s| && !inA(s[i]) && inA(s[j]) ==> !le(s[j], s[i])
  }

  lemma {:induction false} InsertKeepsBlockOrder<T(!new)>(x: T, s: seq<T>, le: (T, T) -> bool, inA: T -> bool)
    requires TotalPreorder(le)
    requires BlockOrdered(s, le, inA)
    requires inA(x) || forall y :: y in s ==> !inA(y)
    ensures BlockOrdered(InsertBefore(x, s, le), le, inA)
  {
    if s != [] && !le(x, s[0]) {
      var t := InsertBefore(x, s[1..], le);
      assert s == [s[0]] + s[1..];
      assert BlockOrdered(s[1..], le, inA) by {
        forall i, j | 0 <= i < j < |s[1..]| && !inA(s[1..][i]) && inA(s[1..][j])
          ensures !le(s[1..][j], s[1..][i])
        {
          assert s[1..][i] == s[i + 1] && s[1..][j] == s[j + 1];
        }
      }
      InsertKeepsBlockOrder(x, s[1..], le, inA);
      var r := [s[0]] + t;
      forall i, j | 0 <= i < j < |r| && !inA(r[i]) && inA(r[j])
        ensures !le(r[j], r[i])
      {
        if i > 0 {
          assert r[i] == t[i - 1] && r[j] == t[j - 1];
        } else {
          assert r[j] in multiset(t);
          if r[j] != x {
            assert r[j] in s[1..];
            var k :| 0 <= k < |s[1..]| && s[1..][k] == r[j];
            assert s[k + 1] == r[j];
          }
        }
      }
    }
  }

  /** Sorting `a + b` stably, where `a` holds exactly the members of `inA`:
      a member of `b` ends up before a member of `a` only if strictly smaller. */
  lemma {:induction false} StableSortKeepsBlockOrder<T(!new)>(a: seq<T>, b: seq<T>, le: (T, T) -> bool, inA: T -> bool)
    requires TotalPreorder(le)
    requires forall x :: x in a ==> inA(x)
    requires forall y :: y in b ==> !inA(y)
    ensures BlockOrdered(StableSort(a + b, le), le, inA)
  {
    var s := a + b;
    if a == [] {
      assert s == b;
      var r := StableSort(s, le);
      forall j | 0 <= j < |r| ensures !inA(r[j]) {
        assert r[j] in multiset(s);
      }
    } else {
      assert s[0] == a[0] && s[1..] == a[1..] + b;
      StableSortKeepsBlockOrder(a[1..], b, le, inA);
      var t := StableSort(s[1..], le);
      InsertKeepsBlockOrder(s[0], t, le, inA);
    }
  }

  predicate DistinctKeys<T>(s: seq<T>, key: T -> string) {
    forall i, j :: 0 <= i < j < |s| ==> key(s[i]) != key(s[j])
  }

  lemma {:induction false} InsertKeepsDistinctKeys<T(!new)>(x: T, s: seq<T>, le: (T, T) -> bool, key: T -> string)
    requires DistinctKeys(s, key)
    requires forall y :: y in s ==> key(y) != key(x)
    ensures DistinctKeys(InsertBefore(x, s, le), key)
  {
    if s == [] {
    } else if le(x, s[0]) {
      ConsDistinct(x, s, key);
    } else {
      var t := InsertBefore(x, s[1..], le);
      TailDistinct(s, key);
      InsertKeepsDistinctKeys(x, s[1..], le, key);
      InsertMembers(x, s[1..], le);
      assert s[0] in s;
      ConsDistinct(s[0], t, key);
    }
  }

  /** A head whose key no later element has keeps keys distinct. */
  lemma ConsDistinct<T>(z: T, t: seq<T>, key: T -> string)
    requires DistinctKeys(t, key)
    requires forall y :: y in t ==> key(y) != key(z)
    ensures DistinctKeys([z] + t, key)
  {
    var r := [z] + t;
    forall i, j | 0 <= i < j < |r| ensures key(r[i]) != key(r[j]) {
      if i > 0 {
        assert r[i] == t[i - 1] && r[j] == t[j - 1];
      } else {
        assert r[j] == t[j - 1];
      }
    }
  }

  /** Of distinct keys, the tail's are distinct and differ from the head's. */
  lemma TailDistinct<T>(s: seq<T>, key: T -> string)
    requires s != [] && DistinctKeys(s, key)
    ensures DistinctKeys(s[1..], key)
    ensures forall y :: y in s[1..] ==> key(y) != key(s[0])
  {
    forall i, j | 0 <= i < j < |s[1..]| ensures key(s[1..][i]) != key(s[1..][j]) {
      assert s[1..][i] == s[i + 1] && s[1..][j] == s[j + 1];
    }
    forall y | y in s[1..] ensures key(y) != key(s[0]) {
      var k :| 0 <= k < |s[1..]| && s[1..][k] == y;
      assert s[k + 1] == y;
    }
  }

  /** Inserting adds exactly the inserted element. */
  lemma InsertMembers<T>(x: T, s: seq<T>, le: (T, T) -> bool)
    ensures forall y :: y in InsertBefore(x, s, le) <==> y == x || y in s
  {
    var r := InsertBefore(x, s, le);
    forall y ensures y in r <==> y == x || y in s {
      assert y in r <==> y in multiset(r);
      assert y in s <==> y in multiset(s);
    }
  }

  /** Sorting keeps keys distinct. */
  lemma {:induction false} StableSortKeepsDistinctKeys<T(!new)>(s: seq<T>, le: (T, T) -> bool, key: T -> string)
    requires TotalPreorder(le)
    requires DistinctKeys(s, key)
    ensures DistinctKeys(StableSort(s, le), key)
  {
    if s != [] {
      TailDistinct(s, key);
      StableSortKeepsDistinctKeys(s[1..], le, key);
      StableSortMembers(s[1..], le);
      InsertKeepsDistinctKeys(s[0], StableSort(s[1..], le), le, key);
    }
  }
}
