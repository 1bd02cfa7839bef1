/** Facts about sequences, multisets and sums that the scheduler proofs share. */
module Seqs {

  datatype Option<+T> = None | Some(value: T)

  function Min(a: int, b: int): int { if a <= b then a else b }

  function Max(a: int, b: int): int { if a >= b then a else b }

  /** Python's `s[:n]`, for any n >= 0. */
  function Take<T>(s: seq<T>, n: int): seq<T> {
    if n < 0 then [] else if n <= |s| then s[..n] else s
  }

  /** Python's `s[lo:hi]`, for lo, hi >= 0. */
  function Slice<T>(s: seq<T>, lo: int, hi: int): seq<T> {
    if 0 <= lo <= hi <= |s| then s[lo..hi]
    else if 0 <= lo <= |s| && |s| < hi then s[lo..]
    else []
  }

  function RemoveAt<T>(s: seq<T>, k: int): seq<T>
    requires 0 <= k < |s|
  {
    s[..k] + s[k + 1..]
  }

  /** `list.remove`: drops the first occurrence. */
  function Remove<T(==)>(s: seq<T>, x: T): seq<T> {
    if s == [] then []
    else if s[0] == x then s[1..]
    else [s[0]] + Remove(s[1..], x)
  }

  /** `remove_all`: drops every element of `gone`, keeping the order of the rest. */
  function Without<T(==)>(s: seq<T>, gone: set<T>): seq<T> {
    if s == [] then []
    else if s[0] in gone then Without(s[1..], gone)
    else [s[0]] + Without(s[1..], gone)
  }

  function Reverse<T>(s: seq<T>): seq<T> {
    if s == [] then [] else Reverse(s[1..]) + [s[0]]
  }

  function Get<K(==)>(m: map<K, int>, k: K): int { if k in m then m[k] else 0 }

  /** Sum of the values that `m` gives the keys listed in `keys`. */
  function Sum<K(==)>(keys: seq<K>, m: map<K, int>): int {
    if keys == [] then 0 else Sum(keys[..|keys| - 1], m) + Get(m, keys[|keys| - 1])
  }

  function Total(s: seq<nat>): nat {
    if s == [] then 0 else Total(s[..|s| - 1]) + s[|s| - 1]
  }

  ghost predicate NoDup<T>(s: seq<T>) {
    forall i, j :: 0 <= i < j < |s| ==> s[i] != s[j]
  }

  lemma NoDupByCount<T>(s: seq<T>)
    requires forall x :: x in s ==> multiset(s)[x] == 1
    ensures NoDup(s)
  {
    forall i, j | 0 <= i < j < |s| ensures s[i] != s[j] {
      assert s == s[..j] + [s[j]] + s[j + 1..];
      assert s[..j][i] == s[i];
      assert s[i] in multiset(s[..j]);
      assert multiset(s)[s[j]] == multiset(s[..j])[s[j]] + 1 + multiset(s[j + 1..])[s[j]];
    }
  }

  lemma RemoveAtCounts<T>(s: seq<T>, k: int)
    requires 0 <= k < |s|
    ensures multiset(RemoveAt(s, k)) == multiset(s) - multiset{s[k]}
    ensures multiset(s) == multiset(RemoveAt(s, k)) + multiset{s[k]}
    ensures forall x :: x in RemoveAt(s, k) ==> x in s
  {
    assert s == s[..k] + [s[k]] + s[k + 1..];
  }

  lemma StillInPrefix<T>(s: seq<T>, k: nat, x: T, n: nat)
    requires k < |s| && x in Take(s, n) && x != s[k]
    ensures x in Take(RemoveAt(s, k), n)
    ensures k < n ==> x in Take(RemoveAt(s, k), n - 1)
  {
    var i :| 0 <= i < n && i < |s| && s[i] == x;
    var r := RemoveAt(s, k);
    if i < k {
      assert r[i] == x;
    } else {
      assert r[i - 1] == x;
    }
  }

  lemma LastNotInPrefix<T>(s: seq<T>, n: nat)
    requires NoDup(s) && n < |s|
    ensures s[|s| - 1] !in Take(s, n)
  {
  }

  lemma PrefixPosition<T>(s: seq<T>, k: nat, n: nat)
    requires k < |s| && NoDup(s) && s[k] in Take(s, n)
    ensures k < n
  {
  }

  lemma {:induction false} WithoutCounts<T>(s: seq<T>, gone: set<T>)
    ensures forall x :: multiset(Without(s, gone))[x] == if x in gone then 0 else multiset(s)[x]
    ensures forall x :: x in Without(s, gone) <==> x in s && x !in gone
  {
    if s != [] {
      WithoutCounts(s[1..], gone);
      assert s == [s[0]] + s[1..];
    }
  }

  lemma {:induction false} WithoutNothing<T>(s: seq<T>, gone: set<T>)
    requires forall x :: x in s ==> x !in gone
    ensures Without(s, gone) == s
  {
    if s != [] {
      WithoutNothing(s[1..], gone);
      assert s == [s[0]] + s[1..];
    }
  }

  lemma {:induction false} WithoutConcat<T>(a: seq<T>, b: seq<T>, gone: set<T>)
    ensures Without(a + b, gone) == Without(a, gone) + Without(b, gone)
  {
    if a == [] {
      assert a + b == b;
    } else {
      assert (a + b)[1..] == a[1..] + b;
      WithoutConcat(a[1..], b, gone);
    }
  }

  lemma {:induction false} WithoutTwice<T>(s: seq<T>, a: set<T>, b: set<T>)
    ensures Without(Without(s, a), b) == Without(s, a + b)
  {
    if s != [] {
      WithoutTwice(s[1..], a, b);
      if s[0] !in a {
        assert Without(s, a)[1..] == Without(s[1..], a);
      }
    }
  }

  lemma {:induction false} ReverseCounts<T>(s: seq<T>)
    ensures multiset(Reverse(s)) == multiset(s)
    ensures forall x :: x in Reverse(s) ==> x in s
  {
    if s != [] {
      ReverseCounts(s[1..]);
      assert s == [s[0]] + s[1..];
    }
  }

  lemma {:induction false} SumSame<K>(keys: seq<K>, a: map<K, int>, b: map<K, int>)
    requires forall k :: k in keys ==> Get(a, k) == Get(b, k)
    ensures Sum(keys, a) == Sum(keys, b)
  {
    if keys != [] {
      SumSame(keys[..|keys| - 1], a, b);
    }
  }

  lemma {:induction false} SumAppend<K>(keys: seq<K>, m: map<K, int>, k: K, v: int)
    requires k !in keys
    ensures Sum(keys + [k], m[k := v]) == Sum(keys, m) + v
  {
    assert (keys + [k])[..|keys|] == keys;
    SumSame(keys, m, m[k := v]);
  }

  lemma {:induction false} SumRemove<K>(keys: seq<K>, m: map<K, int>, k: K)
    requires k in keys && NoDup(keys)
    ensures Sum(Remove(keys, k), m - {k}) == Sum(keys, m) - Get(m, k)
    ensures forall x :: x in Remove(keys, k) <==> x in keys && x != k
    ensures NoDup(Remove(keys, k))
  {
    var n := |keys| - 1;
    var front, last := keys[..n], keys[n];
    assert keys == front + [last];
    if last == k {
      RemoveLast(front, k);
      SumSame(front, m, m - {k});
    } else {
      assert k in front;
      SumRemove(front, m, k);
      RemoveFront(front, last, k);
      var r := Remove(front, k);
      assert (r + [last])[..|r|] == r;
      assert last !in front;
    }
  }

  lemma {:induction false} WithoutAlike<T>(s: seq<T>, a: set<T>, b: set<T>)
    requires forall x :: x in s ==> (x in a <==> x in b)
    ensures Without(s, a) == Without(s, b)
  {
    if s != [] {
      WithoutAlike(s[1..], a, b);
    }
  }

  lemma {:induction false} RemoveFewer<T>(s: seq<T>, x: T)
    ensures forall y :: y in Remove(s, x) ==> y in s
  {
    if s != [] && s[0] != x {
      RemoveFewer(s[1..], x);
    }
  }

  lemma {:induction false} RemoveLast<T>(front: seq<T>, x: T)
    requires x !in front
    ensures Remove(front + [x], x) == front
  {
    if front != [] {
      assert (front + [x])[1..] == front[1..] + [x];
      RemoveLast(front[1..], x);
    }
  }

  lemma {:induction false} RemoveFront<T>(front: seq<T>, last: T, x: T)
    requires x in front
    ensures Remove(front + [last], x) == Remove(front, x) + [last]
  {
    assert (front + [last])[1..] == front[1..] + [last];
    if front[0] != x {
      RemoveFront(front[1..], last, x);
    }
  }

}
