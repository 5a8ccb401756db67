/** A stable sort, newest first, as `Array.prototype.sort` with the
    comparator `(a, b) => key(b) - key(a)` performs it: on sequences as the
    specification, and in place on an array. */
module Sorting {
  import opened Seqs

  predicate SortedDesc<T>(s: seq<T>, key: T -> int)
  {
    forall i, j :: 0 <= i < j < |s| ==> key(s[i]) >= key(s[j])
  }

  /** Puts `x`, which came first, before every element whose key is not
      larger than its own. */
  function InsertDesc<T>(x: T, t: seq<T>, key: T -> int): (r: seq<T>)
    decreases |t|
  {
    if |t| == 0 || key(t[0]) <= key(x) then [x] + t
    else [t[0]] + InsertDesc(x, t[1..], key)
  }

  lemma {:induction false} InsertDescPerm<T>(x: T, t: seq<T>, key: T -> int)
    ensures multiset(InsertDesc(x, t, key)) == multiset(t) + multiset{x}
    decreases |t|
  {
    if |t| > 0 && key(t[0]) > key(x) {
      InsertDescPerm(x, t[1..], key);
      assert t == [t[0]] + t[1..];
    }
  }

  lemma {:induction false} InsertDescSorted<T>(x: T, t: seq<T>, key: T -> int)
    requires SortedDesc(t, key)
    ensures SortedDesc(InsertDesc(x, t, key), key)
    decreases |t|
  {
    if |t| > 0 && key(t[0]) > key(x) {
      var u := t[1..];
      var rest := InsertDesc(x, u, key);
      InsertDescSorted(x, u, key);
      assert |rest| > 0 && key(rest[0]) <= key(t[0]) by {
        if |u| > 0 {
          assert u[0] == t[1];
        }
      }
      var r := [t[0]] + rest;
      forall i, j | 0 <= i < j < |r|
        ensures key(r[i]) >= key(r[j])
      {
        if i == 0 {
          assert key(rest[0]) >= key(rest[j - 1]) || j == 1;
        } else {
          assert r[i] == rest[i - 1] && r[j] == rest[j - 1];
        }
      }
    }
  }

  lemma {:induction false} InsertDescLength<T>(x: T, t: seq<T>, key: T -> int)
    ensures |InsertDesc(x, t, key)| == |t| + 1
    decreases |t|
  {
    if |t| > 0 && key(t[0]) > key(x) {
      InsertDescLength(x, t[1..], key);
    }
  }

  /** The sort: each element in turn inserted into the sorted rest. */
  function SortDesc<T>(s: seq<T>, key: T -> int): (r: seq<T>)
    ensures |r| == |s|
    decreases |s|
  {
    if |s| == 0 then []
    else
      InsertDescLength(s[0], SortDesc(s[1..], key), key);
      InsertDesc(s[0], SortDesc(s[1..], key), key)
  }

  /** The sort puts the list newest first and is a permutation of it. */
  lemma {:induction false} SortDescSpec<T>(s: seq<T>, key: T -> int)
    ensures SortedDesc(SortDesc(s, key), key)
    ensures multiset(SortDesc(s, key)) == multiset(s)
    decreases |s|
  {
    if |s| > 0 {
      SortDescSpec(s[1..], key);
      InsertDescSorted(s[0], SortDesc(s[1..], key), key);
      InsertDescPerm(s[0], SortDesc(s[1..], key), key);
      assert s == [s[0]] + s[1..];
    }
  }

  /** The test "has key `d`". */
  function KeyIs<T>(key: T -> int, d: int): T -> bool
  {
    (y: T) => key(y) == d
  }

  lemma FilterSingle<T(!new)>(y: T, f: T -> bool)
    ensures Filter([y], f) == if f(y) then [y] else []
  {
    assert [y][1..] == [];
  }

  lemma {:induction false} InsertDescStable<T(!new)>(x: T, t: seq<T>, key: T -> int, d: int)
    ensures Filter(InsertDesc(x, t, key), KeyIs(key, d)) == Filter([x] + t, KeyIs(key, d))
    decreases |t|
  {
    var f := KeyIs(key, d);
    if |t| > 0 && key(t[0]) > key(x) {
      var u := t[1..];
      assert t == [t[0]] + u;
      InsertDescStable(x, u, key, d);
      FilterSingle(x, f);
      FilterSingle(t[0], f);
      FilterConcat([t[0]], InsertDesc(x, u, key), f);
      FilterConcat([x], u, f);
      FilterConcat([x], t, f);
      FilterConcat([t[0]], u, f);
      calc {
        Filter(InsertDesc(x, t, key), f);
        Filter([t[0]] + InsertDesc(x, u, key), f);
        Filter([t[0]], f) + Filter(InsertDesc(x, u, key), f);
        Filter([t[0]], f) + (Filter([x], f) + Filter(u, f));
        { assert Filter([t[0]], f) == [] || Filter([x], f) == []; }
        Filter([x], f) + (Filter([t[0]], f) + Filter(u, f));
        Filter([x], f) + Filter(t, f);
        Filter([x] + t, f);
      }
    }
  }

  /** Stability: elements with equal keys keep their relative order. */
  lemma {:induction false} SortDescStable<T(!new)>(s: seq<T>, key: T -> int, d: int)
    ensures Filter(SortDesc(s, key), KeyIs(key, d)) == Filter(s, KeyIs(key, d))
    decreases |s|
  {
    if |s| > 0 {
      var f := KeyIs(key, d);
      SortDescStable(s[1..], key, d);
      InsertDescStable(s[0], SortDesc(s[1..], key), key, d);
      FilterConcat([s[0]], SortDesc(s[1..], key), f);
      FilterConcat([s[0]], s[1..], f);
      assert s == [s[0]] + s[1..];
    }
  }

  /** The insertion point is the first element whose key is not larger. */
  lemma {:induction false} InsertDescAt<T>(x: T, t: seq<T>, key: T -> int, k: nat)
    requires k <= |t|
    requires forall i :: 0 <= i < k ==> key(t[i]) > key(x)
    requires k == |t| || key(t[k]) <= key(x)
    ensures InsertDesc(x, t, key) == t[..k] + [x] + t[k..]
    decreases k
  {
    if k > 0 {
      var u := t[1..];
      assert forall i :: 0 <= i < k - 1 ==> u[i] == t[i + 1];
      InsertDescAt(x, u, key, k - 1);
      assert u[k - 1..] == t[k..];
      assert t[..k] == [t[0]] + u[..k - 1];
      ConsAppend(t[0], u[..k - 1], [x], t[k..]);
    }
  }

  /** Regrouping a concatenation that starts with one element. */
  lemma ConsAppend<T>(h: T, a: seq<T>, b: seq<T>, c: seq<T>)
    ensures [h] + (a + b + c) == [h] + a + b + c
  {
  }

  /** Moves `a[i]` right past the larger keys of the sorted suffix
      `a[i+1..]`, shifting them one place left. */
  method InsertInPlace<T>(a: array<T>, i: nat, key: T -> int)
    requires i < a.Length
    modifies a
    ensures a[..i] == old(a[..i])
    ensures a[i..] == InsertDesc(old(a[i]), old(a[i + 1..]), key)
  {
    var x := a[i];
    ghost var t := a[i + 1..];
    var j := i;
    while j + 1 < a.Length && key(a[j + 1]) > key(x)
      invariant i <= j < a.Length
      invariant forall k :: 0 <= k < i ==> a[k] == old(a[k])
      invariant forall k :: i <= k < j ==> a[k] == t[k - i]
      invariant forall k :: j < k < a.Length ==> a[k] == t[k - i - 1]
      invariant forall k :: 0 <= k < j - i ==> key(t[k]) > key(x)
    {
      a[j] := a[j + 1];
      j := j + 1;
    }
    InsertDescAt(x, t, key, j - i);
    a[j] := x;
    assert a[..i] == old(a[..i]);
    ShiftedInsert(a[..], i, j, t, x);
  }

  /** The array after the shift, read as a sequence: `x` sits at `j`
      between the shifted and the untouched part of `t`. */
  lemma ShiftedInsert<T>(s: seq<T>, i: nat, j: nat, t: seq<T>, x: T)
    requires i <= j < |s| && |s| == i + |t| + 1
    requires forall k :: i <= k < j ==> s[k] == t[k - i]
    requires s[j] == x
    requires forall k :: j < k < |s| ==> s[k] == t[k - i - 1]
    ensures s[i..] == t[..j - i] + [x] + t[j - i..]
  {
  }

  /** One step of the outer loop: sorting a suffix inserts its head into the
      sorted rest. */
  lemma SortDescStep<T>(s: seq<T>, i: nat, x: T, key: T -> int)
    requires i < |s| && s[i] == x
    ensures SortDesc(s[i..], key) == InsertDesc(x, SortDesc(s[i + 1..], key), key)
  {
    assert s[i..][1..] == s[i + 1..];
  }

  /** The in-place sort, as an insertion sort that grows a sorted suffix
      from the right. */
  method SortInPlace<T>(a: array<T>, key: T -> int)
    modifies a
    ensures a[..] == SortDesc(old(a[..]), key)
  {
    var i := a.Length;
    while i > 0
      invariant 0 <= i <= a.Length
      invariant a[..i] == old(a[..i])
      invariant a[i..] == SortDesc(old(a[i..]), key)
    {
      ghost var prefix := a[..i];
      InsertInPlace(a, i - 1, key);
      SortDescStep(old(a[..]), i - 1, prefix[i - 1], key);
      assert a[..i - 1] == prefix[..i - 1];
      i := i - 1;
    }
  }

  /** Sorting keeps the members. */
  lemma SortedMembers<T>(s: seq<T>, key: T -> int)
    ensures forall o :: o in SortDesc(s, key) <==> o in s
  {
    SortDescSpec(s, key);
    forall o ensures o in SortDesc(s, key) <==> o in s {
      assert o in s <==> o in multiset(s);
    }
  }

  /** A list already sorted newest first is left as it is. */
  lemma {:induction false} SortDescOfSorted<T>(s: seq<T>, key: T -> int)
    requires SortedDesc(s, key)
    ensures SortDesc(s, key) == s
    decreases |s|
  {
    if |s| > 0 {
      assert SortedDesc(s[1..], key);
      SortDescOfSorted(s[1..], key);
      assert [s[0]] + s[1..] == s;
    }
  }

  /** Sorting a non-empty list inserts its head into the sorted rest. */
  lemma SortDescCons<T>(x: T, s: seq<T>, key: T -> int)
    ensures SortDesc([x] + s, key) == InsertDesc(x, SortDesc(s, key), key)
  {
    assert ([x] + s)[1..] == s;
  }

  /** Inserting past one larger key. */
  lemma InsertPastOne<T>(x: T, a: T, b: T, key: T -> int)
    requires key(a) > key(x) >= key(b)
    ensures InsertDesc(x, [a, b], key) == [a, x, b]
  {
    assert [a, b][1..] == [b];
  }

  /** Inserting past two larger keys. */
  lemma InsertPastTwo<T>(x: T, a: T, b: T, c: T, key: T -> int)
    requires key(a) > key(x) && key(b) > key(x) >= key(c)
    ensures InsertDesc(x, [a, b, c], key) == [a, b, x, c]
  {
    assert [a, b, c][1..] == [b, c];
    InsertPastOne(x, b, c, key);
  }
}
