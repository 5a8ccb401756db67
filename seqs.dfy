/** `Array.prototype.filter` and `Array.prototype.find` over sequences, and
    a map whose first failure rejects the whole list. */
module Seqs {
  import opened Wrappers

  /** The elements of `s` that satisfy `f`, in their original order. */
  function Filter<T>(s: seq<T>, f: T -> bool): (r: seq<T>)
    ensures |r| <= |s|
    decreases |s|
  {
    if |s| == 0 then []
    else if f(s[0]) then [s[0]] + Filter(s[1..], f)
    else Filter(s[1..], f)
  }

  /** Filtering keeps exactly the occurrences of the elements that pass. */
  lemma {:induction false} FilterCount<T(!new)>(s: seq<T>, f: T -> bool)
    ensures forall x :: multiset(Filter(s, f))[x] == if f(x) then multiset(s)[x] else 0
    decreases |s|
  {
    if |s| > 0 {
      FilterCount(s[1..], f);
      assert s == [s[0]] + s[1..];
    }
  }

  lemma {:induction false} FilterMembers<T(!new)>(s: seq<T>, f: T -> bool)
    ensures forall x :: x in Filter(s, f) <==> x in s && f(x)
  {
    FilterCount(s, f);
    forall x ensures x in Filter(s, f) <==> x in s && f(x) {
      assert x in Filter(s, f) <==> x in multiset(Filter(s, f));
      assert x in s <==> x in multiset(s);
    }
  }

  lemma {:induction false} FilterConcat<T(!new)>(a: seq<T>, b: seq<T>, f: T -> bool)
    ensures Filter(a + b, f) == Filter(a, f) + Filter(b, f)
    decreases |a|
  {
    if |a| > 0 {
      assert (a + b)[1..] == a[1..] + b;
      FilterConcat(a[1..], b, f);
    } else {
      assert a + b == b;
    }
  }

  /** The first element of `s` that satisfies `f`, if any. */
  function Find<T(==)>(s: seq<T>, f: T -> bool): (r: Option<T>)
    ensures r.None? <==> forall i :: 0 <= i < |s| ==> !f(s[i])
    ensures r.Some? ==>
      exists k :: 0 <= k < |s| && s[k] == r.value && f(s[k])
                  && forall j :: 0 <= j < k ==> !f(s[j])
    decreases |s|
  {
    if |s| == 0 then None
    else if f(s[0]) then Some(s[0])
    else
      var r := Find(s[1..], f);
      assert forall i :: 1 <= i < |s| ==> s[i] == s[1..][i - 1];
      if r.Some? then
        var k :| 0 <= k < |s[1..]| && s[1..][k] == r.value && f(s[1..][k])
                 && forall j :: 0 <= j < k ==> !f(s[1..][j]);
        assert s[k + 1] == r.value;
        r
      else r
  }

  /** `s.find(f)` is the head of `s.filter(f)`. */
  lemma {:induction false} FindIsFirstOfFilter<T(!new)>(s: seq<T>, f: T -> bool)
    ensures Find(s, f) == if |Filter(s, f)| == 0 then None else Some(Filter(s, f)[0])
    decreases |s|
  {
    if |s| > 0 && !f(s[0]) {
      FindIsFirstOfFilter(s[1..], f);
    }
  }

  /** `f` applied to each element in order; the first failure rejects all. */
  function CollectOk<T, U, E>(s: seq<T>, f: T -> Result<U, E>): Result<seq<U>, E>
    decreases |s|
  {
    if |s| == 0 then Ok([])
    else
      var init := CollectOk(s[..|s| - 1], f);
      var last := f(s[|s| - 1]);
      if init.Err? then init
      else if last.Err? then Err(last.error)
      else Ok(init.value + [last.value])
  }

  /** CollectOk fails iff `f` fails on some element. */
  lemma {:induction false} CollectOkErr<T, U, E>(s: seq<T>, f: T -> Result<U, E>)
    ensures CollectOk(s, f).Err? <==> exists i :: 0 <= i < |s| && f(s[i]).Err?
    decreases |s|
  {
    if |s| > 0 {
      var init := s[..|s| - 1];
      CollectOkErr(init, f);
      assert forall i :: 0 <= i < |s| - 1 ==> init[i] == s[i];
    }
  }

  /** A successful CollectOk holds one result per element, in order. */
  lemma {:induction false} CollectOkOk<T, U, E>(s: seq<T>, f: T -> Result<U, E>)
    ensures var r := CollectOk(s, f);
      r.Ok? ==> |r.value| == |s| && forall i :: 0 <= i < |s| ==> f(s[i]) == Ok(r.value[i])
    decreases |s|
  {
    if |s| > 0 {
      var n := |s| - 1;
      var init := s[..n];
      CollectOkOk(init, f);
      var prefix := CollectOk(init, f);
      if prefix.Ok? && f(s[n]).Ok? {
        var ps := prefix.value + [f(s[n]).value];
        forall i | 0 <= i < |s| ensures f(s[i]) == Ok(ps[i]) {
          if i < n {
            assert init[i] == s[i] && ps[i] == prefix.value[i];
          }
        }
      }
    }
  }

  /** One element more: CollectOk of a longer prefix extends the shorter
      one's results, or carries its failure. */
  lemma CollectOkStep<T, U, E>(s: seq<T>, i: nat, f: T -> Result<U, E>)
    requires i < |s|
    ensures var init := CollectOk(s[..i], f);
      CollectOk(s[..i + 1], f)
      == if init.Err? then init else if f(s[i]).Err? then Err(f(s[i]).error) else Ok(init.value + [f(s[i]).value])
  {
    assert s[..i + 1][..i] == s[..i];
  }

  /** Once a prefix fails, the whole list fails with the same error. */
  lemma {:induction false} CollectOkErrPrefix<T, U, E>(s: seq<T>, n: nat, f: T -> Result<U, E>)
    requires n <= |s|
    requires CollectOk(s[..n], f).Err?
    ensures CollectOk(s, f) == CollectOk(s[..n], f)
    decreases |s| - n
  {
    if n < |s| {
      assert s[..n + 1][..n] == s[..n];
      CollectOkErrPrefix(s, n + 1, f);
    } else {
      assert s[..n] == s;
    }
  }
}
