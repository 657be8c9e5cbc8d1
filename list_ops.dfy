/** The Python list operations the scoring pipelines are built from: the
    slice `xs[:n]`, `asyncio.gather` over one task per element (results in
    submission order), `filter(lambda x: x != None, ...)` and the stable
    `sorted(..., key=...)`. */
module ListOps {
  import opened Wrappers

  // ---------------------------------------------------------------------------
  // xs[:n]
  // ---------------------------------------------------------------------------

  /** Python's `s[:n]`: the elements whose index is below `n`, where a
      negative `n` counts back from the end of `s`. */
  function TakePrefix<T>(s: seq<T>, n: int): (r: seq<T>)
    ensures |r| <= |s| && r == s[..|r|]
    ensures n >= 0 ==> |r| == if n < |s| then n else |s|
    ensures n < 0 ==> |r| == if |s| + n > 0 then |s| + n else 0
  {
    var stop := if n >= 0 then (if n < |s| then n else |s|)
                else (if |s| + n > 0 then |s| + n else 0);
    s[..stop]
  }

  // ---------------------------------------------------------------------------
  // asyncio.gather over one task per element
  // ---------------------------------------------------------------------------

  /** The results of `f` on every element, in submission order, or the first
      exception (in submission order) that one of them raised. */
  function Gather<A, B>(xs: seq<A>, f: A -> Result<B>): (r: Result<seq<B>>)
    ensures r.Ok? <==> forall i :: 0 <= i < |xs| ==> f(xs[i]).Ok?
    ensures r.Ok? ==> |r.value| == |xs| && forall i :: 0 <= i < |xs| ==> f(xs[i]) == Ok(r.value[i])
    ensures r.Err? ==> exists i :: 0 <= i < |xs| && f(xs[i]) == Err(r.error) && forall j :: 0 <= j < i ==> f(xs[j]).Ok?
  {
    if xs == [] then Ok([])
    else
      match f(xs[0])
      case Err(e) => Err(e)
      case Ok(y) =>
        match Gather(xs[1..], f)
        case Err(e) =>
          assert forall j :: 1 <= j < |xs| ==> xs[j] == xs[1..][j - 1];
          Err(e)
        case Ok(ys) =>
          assert forall j :: 1 <= j < |xs| ==> xs[j] == xs[1..][j - 1];
          Ok([y] + ys)
  }

  // ---------------------------------------------------------------------------
  // filter(lambda x: x != None, ...)
  // ---------------------------------------------------------------------------

  /** The values of the `Some` entries, in order. */
  function KeepSome<T>(s: seq<Option<T>>): (r: seq<T>)
    ensures |r| <= |s|
    ensures forall i :: 0 <= i < |r| ==> Some(r[i]) in s
    ensures forall i :: 0 <= i < |s| && s[i].Some? ==> s[i].value in r
  {
    if s == [] then []
    else
      (if s[0].Some? then [s[0].value] else []) + KeepSome(s[1..])
  }

  /** The number of elements of `s` that satisfy `p`. */
  function CountIf<T>(s: seq<T>, p: T -> bool): (n: nat)
    ensures n <= |s|
  {
    if s == [] then 0 else (if p(s[0]) then 1 else 0) + CountIf(s[1..], p)
  }

  /** The results `f` gives for the elements of `xs` that survive, in the
      order of `xs`: a filter-then-map over `xs` itself, the reference that
      the gather-then-filter of the pipelines is compared with. */
  function Survivors<A, B>(xs: seq<A>, f: A -> Result<Option<B>>): seq<B>
  {
    if xs == [] then []
    else
      var head := if f(xs[0]).Ok? && f(xs[0]).value.Some? then [f(xs[0]).value.value] else [];
      head + Survivors(xs[1..], f)
  }

  /** Dropping the `None`s from the gathered results gives exactly the
      survivors, in submission order. */
  lemma {:induction false} GatherKeepSome<A, B>(xs: seq<A>, f: A -> Result<Option<B>>)
    requires Gather(xs, f).Ok?
    ensures KeepSome(Gather(xs, f).value) == Survivors(xs, f)
  {
    if xs != [] {
      var ys := Gather(xs, f).value;
      assert f(xs[0]) == Ok(ys[0]);
      assert Gather(xs[1..], f).Ok? by {
        forall i | 0 <= i < |xs[1..]| ensures f(xs[1..][i]).Ok? {
          assert xs[1..][i] == xs[i + 1];
        }
      }
      GatherKeepSome(xs[1..], f);
      assert Gather(xs, f).value == [ys[0]] + Gather(xs[1..], f).value;
      assert ys[1..] == Gather(xs[1..], f).value;
    }
  }

  /** A survivor is the result of `f` on some element of `xs`, and every
      result of `f` that is a record is a survivor. */
  lemma {:induction false} SurvivorsMembers<A, B>(xs: seq<A>, f: A -> Result<Option<B>>, y: B)
    ensures y in Survivors(xs, f) <==> exists i :: 0 <= i < |xs| && f(xs[i]) == Ok(Some(y))
  {
    if xs != [] {
      SurvivorsMembers(xs[1..], f, y);
      if exists i :: 0 <= i < |xs[1..]| && f(xs[1..][i]) == Ok(Some(y)) {
        var i :| 0 <= i < |xs[1..]| && f(xs[1..][i]) == Ok(Some(y));
        assert xs[1..][i] == xs[i + 1];
      }
      if exists i :: 0 <= i < |xs| && f(xs[i]) == Ok(Some(y)) {
        var i :| 0 <= i < |xs| && f(xs[i]) == Ok(Some(y));
        if i > 0 {
          assert xs[1..][i - 1] == xs[i];
        }
      }
    }
  }

  /** There are as many survivors as elements on which `f` gives a record. */
  lemma {:induction false} SurvivorsCount<A, B>(xs: seq<A>, f: A -> Result<Option<B>>, p: A -> bool)
    requires forall i :: 0 <= i < |xs| ==> p(xs[i]) == (f(xs[i]).Ok? && f(xs[i]).value.Some?)
    ensures |Survivors(xs, f)| == CountIf(xs, p)
  {
    if xs != [] {
      assert forall i :: 0 <= i < |xs[1..]| ==> xs[1..][i] == xs[i + 1];
      SurvivorsCount(xs[1..], f, p);
    }
  }

  // ---------------------------------------------------------------------------
  // sorted(..., key=...)
  // ---------------------------------------------------------------------------

  ghost predicate SortedBy<T>(s: seq<T>, key: T -> int) {
    forall i, j :: 0 <= i < j < |s| ==> key(s[i]) <= key(s[j])
  }

  /** The subsequence of the elements whose key is `k`, in order. */
  function WithKey<T>(s: seq<T>, key: T -> int, k: int): (r: seq<T>)
    ensures |r| <= |s|
  {
    if s == [] then [] else (if key(s[0]) == k then [s[0]] else []) + WithKey(s[1..], key, k)
  }

  /** Inserts `x` in front of the first element whose key is not smaller. */
  function InsertByKey<T>(x: T, s: seq<T>, key: T -> int): (r: seq<T>)
    ensures |r| == |s| + 1
  {
    if s == [] || key(x) <= key(s[0]) then [x] + s else [s[0]] + InsertByKey(x, s[1..], key)
  }

  /** Insertion sort by key: a stable sort, like Python's `sorted`. */
  function SortByKey<T>(s: seq<T>, key: T -> int): (r: seq<T>)
    ensures |r| == |s|
  {
    if s == [] then [] else InsertByKey(s[0], SortByKey(s[1..], key), key)
  }

  /** Inserting keeps every key at or above a common lower bound. */
  lemma {:induction false} InsertBounded<T>(x: T, s: seq<T>, key: T -> int, lo: int)
    requires lo <= key(x)
    requires forall i :: 0 <= i < |s| ==> lo <= key(s[i])
    ensures forall i :: 0 <= i < |s| + 1 ==> lo <= key(InsertByKey(x, s, key)[i])
  {
    if s != [] && key(x) > key(s[0]) {
      assert forall i :: 0 <= i < |s[1..]| ==> s[1..][i] == s[i + 1];
      InsertBounded(x, s[1..], key, lo);
    }
  }

  lemma {:induction false} InsertSorted<T>(x: T, s: seq<T>, key: T -> int)
    requires SortedBy(s, key)
    ensures SortedBy(InsertByKey(x, s, key), key)
  {
    var r := InsertByKey(x, s, key);
    if s == [] {
    } else if key(x) <= key(s[0]) {
      assert r == [x] + s;
      forall i, j | 0 <= i < j < |r| ensures key(r[i]) <= key(r[j]) {
        assert r[j] == s[j - 1];
        if i > 0 {
          assert r[i] == s[i - 1];
        }
      }
    } else {
      var tail := s[1..];
      assert SortedBy(tail, key) by {
        forall i, j | 0 <= i < j < |tail| ensures key(tail[i]) <= key(tail[j]) {
          assert tail[i] == s[i + 1] && tail[j] == s[j + 1];
        }
      }
      InsertSorted(x, tail, key);
      assert forall i :: 0 <= i < |tail| ==> key(s[0]) <= key(tail[i]) by {
        forall i | 0 <= i < |tail| ensures key(s[0]) <= key(tail[i]) {
          assert tail[i] == s[i + 1];
        }
      }
      InsertBounded(x, tail, key, key(s[0]));
      var t := InsertByKey(x, tail, key);
      assert r == [s[0]] + t;
      forall i, j | 0 <= i < j < |r| ensures key(r[i]) <= key(r[j]) {
        assert r[j] == t[j - 1];
        if i > 0 {
          assert r[i] == t[i - 1];
        }
      }
    }
  }

  lemma {:induction false} InsertMembers<T>(x: T, s: seq<T>, key: T -> int)
    ensures multiset(InsertByKey(x, s, key)) == multiset(s) + multiset{x}
  {
    if s != [] && key(x) > key(s[0]) {
      InsertMembers(x, s[1..], key);
      assert s == [s[0]] + s[1..];
    }
  }

  lemma {:induction false} InsertWithKey<T>(x: T, s: seq<T>, key: T -> int, k: int)
    ensures WithKey(InsertByKey(x, s, key), key, k) == (if key(x) == k then [x] else []) + WithKey(s, key, k)
  {
    if s == [] || key(x) <= key(s[0]) {
      if s != [] && key(x) == k {
        assert ([x] + s)[1..] == s;
      } else if s != [] {
        assert ([x] + s)[1..] == s;
      }
    } else {
      InsertWithKey(x, s[1..], key, k);
      assert ([s[0]] + InsertByKey(x, s[1..], key))[1..] == InsertByKey(x, s[1..], key);
    }
  }

  /** The sorted order is non-decreasing in the key. */
  lemma {:induction false} SortByKeySorted<T>(s: seq<T>, key: T -> int)
    ensures SortedBy(SortByKey(s, key), key)
  {
    if s != [] {
      SortByKeySorted(s[1..], key);
      InsertSorted(s[0], SortByKey(s[1..], key), key);
    }
  }

  /** Sorting neither adds, loses nor duplicates an element. */
  lemma {:induction false} SortByKeyPermutation<T>(s: seq<T>, key: T -> int)
    ensures multiset(SortByKey(s, key)) == multiset(s)
  {
    if s != [] {
      SortByKeyPermutation(s[1..], key);
      InsertMembers(s[0], SortByKey(s[1..], key), key);
      assert s == [s[0]] + s[1..];
    }
  }

  /** Stability: the elements that share a key keep their input order. */
  lemma {:induction false} SortByKeyStable<T>(s: seq<T>, key: T -> int, k: int)
    ensures WithKey(SortByKey(s, key), key, k) == WithKey(s, key, k)
  {
    if s != [] {
      SortByKeyStable(s[1..], key, k);
      InsertWithKey(s[0], SortByKey(s[1..], key), key, k);
    }
  }

  lemma {:induction false} WithKeyMembers<T>(s: seq<T>, key: T -> int, k: int, y: T)
    ensures y in WithKey(s, key, k) <==> y in s && key(y) == k
  {
    if s != [] {
      WithKeyMembers(s[1..], key, k, y);
      assert y in s <==> y == s[0] || y in s[1..];
    }
  }

  /** A sorted sequence starts with a least key. */
  lemma SortedHeadLeast<T>(s: seq<T>, key: T -> int, y: T)
    requires SortedBy(s, key) && y in s
    ensures key(s[0]) <= key(y)
  {
  }

  /** Sorted order plus stability determine the result: any two sequences
      that both are sorted by the key and both keep the order of `s` within
      every key are equal. So the insertion sort agrees with every stable
      sort, Python's `sorted` included. */
  lemma {:induction false} StableSortUnique<T>(a: seq<T>, b: seq<T>, key: T -> int)
    requires SortedBy(a, key) && SortedBy(b, key)
    requires forall k :: WithKey(a, key, k) == WithKey(b, key, k)
    ensures a == b
  {
    if a != [] || b != [] {
      assert a != [] && b != [] by {
        if a != [] {
          assert WithKey(a, key, key(a[0])) != [];
        }
        if b != [] {
          assert WithKey(b, key, key(b[0])) != [];
        }
      }
      var ka, kb := key(a[0]), key(b[0]);
      WithKeyMembers(a, key, ka, a[0]);
      WithKeyMembers(b, key, ka, a[0]);
      SortedHeadLeast(b, key, a[0]);
      WithKeyMembers(b, key, kb, b[0]);
      WithKeyMembers(a, key, kb, b[0]);
      SortedHeadLeast(a, key, b[0]);
      assert ka == kb;
      assert WithKey(a, key, ka)[0] == a[0];
      assert WithKey(b, key, ka)[0] == b[0];
      forall k ensures WithKey(a[1..], key, k) == WithKey(b[1..], key, k) {
        if k == ka {
          assert WithKey(a[1..], key, k) == WithKey(a, key, k)[1..];
          assert WithKey(b[1..], key, k) == WithKey(b, key, k)[1..];
        } else {
          assert WithKey(a[1..], key, k) == WithKey(a, key, k);
          assert WithKey(b[1..], key, k) == WithKey(b, key, k);
        }
      }
      StableSortUnique(a[1..], b[1..], key);
      assert a == [a[0]] + a[1..];
      assert b == [b[0]] + b[1..];
    }
  }
}
