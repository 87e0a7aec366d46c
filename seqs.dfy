/** Sequence operations shared by the views: JavaScript's `filter`, `slice(0, n)`,
    a stable sort on a numeric key (what `Array.prototype.sort` with a
    `(a, b) => key(a) - key(b)` comparator produces), sums, and the
    add-or-remove toggle used by the selection lists. */
module Seqs {

  /** The elements of `s` that satisfy `p`, in their original order. */
  function Filter<T>(s: seq<T>, p: T -> bool): (r: seq<T>)
    ensures |r| <= |s|
    ensures forall i :: 0 <= i < |r| ==> p(r[i])
  {
    if s == [] then []
    else
      assert s == [s[0]] + s[1..];
      (if p(s[0]) then [s[0]] else []) + Filter(s[1..], p)
  }

  /** An element is kept exactly when it occurs in `s` and satisfies `p`;
      the kept elements form a sub-multiset of `s`. */
  lemma {:induction false} FilterMembers<T>(s: seq<T>, p: T -> bool)
    ensures forall x :: x in Filter(s, p) <==> x in s && p(x)
    ensures multiset(Filter(s, p)) <= multiset(s)
  {
    if s != [] {
      FilterMembers(s[1..], p);
      assert s == [s[0]] + s[1..];
    }
  }

  lemma {:induction false} FilterConcat<T>(a: seq<T>, b: seq<T>, p: T -> bool)
    ensures Filter(a + b, p) == Filter(a, p) + Filter(b, p)
  {
    if a == [] {
      assert a + b == b;
    } else {
      var c := a + b;
      assert c[0] == a[0] && c[1..] == a[1..] + b;
      FilterConcat(a[1..], b, p);
      var h := if p(a[0]) then [a[0]] else [];
      assert Filter(c, p) == h + Filter(c[1..], p);
      assert Filter(a, p) == h + Filter(a[1..], p);
    }
  }

  /** Filtering keeps everything exactly when every element passes. */
  lemma {:induction false} FilterAll<T>(s: seq<T>, p: T -> bool)
    requires forall x :: x in s ==> p(x)
    ensures Filter(s, p) == s
  {
    if s != [] {
      assert forall x :: x in s[1..] ==> x in s;
      FilterAll(s[1..], p);
    }
  }

  /** Filtering keeps nothing exactly when no element passes. */
  lemma {:induction false} FilterNone<T>(s: seq<T>, p: T -> bool)
    requires forall x :: x in s ==> !p(x)
    ensures Filter(s, p) == []
  {
    if s != [] {
      assert forall x :: x in s[1..] ==> x in s;
      FilterNone(s[1..], p);
    }
  }

  /** One step of `Filter`, on an element put in front. */
  lemma FilterCons<T>(x: T, s: seq<T>, p: T -> bool)
    ensures Filter([x] + s, p) == (if p(x) then [x] else []) + Filter(s, p)
  {
    assert ([x] + s)[0] == x && ([x] + s)[1..] == s;
  }

  /** A predicate and its negation split a sequence: the two parts make up its elements. */
  lemma {:induction false} FilterComplement<T>(s: seq<T>, p: T -> bool, q: T -> bool)
    requires forall x :: q(x) == !p(x)
    ensures |Filter(s, p)| + |Filter(s, q)| == |s|
    ensures multiset(Filter(s, p)) + multiset(Filter(s, q)) == multiset(s)
  {
    if s != [] {
      FilterComplement(s[1..], p, q);
      assert s == [s[0]] + s[1..];
    }
  }

  /** A stronger predicate keeps a sub-multiset, so never more elements. */
  lemma {:induction false} FilterMonotone<T>(s: seq<T>, p: T -> bool, q: T -> bool)
    requires forall x :: q(x) ==> p(x)
    ensures multiset(Filter(s, q)) <= multiset(Filter(s, p))
    ensures |Filter(s, q)| <= |Filter(s, p)|
  {
    if s != [] {
      FilterMonotone(s[1..], p, q);
    }
  }

  /** Filtering by a conjunction is filtering by one conjunct, then the other. */
  lemma {:induction false} FilterFused<T>(s: seq<T>, p: T -> bool, q: T -> bool, both: T -> bool)
    requires forall x :: both(x) == (p(x) && q(x))
    ensures Filter(s, both) == Filter(Filter(s, p), q)
  {
    if s != [] {
      var x, tail := s[0], s[1..];
      FilterFused(tail, p, q, both);
      assert s == [x] + tail;
      FilterCons(x, tail, p);
      FilterCons(x, tail, both);
      assert both(x) == (p(x) && q(x));
      if p(x) {
        assert Filter(s, p) == [x] + Filter(tail, p);
        FilterCons(x, Filter(tail, p), q);
      } else {
        assert Filter(s, p) == Filter(tail, p);
      }
    }
  }

  /** Two predicates that agree on every element of `s` filter it alike. */
  lemma {:induction false} FilterCongruent<T>(s: seq<T>, p: T -> bool, q: T -> bool)
    requires forall x :: x in s ==> p(x) == q(x)
    ensures Filter(s, p) == Filter(s, q)
  {
    if s != [] {
      assert forall x :: x in s[1..] ==> x in s;
      FilterCongruent(s[1..], p, q);
    }
  }

  /** Filtering commutes with itself: filtering by p then q keeps what q then p keeps. */
  lemma {:induction false} FilterCommutes<T>(s: seq<T>, p: T -> bool, q: T -> bool)
    ensures Filter(Filter(s, p), q) == Filter(Filter(s, q), p)
  {
    if s != [] {
      var h := [s[0]];
      assert s == h + s[1..];
      FilterConcat(h, s[1..], p);
      FilterConcat(h, s[1..], q);
      FilterConcat(Filter(h, p), Filter(s[1..], p), q);
      FilterConcat(Filter(h, q), Filter(s[1..], q), p);
      FilterCommutes(s[1..], p, q);
    }
  }

  /** The first `n` elements, or all of them when there are fewer (`slice(0, n)`). */
  function Take<T>(s: seq<T>, n: nat): (r: seq<T>)
    ensures |r| == if |s| < n then |s| else n
    ensures r <= s
  {
    if |s| <= n then s else s[..n]
  }

  /** Sum of `f` over the elements of `s` (`reduce((acc, x) => acc + f(x), 0)`). */
  function Sum<T>(s: seq<T>, f: T -> real): real
  {
    if s == [] then 0.0 else Sum(s[..|s| - 1], f) + f(s[|s| - 1])
  }

  lemma {:induction false} SumConcat<T>(a: seq<T>, b: seq<T>, f: T -> real)
    ensures Sum(a + b, f) == Sum(a, f) + Sum(b, f)
    decreases |b|
  {
    if b == [] {
      assert a + b == a;
    } else {
      assert (a + b)[..|a + b| - 1] == a + b[..|b| - 1];
      SumConcat(a, b[..|b| - 1], f);
    }
  }

  /** A sum of non-negative terms is non-negative. */
  lemma {:induction false} SumNonNegative<T>(s: seq<T>, f: T -> real)
    requires forall x :: x in s ==> f(x) >= 0.0
    ensures Sum(s, f) >= 0.0
  {
    if s != [] {
      assert forall x :: x in s[..|s| - 1] ==> x in s;
      SumNonNegative(s[..|s| - 1], f);
    }
  }

  /** True when `key` never decreases along `s`. */
  predicate SortedBy<T>(s: seq<T>, key: T -> real)
  {
    forall i, j :: 0 <= i < j < |s| ==> key(s[i]) <= key(s[j])
  }

  /** Inserts `x` before the first element whose key is not smaller than its own. */
  function Insert<T>(x: T, s: seq<T>, key: T -> real): (r: seq<T>)
    ensures |r| == |s| + 1
    ensures multiset(r) == multiset(s) + multiset{x}
  {
    if s == [] || key(x) <= key(s[0]) then [x] + s
    else
      assert s == [s[0]] + s[1..];
      [s[0]] + Insert(x, s[1..], key)
  }

  /** Stable sort by ascending `key` (insertion sort). Equal keys keep their input order. */
  function SortBy<T>(s: seq<T>, key: T -> real): (r: seq<T>)
    ensures |r| == |s|
    ensures multiset(r) == multiset(s)
    ensures SortedBy(r, key)
  {
    if s == [] then []
    else
      assert s == [s[0]] + s[1..];
      InsertSorted(s[0], SortBy(s[1..], key), key);
      Insert(s[0], SortBy(s[1..], key), key)
  }

  lemma {:induction false} InsertSorted<T>(x: T, s: seq<T>, key: T -> real)
    requires SortedBy(s, key)
    ensures SortedBy(Insert(x, s, key), key)
  {
    if s != [] && key(x) > key(s[0]) {
      var rest := Insert(x, s[1..], key);
      InsertSorted(x, s[1..], key);
      assert forall i :: 0 <= i < |rest| ==> key(s[0]) <= key(rest[i]) by {
        forall i | 0 <= i < |rest| ensures key(s[0]) <= key(rest[i]) {
          assert rest[i] in multiset(rest);
          if rest[i] != x {
            assert rest[i] in multiset(s[1..]);
            var j :| 0 <= j < |s[1..]| && s[1..][j] == rest[i];
            assert s[j + 1] == rest[i];
          }
        }
      }
      assert Insert(x, s, key) == [s[0]] + rest;
    }
  }

  /** Filtering keeps a sorted sequence sorted. */
  lemma {:induction false} FilterSorted<T>(s: seq<T>, p: T -> bool, key: T -> real)
    requires SortedBy(s, key)
    ensures SortedBy(Filter(s, p), key)
  {
    if s != [] {
      var rest := Filter(s[1..], p);
      SortedSplit(s, key);
      FilterSorted(s[1..], p, key);
      FilterMembers(s[1..], p);
      forall i | 0 <= i < |rest|
        ensures key(s[0]) <= key(rest[i])
      {
        assert rest[i] in multiset(rest);
        assert rest[i] in multiset(s[1..]);
      }
      if p(s[0]) {
        SortedCons(s[0], rest, key);
      }
    }
  }

  /** The tail of a sorted sequence is sorted and nothing in it is below the head. */
  lemma SortedSplit<T>(s: seq<T>, key: T -> real)
    requires SortedBy(s, key) && s != []
    ensures SortedBy(s[1..], key)
    ensures forall y :: y in s[1..] ==> key(s[0]) <= key(y)
    ensures forall y :: y in multiset(s[1..]) ==> key(s[0]) <= key(y)
  {
    forall i, j | 0 <= i < j < |s[1..]|
      ensures key(s[1..][i]) <= key(s[1..][j])
    {
      assert s[1..][i] == s[i + 1] && s[1..][j] == s[j + 1];
    }
  }

  lemma SortedCons<T>(x: T, s: seq<T>, key: T -> real)
    requires SortedBy(s, key)
    requires forall i :: 0 <= i < |s| ==> key(x) <= key(s[i])
    ensures SortedBy([x] + s, key)
  {
    forall i, j | 0 <= i < j < |[x] + s|
      ensures key(([x] + s)[i]) <= key(([x] + s)[j])
    {
      if i > 0 {
        assert ([x] + s)[i] == s[i - 1];
      }
      assert ([x] + s)[j] == s[j - 1];
    }
  }

  /** Sorting an already sorted sequence leaves it as it is. */
  lemma {:induction false} SortBySortedIsIdentity<T>(s: seq<T>, key: T -> real)
    requires SortedBy(s, key)
    ensures SortBy(s, key) == s
  {
    if s != [] {
      assert SortedBy(s[1..], key) by {
        forall i, j | 0 <= i < j < |s[1..]|
          ensures key(s[1..][i]) <= key(s[1..][j])
        {
          assert s[1..][i] == s[i + 1] && s[1..][j] == s[j + 1];
        }
      }
      SortBySortedIsIdentity(s[1..], key);
      assert s == [s[0]] + s[1..];
    }
  }

  /** The predicate "has key k", named so that lemmas can mention it. */
  function HasKey<T>(key: T -> real, k: real): T -> bool
  {
    y => key(y) == k
  }

  /** Filtering a one-element sequence. */
  lemma FilterSingleton<T>(x: T, p: T -> bool)
    ensures Filter([x], p) == if p(x) then [x] else []
  {
    assert [x][1..] == [];
  }

  /** Inserting `x` adds it to its key class, in front of the equal-keyed elements
      already there. */
  lemma {:induction false} InsertKeepsKeyClass<T>(x: T, s: seq<T>, key: T -> real, k: real)
    ensures Filter(Insert(x, s, key), HasKey(key, k))
         == (if key(x) == k then [x] else []) + Filter(s, HasKey(key, k))
  {
    var p := HasKey(key, k);
    var hx := if key(x) == k then [x] else [];
    if s == [] || key(x) <= key(s[0]) {
      assert Insert(x, s, key) == [x] + s;
      FilterCons(x, s, p);
    } else {
      var rest := Insert(x, s[1..], key);
      var h0 := if key(s[0]) == k then [s[0]] else [];
      assert Insert(x, s, key) == [s[0]] + rest;
      InsertKeepsKeyClass(x, s[1..], key, k);
      FilterCons(s[0], rest, p);
      assert s == [s[0]] + s[1..];
      FilterCons(s[0], s[1..], p);
      assert h0 == [] || hx == [];
      SwapWithEmpty(h0, hx, Filter(s[1..], p));
    }
  }

  lemma SwapWithEmpty<T>(a: seq<T>, b: seq<T>, c: seq<T>)
    requires a == [] || b == []
    ensures a + (b + c) == b + (a + c)
  {
  }

  /** Stability: the elements sharing any one key appear in the same relative order
      before and after sorting. */
  lemma {:induction false} SortByStable<T>(s: seq<T>, key: T -> real, k: real)
    ensures Filter(SortBy(s, key), HasKey(key, k)) == Filter(s, HasKey(key, k))
  {
    if s != [] {
      SortByStable(s[1..], key, k);
      InsertKeepsKeyClass(s[0], SortBy(s[1..], key), key, k);
    }
  }

  /** A sorted sequence has its largest key last. */
  lemma SortedLastIsMax<T>(s: seq<T>, key: T -> real, x: T)
    requires SortedBy(s, key) && x in s
    ensures key(x) <= key(s[|s| - 1])
  {
    var i :| 0 <= i < |s| && s[i] == x;
  }

  /** The predicate "differs from x". */
  function Other<T(==)>(x: T): T -> bool
  {
    (y: T) => y != x
  }

  /** `a` is `b` with some elements left out, the rest in their order. */
  predicate Subseq<T(==)>(a: seq<T>, b: seq<T>)
    decreases |b|
  {
    a == [] || (b != [] && ((a[0] == b[0] && Subseq(a[1..], b[1..])) || Subseq(a, b[1..])))
  }

  /** Filtering only leaves elements out, and keeps the order of the rest. */
  lemma {:induction false} FilterSubseq<T>(s: seq<T>, p: T -> bool)
    ensures Subseq(Filter(s, p), s)
  {
    if s != [] {
      FilterSubseq(s[1..], p);
      var r := Filter(s, p);
      assert r == (if p(s[0]) then [s[0]] else []) + Filter(s[1..], p);
      if p(s[0]) {
        assert r[0] == s[0] && r[1..] == Filter(s[1..], p);
      } else {
        assert r == Filter(s[1..], p);
      }
    }
  }

  /** Removing every copy of `x` keeps every other element as often as it occurs. */
  lemma {:induction false} FilterOtherCounts<T>(s: seq<T>, x: T)
    ensures forall z :: multiset(Filter(s, Other(x)))[z] == if z == x then 0 else multiset(s)[z]
  {
    if s != [] {
      var y, t := s[0], s[1..];
      FilterOtherCounts(t, x);
      assert s == [y] + t;
      assert Filter(s, Other(x)) == (if y != x then [y] else []) + Filter(t, Other(x));
    }
  }

  /** `prev.includes(x) ? prev.filter(y => y !== x) : [...prev, x]`: a present `x`
      loses every copy while every other element stays, as often as it occurred and
      in its order; an absent one is appended. */
  function Toggle<T(==)>(s: seq<T>, x: T): (r: seq<T>)
    ensures x in s ==> x !in r && multiset(r) <= multiset(s)
    ensures x in s ==> forall y :: y in s && y != x ==> y in r
    ensures x in s ==> (forall z :: z in s ==> multiset(r)[z] == if z == x then 0 else multiset(s)[z]) && Subseq(r, s)
    ensures x !in s ==> r == s + [x]
  {
    if x in s then
      FilterMembers(s, Other(x));
      FilterSubseq(s, Other(x));
      FilterOtherCounts(s, x);
      Filter(s, Other(x))
    else s + [x]
  }

  /** Toggling an absent element twice gives back the original sequence; toggling a
      present one twice moves it, once, to the end. */
  lemma ToggleTwice<T>(s: seq<T>, x: T)
    ensures x !in s ==> Toggle(Toggle(s, x), x) == s
    ensures x in s ==> Toggle(Toggle(s, x), x) == Filter(s, Other(x)) + [x]
  {
    if x !in s {
      FilterConcat(s, [x], Other(x));
      FilterAll(s, Other(x));
      FilterSingleton(x, Other(x));
    }
  }
}
