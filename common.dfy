/** Small building blocks shared by every view: an optional value, the
    `|| null` / `|| ''` conversions of form fields, and the `filter` and
    `reduce((sum, x) => sum + f(x), 0)` chains the components are made of. */
module Common {

  datatype Option<T> = None | Some(value: T)

  /** `s || null`: an empty text field is stored as null. */
  function NullIfEmpty(s: string): (r: Option<string>)
    ensures r.None? <==> s == ""
    ensures r.Some? ==> r.value == s
  {
    if s == "" then None else Some(s)
  }

  /** `x || ''`: a null (or empty) text is loaded into a form as the empty string. */
  function OrEmpty(o: Option<string>): (r: string)
    ensures o.None? ==> r == ""
    ensures o.Some? ==> r == o.value
  {
    match o
    case None => ""
    case Some(s) => s
  }

  /** Loading a stored optional text into a form and storing it again gives the
      text back, except that an empty stored string comes back as null. */
  lemma NullIfEmptyOrEmpty(o: Option<string>)
    ensures NullIfEmpty(OrEmpty(o)) == (if o == Some("") then None else o)
  {
  }

  /** `s.filter(p)`: the elements of `s` that satisfy `p`, in their order. */
  function Filter<T(!new)>(s: seq<T>, p: T -> bool): (r: seq<T>)
    ensures |r| <= |s|
    ensures forall x :: x in r <==> x in s && p(x)
    ensures (forall x :: x in s ==> p(x)) ==> r == s
    ensures (forall x :: x in s ==> !p(x)) ==> r == []
    decreases |s|
  {
    if |s| == 0 then []
    else
      var init := s[..|s| - 1];
      assert s == init + [s[|s| - 1]];
      Filter(init, p) + (if p(s[|s| - 1]) then [s[|s| - 1]] else [])
  }

  /** `s.reduce((sum, x) => sum + f(x), 0)`. */
  function SumOf<T>(s: seq<T>, f: T -> int): int
    decreases |s|
  {
    if |s| == 0 then 0 else SumOf(s[..|s| - 1], f) + f(s[|s| - 1])
  }

  lemma FilterSnoc<T(!new)>(s: seq<T>, x: T, p: T -> bool)
    ensures Filter(s + [x], p) == Filter(s, p) + (if p(x) then [x] else [])
  {
    assert (s + [x])[..|s|] == s;
  }

  lemma SumOfSnoc<T>(s: seq<T>, x: T, f: T -> int)
    ensures SumOf(s + [x], f) == SumOf(s, f) + f(x)
  {
    assert (s + [x])[..|s|] == s;
  }

  /** Filtering distributes over concatenation: the filter keeps the
      elements of each part in place, so the order of `s` is preserved. */
  lemma {:induction false} FilterAppend<T(!new)>(a: seq<T>, b: seq<T>, p: T -> bool)
    ensures Filter(a + b, p) == Filter(a, p) + Filter(b, p)
    decreases |b|
  {
    if |b| > 0 {
      var init := b[..|b| - 1];
      var x := b[|b| - 1];
      assert b == init + [x];
      assert a + b == (a + init) + [x];
      var t := if p(x) then [x] else [];
      calc {
        Filter(a + b, p);
        { FilterSnoc(a + init, x, p); }
        Filter(a + init, p) + t;
        { FilterAppend(a, init, p); }
        (Filter(a, p) + Filter(init, p)) + t;
        Filter(a, p) + (Filter(init, p) + t);
        { FilterSnoc(init, x, p); }
        Filter(a, p) + Filter(b, p);
      }
    } else {
      assert a + b == a;
    }
  }

  lemma {:induction false} SumOfAppend<T>(a: seq<T>, b: seq<T>, f: T -> int)
    ensures SumOf(a + b, f) == SumOf(a, f) + SumOf(b, f)
    decreases |b|
  {
    if |b| > 0 {
      var init := b[..|b| - 1];
      var x := b[|b| - 1];
      assert b == init + [x];
      assert a + b == (a + init) + [x];
      calc {
        SumOf(a + b, f);
        { SumOfSnoc(a + init, x, f); }
        SumOf(a + init, f) + f(x);
        { SumOfAppend(a, init, f); }
        SumOf(a, f) + SumOf(init, f) + f(x);
        { SumOfSnoc(init, x, f); }
        SumOf(a, f) + SumOf(b, f);
      }
    } else {
      assert a + b == a;
    }
  }

  /** The summand `f`, counted only where `p` holds. */
  function MaskBy<T>(p: T -> bool, f: T -> int): T -> int {
    x => if p(x) then f(x) else 0
  }

  /** Summing over a filtered list is summing the masked summand over the
      whole list. */
  lemma {:induction false} SumOfFilter<T(!new)>(s: seq<T>, p: T -> bool, f: T -> int)
    ensures SumOf(Filter(s, p), f) == SumOf(s, MaskBy(p, f))
    decreases |s|
  {
    if |s| > 0 {
      var init, x := s[..|s| - 1], s[|s| - 1];
      var t := if p(x) then [x] else [];
      assert Filter(s, p) == Filter(init, p) + t;
      SumOfAppend(Filter(init, p), t, f);
      assert SumOf(t, f) == MaskBy(p, f)(x) by {
        if p(x) { assert t == [] + [x]; }
      }
      SumOfFilter(init, p, f);
    }
  }

  /** A summand that is pointwise the sum of two summands sums to the sum of
      their sums. */
  lemma {:induction false} SumOfPlus<T>(s: seq<T>, f: T -> int, g: T -> int, h: T -> int)
    requires forall i :: 0 <= i < |s| ==> f(s[i]) == g(s[i]) + h(s[i])
    ensures SumOf(s, f) == SumOf(s, g) + SumOf(s, h)
    decreases |s|
  {
    if |s| > 0 {
      SumOfPlus(s[..|s| - 1], f, g, h);
    }
  }

  /** Summands that agree on every element have equal sums. */
  lemma {:induction false} SumOfCongruent<T>(s: seq<T>, f: T -> int, g: T -> int)
    requires forall i :: 0 <= i < |s| ==> f(s[i]) == g(s[i])
    ensures SumOf(s, f) == SumOf(s, g)
    decreases |s|
  {
    if |s| > 0 {
      SumOfCongruent(s[..|s| - 1], f, g);
    }
  }

  /** Sums are linear: `f = g - h + k` pointwise carries over to the sums. */
  lemma {:induction false} SumOfLinear<T>(s: seq<T>, f: T -> int, g: T -> int, h: T -> int, k: T -> int)
    requires forall i :: 0 <= i < |s| ==> f(s[i]) == g(s[i]) - h(s[i]) + k(s[i])
    ensures SumOf(s, f) == SumOf(s, g) - SumOf(s, h) + SumOf(s, k)
    decreases |s|
  {
    if |s| > 0 {
      SumOfLinear(s[..|s| - 1], f, g, h, k);
    }
  }

  /** Filters that agree on every element keep the same elements. */
  lemma {:induction false} FilterCongruent<T(!new)>(s: seq<T>, p: T -> bool, q: T -> bool)
    requires forall i :: 0 <= i < |s| ==> p(s[i]) == q(s[i])
    ensures Filter(s, p) == Filter(s, q)
    decreases |s|
  {
    if |s| > 0 {
      FilterCongruent(s[..|s| - 1], p, q);
    }
  }

  /** Filtering twice is filtering once by the conjunction. */
  lemma {:induction false} FilterConj<T(!new)>(s: seq<T>, p: T -> bool, q: T -> bool, r: T -> bool)
    requires forall i :: 0 <= i < |s| ==> r(s[i]) == (p(s[i]) && q(s[i]))
    ensures Filter(Filter(s, p), q) == Filter(s, r)
    decreases |s|
  {
    if |s| > 0 {
      var init, x := s[..|s| - 1], s[|s| - 1];
      FilterConj(init, p, q, r);
      var f := Filter(init, p);
      if p(x) {
        assert Filter(s, p) == f + [x];
        FilterSnoc(f, x, q);
      } else {
        assert Filter(s, p) == f;
      }
    }
  }

  /** A constant summand sums to the length times the constant. */
  lemma {:induction false} SumOfConstant<T>(s: seq<T>, f: T -> int, c: int)
    requires forall i :: 0 <= i < |s| ==> f(s[i]) == c
    ensures SumOf(s, f) == |s| * c
    decreases |s|
  {
    if |s| > 0 {
      SumOfConstant(s[..|s| - 1], f, c);
      assert |s| * c == (|s| - 1) * c + c;
    }
  }

  /** When every element satisfies exactly one of four predicates, the four
      filtered lists together are as long as the whole list. */
  lemma {:induction false} FilterPartition4<T(!new)>(s: seq<T>, p1: T -> bool, p2: T -> bool, p3: T -> bool, p4: T -> bool)
    requires forall i :: 0 <= i < |s| ==>
               (if p1(s[i]) then 1 else 0) + (if p2(s[i]) then 1 else 0) +
               (if p3(s[i]) then 1 else 0) + (if p4(s[i]) then 1 else 0) == 1
    ensures |Filter(s, p1)| + |Filter(s, p2)| + |Filter(s, p3)| + |Filter(s, p4)| == |s|
    decreases |s|
  {
    if |s| > 0 {
      var init, x := s[..|s| - 1], s[|s| - 1];
      assert s == init + [x];
      FilterPartition4(init, p1, p2, p3, p4);
      FilterSnoc(init, x, p1);
      FilterSnoc(init, x, p2);
      FilterSnoc(init, x, p3);
      FilterSnoc(init, x, p4);
    }
  }

  lemma SumOfPrefixStep<T>(s: seq<T>, n: nat, f: T -> int)
    requires 0 < n <= |s|
    ensures SumOf(s[..n], f) == SumOf(s[..n - 1], f) + f(s[n - 1])
  {
    assert s[..n][..n - 1] == s[..n - 1];
  }
}
