/**
  * Helpers shared by the whole model: an optional value, sums and means over
  * reals, counting and filtering of sequences, the bounded suffix that
  * `slice(-n)` keeps, ASCII upper-casing and substring search.
  */
module Common {

  /** A value that may be absent (`undefined` / `null` in the source). */
  datatype Option<+T> = None | Some(value: T) {
    /** The value, or `default` when absent (`??` / destructuring defaults). */
    function GetOr(default: T): T {
      match this
      case Some(v) => v
      case None => default
    }
  }

  // ---------------------------------------------------------------------------
  // Sums and means
  // ---------------------------------------------------------------------------

  /** `xs.reduce((a, b) => a + b, 0)`. */
  function Sum(xs: seq<real>): real
  {
    if |xs| == 0 then 0.0 else xs[0] + Sum(xs[1..])
  }

  /** Arithmetic mean: `sum / length`. */
  function Mean(xs: seq<real>): real
    requires |xs| > 0
  {
    Sum(xs) / (|xs| as real)
  }

  lemma {:induction false} SumAppend(a: seq<real>, b: seq<real>)
    ensures Sum(a + b) == Sum(a) + Sum(b)
  {
    if |a| == 0 {
      assert a + b == b;
    } else {
      assert (a + b)[1..] == a[1..] + b;
      SumAppend(a[1..], b);
    }
  }

  /** The sequence without its element at index `i` (`filter((_, idx) => idx !== i)`). */
  function RemoveAt<T>(xs: seq<T>, i: nat): (r: seq<T>)
    requires i < |xs|
    ensures |r| == |xs| - 1
    ensures forall j :: 0 <= j < i ==> r[j] == xs[j]
    ensures forall j :: i <= j < |r| ==> r[j] == xs[j + 1]
  {
    xs[..i] + xs[i + 1..]
  }

  /** Removing one element removes exactly its value from the sum. */
  lemma {:induction false} SumRemoveAt(xs: seq<real>, i: nat)
    requires i < |xs|
    ensures Sum(RemoveAt(xs, i)) == Sum(xs) - xs[i]
    decreases i
  {
    var r := RemoveAt(xs, i);
    if i == 0 {
      assert r == xs[1..];
    } else {
      var tail := xs[1..];
      SumRemoveAt(tail, i - 1);
      assert r[1..] == RemoveAt(tail, i - 1);
    }
  }

  predicate AllNonNegative(xs: seq<real>)
  {
    forall i :: 0 <= i < |xs| ==> xs[i] >= 0.0
  }

  /** With no negative terms, every term is at most the sum. */
  lemma {:induction false} SumBoundsTerm(xs: seq<real>, i: nat)
    requires AllNonNegative(xs) && i < |xs|
    ensures 0.0 <= xs[i] <= Sum(xs)
  {
    SumNonNegative(xs[1..]);
    if i > 0 {
      SumBoundsTerm(xs[1..], i - 1);
    }
  }

  lemma {:induction false} SumNonNegative(xs: seq<real>)
    requires AllNonNegative(xs)
    ensures Sum(xs) >= 0.0
  {
    if |xs| > 0 {
      SumNonNegative(xs[1..]);
    }
  }

  /** A sum of terms bounded by `lo` and `hi` is bounded by `|xs| * lo` and `|xs| * hi`. */
  lemma {:induction false} SumBetween(xs: seq<real>, lo: real, hi: real)
    requires forall i :: 0 <= i < |xs| ==> lo <= xs[i] <= hi
    ensures (|xs| as real) * lo <= Sum(xs) <= (|xs| as real) * hi
  {
    if |xs| > 0 {
      SumBetween(xs[1..], lo, hi);
      assert (|xs| as real) * lo == lo + ((|xs| - 1) as real) * lo;
      assert (|xs| as real) * hi == hi + ((|xs| - 1) as real) * hi;
    }
  }

  /** Multiplying both sides by a positive factor keeps a strict inequality. */
  lemma MulStrict(a: real, b: real, c: real)
    requires a > b && c > 0.0
    ensures a * c > b * c
  {
  }

  /** Comparing a quotient with a bound is comparing the dividend with the scaled bound. */
  lemma DivAbove(x: real, y: real, c: real)
    requires y > 0.0
    ensures x / y > c <==> x > c * y
  {
    var q := x / y;
    assert q * y == x;
    if q > c {
      MulStrict(q, c, y);
    } else {
      MulWeak(c, q, y);
    }
  }

  /** Multiplying both sides by a non-negative factor keeps a weak inequality. */
  lemma MulWeak(a: real, b: real, c: real)
    requires a >= b && c >= 0.0
    ensures a * c >= b * c
  {
  }

  /** A mean lies between any lower and upper bound of its terms. */
  lemma MeanBetween(xs: seq<real>, lo: real, hi: real)
    requires |xs| > 0
    requires forall i :: 0 <= i < |xs| ==> lo <= xs[i] <= hi
    ensures lo <= Mean(xs) <= hi
  {
    SumBetween(xs, lo, hi);
    var n := |xs| as real;
    assert Mean(xs) * n == Sum(xs);
    assert (Mean(xs) - lo) * n >= 0.0;
    assert (hi - Mean(xs)) * n >= 0.0;
  }

  /** `Math.min(...xs)` for a non-empty sequence. */
  function MinOf(xs: seq<real>): (m: real)
    requires |xs| > 0
    ensures m in xs
    ensures forall i :: 0 <= i < |xs| ==> m <= xs[i]
  {
    if |xs| == 1 then xs[0]
    else
      var rest := MinOf(xs[1..]);
      assert forall i :: 1 <= i < |xs| ==> xs[i] == xs[1..][i - 1];
      if xs[0] <= rest then xs[0] else rest
  }

  // ---------------------------------------------------------------------------
  // Counting and filtering, defined from the last element so that a loop that
  // walks a sequence forwards extends them one element at a time
  // ---------------------------------------------------------------------------

  /** Number of elements satisfying `p`. */
  function CountWhere<T>(xs: seq<T>, p: T -> bool): nat
  {
    if |xs| == 0 then 0
    else CountWhere(xs[..|xs| - 1], p) + (if p(xs[|xs| - 1]) then 1 else 0)
  }

  /** `xs.filter(p)`: the elements satisfying `p`, in their original order. */
  function Filter<T>(xs: seq<T>, p: T -> bool): (r: seq<T>)
    ensures |r| == CountWhere(xs, p)
    ensures forall i :: 0 <= i < |r| ==> r[i] in xs && p(r[i])
    ensures forall i :: 0 <= i < |xs| && p(xs[i]) ==> xs[i] in r
  {
    if |xs| == 0 then []
    else
      var init := Filter(xs[..|xs| - 1], p);
      assert forall i :: 0 <= i < |xs| - 1 ==> xs[i] == xs[..|xs| - 1][i];
      if p(xs[|xs| - 1]) then init + [xs[|xs| - 1]] else init
  }

  /** Elements satisfy exactly one of two complementary tests, so the counts add up. */
  lemma {:induction false} CountComplement<T>(xs: seq<T>, p: T -> bool, q: T -> bool)
    requires forall x :: q(x) == !p(x)
    ensures CountWhere(xs, p) + CountWhere(xs, q) == |xs|
  {
    if |xs| > 0 {
      CountComplement(xs[..|xs| - 1], p, q);
    }
  }

  lemma {:induction false} CountAppend<T>(a: seq<T>, b: seq<T>, p: T -> bool)
    ensures CountWhere(a + b, p) == CountWhere(a, p) + CountWhere(b, p)
  {
    if |b| == 0 {
      assert a + b == a;
    } else {
      assert (a + b)[..|a + b| - 1] == a + b[..|b| - 1];
      CountAppend(a, b[..|b| - 1], p);
    }
  }

  lemma {:induction false} FilterAppend<T>(a: seq<T>, b: seq<T>, p: T -> bool)
    ensures Filter(a + b, p) == Filter(a, p) + Filter(b, p)
  {
    if |b| == 0 {
      assert a + b == a;
    } else {
      assert (a + b)[..|a + b| - 1] == a + b[..|b| - 1];
      FilterAppend(a, b[..|b| - 1], p);
    }
  }

  /** The last element of `a` occurs in its permutation `b`; taking it out of
      both leaves permutations of each other. */
  lemma MatchLast<T>(a: seq<T>, b: seq<T>) returns (k: nat)
    requires multiset(a) == multiset(b) && |a| > 0
    ensures k < |b| && b[k] == a[|a| - 1]
    ensures b == b[..k] + [b[k]] + b[k + 1..]
    ensures multiset(a[..|a| - 1]) == multiset(b[..k] + b[k + 1..])
  {
    var x := a[|a| - 1];
    assert a == a[..|a| - 1] + [x];
    assert x in multiset(b);
    k :| 0 <= k < |b| && b[k] == x;
    var b' := b[..k] + b[k + 1..];
    assert b == b[..k] + [x] + b[k + 1..];
    assert multiset(b) == multiset(b') + multiset{x};
    assert multiset(a) == multiset(a[..|a| - 1]) + multiset{x};
    assert multiset(a[..|a| - 1]) == multiset(a) - multiset{x};
    assert multiset(b') == multiset(b) - multiset{x};
  }

  lemma CountSingle<T>(x: T, p: T -> bool)
    ensures CountWhere([x], p) == if p(x) then 1 else 0
  {
    assert [x][..0] == [];
  }

  lemma FilterSingle<T>(x: T, p: T -> bool)
    ensures Filter([x], p) == if p(x) then [x] else []
  {
    var one := [x];
    assert one[..|one| - 1] == [];
  }

  /** Counting does not depend on the order of the elements. */
  lemma {:induction false} CountPermutation<T>(a: seq<T>, b: seq<T>, p: T -> bool)
    requires multiset(a) == multiset(b)
    ensures CountWhere(a, p) == CountWhere(b, p)
    decreases |a|
  {
    if |a| == 0 {
      assert |b| == |multiset(b)| == 0;
    } else {
      var k := MatchLast(a, b);
      var x := b[k];
      CountPermutation(a[..|a| - 1], b[..k] + b[k + 1..], p);
      assert a == a[..|a| - 1] + [x];
      CountAppend(a[..|a| - 1], [x], p);
      CountAppend(b[..k], [x], p);
      CountAppend(b[..k] + [x], b[k + 1..], p);
      CountAppend(b[..k], b[k + 1..], p);
      CountSingle(x, p);
    }
  }

  /** Counting inside a filtered sequence is counting the conjunction. */
  lemma {:induction false} CountFilter<T>(xs: seq<T>, q: T -> bool, p: T -> bool)
    ensures CountWhere(Filter(xs, q), p) == CountWhere(xs, x => q(x) && p(x))
  {
    if |xs| > 0 {
      var init := xs[..|xs| - 1];
      var last := xs[|xs| - 1];
      CountFilter(init, q, p);
      if q(last) {
        CountAppend(Filter(init, q), [last], p);
        assert CountWhere([last], p) == CountWhere([], p) + (if p(last) then 1 else 0);
      }
    }
  }

  /** A filter keeps every occurrence of an element that passes and none of
      one that fails. */
  lemma {:induction false} FilterMultiplicity<T>(xs: seq<T>, p: T -> bool, y: T)
    ensures multiset(Filter(xs, p))[y] == if p(y) then multiset(xs)[y] else 0
  {
    if |xs| > 0 {
      var init, last := xs[..|xs| - 1], xs[|xs| - 1];
      FilterMultiplicity(init, p, y);
      assert xs == init + [last];
    }
  }

  /** A filter keeps a permutation a permutation. */
  lemma FilterPermutation<T>(a: seq<T>, b: seq<T>, p: T -> bool)
    requires multiset(a) == multiset(b)
    ensures multiset(Filter(a, p)) == multiset(Filter(b, p))
  {
    forall y
      ensures multiset(Filter(a, p))[y] == multiset(Filter(b, p))[y]
    {
      FilterMultiplicity(a, p, y);
      FilterMultiplicity(b, p, y);
    }
  }

  /** Filtering by a test and by its negation splits a sequence: together the
      two parts hold each element as often as the sequence does. */
  lemma FilterSplit<T>(xs: seq<T>, p: T -> bool, q: T -> bool)
    requires forall x :: q(x) == !p(x)
    ensures multiset(Filter(xs, p)) + multiset(Filter(xs, q)) == multiset(xs)
  {
    forall y
      ensures (multiset(Filter(xs, p)) + multiset(Filter(xs, q)))[y] == multiset(xs)[y]
    {
      FilterMultiplicity(xs, p, y);
      FilterMultiplicity(xs, q, y);
    }
  }

  // ---------------------------------------------------------------------------
  // Bounded prefixes and suffixes
  // ---------------------------------------------------------------------------

  /** `xs.slice(0, n)`. */
  function Take<T>(xs: seq<T>, n: nat): (r: seq<T>)
    ensures |r| == if |xs| <= n then |xs| else n
    ensures r == xs[..|r|]
  {
    if |xs| <= n then xs else xs[..n]
  }

  /** `xs.slice(-n)` for `n > 0`: the last `n` elements, or all of them. */
  function LastN<T>(xs: seq<T>, n: nat): (r: seq<T>)
    requires n > 0
    ensures |r| == if |xs| <= n then |xs| else n
    ensures r == xs[|xs| - |r|..]
  {
    if |xs| <= n then xs else xs[|xs| - n..]
  }

  /** Keeping the last `n` of an extended sequence keeps the newest elements in
      order: the whole appended part when it is shorter than `n`, after as many
      of the newest old elements as still fit; otherwise the last `n` appended. */
  lemma LastNOfAppend<T>(before: seq<T>, added: seq<T>, n: nat)
    requires n > 0
    ensures |added| < n ==> LastN(before + added, n) == LastN(before, n - |added|) + added
    ensures |added| >= n ==> LastN(before + added, n) == added[|added| - n..]
  {
    var all := before + added;
    if |added| < n {
      var k := n - |added|;
      if |before| > k {
        assert all[|all| - n..] == before[|before| - k..] + added;
      }
    } else {
      assert all[|all| - n..] == added[|added| - n..];
    }
  }

  // ---------------------------------------------------------------------------
  // Strings
  // ---------------------------------------------------------------------------

  /** `toUpperCase` restricted to ASCII letters. */
  function UpperChar(c: char): (u: char)
  {
    if 'a' <= c <= 'z' then (c as int - 32) as char else c
  }

  function Upper(s: string): (u: string)
    ensures |u| == |s|
    ensures forall i :: 0 <= i < |s| ==> u[i] == UpperChar(s[i])
  {
    seq(|s|, i requires 0 <= i < |s| => UpperChar(s[i]))
  }

  /** `a.toUpperCase() === b.toUpperCase()`. */
  predicate EqualsIgnoreCase(a: string, b: string)
  {
    Upper(a) == Upper(b)
  }

  predicate StartsWith(s: string, prefix: string)
  {
    |prefix| <= |s| && s[..|prefix|] == prefix
  }

  /** `s.includes(sub)`. */
  predicate Contains(s: string, sub: string)
    decreases |s|
  {
    StartsWith(s, sub) || (|s| > 0 && Contains(s[1..], sub))
  }


  /** No element occurs twice. */
  predicate NoRepeats<T(==)>(xs: seq<T>)
  {
    forall i, j :: 0 <= i < j < |xs| ==> xs[i] != xs[j]
  }

  /** A sequence without repeats drawn from `s` is no longer than `s` is large. */
  lemma {:induction false} DistinctWithin<T>(xs: seq<T>, s: set<T>)
    requires NoRepeats(xs)
    requires forall i :: 0 <= i < |xs| ==> xs[i] in s
    ensures |xs| <= |s|
  {
    if |xs| > 0 {
      var x := xs[|xs| - 1];
      var init := xs[..|xs| - 1];
      forall i | 0 <= i < |init| ensures init[i] in s - {x} {
        assert init[i] == xs[i];
      }
      DistinctWithin(init, s - {x});
    }
  }
}
