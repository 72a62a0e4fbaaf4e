/** Sequence helpers standing in for the array operations the analysis code
    uses: boolean-mask indexing, slicing, counting, summing and argmin. */
module Seqs {
  import opened Wrappers

  /** No element occurs twice. */
  predicate NoDup<T(==)>(s: seq<T>) {
    forall i, j :: 0 <= i < j < |s| ==> s[i] != s[j]
  }

  /** The elements of `s`, as a set. */
  function SetOf<T>(s: seq<T>): set<T> {
    set x | x in s
  }

  /** Extending a sequence by one element adds that element to its set. */
  lemma SetOfPrefix<T>(s: seq<T>, i: nat)
    requires i < |s|
    ensures SetOf(s[..i + 1]) == SetOf(s[..i]) + {s[i]}
  {
    assert s[..i + 1] == s[..i] + [s[i]];
  }

  /** Number of true entries of a mask (`mask.sum()`). */
  function CountTrue(mask: seq<bool>): (n: nat)
    ensures n <= |mask|
  {
    if mask == [] then 0 else (if mask[0] then 1 else 0) + CountTrue(mask[1..])
  }

  /** Number of elements satisfying `p` (`p(xs).sum()`). */
  function Count<T>(xs: seq<T>, p: T -> bool): nat {
    if xs == [] then 0 else (if p(xs[0]) then 1 else 0) + Count(xs[1..], p)
  }

  function Sum(xs: seq<real>): real {
    if xs == [] then 0.0 else xs[0] + Sum(xs[1..])
  }

  /** Boolean-mask indexing `xs[mask]`: the elements whose mask entry is set,
      in their original order. */
  function Select<T>(xs: seq<T>, mask: seq<bool>): (r: seq<T>)
    requires |xs| == |mask|
    ensures |r| == CountTrue(mask)
    ensures forall x :: x in r ==> x in xs
  {
    if xs == [] then []
    else (if mask[0] then [xs[0]] else []) + Select(xs[1..], mask[1..])
  }

  /** The elements satisfying `p`, in order. */
  function Filter<T>(xs: seq<T>, p: T -> bool): (r: seq<T>)
    ensures |r| == Count(xs, p)
    ensures forall x :: x in r ==> x in xs && p(x)
    ensures forall x :: x in xs && p(x) ==> x in r
  {
    if xs == [] then []
    else (if p(xs[0]) then [xs[0]] else []) + Filter(xs[1..], p)
  }

  /** Python's slice `xs[:n]` for a non-negative `n`. */
  function Take<T>(xs: seq<T>, n: nat): (r: seq<T>)
    ensures |r| == if |xs| < n then |xs| else n
    ensures r <= xs
  {
    if |xs| <= n then xs else xs[..n]
  }

  /** numpy's `argmin`: the index of the first smallest element, none for an
      empty sequence. */
  function ArgMin(xs: seq<real>): (r: Option<nat>)
    ensures r.None? <==> xs == []
    ensures r.Some? ==> r.value < |xs|
    ensures r.Some? ==> forall j :: 0 <= j < |xs| ==> xs[r.value] <= xs[j]
    ensures r.Some? ==> forall j :: 0 <= j < r.value ==> xs[r.value] < xs[j]
  {
    if xs == [] then None
    else match ArgMin(xs[1..])
      case None => Some(0)
      case Some(k) => if xs[0] <= xs[k + 1] then Some(0) else Some(k + 1)
  }

  /** Where each selected element lands: the element at a true position `i`
      of the mask is output number `CountTrue(mask[..i])`, that is, it
      follows exactly the selected elements before it. With the length
      `CountTrue(mask)` this determines the whole selection. */
  lemma {:induction false} SelectAt<T>(xs: seq<T>, mask: seq<bool>, i: nat)
    requires |xs| == |mask| && i < |xs| && mask[i]
    ensures CountTrue(mask[..i]) < |Select(xs, mask)|
    ensures Select(xs, mask)[CountTrue(mask[..i])] == xs[i]
    decreases i
  {
    if i == 0 {
      assert mask[..0] == [];
    } else {
      SelectAt(xs[1..], mask[1..], i - 1);
      assert mask[..i][0] == mask[0];
      assert mask[..i][1..] == mask[1..][..i - 1];
    }
  }

  /** `SelectAt` for every selected position at once. */
  lemma SelectPositions<T>(xs: seq<T>, mask: seq<bool>)
    requires |xs| == |mask|
    ensures forall i :: 0 <= i < |xs| && mask[i] ==>
      CountTrue(mask[..i]) < |Select(xs, mask)| && Select(xs, mask)[CountTrue(mask[..i])] == xs[i]
  {
    forall i | 0 <= i < |xs| && mask[i]
      ensures CountTrue(mask[..i]) < |Select(xs, mask)| && Select(xs, mask)[CountTrue(mask[..i])] == xs[i]
    {
      SelectAt(xs, mask, i);
    }
  }

  /** Counting is monotone in the predicate. */
  /** Selecting with an all-true mask keeps everything. */
  lemma {:induction false} SelectAll<T>(xs: seq<T>, mask: seq<bool>)
    requires |xs| == |mask| && forall i :: 0 <= i < |mask| ==> mask[i]
    ensures Select(xs, mask) == xs
  {
    if xs != [] {
      SelectAll(xs[1..], mask[1..]);
    }
  }

  lemma {:induction false} CountMonotone<T>(xs: seq<T>, p: T -> bool, q: T -> bool)
    requires forall x :: p(x) ==> q(x)
    ensures Count(xs, p) <= Count(xs, q)
  {
    if xs != [] {
      CountMonotone(xs[1..], p, q);
    }
  }

  /** A mask that is set wherever a second one is set counts at least as many
      entries. */
  lemma {:induction false} CountTrueMonotone(small: seq<bool>, big: seq<bool>)
    requires |small| == |big|
    requires forall i :: 0 <= i < |small| && small[i] ==> big[i]
    ensures CountTrue(small) <= CountTrue(big)
  {
    if small != [] {
      CountTrueMonotone(small[1..], big[1..]);
    }
  }

  /** With non-negative weights, selecting fewer entries never increases the
      selected sum. */
  lemma {:induction false} SelectSumMonotone(ws: seq<real>, small: seq<bool>, big: seq<bool>)
    requires |ws| == |small| == |big|
    requires forall i :: 0 <= i < |ws| ==> ws[i] >= 0.0
    requires forall i :: 0 <= i < |small| && small[i] ==> big[i]
    ensures Sum(Select(ws, small)) <= Sum(Select(ws, big))
  {
    if ws != [] {
      SelectSumMonotone(ws[1..], small[1..], big[1..]);
      assert Select(ws, small) == (if small[0] then [ws[0]] else []) + Select(ws[1..], small[1..]);
      assert Select(ws, big) == (if big[0] then [ws[0]] else []) + Select(ws[1..], big[1..]);
      SumConcat(if small[0] then [ws[0]] else [], Select(ws[1..], small[1..]));
      SumConcat(if big[0] then [ws[0]] else [], Select(ws[1..], big[1..]));
    }
  }

  lemma {:induction false} SumConcat(a: seq<real>, b: seq<real>)
    ensures Sum(a + b) == Sum(a) + Sum(b)
  {
    if a != [] {
      assert (a + b)[1..] == a[1..] + b;
      SumConcat(a[1..], b);
    } else {
      assert a + b == b;
    }
  }

  /** Filtering a sequence extended by one element extends the filtered
      sequence by that element when it passes. */
  lemma {:induction false} FilterSnoc<T>(a: seq<T>, x: T, p: T -> bool)
    ensures Filter(a + [x], p) == Filter(a, p) + (if p(x) then [x] else [])
    decreases |a|
  {
    if a == [] {
      assert [x][1..] == [];
    } else {
      assert (a + [x])[0] == a[0];
      assert (a + [x])[1..] == a[1..] + [x];
      FilterSnoc(a[1..], x, p);
    }
  }

  lemma {:induction false} FilterNoDup<T>(xs: seq<T>, p: T -> bool)
    requires NoDup(xs)
    ensures NoDup(Filter(xs, p))
  {
    if xs != [] {
      FilterNoDup(xs[1..], p);
      assert xs[0] !in xs[1..];
    }
  }
}
