/** Canonical keys for multisets of evaporator capacities (`norm`) and their
    sum (`soma`), which both calculators share.

    The source renders a key as the ascending values joined with ','; that
    rendering is a one-to-one image of the ascending sequence, so a key is
    represented here by the ascending sequence itself. */
module Keys {

  /** `soma`: the sum of the values. */
  function Soma(s: seq<int>): (r: int)
  {
    if s == [] then 0 else s[0] + Soma(s[1..])
  }

  /** Ascending order, duplicates allowed. */
  ghost predicate Sorted(s: seq<int>)
  {
    forall i, j :: 0 <= i < j < |s| ==> s[i] <= s[j]
  }

  /** Puts `x` in its place in an ascending sequence. */
  function Insert(x: int, s: seq<int>): (r: seq<int>)
    requires Sorted(s)
    ensures Sorted(r)
    ensures multiset(r) == multiset(s) + multiset{x}
  {
    if s == [] then [x]
    else if x <= s[0] then
      assert forall j :: 0 <= j < |s| ==> s[0] <= s[j];
      [x] + s
    else
      assert s == [s[0]] + s[1..];
      var t := Insert(x, s[1..]);
      AllAtLeast(s[0], s[1..], x, t);
      [s[0]] + t
  }

  /** Every element of `t`, a rearrangement of `s` plus `x`, is at least `m`. */
  lemma AllAtLeast(m: int, s: seq<int>, x: int, t: seq<int>)
    requires Sorted(s) && Sorted(t) && m <= x
    requires forall j :: 0 <= j < |s| ==> m <= s[j]
    requires multiset(t) == multiset(s) + multiset{x}
    ensures Sorted([m] + t)
  {
    forall j | 0 <= j < |t| ensures m <= t[j] {
      assert t[j] in multiset(t);
      if t[j] != x {
        assert t[j] in multiset(s);
      }
    }
  }

  /** `norm`: the values in ascending numeric order (`[...arr].sort((a, b) => a - b)`),
      which is the canonical key of the multiset they form. */
  function Norm(s: seq<int>): (r: seq<int>)
    ensures Sorted(r)
    ensures multiset(r) == multiset(s)
  {
    if s == [] then []
    else
      assert s == [s[0]] + s[1..];
      Insert(s[0], Norm(s[1..]))
  }

  /** The first element of an ascending sequence is its least. */
  lemma HeadIsLeast(s: seq<int>, y: int)
    requires Sorted(s) && y in multiset(s)
    ensures s != [] && s[0] <= y
  {
    var i :| 0 <= i < |s| && s[i] == y;
  }

  /** Two ascending sequences holding the same multiset are the same sequence. */
  lemma {:induction false} SortedUnique(a: seq<int>, b: seq<int>)
    requires Sorted(a) && Sorted(b)
    requires multiset(a) == multiset(b)
    ensures a == b
  {
    if a == [] {
      assert |b| == |multiset(b)| == 0;
    } else {
      assert a[0] in multiset(a);
      HeadIsLeast(b, a[0]);
      assert b[0] in multiset(b);
      HeadIsLeast(a, b[0]);
      assert a == [a[0]] + a[1..] && b == [b[0]] + b[1..];
      assert a[0] == b[0];
      assert multiset(a[1..]) == multiset(a) - multiset{a[0]};
      assert multiset(b[1..]) == multiset(b) - multiset{b[0]};
      SortedTail(a);
      SortedTail(b);
      SortedUnique(a[1..], b[1..]);
    }
  }

  lemma SortedTail(s: seq<int>)
    requires Sorted(s) && s != []
    ensures Sorted(s[1..])
  {
    forall i, j | 0 <= i < j < |s| - 1 ensures s[1..][i] <= s[1..][j] {
      assert s[1..][i] == s[i + 1] && s[1..][j] == s[j + 1];
    }
  }

  /** `norm` leaves an ascending sequence as it is. */
  lemma NormOfSorted(s: seq<int>)
    requires Sorted(s)
    ensures Norm(s) == s
  {
    SortedUnique(Norm(s), s);
  }

  /** `norm` ignores input order: two inputs give the same key exactly when
      they hold the same values with the same multiplicities. */
  lemma NormEqualIff(a: seq<int>, b: seq<int>)
    ensures Norm(a) == Norm(b) <==> multiset(a) == multiset(b)
  {
    if multiset(a) == multiset(b) {
      SortedUnique(Norm(a), Norm(b));
    }
  }

  /** The sum of `a + b` is the sum of `a` plus the sum of `b`. */
  lemma {:induction false} SomaAppend(a: seq<int>, b: seq<int>)
    ensures Soma(a + b) == Soma(a) + Soma(b)
  {
    if a == [] {
      assert a + b == b;
    } else {
      assert (a + b)[0] == a[0];
      assert (a + b)[1..] == a[1..] + b;
      SomaAppend(a[1..], b);
    }
  }

  /** The sum of a single value is that value. */
  lemma SomaSingle(x: int)
    ensures Soma([x]) == x
  {
    assert [x][1..] == [];
  }

  /** Taking `x` out from between `p` and `q` takes exactly `x` off the sum. */
  lemma SomaSplit(p: seq<int>, x: int, q: seq<int>)
    ensures Soma(p + [x] + q) == x + Soma(p + q)
  {
    SomaAppend(p + [x], q);
    SomaAppend(p, [x]);
    SomaSingle(x);
    SomaAppend(p, q);
  }

  /** Removing the element at `i` takes exactly that element off the sum. */
  lemma SomaRemove(s: seq<int>, i: int)
    requires 0 <= i < |s|
    ensures Soma(s) == s[i] + Soma(s[..i] + s[i + 1..])
    ensures multiset(s[..i] + s[i + 1..]) == multiset(s) - multiset{s[i]}
  {
    var p, q, x := s[..i], s[i + 1..], s[i];
    var t := p + [x] + q;
    assert s == t by {
      assert |s| == |t|;
      forall k | 0 <= k < |s| ensures s[k] == t[k] {
        if k < i { assert t[k] == p[k]; } else if k > i { assert t[k] == q[k - i - 1]; }
      }
    }
    SomaSplit(p, x, q);
    assert multiset(t) == multiset(p) + multiset{x} + multiset(q);
  }

  /** The sum depends only on the multiset: it does not change under reordering. */
  lemma {:induction false} SomaPermutation(a: seq<int>, b: seq<int>)
    requires multiset(a) == multiset(b)
    ensures Soma(a) == Soma(b)
  {
    if a != [] {
      var i := TakeHead(a, b);
      var rest := b[..i] + b[i + 1..];
      SomaRemove(b, i);
      SomaPermutation(a[1..], rest);
    } else {
      assert |b| == |multiset(b)| == 0;
    }
  }

  /** Where the head of `a` sits in `b`, and what `b` keeps without it. */
  lemma TakeHead(a: seq<int>, b: seq<int>) returns (i: nat)
    requires a != [] && multiset(a) == multiset(b)
    ensures i < |b| && b[i] == a[0]
    ensures multiset(a[1..]) == multiset(b[..i] + b[i + 1..])
  {
    assert a[0] in multiset(a);
    i :| 0 <= i < |b| && b[i] == a[0];
    SomaRemove(b, i);
    assert a == [a[0]] + a[1..];
    assert multiset(a) == multiset{a[0]} + multiset(a[1..]);
  }

  /** For non-negative values, a sub-multiset never sums to more. */
  lemma {:induction false} SomaSubMultiset(a: seq<int>, b: seq<int>)
    requires multiset(a) <= multiset(b)
    requires forall i :: 0 <= i < |b| ==> b[i] >= 0
    ensures Soma(a) <= Soma(b)
  {
    if a == [] {
      SomaNonNegative(b);
    } else {
      assert a[0] in multiset(b);
      var i :| 0 <= i < |b| && b[i] == a[0];
      SomaRemove(b, i);
      var rest := b[..i] + b[i + 1..];
      assert a == [a[0]] + a[1..];
      assert multiset(a[1..]) == multiset(a) - multiset{a[0]};
      forall k | 0 <= k < |rest| ensures rest[k] >= 0 {
        if k < i { assert rest[k] == b[k]; } else { assert rest[k] == b[k + 1]; }
      }
      SomaSubMultiset(a[1..], rest);
    }
  }

  /** Non-negative values have a non-negative sum. */
  lemma {:induction false} SomaNonNegative(s: seq<int>)
    requires forall i :: 0 <= i < |s| ==> s[i] >= 0
    ensures Soma(s) >= 0
  {
    if s != [] {
      SomaNonNegative(s[1..]);
    }
  }

  /** Positive values sum to a positive number exactly when there is one. */
  lemma {:induction false} SomaPositiva(s: seq<int>)
    requires forall i :: 0 <= i < |s| ==> s[i] > 0
    ensures Soma(s) > 0 <==> s != []
  {
    if s != [] {
      SomaPositiva(s[1..]);
    }
  }
}
