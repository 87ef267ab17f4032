/** Small helpers shared by the calculators: an optional value and the
    numeric operations the source takes from JavaScript's `Math`. */
module Common {

  /** A value that may be absent (JavaScript's `null`, `undefined` or `NaN`). */
  datatype Option<T> = None | Some(value: T)

  /** The `'ok' | 'warn' | 'error'` status both calculators attach to a unit. */
  datatype Status = Ok | Warn | Error

  /** `Math.round`: the nearest integer, halves rounded up (towards +infinity). */
  function Round(x: real): (r: int)
    ensures r as real - 0.5 <= x < r as real + 0.5
  {
    (x + 0.5).Floor
  }

  /** `Math.round` is determined by its bounds: any integer within half a unit
      below and strictly less than half a unit above `x` is its value. */
  lemma RoundIs(x: real, n: int)
    requires n as real - 0.5 <= x < n as real + 0.5
    ensures Round(x) == n
  {
    var r := Round(x);
    assert r as real - 0.5 <= x < r as real + 0.5;
    assert -1.0 < r as real - n as real < 1.0;
  }

  /** `Math.round` never decreases when its argument grows. */
  lemma RoundMonotonic(x: real, y: real)
    requires x <= y
    ensures Round(x) <= Round(y)
  {
    var a, b := Round(x), Round(y);
    assert a as real - 0.5 <= x <= y < b as real + 0.5;
    assert (a - b) as real < 1.0;
  }

  /** `Math.min` on two numbers. */
  function MinReal(a: real, b: real): (r: real)
    ensures r <= a && r <= b
    ensures r == a || r == b
  {
    if a <= b then a else b
  }

  /** `t / l * 100`: the percentage of a positive `l` that `t` amounts to. It
      is at most 100 exactly when `t` is at most `l`. */
  function Percentual(t: real, l: real): (q: real)
    requires l > 0.0
    ensures q * l == 100.0 * t
    ensures q <= 100.0 <==> t <= l
  {
    var q := t / l * 100.0;
    assert t / l * l == t;
    assert q * l == 100.0 * t;
    ScaledAtMost(q, l, t);
    q
  }

  lemma ScaledAtMost(q: real, l: real, t: real)
    requires l > 0.0 && q * l == 100.0 * t
    ensures q <= 100.0 <==> t <= l
  {
    if q <= 100.0 {
      assert (100.0 - q) * l >= 0.0;
    } else {
      assert (q - 100.0) * l > 0.0;
    }
  }

  /** `Math.round(v * 10) / 10`: the value kept to one decimal place, a
      whole number of tenths within half a tenth of `v`. */
  function RoundTenth(v: real): (r: real)
    ensures (r * 10.0).Floor as real == r * 10.0
    ensures v - 0.05 < r <= v + 0.05
  {
    var n := Round(v * 10.0);
    assert n as real - 0.5 <= v * 10.0 < n as real + 0.5;
    assert n as real / 10.0 * 10.0 == n as real;
    n as real / 10.0
  }

  /** Keeping one decimal never reverses an order. */
  lemma RoundTenthMonotonic(x: real, y: real)
    requires x <= y
    ensures RoundTenth(x) <= RoundTenth(y)
  {
    RoundMonotonic(x * 10.0, y * 10.0);
  }

  lemma AppendAssoc<T>(x: seq<T>, y: seq<T>, z: seq<T>)
    ensures x + (y + z) == (x + y) + z
  {
  }

  /** `s.filter(p)`: the elements that satisfy `p`, in their original order. */
  function Filter<T>(s: seq<T>, p: T -> bool): (r: seq<T>)
    ensures |r| <= |s|
    ensures forall i :: 0 <= i < |r| ==> p(r[i]) && r[i] in s
  {
    if s == [] then []
    else
      var rest := Filter(s[1..], p);
      if p(s[0]) then [s[0]] + rest else rest
  }

  /** An element survives the filter exactly when it is there and satisfies `p`. */
  lemma {:induction false} FilterMembership<T>(s: seq<T>, p: T -> bool, x: T)
    ensures x in Filter(s, p) <==> x in s && p(x)
  {
    if s != [] {
      FilterMembership(s[1..], p, x);
      assert x in s <==> x == s[0] || x in s[1..] by {
        assert s == [s[0]] + s[1..];
      }
    }
  }

  /** Filtering distributes over concatenation, so order is kept. */
  lemma {:induction false} FilterAppend<T>(a: seq<T>, b: seq<T>, p: T -> bool)
    ensures Filter(a + b, p) == Filter(a, p) + Filter(b, p)
  {
    if a == [] {
      assert a + b == b;
    } else {
      assert (a + b)[0] == a[0];
      assert (a + b)[1..] == a[1..] + b;
      FilterAppend(a[1..], b, p);
    }
  }

  /** Filtering with a condition every element meets changes nothing. */
  lemma {:induction false} FilterAll<T>(s: seq<T>, p: T -> bool)
    requires forall i :: 0 <= i < |s| ==> p(s[i])
    ensures Filter(s, p) == s
  {
    if s != [] {
      FilterAll(s[1..], p);
    }
  }

  /** Filtering with a condition no element meets leaves nothing. */
  lemma {:induction false} FilterNone<T>(s: seq<T>, p: T -> bool)
    requires forall i :: 0 <= i < |s| ==> !p(s[i])
    ensures Filter(s, p) == []
  {
    if s != [] {
      FilterNone(s[1..], p);
    }
  }

  /** `s.slice(0, n)`. */
  function Take<T>(s: seq<T>, n: nat): (r: seq<T>)
    ensures |r| == if |s| <= n then |s| else n
    ensures r == s[..|r|]
  {
    if |s| <= n then s else s[..n]
  }

  /** The first survivor of a filter is the first element that satisfies `p`. */
  lemma {:induction false} FilterHead<T>(s: seq<T>, p: T -> bool, k: nat)
    requires k < |s| && p(s[k])
    requires forall j :: 0 <= j < k ==> !p(s[j])
    ensures Filter(s, p) != [] && Filter(s, p)[0] == s[k]
  {
    if k > 0 {
      FilterHead(s[1..], p, k - 1);
    }
  }

  /** Survivor `i` sits at some position `k` of `s`, and the survivors before
      it are exactly those of `s[..k]`: the filter keeps the order. */
  lemma {:induction false} FilterIndex<T>(s: seq<T>, p: T -> bool, i: nat) returns (k: nat)
    requires i < |Filter(s, p)|
    ensures k < |s| && s[k] == Filter(s, p)[i]
    ensures Filter(s[..k], p) == Filter(s, p)[..i]
  {
    var t := s[1..];
    var f := Filter(s, p);
    if p(s[0]) && i == 0 {
      k := 0;
      assert s[..0] == [];
    } else if p(s[0]) {
      assert f == [s[0]] + Filter(t, p);
      var k' := FilterIndex(t, p, i - 1);
      k := k' + 1;
      assert s[k] == t[k'];
      assert Filter(s[..k], p) == [s[0]] + Filter(t[..k'], p) by {
        assert s[..k][0] == s[0] && s[..k][1..] == t[..k'];
      }
      assert f[..i] == [s[0]] + Filter(t, p)[..i - 1];
    } else {
      assert f == Filter(t, p);
      var k' := FilterIndex(t, p, i);
      k := k' + 1;
      assert s[k] == t[k'];
      assert Filter(s[..k], p) == Filter(t[..k'], p) by {
        assert s[..k][0] == s[0] && s[..k][1..] == t[..k'];
      }
    }
  }
}
