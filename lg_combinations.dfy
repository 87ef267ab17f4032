/** What a valid LG combination is, an independent enumeration of all of
    them, and the facts the depth-first generators need about the
    combinations that extend a partial one. */
module LgCombinations {
  import opened Keys

  /** `LG_EVAPS` (and `MULTI_EVAPS` in the seed script): the evaporator sizes,
      in thousands of BTU/h, an LG combination may use. */
  const LG_EVAPS: seq<int> := [7, 9, 12, 18, 24]

  /** A usable catalogue of sizes: ascending and positive. */
  ghost predicate GoodSizes(d: seq<int>)
  {
    Sorted(d) && forall i :: 0 <= i < |d| ==> d[i] > 0
  }

  lemma LgSizesGood()
    ensures GoodSizes(LG_EVAPS)
  {
  }

  /** `k` is the key of a combination with 1 to `maxEvaps` evaporators, all of
      sizes in `d`, whose sizes add up to at most `capMax`. */
  ghost predicate ValidKey(d: seq<int>, k: seq<int>, capMax: int, maxEvaps: int)
  {
    Sorted(k) && 0 < |k| <= maxEvaps
    && (forall i :: 0 <= i < |k| ==> k[i] in d)
    && Soma(k) <= capMax
  }

  /** A valid key that holds every evaporator of the partial combination `atual`. */
  ghost predicate Extends(d: seq<int>, atual: seq<int>, k: seq<int>, capMax: int, maxEvaps: int)
  {
    ValidKey(d, k, capMax, maxEvaps) && multiset(atual) <= multiset(k)
  }

  /** Every ascending combination over `d`, built size by size: those that do
      not use `d[0]`, then `d[0]` alone or followed by a combination over `d`
      with one place and `d[0]` of capacity fewer. */
  function Enumerate(d: seq<int>, maxEvaps: int, capMax: int): set<seq<int>>
    decreases |d|, maxEvaps
  {
    if d == [] || maxEvaps <= 0 then {}
    else
      var without := Enumerate(d[1..], maxEvaps, capMax);
      if d[0] <= capMax then
        var rest := Enumerate(d, maxEvaps - 1, capMax - d[0]);
        without + {[d[0]]} + (set s | s in rest :: [d[0]] + s)
      else without
  }

  /** The enumeration holds exactly the valid keys. */
  lemma EnumerateIff(d: seq<int>, maxEvaps: int, capMax: int, k: seq<int>)
    requires GoodSizes(d)
    ensures k in Enumerate(d, maxEvaps, capMax) <==> ValidKey(d, k, capMax, maxEvaps)
  {
    if k in Enumerate(d, maxEvaps, capMax) {
      EnumerateSound(d, maxEvaps, capMax, k);
    }
    if ValidKey(d, k, capMax, maxEvaps) {
      EnumerateComplete(d, maxEvaps, capMax, k);
    }
  }

  lemma GoodSizesTail(d: seq<int>)
    requires GoodSizes(d) && d != []
    ensures GoodSizes(d[1..])
    ensures forall i :: 0 <= i < |d| ==> d[0] <= d[i]
  {
    SortedTail(d);
  }

  /** Only valid keys are enumerated. */
  lemma {:induction false} EnumerateSound(d: seq<int>, maxEvaps: int, capMax: int, k: seq<int>)
    requires GoodSizes(d)
    requires k in Enumerate(d, maxEvaps, capMax)
    ensures ValidKey(d, k, capMax, maxEvaps)
    decreases |d|, maxEvaps
  {
    var d0 := d[0];
    GoodSizesTail(d);
    if k in Enumerate(d[1..], maxEvaps, capMax) {
      EnumerateSound(d[1..], maxEvaps, capMax, k);
      forall i | 0 <= i < |k| ensures k[i] in d {
        assert k[i] in d[1..];
      }
    } else if k != [d0] {
      var rest := Enumerate(d, maxEvaps - 1, capMax - d0);
      var s :| s in rest && k == [d0] + s;
      EnumerateSound(d, maxEvaps - 1, capMax - d0, s);
      assert k[1..] == s;
      ConsSorted(d0, s);
    }
  }

  /** Every valid key is enumerated. */
  lemma {:induction false} EnumerateComplete(d: seq<int>, maxEvaps: int, capMax: int, k: seq<int>)
    requires GoodSizes(d)
    requires ValidKey(d, k, capMax, maxEvaps)
    ensures k in Enumerate(d, maxEvaps, capMax)
    decreases |d|, maxEvaps
  {
    var d0 := d[0];
    GoodSizesTail(d);
    assert k[0] in d;
    if k[0] == d0 {
      if |k| == 1 {
        assert k == [d0] && k[1..] == [];
        assert Soma(k) == k[0] + Soma(k[1..]) == d0;
      } else {
        var s := k[1..];
        assert k == [d0] + s;
        SortedTail(k);
        forall i | 0 <= i < |s| ensures s[i] in d && s[i] >= 0 {
          assert s[i] == k[i + 1];
          var y :| 0 <= y < |d| && d[y] == s[i];
        }
        assert Soma(k) == d0 + Soma(s);
        SomaNonNegative(s);
        EnumerateComplete(d, maxEvaps - 1, capMax - d0, s);
        var rest := Enumerate(d, maxEvaps - 1, capMax - d0);
        assert k in (set s | s in rest :: [d0] + s);
      }
    } else {
      forall i | 0 <= i < |k| ensures k[i] in d[1..] {
        assert k[0] <= k[i];
        var j :| 0 <= j < |d| && d[j] == k[i];
        assert j != 0;
        assert d[1..][j - 1] == k[i];
      }
      EnumerateComplete(d[1..], maxEvaps, capMax, k);
    }
  }

  /** A value no larger than anything in `d` can head a combination over `d`. */
  lemma ConsSorted(d0: int, s: seq<int>)
    requires Sorted(s)
    requires forall i :: 0 <= i < |s| ==> d0 <= s[i]
    ensures Sorted([d0] + s)
  {
    forall i, j | 0 <= i < j < |s| + 1 ensures ([d0] + s)[i] <= ([d0] + s)[j] {
      if i > 0 {
        assert ([d0] + s)[i] == s[i - 1];
      }
      assert ([d0] + s)[j] == s[j - 1];
    }
  }

  /** The reference set of LG keys for one outdoor unit. */
  function LgCombos(capMax: int, maxEvaps: int): (r: set<seq<int>>)
    ensures forall k :: k in r <==> ValidKey(LG_EVAPS, k, capMax, maxEvaps)
  {
    var r := Enumerate(LG_EVAPS, maxEvaps, capMax);
    assert forall k :: k in r <==> ValidKey(LG_EVAPS, k, capMax, maxEvaps) by {
      forall k ensures k in r <==> ValidKey(LG_EVAPS, k, capMax, maxEvaps) {
        EnumerateIff(LG_EVAPS, maxEvaps, capMax, k);
      }
    }
    r
  }

  /** Whatever extends `atual` plus one evaporator extends `atual`. */
  lemma ExtendsParent(d: seq<int>, atual: seq<int>, c: int, k: seq<int>, capMax: int, maxEvaps: int)
    requires Extends(d, Norm(atual + [c]), k, capMax, maxEvaps)
    ensures Extends(d, atual, k, capMax, maxEvaps)
  {
    assert multiset(atual + [c]) == multiset(atual) + multiset{c};
  }

  /** A full partial combination has no extension but itself. */
  lemma ExtendsFull(d: seq<int>, atual: seq<int>, k: seq<int>, capMax: int, maxEvaps: int)
    requires Sorted(atual) && |atual| >= maxEvaps
    requires Extends(d, atual, k, capMax, maxEvaps)
    ensures k == atual
  {
    SubMultisetSameSize(multiset(atual), multiset(k));
    SortedUnique(atual, k);
  }

  /** A sub-multiset at least as large as the whole is the whole. */
  lemma SubMultisetSameSize(a: multiset<int>, b: multiset<int>)
    requires a <= b && |b| <= |a|
    ensures a == b
  {
    assert |b - a| == |b| - |a|;
    assert b - a == multiset{};
    assert b == a + (b - a);
  }

  /** Two different multisets, one below the other: some value occurs more often in the larger one. */
  lemma MultisetGap(a: multiset<int>, b: multiset<int>) returns (c: int)
    requires a <= b && a != b
    ensures a[c] < b[c]
  {
    assert exists x :: a[x] != b[x] by {
      if forall x :: a[x] == b[x] {
        assert false;
      }
    }
    c :| a[c] != b[c];
  }

  /** A value the larger multiset holds more often can be added to the smaller one. */
  lemma AddBelow(a: multiset<int>, b: multiset<int>, c: int)
    requires a <= b && a[c] < b[c]
    ensures a + multiset{c} <= b
  {
  }

  /** A sub-multiset is no larger than the whole. */
  lemma SubMultisetSize(a: multiset<int>, b: multiset<int>)
    requires a <= b
    ensures |a| <= |b|
  {
    assert b == a + (b - a);
  }

  /** An extension other than `atual` itself is reached through a child: some
      size `d[j]` still fits and the child `atual + [d[j]]` extends to `k`. */
  lemma ExtendsChild(d: seq<int>, atual: seq<int>, k: seq<int>, capMax: int, maxEvaps: int)
      returns (j: int)
    requires GoodSizes(d) && Sorted(atual)
    requires Extends(d, atual, k, capMax, maxEvaps) && k != atual
    ensures 0 <= j < |d| && |atual| < maxEvaps
    ensures Soma(atual) + d[j] <= capMax
    ensures Extends(d, Norm(atual + [d[j]]), k, capMax, maxEvaps)
  {
    var a, b := multiset(atual), multiset(k);
    assert a != b by {
      if a == b { SortedUnique(atual, k); }
    }
    var c := MultisetGap(a, b);
    assert c in k by {
      assert c in b;
    }
    var i :| 0 <= i < |k| && k[i] == c;
    j :| 0 <= j < |d| && d[j] == c;
    var child := atual + [c];
    assert multiset(child) <= b by {
      assert multiset(child) == a + multiset{c};
      AddBelow(a, b, c);
    }
    assert Soma(atual) + c <= capMax by {
      forall x | 0 <= x < |k| ensures k[x] >= 0 {
        var y :| 0 <= y < |d| && d[y] == k[x];
      }
      SomaSubMultiset(child, k);
      SomaAppend(atual, [c]);
      SomaSingle(c);
    }
    assert |atual| < maxEvaps by {
      SubMultisetSize(multiset(child), b);
    }
    assert multiset(Norm(child)) == multiset(child);
  }

  /** `k` is reached from `atual` through its child with size `d[j]` added. */
  ghost predicate ViaChild(d: seq<int>, atual: seq<int>, j: int, k: seq<int>, capMax: int, maxEvaps: int)
  {
    0 <= j < |d| && Soma(atual) + d[j] <= capMax
    && Extends(d, Norm(atual + [d[j]]), k, capMax, maxEvaps)
  }

  /** A set holding `atual` (when it is itself valid) and everything reached
      through its children holds every extension of `atual`. */
  lemma CoveredByChildren(d: seq<int>, atual: seq<int>, res: set<seq<int>>, capMax: int, maxEvaps: int)
    requires GoodSizes(d) && Sorted(atual)
    requires |atual| > 0 && Soma(atual) <= capMax && |atual| <= maxEvaps ==> atual in res
    requires forall j, k :: ViaChild(d, atual, j, k, capMax, maxEvaps) ==> k in res
    ensures forall k :: Extends(d, atual, k, capMax, maxEvaps) ==> k in res
  {
    forall k | Extends(d, atual, k, capMax, maxEvaps) ensures k in res {
      if k != atual {
        var j := ExtendsChild(d, atual, k, capMax, maxEvaps);
        assert ViaChild(d, atual, j, k, capMax, maxEvaps);
      }
    }
  }

  /** The children of `atual` are again ascending combinations over `d`. */
  lemma ChildInSizes(d: seq<int>, atual: seq<int>, c: int)
    requires forall i :: 0 <= i < |atual| ==> atual[i] in d
    requires c in d
    ensures forall i :: 0 <= i < |Norm(atual + [c])| ==> Norm(atual + [c])[i] in d
  {
    var filho := Norm(atual + [c]);
    forall i | 0 <= i < |filho| ensures filho[i] in d {
      assert filho[i] in multiset(atual + [c]);
      assert filho[i] in atual + [c];
    }
  }

  /** `res` is `base` plus exactly the valid keys that extend `atual`: what
      one call `comb(atual)` of either generator adds. */
  ghost predicate Adds(d: seq<int>, base: set<seq<int>>, res: set<seq<int>>, atual: seq<int>, capMax: int, maxEvaps: int)
  {
    forall k :: k in res <==> k in base || Extends(d, atual, k, capMax, maxEvaps)
  }

  /** Everything in `res` beyond `base` extends `atual`. */
  ghost predicate Sound(d: seq<int>, base: set<seq<int>>, res: set<seq<int>>, atual: seq<int>, capMax: int, maxEvaps: int)
  {
    forall k :: k in res ==> k in base || Extends(d, atual, k, capMax, maxEvaps)
  }

  /** The children of `atual` with sizes `d[..i]` are done. */
  ghost predicate ChildrenIn(d: seq<int>, atual: seq<int>, i: int, res: set<seq<int>>, capMax: int, maxEvaps: int)
  {
    forall j, k :: (j < i && ViaChild(d, atual, j, k, capMax, maxEvaps)) ==> k in res
  }

  /** A full partial combination adds itself, when valid, and stops. */
  lemma FullCase(d: seq<int>, base: set<seq<int>>, res: set<seq<int>>, atual: seq<int>, capMax: int, maxEvaps: int)
    requires Sorted(atual) && |atual| >= maxEvaps
    requires forall i :: 0 <= i < |atual| ==> atual[i] in d
    requires res == if 0 < |atual| <= maxEvaps && Soma(atual) <= capMax then base + {atual} else base
    ensures Adds(d, base, res, atual, capMax, maxEvaps)
  {
    forall k | Extends(d, atual, k, capMax, maxEvaps) ensures k in res {
      ExtendsFull(d, atual, k, capMax, maxEvaps);
    }
  }

  /** Recording `atual` itself, when it is valid, starts the loop of `comb` sound. */
  lemma Recorded(d: seq<int>, base: set<seq<int>>, res: set<seq<int>>, atual: seq<int>, capMax: int, maxEvaps: int)
    requires Sorted(atual)
    requires forall i :: 0 <= i < |atual| ==> atual[i] in d
    requires res == if 0 < |atual| <= maxEvaps && Soma(atual) <= capMax then base + {atual} else base
    ensures Sound(d, base, res, atual, capMax, maxEvaps) && base <= res
    ensures 0 < |atual| <= maxEvaps && Soma(atual) <= capMax ==> atual in res
  {
  }

  /** Visiting the child with size `d[i]` keeps the loop invariant. */
  lemma Step(d: seq<int>, atual: seq<int>, i: int, base: set<seq<int>>, antes: set<seq<int>>, res: set<seq<int>>,
             capMax: int, maxEvaps: int)
    requires 0 <= i < |d|
    requires Sound(d, base, antes, atual, capMax, maxEvaps) && base <= antes
    requires ChildrenIn(d, atual, i, antes, capMax, maxEvaps)
    requires Adds(d, antes, res, Norm(atual + [d[i]]), capMax, maxEvaps)
    ensures Sound(d, base, res, atual, capMax, maxEvaps) && base <= res && antes <= res
    ensures ChildrenIn(d, atual, i + 1, res, capMax, maxEvaps)
  {
    forall k | k in res ensures k in base || Extends(d, atual, k, capMax, maxEvaps) {
      if k !in antes {
        ExtendsParent(d, atual, d[i], k, capMax, maxEvaps);
      }
    }
  }

  /** A size that does not fit leaves no child to visit. */
  lemma NoChild(d: seq<int>, atual: seq<int>, i: int, res: set<seq<int>>, capMax: int, maxEvaps: int)
    requires 0 <= i < |d| && Soma(atual) + d[i] > capMax
    requires ChildrenIn(d, atual, i, res, capMax, maxEvaps)
    ensures ChildrenIn(d, atual, i + 1, res, capMax, maxEvaps)
  {
  }

  /** Ascending order, checked pair by pair. */
  predicate IsAscending(k: seq<int>)
  {
    |k| < 2 || (k[0] <= k[1] && IsAscending(k[1..]))
  }

  lemma {:induction false} IsAscendingIff(k: seq<int>)
    ensures IsAscending(k) <==> Sorted(k)
  {
    if |k| >= 2 {
      IsAscendingIff(k[1..]);
      if IsAscending(k) {
        forall i, j | 0 <= i < j < |k| ensures k[i] <= k[j] {
          if i > 0 {
            assert k[i] == k[1..][i - 1] && k[j] == k[1..][j - 1];
          } else {
            assert k[1] <= k[j] by {
              if j > 1 { assert k[1] == k[1..][0] && k[j] == k[1..][j - 1]; }
            }
          }
        }
      }
      if Sorted(k) {
        SortedTail(k);
      }
    }
  }

  /** Every element of `k` is one of the LG sizes, checked one by one. */
  predicate AllLgSizes(k: seq<int>)
  {
    k == [] || (k[0] in LG_EVAPS && AllLgSizes(k[1..]))
  }

  lemma {:induction false} AllLgSizesIff(k: seq<int>)
    ensures AllLgSizes(k) <==> forall i :: 0 <= i < |k| ==> k[i] in LG_EVAPS
  {
    if k != [] {
      AllLgSizesIff(k[1..]);
      assert forall i :: 1 <= i < |k| ==> k[i] == k[1..][i - 1];
    }
  }

  /** The membership test of a generated LG table, written as checks the
      source's generator guarantees for every key it adds. */
  predicate IsLgKey(k: seq<int>, capMax: int, maxEvaps: int)
  {
    IsAscending(k) && 0 < |k| <= maxEvaps && AllLgSizes(k) && Soma(k) <= capMax
  }

  lemma IsLgKeyIff(k: seq<int>, capMax: int, maxEvaps: int)
    ensures IsLgKey(k, capMax, maxEvaps) <==> k in LgCombos(capMax, maxEvaps)
  {
    IsAscendingIff(k);
    AllLgSizesIff(k);
  }
}
