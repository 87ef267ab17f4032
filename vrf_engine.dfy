/** The VRF condenser selector: the evaporators' load, the demo condenser
    catalog, and the choice of an ideal condenser with its neighbours. */
module VrfEngine {
  import opened Common

  /** One group of identical evaporators. A missing `real` or `qty` is `None`. */
  datatype EvapEntry = EvapEntry(tipo: string, nominal: int, capReal: Option<int>, qty: Option<int>)

  /** A condenser of the catalog, capacities in the catalog's units. */
  datatype Condenser = Condenser(nome: string, nominal: int, max: int)

  /** A catalog entry with the figures computed for one load. */
  datatype Annotated = Annotated(c: Condenser, limite: int, uso: real, status: Status)

  /** What `calcCondenser` returns. `minRequiredBTUh` is `None` where the
      division by a zero percentage leaves no finite number. */
  datatype CalcResult = CalcResult(
    sumBTUh: int,
    minRequiredBTUh: Option<int>,
    condensers: seq<Annotated>,
    ideal: Option<Annotated>,
    oneUp: Option<Annotated>,
    oneDown: Option<Annotated>)

  // ---- The demo catalog ----

  function SamsungVertical(): (list: seq<Condenser>)
    ensures |list| == 7
  {
    [Condenser("Samsung VRF 8HP", 76432, 85000),
     Condenser("Samsung VRF 10HP", 95540, 105000),
     Condenser("Samsung VRF 12HP", 114648, 125000),
     Condenser("Samsung VRF 14HP", 133756, 145000),
     Condenser("Samsung VRF 16HP", 152864, 165000),
     Condenser("Samsung VRF 18HP", 171972, 185000),
     Condenser("Samsung VRF 20HP", 191080, 205000)]
  }

  function SamsungHorizontal(): (list: seq<Condenser>)
    ensures |list| == 8
  {
    [Condenser("Samsung VRF H 4HP", 41287, 45000),
     Condenser("Samsung VRF H 5HP", 47770, 52000),
     Condenser("Samsung VRF H 6HP", 52888, 58000),
     Condenser("Samsung VRF H 7HP", 61760, 68000),
     Condenser("Samsung VRF H 8HP", 76432, 85000),
     Condenser("Samsung VRF H 10HP", 95540, 105000),
     Condenser("Samsung VRF H 12HP", 114648, 125000),
     Condenser("Samsung VRF H 14HP", 136486, 150000)]
  }

  function DaikinVertical(): (list: seq<Condenser>)
    ensures |list| == 7
  {
    [Condenser("Daikin VRV IV 8HP", 200, 220),
     Condenser("Daikin VRV IV 10HP", 250, 275),
     Condenser("Daikin VRV IV 12HP", 300, 330),
     Condenser("Daikin VRV IV 14HP", 350, 385),
     Condenser("Daikin VRV IV 16HP", 400, 440),
     Condenser("Daikin VRV IV 18HP", 450, 495),
     Condenser("Daikin VRV IV 20HP", 500, 550)]
  }

  function DaikinHorizontal(): (list: seq<Condenser>)
    ensures |list| == 8
  {
    [Condenser("Daikin VRF 3HP", 72, 80),
     Condenser("Daikin VRF 4HP", 100, 110),
     Condenser("Daikin VRF 5HP", 125, 138),
     Condenser("Daikin VRF 6HP", 150, 165),
     Condenser("Daikin VRV H 8HP", 200, 220),
     Condenser("Daikin VRV H 10HP", 223, 245),
     Condenser("Daikin VRV H 10HP", 250, 275),
     Condenser("Daikin VRV H 12HP", 300, 330)]
  }

  /** No two entries of the list share a name. */
  predicate DistinctNames(list: seq<Condenser>)
  {
    forall i, j :: 0 <= i < j < |list| ==> list[i].nome != list[j].nome
  }

  /** In three of the demo lists no two entries share a name, so a lookup
      by name finds the entry itself. */
  lemma SamsungVerticalNamesDistinct()
    ensures DistinctNames(SamsungVertical())
  {
  }

  lemma SamsungHorizontalNamesDistinct()
    ensures DistinctNames(SamsungHorizontal())
  {
  }

  lemma DaikinVerticalNamesDistinct()
    ensures DistinctNames(DaikinVertical())
  {
  }

  /** Nominal capacities strictly ascending along the list. */
  predicate Ascending(list: seq<Condenser>)
  {
    forall i, j :: 0 <= i < j < |list| ==> list[i].nominal < list[j].nominal
  }

  /** Each nominal capacity below the next one. */
  predicate StepsUp(list: seq<Condenser>)
  {
    forall i :: 0 <= i < |list| - 1 ==> list[i].nominal < list[i + 1].nominal
  }

  /** Every entry has a positive nominal capacity and a larger maximum. */
  predicate Sane(list: seq<Condenser>)
  {
    forall i :: 0 <= i < |list| ==> 0 < list[i].nominal < list[i].max
  }

  lemma {:induction false} StepsUpAscending(list: seq<Condenser>)
    requires StepsUp(list)
    ensures Ascending(list)
  {
    if |list| > 1 {
      var t := list[1..];
      assert StepsUp(t) by {
        forall i | 0 <= i < |t| - 1 ensures t[i].nominal < t[i + 1].nominal {
          assert t[i] == list[i + 1] && t[i + 1] == list[i + 2];
        }
      }
      StepsUpAscending(t);
      forall i, j | 0 <= i < j < |list| ensures list[i].nominal < list[j].nominal {
        if i > 0 {
          assert list[i] == t[i - 1] && list[j] == t[j - 1];
        } else if j > 1 {
          assert list[1] == t[0] && list[j] == t[j - 1];
        }
      }
    }
  }

  /** `CATALOG[brand]?.[orientation] || []`: an unknown brand or orientation
      gives the empty list. */
  function Catalog(brand: string, orientation: string): (list: seq<Condenser>)
    ensures list != [] <==>
      (brand == "samsung" || brand == "daikin") && (orientation == "vertical" || orientation == "horizontal")
    ensures forall i :: 0 <= i < |list| ==> list[i].nominal > 0
  {
    if brand == "samsung" && orientation == "vertical" then SamsungVertical()
    else if brand == "samsung" && orientation == "horizontal" then SamsungHorizontal()
    else if brand == "daikin" && orientation == "vertical" then DaikinVertical()
    else if brand == "daikin" && orientation == "horizontal" then DaikinHorizontal()
    else []
  }

  lemma SamsungVerticalOrdered()
    ensures StepsUp(SamsungVertical()) && Sane(SamsungVertical())
  {
  }

  lemma SamsungHorizontalOrdered()
    ensures StepsUp(SamsungHorizontal()) && Sane(SamsungHorizontal())
  {
  }

  lemma DaikinVerticalOrdered()
    ensures StepsUp(DaikinVertical()) && Sane(DaikinVertical())
  {
  }

  lemma DaikinHorizontalOrdered()
    ensures StepsUp(DaikinHorizontal()) && Sane(DaikinHorizontal())
  {
  }

  /** Every list of the catalog is strictly ascending, each maximum above its nominal. */
  lemma CatalogOrdered(brand: string, orientation: string)
    ensures Ascending(Catalog(brand, orientation)) && Sane(Catalog(brand, orientation))
  {
    SamsungVerticalOrdered();
    SamsungHorizontalOrdered();
    DaikinVerticalOrdered();
    DaikinHorizontalOrdered();
    StepsUpAscending(Catalog(brand, orientation));
  }

  // ---- Load ----

  /** `x || d` on a number: a missing or zero value falls back to `d`. */
  function OrElse(x: Option<int>, d: int): (r: int)
    ensures x.Some? && x.value != 0 ==> r == x.value
    ensures x == None || x == Some(0) ==> r == d
  {
    if x.Some? && x.value != 0 then x.value else d
  }

  /** One entry's share of the load, `(e.real || 0) * (e.qty || 1)`. */
  function Contribution(e: EvapEntry): (r: int)
    ensures e.capReal == None || e.capReal == Some(0) ==> r == 0
    ensures e.qty == None || e.qty == Some(0) ==> r == OrElse(e.capReal, 0)
    ensures e.capReal.Some? && e.qty.Some? && e.qty.value != 0 ==> r == e.capReal.value * e.qty.value
  {
    OrElse(e.capReal, 0) * OrElse(e.qty, 1)
  }

  /** `sumEvapsBTUh`: the reduce, folding from the left. */
  function SumEvaps(evaps: seq<EvapEntry>): int
  {
    if evaps == [] then 0
    else SumEvaps(evaps[..|evaps| - 1]) + Contribution(evaps[|evaps| - 1])
  }

  /** The load of two lists of entries is the sum of their loads. */
  lemma {:induction false} SumEvapsAppend(a: seq<EvapEntry>, b: seq<EvapEntry>)
    ensures SumEvaps(a + b) == SumEvaps(a) + SumEvaps(b)
  {
    if b != [] {
      var b' := b[..|b| - 1];
      assert (a + b)[..|a + b| - 1] == a + b';
      SumEvapsAppend(a, b');
    } else {
      assert a + b == a;
    }
  }

  /** The load of a single entry is its share. */
  lemma SumEvapsSingle(e: EvapEntry)
    ensures SumEvaps([e]) == Contribution(e)
  {
    assert [e][..0] == [];
  }

  /** Entries that each bring a positive share give a positive load exactly
      when there is one. */
  lemma {:induction false} SumEvapsPositive(evaps: seq<EvapEntry>)
    requires forall i :: 0 <= i < |evaps| ==> Contribution(evaps[i]) > 0
    ensures SumEvaps(evaps) > 0 <==> evaps != []
  {
    if evaps != [] {
      SumEvapsPositive(evaps[..|evaps| - 1]);
    }
  }

  /** No negative figure, no negative load. */
  lemma {:induction false} SumEvapsNonNegative(evaps: seq<EvapEntry>)
    requires forall i :: 0 <= i < |evaps| ==>
      OrElse(evaps[i].capReal, 0) >= 0 && OrElse(evaps[i].qty, 1) >= 0
    ensures SumEvaps(evaps) >= 0
  {
    if evaps != [] {
      var pre := evaps[..|evaps| - 1];
      assert forall i :: 0 <= i < |pre| ==> pre[i] == evaps[i];
      SumEvapsNonNegative(pre);
      var e := evaps[|evaps| - 1];
      assert Contribution(e) >= 0 by {
        assert OrElse(e.capReal, 0) >= 0 && OrElse(e.qty, 1) >= 0;
      }
    }
  }

  /** `minRequiredBTUh`: the load divided by the simultaneity ratio, to the
      nearest integer. It is reported but takes no part in the choice. */
  function MinRequired(sum: int, p: int): (r: Option<int>)
    ensures r.None? <==> p == 0
    ensures r.Some? ==> r.value as real - 0.5 <= sum as real * 100.0 / p as real < r.value as real + 0.5
  {
    if p == 0 then None
    else
      var x := sum as real / (p as real / 100.0);
      assert x == sum as real * 100.0 / p as real;
      Some(Round(x))
  }

  // ---- Annotation ----

  /** The figures of one catalog entry for load `sum` at `p` percent. */
  function Annotate(c: Condenser, sum: int, p: int): (a: Annotated)
    requires c.nominal > 0
    ensures a.c == c
    ensures a.limite as real - 0.5 <= c.nominal as real * p as real / 100.0 < a.limite as real + 0.5
    ensures a.uso == RoundTenth(sum as real / c.nominal as real * 100.0)
    ensures sum as real / c.nominal as real * 100.0 - 0.05 < a.uso <= sum as real / c.nominal as real * 100.0 + 0.05
    ensures a.status == Ok <==> sum <= a.limite
    ensures a.status == Warn <==> a.limite < sum <= c.max
    ensures a.status == Error <==> a.limite < sum && c.max < sum
  {
    var limite := Round(c.nominal as real * (p as real / 100.0));
    var uso := RoundTenth(sum as real / c.nominal as real * 100.0);
    Annotated(c, limite, uso,
      if sum <= limite then Ok else if sum <= c.max then Warn else Error)
  }

  /** `withLimits`: the catalog list, entry by entry, in the same order. */
  function Anotar(list: seq<Condenser>, sum: int, p: int): (ws: seq<Annotated>)
    requires forall i :: 0 <= i < |list| ==> list[i].nominal > 0
    ensures |ws| == |list|
    ensures forall i :: 0 <= i < |ws| ==> ws[i] == Annotate(list[i], sum, p)
  {
    if list == [] then [] else [Annotate(list[0], sum, p)] + Anotar(list[1..], sum, p)
  }

  // ---- Choice ----

  /** The filter of `validCondensers`: the load over the nominal capacity is
      within the simultaneity ratio. */
  predicate Valida(sum: int, p: int, a: Annotated)
  {
    a.c.nominal > 0 && sum as real / a.c.nominal as real <= p as real / 100.0
  }

  /** The reduce of `ideal`: the position of the highest `uso`, the earliest
      one on ties because a later entry replaces the best only when strictly higher. */
  function MelhorIdx(vs: seq<Annotated>): (i: nat)
    requires vs != []
    ensures i < |vs|
    ensures forall j :: 0 <= j < |vs| ==> vs[j].uso <= vs[i].uso
    ensures forall j :: 0 <= j < i ==> vs[j].uso < vs[i].uso
  {
    if |vs| == 1 then 0
    else
      var b := MelhorIdx(vs[..|vs| - 1]);
      if vs[|vs| - 1].uso > vs[b].uso then |vs| - 1 else b
  }

  /** `ideal`: the best of the valid entries, or none. */
  function Ideal(ws: seq<Annotated>, sum: int, p: int): Option<Annotated>
  {
    var valid := Filter(ws, a => Valida(sum, p, a));
    if valid == [] then None else Some(valid[MelhorIdx(valid)])
  }

  /** `findIndex(c => c.nome === nome)`: the first entry of that name, or -1. */
  function FirstNamed(ws: seq<Annotated>, nome: string): (k: int)
    ensures -1 <= k < |ws|
    ensures k == -1 <==> forall i :: 0 <= i < |ws| ==> ws[i].c.nome != nome
    ensures k >= 0 ==> ws[k].c.nome == nome && forall j :: 0 <= j < k ==> ws[j].c.nome != nome
  {
    if ws == [] then -1
    else if ws[0].c.nome == nome then 0
    else
      var k := FirstNamed(ws[1..], nome);
      if k == -1 then -1 else k + 1
  }

  /** `oneUp`: the entry after position `idx`, if any. */
  function OneUpAt(ws: seq<Annotated>, idx: int): (r: Option<Annotated>)
    ensures r.Some? <==> 0 <= idx && idx + 1 < |ws|
    ensures r.Some? ==> r.value == ws[idx + 1]
  {
    if idx >= 0 && idx + 1 < |ws| then Some(ws[idx + 1]) else None
  }

  /** `oneDown`: the entry before position `idx`, if any. */
  function OneDownAt(ws: seq<Annotated>, idx: int): (r: Option<Annotated>)
    ensures r.Some? <==> 0 < idx <= |ws|
    ensures r.Some? ==> r.value == ws[idx - 1]
  {
    if 0 < idx <= |ws| then Some(ws[idx - 1]) else None
  }

  /** `calcCondenser` over a given list, with the ideal located by name. */
  function CalcOn(list: seq<Condenser>, p: int, evaps: seq<EvapEntry>): (r: CalcResult)
    requires forall i :: 0 <= i < |list| ==> list[i].nominal > 0
    ensures r.sumBTUh == SumEvaps(evaps) && r.minRequiredBTUh == MinRequired(r.sumBTUh, p)
    ensures r.condensers == Anotar(list, r.sumBTUh, p)
    ensures r.ideal == Ideal(r.condensers, r.sumBTUh, p)
  {
    var sum := SumEvaps(evaps);
    var ws := Anotar(list, sum, p);
    var ideal := Ideal(ws, sum, p);
    var idx := if ideal.Some? then FirstNamed(ws, ideal.value.c.nome) else -1;
    CalcResult(sum, MinRequired(sum, p), ws, ideal, OneUpAt(ws, idx), OneDownAt(ws, idx))
  }

  /** `calcCondenser`. */
  function CalcCondenser(brand: string, orientation: string, p: int, evaps: seq<EvapEntry>): (r: CalcResult)
    ensures |r.condensers| == |Catalog(brand, orientation)|
    ensures forall i :: 0 <= i < |r.condensers| ==> r.condensers[i].c == Catalog(brand, orientation)[i]
  {
    CalcOn(Catalog(brand, orientation), p, evaps)
  }

  /** The first position holding exactly this entry, or -1. */
  function FirstIndexOf(ws: seq<Annotated>, a: Annotated): (k: int)
    ensures -1 <= k < |ws|
    ensures k == -1 <==> a !in ws
    ensures k >= 0 ==> ws[k] == a && forall j :: 0 <= j < k ==> ws[j] != a
  {
    if ws == [] then -1
    else if ws[0] == a then 0
    else
      var k := FirstIndexOf(ws[1..], a);
      assert a in ws <==> a in ws[1..] by { assert ws == [ws[0]] + ws[1..]; }
      if k == -1 then -1 else k + 1
  }

  /** `calcCondenser` with the ideal located by its own position, so that
      `oneUp` and `oneDown` are its true neighbours. */
  function CalcOnFixed(list: seq<Condenser>, p: int, evaps: seq<EvapEntry>): (r: CalcResult)
    requires forall i :: 0 <= i < |list| ==> list[i].nominal > 0
    ensures r.sumBTUh == SumEvaps(evaps) && r.minRequiredBTUh == MinRequired(r.sumBTUh, p)
    ensures r.condensers == Anotar(list, r.sumBTUh, p)
    ensures r.ideal == Ideal(r.condensers, r.sumBTUh, p)
  {
    var sum := SumEvaps(evaps);
    var ws := Anotar(list, sum, p);
    var ideal := Ideal(ws, sum, p);
    var idx := if ideal.Some? then FirstIndexOf(ws, ideal.value) else -1;
    CalcResult(sum, MinRequired(sum, p), ws, ideal, OneUpAt(ws, idx), OneDownAt(ws, idx))
  }

  /** `calcCondenser` corrected: the catalog list with the ideal located by position. */
  function CalcCondenserFixed(brand: string, orientation: string, p: int, evaps: seq<EvapEntry>): (r: CalcResult)
    ensures |r.condensers| == |Catalog(brand, orientation)|
    ensures forall i :: 0 <= i < |r.condensers| ==> r.condensers[i].c == Catalog(brand, orientation)[i]
  {
    CalcOnFixed(Catalog(brand, orientation), p, evaps)
  }

  // ---- Properties of the choice ----

  /** `ideal` is absent exactly when no entry is valid; otherwise it is a
      valid entry at some position `k`, no valid entry has a higher `uso`, and
      every valid entry before `k` has a strictly lower one. */
  lemma IdealSpec(ws: seq<Annotated>, sum: int, p: int) returns (k: nat)
    ensures Ideal(ws, sum, p).None? <==> forall i :: 0 <= i < |ws| ==> !Valida(sum, p, ws[i])
    ensures Ideal(ws, sum, p).Some? ==>
      && k < |ws| && Ideal(ws, sum, p) == Some(ws[k]) && Valida(sum, p, ws[k])
      && (forall j :: 0 <= j < |ws| && Valida(sum, p, ws[j]) ==> ws[j].uso <= ws[k].uso)
      && (forall j :: 0 <= j < k && Valida(sum, p, ws[j]) ==> ws[j].uso < ws[k].uso)
  {
    var f := a => Valida(sum, p, a);
    var valid := Filter(ws, f);
    forall i | 0 <= i < |ws| && Valida(sum, p, ws[i]) ensures ws[i] in valid {
      FilterMembership(ws, f, ws[i]);
    }
    k := 0;
    if valid != [] {
      k := IdealAtBest(ws, sum, p);
    }
  }

  /** When some entry is valid, the ideal sits at a position `k` no valid
      entry beats, and every valid entry before `k` is strictly lower. */
  lemma IdealAtBest(ws: seq<Annotated>, sum: int, p: int) returns (k: nat)
    requires Filter(ws, a => Valida(sum, p, a)) != []
    ensures k < |ws| && Ideal(ws, sum, p) == Some(ws[k]) && Valida(sum, p, ws[k])
    ensures forall j :: 0 <= j < |ws| && Valida(sum, p, ws[j]) ==> ws[j].uso <= ws[k].uso
    ensures forall j :: 0 <= j < k && Valida(sum, p, ws[j]) ==> ws[j].uso < ws[k].uso
  {
    var f := a => Valida(sum, p, a);
    var valid := Filter(ws, f);
    var m := MelhorIdx(valid);
    k := FilterIndex(ws, f, m);
    forall j | 0 <= j < |ws| && Valida(sum, p, ws[j]) ensures ws[j].uso <= ws[k].uso {
      FilterMembership(ws, f, ws[j]);
      var t :| 0 <= t < |valid| && valid[t] == ws[j];
    }
    forall j | 0 <= j < k && Valida(sum, p, ws[j]) ensures ws[j].uso < ws[k].uso {
      FilterMembership(ws[..k], f, ws[j]);
      assert ws[j] in valid[..m] by { assert ws[j] == ws[..k][j]; }
      var t :| 0 <= t < m && valid[..m][t] == ws[j];
      assert valid[t] == ws[j];
    }
  }

  /** Validity without the division: the load times 100 is at most `p`
      times the nominal capacity. */
  lemma ValidaIff(sum: int, p: int, a: Annotated)
    requires a.c.nominal > 0
    ensures Valida(sum, p, a) <==> sum * 100 <= p * a.c.nominal
  {
    var s, n, q := sum as real, a.c.nominal as real, p as real;
    assert s / n * n == s;
    assert s / n <= q / 100.0 <==> s / n * n * 100.0 <= q / 100.0 * n * 100.0;
  }

  /** Over an ascending list and a non-negative load, `uso` never grows along the list. */
  lemma UsoNaoCresce(list: seq<Condenser>, sum: int, p: int, i: nat, j: nat)
    requires forall t :: 0 <= t < |list| ==> list[t].nominal > 0
    requires Ascending(list) && sum >= 0 && i <= j < |list|
    ensures Annotate(list[j], sum, p).uso <= Annotate(list[i], sum, p).uso
  {
    var s, a, b := sum as real, list[i].nominal as real, list[j].nominal as real;
    assert s / b * b == s && s / a * a == s;
    assert s / b <= s / a;
    RoundTenthMonotonic(s / b * 100.0, s / a * 100.0);
  }

  /** The position of the first valid entry, or -1. */
  function FirstValid(ws: seq<Annotated>, sum: int, p: int): (k: int)
    ensures -1 <= k < |ws|
    ensures k == -1 <==> forall i :: 0 <= i < |ws| ==> !Valida(sum, p, ws[i])
    ensures k >= 0 ==> Valida(sum, p, ws[k]) && forall j :: 0 <= j < k ==> !Valida(sum, p, ws[j])
  {
    if ws == [] then -1
    else if Valida(sum, p, ws[0]) then 0
    else
      var k := FirstValid(ws[1..], sum, p);
      if k == -1 then -1 else k + 1
  }

  /** Over an ascending catalog and a non-negative load, `ideal` is the first
      valid entry: the entries' `uso` only falls along the list. */
  lemma IdealIsFirstValid(list: seq<Condenser>, sum: int, p: int)
    requires forall t :: 0 <= t < |list| ==> list[t].nominal > 0
    requires Ascending(list) && sum >= 0
    ensures var ws := Anotar(list, sum, p);
      Ideal(ws, sum, p) == if FirstValid(ws, sum, p) == -1 then None else Some(ws[FirstValid(ws, sum, p)])
  {
    var ws := Anotar(list, sum, p);
    var k := FirstValid(ws, sum, p);
    var k2 := IdealSpec(ws, sum, p);
    if k >= 0 {
      assert Ideal(ws, sum, p).Some? && k <= k2;
      UsoNaoCresce(list, sum, p, k, k2);
      assert ws[k] == Annotate(list[k], sum, p) && ws[k2] == Annotate(list[k2], sum, p);
      assert k == k2;
    }
  }

  /** Over an ascending catalog, a larger load never picks a smaller ideal,
      and a load that has an ideal gives every smaller load one too. */
  lemma IdealMonotone(list: seq<Condenser>, p: int, s1: int, s2: int)
    requires forall t :: 0 <= t < |list| ==> list[t].nominal > 0
    requires Ascending(list) && 0 <= s1 <= s2
    requires Ideal(Anotar(list, s2, p), s2, p).Some?
    ensures Ideal(Anotar(list, s1, p), s1, p).Some?
    ensures Ideal(Anotar(list, s1, p), s1, p).value.c.nominal
      <= Ideal(Anotar(list, s2, p), s2, p).value.c.nominal
  {
    var w1, w2 := Anotar(list, s1, p), Anotar(list, s2, p);
    IdealIsFirstValid(list, s1, p);
    IdealIsFirstValid(list, s2, p);
    var k2 := FirstValid(w2, s2, p);
    ValidaIff(s2, p, w2[k2]);
    ValidaIff(s1, p, w1[k2]);
    var k1 := FirstValid(w1, s1, p);
    assert k1 <= k2;
  }

  /** An entry no larger than one that cannot take the load cannot take it either. */
  lemma NaoValida(c: Condenser, sum: int, p: int, n: int)
    requires 0 < c.nominal <= n && p > 0
    requires sum * 100 > p * n
    ensures !Valida(sum, p, Annotate(c, sum, p))
  {
    ValidaIff(sum, p, Annotate(c, sum, p));
    assert p * c.nominal <= p * n by {
      assert p * (n - c.nominal) >= 0;
    }
  }

  /** An ascending catalog whose entry `k` is the first to take the load:
      entry `k` is the ideal. */
  lemma IdealAt(list: seq<Condenser>, sum: int, p: int, k: nat)
    requires forall t :: 0 <= t < |list| ==> list[t].nominal > 0
    requires Ascending(list) && sum >= 0 && p > 0 && k < |list|
    requires sum * 100 <= p * list[k].nominal
    requires k > 0 ==> sum * 100 > p * list[k - 1].nominal
    ensures Ideal(Anotar(list, sum, p), sum, p) == Some(Annotate(list[k], sum, p))
  {
    var ws := Anotar(list, sum, p);
    assert Valida(sum, p, ws[k]) by {
      ValidaIff(sum, p, ws[k]);
    }
    assert forall j :: 0 <= j < k ==> !Valida(sum, p, ws[j]) by {
      forall j | 0 <= j < k ensures !Valida(sum, p, ws[j]) {
        assert ws[j] == Annotate(list[j], sum, p);
        NaoValida(list[j], sum, p, list[k - 1].nominal);
      }
    }
    FirstValidAt(ws, sum, p, k);
    IdealIsFirstValid(list, sum, p);
  }

  /** A valid entry with no valid entry before it is the first valid one. */
  lemma FirstValidAt(ws: seq<Annotated>, sum: int, p: int, k: nat)
    requires k < |ws| && Valida(sum, p, ws[k])
    requires forall j :: 0 <= j < k ==> !Valida(sum, p, ws[j])
    ensures FirstValid(ws, sum, p) == k
  {
  }

  /** Unique names make locating the ideal by name and by position agree. */
  lemma DistinctNamesAgree(list: seq<Condenser>, p: int, evaps: seq<EvapEntry>)
    requires forall t :: 0 <= t < |list| ==> list[t].nominal > 0
    requires DistinctNames(list)
    ensures CalcOn(list, p, evaps) == CalcOnFixed(list, p, evaps)
  {
    var sum := SumEvaps(evaps);
    var ws := Anotar(list, sum, p);
    var ideal := Ideal(ws, sum, p);
    if ideal.Some? {
      var k := IdealSpec(ws, sum, p);
      var a := FirstNamed(ws, ideal.value.c.nome);
      var b := FirstIndexOf(ws, ideal.value);
      assert a == k && b == k by {
        assert ws[a].c == list[a] && ws[b].c == list[b] && ws[k].c == list[k];
      }
    }
  }

  /** The corrected selector differs from `calcCondenser` only where names
      repeat: on every catalog list but Daikin horizontal the two agree. */
  lemma FixedAgreesOnDistinctNames(brand: string, orientation: string, p: int, evaps: seq<EvapEntry>)
    requires !(brand == "daikin" && orientation == "horizontal")
    ensures CalcCondenser(brand, orientation, p, evaps) == CalcCondenserFixed(brand, orientation, p, evaps)
  {
    SamsungVerticalNamesDistinct();
    SamsungHorizontalNamesDistinct();
    DaikinVerticalNamesDistinct();
    DistinctNamesAgree(Catalog(brand, orientation), p, evaps);
  }

  /** Over an annotated ascending list, the entries around position `k` are
      its next larger and next smaller condensers, and one is missing only
      at an end of the list. */
  lemma NeighboursOf(list: seq<Condenser>, ws: seq<Annotated>, k: int)
    requires Ascending(list) && |ws| == |list| && 0 <= k < |ws|
    requires forall i :: 0 <= i < |ws| ==> ws[i].c == list[i]
    ensures OneUpAt(ws, k).Some? ==> OneUpAt(ws, k).value.c.nominal > ws[k].c.nominal
    ensures OneDownAt(ws, k).Some? ==> OneDownAt(ws, k).value.c.nominal < ws[k].c.nominal
    ensures OneUpAt(ws, k).None? ==> ws[k].c == list[|list| - 1]
    ensures OneDownAt(ws, k).None? ==> ws[k].c == list[0]
  {
    if k + 1 < |ws| { assert ws[k + 1].c == list[k + 1]; }
    if k > 0 { assert ws[k - 1].c == list[k - 1]; }
  }

  /** With the ideal located by position, over an ascending catalog `oneUp`
      is the next larger condenser and `oneDown` the next smaller one. */
  lemma FixedNeighbours(list: seq<Condenser>, p: int, evaps: seq<EvapEntry>)
    requires forall t :: 0 <= t < |list| ==> list[t].nominal > 0
    requires Ascending(list)
    ensures var r := CalcOnFixed(list, p, evaps);
      r.ideal.Some? ==>
        && (r.oneUp.Some? ==> r.oneUp.value.c.nominal > r.ideal.value.c.nominal)
        && (r.oneDown.Some? ==> r.oneDown.value.c.nominal < r.ideal.value.c.nominal)
        && (r.oneUp.None? ==> r.ideal.value.c == list[|list| - 1])
        && (r.oneDown.None? ==> r.ideal.value.c == list[0])
  {
    var r := CalcOnFixed(list, p, evaps);
    var sum := SumEvaps(evaps);
    var ws := Anotar(list, sum, p);
    if r.ideal.Some? {
      var j := IdealSpec(ws, sum, p);
      assert r.ideal.value in ws by { assert ws[j] == r.ideal.value; }
      var k := FirstIndexOf(ws, r.ideal.value);
      assert r.oneUp == OneUpAt(ws, k) && r.oneDown == OneDownAt(ws, k);
      NeighboursOf(list, ws, k);
    }
  }

  // ---- Worked answers ----

  /** One Hi Wall of 21000 BTU/h, quantity 1, is a load of 21000. */
  lemma CargaSamsung()
    ensures SumEvaps([EvapEntry("Hi Wall", 21, Some(21000), Some(1))]) == 21000
  {
    SumEvapsSingle(EvapEntry("Hi Wall", 21, Some(21000), Some(1)));
  }

  /** The 8HP of the Samsung vertical list for a load of 21000 at 110 %:
      limit 84075, usage 27.5, status ok. */
  lemma Samsung8HP()
    ensures var a := Annotate(SamsungVertical()[0], 21000, 110);
      a.limite == 84075 && a.uso == 27.5 && a.status == Ok
  {
    RoundIs(21000.0 / 76432.0 * 100.0 * 10.0, 275);
    RoundIs(76432.0 * 1.1, 84075);
  }

  /** An unfolding step for `CalcOnAt`: the neighbours `calcCondenser`
      reports are those of the position its lookup finds. Kept apart so that
      the proof of `CalcOnAt` does not unfold `CalcOn` itself. */
  lemma CalcOnShape(list: seq<Condenser>, p: int, evaps: seq<EvapEntry>)
    requires forall i :: 0 <= i < |list| ==> list[i].nominal > 0
    ensures var r := CalcOn(list, p, evaps);
      var idx := if r.ideal.Some? then FirstNamed(r.condensers, r.ideal.value.c.nome) else -1;
      r.oneUp == OneUpAt(r.condensers, idx) && r.oneDown == OneDownAt(r.condensers, idx)
  {
  }

  /** The same unfolding step for `CalcOnFixedAt` and the lookup by position. */
  lemma CalcOnFixedShape(list: seq<Condenser>, p: int, evaps: seq<EvapEntry>)
    requires forall i :: 0 <= i < |list| ==> list[i].nominal > 0
    ensures var r := CalcOnFixed(list, p, evaps);
      var idx := if r.ideal.Some? then FirstIndexOf(r.condensers, r.ideal.value) else -1;
      r.oneUp == OneUpAt(r.condensers, idx) && r.oneDown == OneDownAt(r.condensers, idx)
  {
  }

  /** The lookup by name over an annotated list finds the first entry of the list with that name. */
  lemma FirstNamedAt(list: seq<Condenser>, ws: seq<Annotated>, nome: string, idx: nat)
    requires |ws| == |list| && forall i :: 0 <= i < |ws| ==> ws[i].c == list[i]
    requires idx < |list| && list[idx].nome == nome
    requires forall j :: 0 <= j < idx ==> list[j].nome != nome
    ensures FirstNamed(ws, nome) == idx
  {
    assert ws[idx].c == list[idx];
    forall j | 0 <= j < idx ensures ws[j].c.nome != nome {
      assert ws[j].c == list[j];
    }
  }

  /** Over an annotated ascending list, the lookup by position finds entry `k` at `k`. */
  lemma {:induction false} FirstIndexAt(list: seq<Condenser>, ws: seq<Annotated>, k: nat)
    requires Ascending(list) && |ws| == |list| && k < |ws|
    requires forall i :: 0 <= i < |ws| ==> ws[i].c == list[i]
    ensures FirstIndexOf(ws, ws[k]) == k
  {
    forall j | 0 <= j < k ensures ws[j] != ws[k] {
      assert ws[j].c == list[j] && ws[k].c == list[k];
    }
  }

  /** `calcCondenser` over an ascending list whose entry `k` is the first to
      take the load, and whose first entry named like entry `k` is at `idx`:
      entry `k` is the ideal and the neighbours are those of `idx`. */
  lemma CalcOnAt(list: seq<Condenser>, p: int, evaps: seq<EvapEntry>, k: nat, idx: nat)
    requires forall t :: 0 <= t < |list| ==> list[t].nominal > 0
    requires Ascending(list) && SumEvaps(evaps) >= 0 && p > 0 && k < |list|
    requires SumEvaps(evaps) * 100 <= p * list[k].nominal
    requires k > 0 ==> SumEvaps(evaps) * 100 > p * list[k - 1].nominal
    requires idx <= k && list[idx].nome == list[k].nome
    requires forall j :: 0 <= j < idx ==> list[j].nome != list[k].nome
    ensures var r := CalcOn(list, p, evaps);
      && r.ideal == Some(r.condensers[k])
      && r.oneUp == (if idx + 1 < |list| then Some(r.condensers[idx + 1]) else None)
      && r.oneDown == (if idx > 0 then Some(r.condensers[idx - 1]) else None)
  {
    var sum := SumEvaps(evaps);
    var ws := Anotar(list, sum, p);
    assert Ideal(ws, sum, p) == Some(ws[k]) by {
      IdealAt(list, sum, p, k);
    }
    assert FirstNamed(ws, ws[k].c.nome) == idx by {
      FirstNamedAt(list, ws, list[k].nome, idx);
    }
    CalcOnShape(list, p, evaps);
  }

  /** The same with the ideal located by position: the neighbours are those of `k`. */
  lemma CalcOnFixedAt(list: seq<Condenser>, p: int, evaps: seq<EvapEntry>, k: nat)
    requires forall t :: 0 <= t < |list| ==> list[t].nominal > 0
    requires Ascending(list) && SumEvaps(evaps) >= 0 && p > 0 && k < |list|
    requires SumEvaps(evaps) * 100 <= p * list[k].nominal
    requires k > 0 ==> SumEvaps(evaps) * 100 > p * list[k - 1].nominal
    ensures var r := CalcOnFixed(list, p, evaps);
      && r.ideal == Some(r.condensers[k])
      && r.oneUp == (if k + 1 < |list| then Some(r.condensers[k + 1]) else None)
      && r.oneDown == (if k > 0 then Some(r.condensers[k - 1]) else None)
  {
    var sum := SumEvaps(evaps);
    var ws := Anotar(list, sum, p);
    assert Ideal(ws, sum, p) == Some(ws[k]) by {
      IdealAt(list, sum, p, k);
    }
    assert FirstIndexOf(ws, ws[k]) == k by {
      FirstIndexAt(list, ws, k);
    }
    CalcOnFixedShape(list, p, evaps);
  }

  /** `CalcOnAt` for a list of the catalog. */
  lemma CalcCondenserAt(brand: string, orientation: string, p: int, evaps: seq<EvapEntry>, k: nat, idx: nat)
    requires var list := Catalog(brand, orientation);
      && SumEvaps(evaps) >= 0 && p > 0 && k < |list|
      && SumEvaps(evaps) * 100 <= p * list[k].nominal
      && (k > 0 ==> SumEvaps(evaps) * 100 > p * list[k - 1].nominal)
      && idx <= k && list[idx].nome == list[k].nome
      && (forall j :: 0 <= j < idx ==> list[j].nome != list[k].nome)
    ensures var r := CalcCondenser(brand, orientation, p, evaps);
      && r.ideal == Some(r.condensers[k])
      && r.oneUp == (if idx + 1 < |r.condensers| then Some(r.condensers[idx + 1]) else None)
      && r.oneDown == (if idx > 0 then Some(r.condensers[idx - 1]) else None)
  {
    CatalogOrdered(brand, orientation);
    CalcOnAt(Catalog(brand, orientation), p, evaps, k, idx);
  }

  /** `CalcOnFixedAt` for a list of the catalog. */
  lemma CalcCondenserFixedAt(brand: string, orientation: string, p: int, evaps: seq<EvapEntry>, k: nat)
    requires var list := Catalog(brand, orientation);
      && SumEvaps(evaps) >= 0 && p > 0 && k < |list|
      && SumEvaps(evaps) * 100 <= p * list[k].nominal
      && (k > 0 ==> SumEvaps(evaps) * 100 > p * list[k - 1].nominal)
    ensures var r := CalcCondenserFixed(brand, orientation, p, evaps);
      && r.ideal == Some(r.condensers[k])
      && r.oneUp == (if k + 1 < |r.condensers| then Some(r.condensers[k + 1]) else None)
      && r.oneDown == (if k > 0 then Some(r.condensers[k - 1]) else None)
  {
    CatalogOrdered(brand, orientation);
    CalcOnFixedAt(Catalog(brand, orientation), p, evaps, k);
  }

  /** Samsung vertical catalog, a load of 21000 BTU/h at 110 %: the minimum is
      19091, the ideal is the 8HP at 27.5 % and within its limit, there is
      nothing below it and the 10HP above. */
  lemma CenarioSamsung(evaps: seq<EvapEntry>)
    requires SumEvaps(evaps) == 21000
    ensures var r := CalcCondenser("samsung", "vertical", 110, evaps);
      && r.minRequiredBTUh == Some(19091)
      && r.ideal.Some? && r.ideal.value.c == SamsungVertical()[0]
      && r.ideal.value.uso == 27.5 && r.ideal.value.status == Ok
      && r.oneDown == None
      && r.oneUp.Some? && r.oneUp.value.c == SamsungVertical()[1]
  {
    assert Catalog("samsung", "vertical") == SamsungVertical();
    RoundIs(21000.0 / (110.0 / 100.0), 19091);
    CalcCondenserAt("samsung", "vertical", 110, evaps, 0, 0);
    var r := CalcCondenser("samsung", "vertical", 110, evaps);
    assert r.condensers[0] == Annotate(SamsungVertical()[0], 21000, 110);
    Samsung8HP();
  }

  /** No brand cap: Daikin vertical at 145 % takes the 8HP (200) for a load
      of 290 index units, 145 % of its nominal capacity. */
  lemma NoDaikinCap(evaps: seq<EvapEntry>)
    requires SumEvaps(evaps) == 290
    ensures var r := CalcCondenser("daikin", "vertical", 145, evaps);
      r.ideal.Some? && r.ideal.value.c == DaikinVertical()[0] && r.ideal.value.uso == 145.0
  {
    assert Catalog("daikin", "vertical") == DaikinVertical();
    CalcCondenserAt("daikin", "vertical", 145, evaps, 0, 0);
    var r := CalcCondenser("daikin", "vertical", 145, evaps);
    assert r.condensers[0] == Annotate(DaikinVertical()[0], 290, 145);
    RoundIs(290.0 / 200.0 * 100.0 * 10.0, 1450);
  }

  /** Without the cap, 145 % and 130 % give Daikin different answers: the
      same load of 290 needs the 10HP (250) at 130 %. */
  lemma DaikinPercentagesDiffer(evaps: seq<EvapEntry>)
    requires SumEvaps(evaps) == 290
    ensures CalcCondenser("daikin", "vertical", 130, evaps).ideal.Some?
    ensures CalcCondenser("daikin", "vertical", 130, evaps).ideal.value.c == DaikinVertical()[1]
    ensures CalcCondenser("daikin", "vertical", 145, evaps).ideal
      != CalcCondenser("daikin", "vertical", 130, evaps).ideal
  {
    assert Catalog("daikin", "vertical") == DaikinVertical();
    CalcCondenserAt("daikin", "vertical", 130, evaps, 1, 1);
    NoDaikinCap(evaps);
  }

  /** Entries 5 and 6 of the horizontal Daikin list share a name no earlier
      entry has, and no other two entries share one; the nominal capacities
      around them are 200, 223, 250 and 300. */
  lemma DaikinHorizontalFacts()
    ensures var list := DaikinHorizontal();
      && |list| == 8 && list[4].nominal == 200 && list[5].nominal == 223
      && list[6].nominal == 250 && list[7].nominal == 300
      && list[5].nome == list[6].nome
      && forall j :: 0 <= j < 5 ==> list[j].nome != list[6].nome
    ensures !DistinctNames(DaikinHorizontal())
    ensures forall i, j :: 0 <= i < j < |DaikinHorizontal()| && DaikinHorizontal()[i].nome == DaikinHorizontal()[j].nome ==> i == 5 && j == 6
  {
  }

  /** Daikin horizontal, load 300 at 130 %: the ideal is the second
      "Daikin VRV H 10HP" (250), but the lookup by name lands on the first one
      (223), so `oneUp` is the ideal itself and `oneDown` is the 8HP (200),
      skipping the 223 entry. */
  lemma DuplicateNameNeighbours(evaps: seq<EvapEntry>)
    requires SumEvaps(evaps) == 300
    ensures var r := CalcCondenser("daikin", "horizontal", 130, evaps);
      && r.ideal.Some? && r.ideal.value.c.nominal == 250
      && r.oneUp == r.ideal
      && r.oneDown.Some? && r.oneDown.value.c.nominal == 200
  {
    DaikinHorizontalFacts();
    assert Catalog("daikin", "horizontal") == DaikinHorizontal();
    CalcCondenserAt("daikin", "horizontal", 130, evaps, 6, 5);
  }

  /** The same input with the ideal located by position: `oneUp` is the 12HP
      (300) and `oneDown` the 223 entry. */
  lemma DuplicateNameFixed(evaps: seq<EvapEntry>)
    requires SumEvaps(evaps) == 300
    ensures var r := CalcCondenserFixed("daikin", "horizontal", 130, evaps);
      && r.ideal.Some? && r.ideal.value.c.nominal == 250
      && r.oneUp.Some? && r.oneUp.value.c.nominal == 300
      && r.oneDown.Some? && r.oneDown.value.c.nominal == 223
  {
    DaikinHorizontalFacts();
    assert Catalog("daikin", "horizontal") == DaikinHorizontal();
    CalcCondenserFixedAt("daikin", "horizontal", 130, evaps, 6);
  }
}
