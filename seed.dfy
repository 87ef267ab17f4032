/** The data half of the seed script: the VRF indoor and outdoor tables it
    stores, the multi-split models with their combination lists, the
    simultaneity modes and limits, and its own copy of the LG generator. */
module Seed {
  import opened Common
  import opened Keys
  import opened Strings
  import opened LgCombinations
  import HvacModels
  import VrfEngine
  import VrfCatalogs
  import Evaporadoras

  /** `MULTI_EVAPS`: the evaporator sizes offered for multi-split units. */
  const MULTI_EVAPS: seq<int> := [7, 9, 12, 18, 24]

  /** `MULTI_MARCAS`, in their display order. */
  const MULTI_MARCAS: seq<string> := ["LG", "Daikin", "Samsung"]

  /** The seed's sizes are the calculator's LG sizes. */
  lemma MultiEvapsAsLg()
    ensures MULTI_EVAPS == LG_EVAPS && GoodSizes(MULTI_EVAPS)
  {
    LgSizesGood();
  }

  // ---- The LG generator ----

  /** No key occurs twice. */
  predicate NoDup(s: seq<seq<int>>)
  {
    forall i, j :: 0 <= i < j < |s| ==> s[i] != s[j]
  }

  /** The keys a sequence holds. */
  ghost function Elems(s: seq<seq<int>>): set<seq<int>>
  {
    set k | k in s
  }

  lemma ElemsAppend(s: seq<seq<int>>, k: seq<int>)
    ensures Elems(s + [k]) == Elems(s) + {k}
  {
    assert forall x :: x in s + [k] <==> x in s || x == k;
  }

  lemma ElemsPrefix(a: seq<seq<int>>, b: seq<seq<int>>)
    requires a <= b
    ensures Elems(a) <= Elems(b)
  {
    forall x | x in a ensures x in b {
      var i :| 0 <= i < |a| && a[i] == x;
      assert b[i] == x;
    }
  }

  /** The closure `comb` of the seed's `gerarCombinacoesLG` and the `Set` it
      fills. A JavaScript `Set` keeps its keys in the order they were first
      added and ignores a key it already holds, so `res` is a sequence
      without repetitions that only ever grows at the end. */
  class SeedLgGenerator {
    const sizes: seq<int>
    const capMax: int
    const maxEvaps: int
    var res: seq<seq<int>>

    constructor (capMax: int, maxEvaps: int)
      ensures sizes == MULTI_EVAPS && this.capMax == capMax && this.maxEvaps == maxEvaps
      ensures res == []
    {
      sizes := MULTI_EVAPS;
      this.capMax := capMax;
      this.maxEvaps := maxEvaps;
      res := [];
    }

    /** `res.add(norm(atual))`: appends the key unless it is already there. */
    method Add(k: seq<int>)
      requires NoDup(res)
      modifies this
      ensures NoDup(res) && old(res) <= res
      ensures res == if k in old(res) then old(res) else old(res) + [k]
      ensures Elems(res) == Elems(old(res)) + {k}
    {
      ElemsAppend(res, k);
      if k !in res {
        res := res + [k];
      }
    }

    /** `comb(atual)`: adds every valid key that extends the ascending partial
        combination `atual`, and nothing else, keeping the keys distinct. */
    method Comb(atual: seq<int>)
      requires GoodSizes(sizes) && Sorted(atual)
      requires forall i :: 0 <= i < |atual| ==> atual[i] in sizes
      requires NoDup(res)
      modifies this
      ensures NoDup(res) && old(res) <= res
      ensures Adds(sizes, Elems(old(res)), Elems(res), atual, capMax, maxEvaps)
      decreases maxEvaps - |atual|, 2
    {
      NormOfSorted(atual);
      var s := Soma(atual);
      if |atual| > 0 && s <= capMax && |atual| <= maxEvaps {
        Add(Norm(atual));
      }
      if |atual| >= maxEvaps {
        FullCase(sizes, Elems(old(res)), Elems(res), atual, capMax, maxEvaps);
        return;
      }
      Recorded(sizes, Elems(old(res)), Elems(res), atual, capMax, maxEvaps);
      Children(atual, s, old(res));
    }

    /** The loop of `comb` over every size, once `atual` itself is recorded. */
    method Children(atual: seq<int>, s: int, ghost base: seq<seq<int>>)
      requires GoodSizes(sizes) && Sorted(atual)
      requires forall j :: 0 <= j < |atual| ==> atual[j] in sizes
      requires |atual| < maxEvaps && s == Soma(atual)
      requires NoDup(res) && base <= res
      requires Sound(sizes, Elems(base), Elems(res), atual, capMax, maxEvaps)
      requires |atual| > 0 && s <= capMax ==> atual in Elems(res)
      modifies this
      ensures NoDup(res) && base <= res
      ensures Adds(sizes, Elems(base), Elems(res), atual, capMax, maxEvaps)
      decreases maxEvaps - |atual|, 1
    {
      for i := 0 to |sizes|
        invariant NoDup(res) && base <= res
        invariant Sound(sizes, Elems(base), Elems(res), atual, capMax, maxEvaps)
        invariant |atual| > 0 && s <= capMax ==> atual in Elems(res)
        invariant ChildrenIn(sizes, atual, i, Elems(res), capMax, maxEvaps)
      {
        Visit(atual, s, i, base);
      }
      CoveredByChildren(sizes, atual, Elems(res), capMax, maxEvaps);
    }

    /** One turn of the loop of `comb`: recurses into the child with size
        `sizes[i]` when it still fits under `capMax`. */
    method Visit(atual: seq<int>, s: int, i: int, ghost base: seq<seq<int>>)
      requires GoodSizes(sizes) && Sorted(atual)
      requires forall j :: 0 <= j < |atual| ==> atual[j] in sizes
      requires 0 <= i < |sizes| && |atual| < maxEvaps && s == Soma(atual)
      requires NoDup(res) && base <= res
      requires Sound(sizes, Elems(base), Elems(res), atual, capMax, maxEvaps)
      requires ChildrenIn(sizes, atual, i, Elems(res), capMax, maxEvaps)
      modifies this
      ensures NoDup(res) && old(res) <= res && Elems(old(res)) <= Elems(res)
      ensures Sound(sizes, Elems(base), Elems(res), atual, capMax, maxEvaps)
      ensures ChildrenIn(sizes, atual, i + 1, Elems(res), capMax, maxEvaps)
      decreases maxEvaps - |atual|, 0
    {
      var cap := sizes[i];
      if s + cap <= capMax {
        var filho := Norm(atual + [cap]);
        ChildInSizes(sizes, atual, cap);
        assert |filho| == |atual| + 1 by {
          assert |multiset(filho)| == |multiset(atual + [cap])|;
        }
        Comb(filho);
        Passo(atual, i, base, old(res), res);
      } else {
        NoChild(sizes, atual, i, Elems(res), capMax, maxEvaps);
      }
    }

    /** Visiting the child with size `sizes[i]` keeps the loop invariant. */
    lemma Passo(atual: seq<int>, i: int, base: seq<seq<int>>, antes: seq<seq<int>>, res: seq<seq<int>>)
      requires 0 <= i < |sizes|
      requires base <= antes && antes <= res
      requires Sound(sizes, Elems(base), Elems(antes), atual, capMax, maxEvaps)
      requires ChildrenIn(sizes, atual, i, Elems(antes), capMax, maxEvaps)
      requires Adds(sizes, Elems(antes), Elems(res), Norm(atual + [sizes[i]]), capMax, maxEvaps)
      ensures base <= res && Elems(antes) <= Elems(res)
      ensures Sound(sizes, Elems(base), Elems(res), atual, capMax, maxEvaps)
      ensures ChildrenIn(sizes, atual, i + 1, Elems(res), capMax, maxEvaps)
    {
      ElemsPrefix(base, antes);
      Step(sizes, atual, i, Elems(base), Elems(antes), Elems(res), capMax, maxEvaps);
    }
  }

  /** `gerarCombinacoesLG(capMax, maxEvaps)` of the seed: `[...res]`, the
      distinct valid keys, which are exactly the reference enumeration. */
  method GerarCombinacoesLG(capMax: int, maxEvaps: int) returns (r: seq<seq<int>>)
    ensures NoDup(r)
    ensures forall k :: k in r <==> ValidKey(MULTI_EVAPS, k, capMax, maxEvaps)
    ensures Elems(r) == LgCombos(capMax, maxEvaps)
  {
    var g := new SeedLgGenerator(capMax, maxEvaps);
    MultiEvapsAsLg();
    g.Comb([]);
    r := g.res;
    assert forall k :: Extends(MULTI_EVAPS, [], k, capMax, maxEvaps) <==> ValidKey(MULTI_EVAPS, k, capMax, maxEvaps);
  }

  /** Both generators, run on the same LG unit, yield the same keys: the
      seed stores exactly the table the calculator consults. */
  method MesmasChaves(info: HvacModels.LgInfo) returns (calculadora: set<seq<int>>, seed: seq<seq<int>>)
    ensures NoDup(seed) && Elems(seed) == calculadora
    ensures forall k :: k in seed <==> HvacModels.Has(HvacModels.LgModelo(info).combinacoes, k)
  {
    calculadora := HvacModels.GerarCombinacoesLG(info.capMax, info.maxEvaps);
    seed := GerarCombinacoesLG(info.capMax, info.maxEvaps);
    forall k {
      HvacModels.LgModeloTabela(info, k);
    }
  }

  // ---- Multi-split models ----

  /** A model record as the seed stores it: the combination keys form a list
      (`listas.map(norm)`), not a set. */
  datatype SeedModelo = SeedModelo(nome: string, capNominal: int, capMax: int, combinacoes: seq<seq<int>>)

  /** `listas.map(norm)`: one key per list, in list order, each the list's
      values in ascending order. */
  function NormAll(listas: seq<seq<int>>): (ks: seq<seq<int>>)
    ensures |ks| == |listas|
    ensures forall i :: 0 <= i < |ks| ==> Sorted(ks[i]) && multiset(ks[i]) == multiset(listas[i])
  {
    seq(|listas|, i requires 0 <= i < |listas| => Norm(listas[i]))
  }

  /** The keys of a seed list are the calculator's key set for the same lists. */
  lemma NormAllSet(listas: seq<seq<int>>)
    ensures Elems(NormAll(listas)) == HvacModels.NormSet(listas)
  {
    var ks := NormAll(listas);
    forall k | k in Elems(ks) ensures k in HvacModels.NormSet(listas) {
      var i :| 0 <= i < |ks| && ks[i] == k;
      assert listas[i] in listas;
    }
    forall k | k in HvacModels.NormSet(listas) ensures k in Elems(ks) {
      var l :| l in listas && Norm(l) == k;
      var i :| 0 <= i < |listas| && listas[i] == l;
      assert ks[i] == k;
    }
  }

  /** `criarModeloDaikin` of the seed: its keys are the calculator's table
      for the same lists. */
  function CriarModeloDaikin(nome: string, capNominal: int, capMax: int, listas: seq<seq<int>>): (m: SeedModelo)
    ensures m.nome == nome && m.capNominal == capNominal && m.capMax == capMax
    ensures |m.combinacoes| == |listas|
    ensures Elems(m.combinacoes) == HvacModels.CriarModeloDaikin(nome, capNominal, capMax, listas).combinacoes.chaves
  {
    NormAllSet(listas);
    SeedModelo(nome, capNominal, capMax, NormAll(listas))
  }

  /** `SAMSUNG_MODELOS`: the seed writes out the same three lists as the
      calculator's Samsung tables. */
  function SamsungModelos(): (ms: seq<SeedModelo>)
    ensures |ms| == 3 && forall i :: 0 <= i < |ms| ==> 0 < ms[i].capNominal < ms[i].capMax
  {
    [SeedModelo("Samsung 18", 18, 30, NormAll(HvacModels.Samsung18Listas())),
     SeedModelo("Samsung 24", 24, 39, NormAll(HvacModels.Samsung18Listas() + HvacModels.Samsung24Extra())),
     SeedModelo("Samsung 28", 28, 48, NormAll(HvacModels.Samsung28Listas()))]
  }

  /** `DAIKIN_MODELOS` of the seed: only the two 18 units. */
  function DaikinModelos(): (ms: seq<SeedModelo>)
    ensures |ms| == 2 && forall i :: 0 <= i < |ms| ==> ms[i].capNominal == 18 < ms[i].capMax
  {
    [CriarModeloDaikin("Daikin 18 Bi", 18, 24, HvacModels.Daikin18BiListas()),
     CriarModeloDaikin("Daikin 18 Tri", 18, 30, HvacModels.Daikin18TriListas())]
  }

  /** The seed's record holds the name, capacities and key set of the
      calculator's model. */
  predicate MesmoModelo(s: SeedModelo, m: HvacModels.EvaporatorModel)
  {
    && s.nome == m.nome && s.capNominal == m.capNominal && s.capMax == m.capMax
    && m.combinacoes.Listadas? && (set k | k in s.combinacoes) == m.combinacoes.chaves
  }

  /** The seeded Samsung models are those of the calculator. */
  lemma SamsungComoCalculadora()
    ensures |SamsungModelos()| == |HvacModels.SamsungModelos()| == 3
    ensures forall i :: 0 <= i < 3 ==> MesmoModelo(SamsungModelos()[i], HvacModels.SamsungModelos()[i])
  {
    NormAllSet(HvacModels.Samsung18Listas());
    NormAllSet(HvacModels.Samsung18Listas() + HvacModels.Samsung24Extra());
    NormAllSet(HvacModels.Samsung28Listas());
  }

  /** The seeded Daikin models are the first two of the calculator's six. */
  lemma DaikinComoCalculadora()
    ensures |DaikinModelos()| == 2 && |HvacModels.DaikinModelos()| == 6
    ensures forall i :: 0 <= i < 2 ==> MesmoModelo(DaikinModelos()[i], HvacModels.DaikinModelos()[i])
  {
  }

  /** List `t` uses only `MULTI_EVAPS` sizes and adds up to at most `capMax`. */
  ghost predicate ListaCabe(listas: seq<seq<int>>, t: int, capMax: int)
  {
    0 <= t < |listas|
    && (forall j :: 0 <= j < |listas[t]| ==> listas[t][j] in MULTI_EVAPS)
    && Soma(listas[t]) <= capMax
  }

  /** Every list uses only `MULTI_EVAPS` sizes and adds up to at most
      `capMax`. */
  ghost predicate Cabem(listas: seq<seq<int>>, capMax: int)
  {
    forall t :: 0 <= t < |listas| ==> ListaCabe(listas, t, capMax)
  }

  /** One of the `MULTI_EVAPS` sizes. */
  predicate IsMultiEvap(x: int)
  {
    x == 7 || x == 9 || x == 12 || x == 18 || x == 24
  }

  /** The values of `l` from index `j` on are all sizes. */
  predicate TodosMulti(l: seq<int>, j: nat)
    decreases |l| - j
  {
    j >= |l| || (IsMultiEvap(l[j]) && TodosMulti(l, j + 1))
  }

  /** The same check for lists `i` to `j - 1`, one list and one size at a time. */
  predicate CabemEntre(listas: seq<seq<int>>, i: nat, j: nat, capMax: int)
    decreases j - i
  {
    i >= j
    || (i < |listas| && TodosMulti(listas[i], 0) && Soma(listas[i]) <= capMax
        && CabemEntre(listas, i + 1, j, capMax))
  }

  lemma {:induction false} TodosMultiIff(l: seq<int>, j: nat)
    ensures TodosMulti(l, j) <==> forall t :: j <= t < |l| ==> l[t] in MULTI_EVAPS
    decreases |l| - j
  {
    if j < |l| {
      TodosMultiIff(l, j + 1);
    }
  }

  /** The step-by-step check establishes the property for its range. */
  lemma {:induction false} CabemEntreIff(listas: seq<seq<int>>, i: nat, j: nat, capMax: int)
    requires CabemEntre(listas, i, j, capMax)
    ensures forall t :: i <= t < j ==> ListaCabe(listas, t, capMax)
    decreases j - i
  {
    if i < j {
      TodosMultiIff(listas[i], 0);
      CabemEntreIff(listas, i + 1, j, capMax);
    }
  }

  /** Sorting the lists keeps them within the sizes and the ceiling. */
  lemma NormAllCabem(listas: seq<seq<int>>, capMax: int)
    requires Cabem(listas, capMax)
    ensures Cabem(NormAll(listas), capMax)
  {
    var ks := NormAll(listas);
    forall i | 0 <= i < |ks| ensures ListaCabe(ks, i, capMax) {
      assert ListaCabe(listas, i, capMax);
      SomaPermutation(ks[i], listas[i]);
      forall j | 0 <= j < |ks[i]| ensures ks[i][j] in MULTI_EVAPS {
        assert ks[i][j] in multiset(listas[i]);
        var t :| 0 <= t < |listas[i]| && listas[i][t] == ks[i][j];
      }
    }
  }

  lemma CabemAppend(a: seq<seq<int>>, b: seq<seq<int>>, capMax: int)
    requires Cabem(a, capMax) && Cabem(b, capMax)
    ensures Cabem(a + b, capMax)
  {
    forall i | 0 <= i < |a + b| ensures ListaCabe(a + b, i, capMax) {
      if i < |a| {
        assert ListaCabe(a, i, capMax) && (a + b)[i] == a[i];
      } else {
        assert ListaCabe(b, i - |a|, capMax) && (a + b)[i] == b[i - |a|];
      }
    }
  }

  /** A model whose every key fits. */
  ghost predicate ModeloCabe(m: SeedModelo)
  {
    Cabem(m.combinacoes, m.capMax)
  }

  lemma Samsung18ListasCabeA()
    ensures forall t :: 0 <= t < 4 ==> ListaCabe(HvacModels.Samsung18Listas(), t, 30)
  {
    CabemEntreIff(HvacModels.Samsung18Listas(), 0, 4, 30);
  }

  lemma Samsung18ListasCabeB()
    ensures forall t :: 4 <= t < 9 ==> ListaCabe(HvacModels.Samsung18Listas(), t, 30)
  {
    CabemEntreIff(HvacModels.Samsung18Listas(), 4, 9, 30);
  }

  lemma Samsung24ExtraCabeA()
    ensures forall t :: 0 <= t < 4 ==> ListaCabe(HvacModels.Samsung24Extra(), t, 39)
  {
    CabemEntreIff(HvacModels.Samsung24Extra(), 0, 4, 39);
  }

  lemma Samsung24ExtraCabeB()
    ensures forall t :: 4 <= t < 8 ==> ListaCabe(HvacModels.Samsung24Extra(), t, 39)
  {
    CabemEntreIff(HvacModels.Samsung24Extra(), 4, 8, 39);
  }

  lemma Samsung24ExtraCabeC()
    ensures forall t :: 8 <= t < 12 ==> ListaCabe(HvacModels.Samsung24Extra(), t, 39)
  {
    CabemEntreIff(HvacModels.Samsung24Extra(), 8, 12, 39);
  }

  lemma Samsung24ExtraCabeD()
    ensures forall t :: 12 <= t < 16 ==> ListaCabe(HvacModels.Samsung24Extra(), t, 39)
  {
    CabemEntreIff(HvacModels.Samsung24Extra(), 12, 16, 39);
  }

  lemma Samsung28ParesCabeA()
    ensures forall t :: 0 <= t < 4 ==> ListaCabe(HvacModels.Samsung28Pares(), t, 48)
  {
    CabemEntreIff(HvacModels.Samsung28Pares(), 0, 4, 48);
  }

  lemma Samsung28ParesCabeB()
    ensures forall t :: 4 <= t < 8 ==> ListaCabe(HvacModels.Samsung28Pares(), t, 48)
  {
    CabemEntreIff(HvacModels.Samsung28Pares(), 4, 8, 48);
  }

  lemma Samsung28ParesCabeC()
    ensures forall t :: 8 <= t < 12 ==> ListaCabe(HvacModels.Samsung28Pares(), t, 48)
  {
    CabemEntreIff(HvacModels.Samsung28Pares(), 8, 12, 48);
  }

  lemma Samsung28ParesCabeD()
    ensures forall t :: 12 <= t < 14 ==> ListaCabe(HvacModels.Samsung28Pares(), t, 48)
  {
    CabemEntreIff(HvacModels.Samsung28Pares(), 12, 14, 48);
  }

  lemma Samsung28TriplesCabeA()
    ensures forall t :: 0 <= t < 4 ==> ListaCabe(HvacModels.Samsung28Triples(), t, 48)
  {
    CabemEntreIff(HvacModels.Samsung28Triples(), 0, 4, 48);
  }

  lemma Samsung28TriplesCabeB()
    ensures forall t :: 4 <= t < 8 ==> ListaCabe(HvacModels.Samsung28Triples(), t, 48)
  {
    CabemEntreIff(HvacModels.Samsung28Triples(), 4, 8, 48);
  }

  lemma Samsung28TriplesCabeC()
    ensures forall t :: 8 <= t < 12 ==> ListaCabe(HvacModels.Samsung28Triples(), t, 48)
  {
    CabemEntreIff(HvacModels.Samsung28Triples(), 8, 12, 48);
  }

  lemma Samsung28TriplesCabeD()
    ensures forall t :: 12 <= t < 16 ==> ListaCabe(HvacModels.Samsung28Triples(), t, 48)
  {
    CabemEntreIff(HvacModels.Samsung28Triples(), 12, 16, 48);
  }

  lemma Samsung28TriplesCabeE()
    ensures forall t :: 16 <= t < 20 ==> ListaCabe(HvacModels.Samsung28Triples(), t, 48)
  {
    CabemEntreIff(HvacModels.Samsung28Triples(), 16, 20, 48);
  }

  lemma Samsung28QuadruplesCabeA()
    ensures forall t :: 0 <= t < 4 ==> ListaCabe(HvacModels.Samsung28Quadruples(), t, 48)
  {
    CabemEntreIff(HvacModels.Samsung28Quadruples(), 0, 4, 48);
  }

  lemma Samsung28QuadruplesCabeB()
    ensures forall t :: 4 <= t < 8 ==> ListaCabe(HvacModels.Samsung28Quadruples(), t, 48)
  {
    CabemEntreIff(HvacModels.Samsung28Quadruples(), 4, 8, 48);
  }

  lemma Samsung28QuadruplesCabeC()
    ensures forall t :: 8 <= t < 12 ==> ListaCabe(HvacModels.Samsung28Quadruples(), t, 48)
  {
    CabemEntreIff(HvacModels.Samsung28Quadruples(), 8, 12, 48);
  }

  lemma Samsung28QuadruplesCabeD()
    ensures forall t :: 12 <= t < 17 ==> ListaCabe(HvacModels.Samsung28Quadruples(), t, 48)
  {
    CabemEntreIff(HvacModels.Samsung28Quadruples(), 12, 17, 48);
  }

  lemma Daikin18BiListasCabeA()
    ensures forall t :: 0 <= t < 3 ==> ListaCabe(HvacModels.Daikin18BiListas(), t, 24)
  {
    CabemEntreIff(HvacModels.Daikin18BiListas(), 0, 3, 24);
  }

  lemma Daikin18TriListasCabeA()
    ensures forall t :: 0 <= t < 4 ==> ListaCabe(HvacModels.Daikin18TriListas(), t, 30)
  {
    CabemEntreIff(HvacModels.Daikin18TriListas(), 0, 4, 30);
  }

  lemma Daikin18TriListasCabeB()
    ensures forall t :: 4 <= t < 7 ==> ListaCabe(HvacModels.Daikin18TriListas(), t, 30)
  {
    CabemEntreIff(HvacModels.Daikin18TriListas(), 4, 7, 30);
  }

  lemma Samsung18Cabe()
    ensures Cabem(HvacModels.Samsung18Listas(), 30)
  {
    Samsung18ListasCabeA();
    Samsung18ListasCabeB();
  }

  lemma Samsung24Cabe()
    ensures Cabem(HvacModels.Samsung18Listas() + HvacModels.Samsung24Extra(), 39)
  {
    Samsung18Cabe();
    Samsung24ExtraCabeA();
    Samsung24ExtraCabeB();
    Samsung24ExtraCabeC();
    Samsung24ExtraCabeD();
    assert Cabem(HvacModels.Samsung18Listas(), 39);
    CabemAppend(HvacModels.Samsung18Listas(), HvacModels.Samsung24Extra(), 39);
  }

  lemma Samsung28Cabe()
    ensures Cabem(HvacModels.Samsung28Listas(), 48)
  {
    Samsung28ParesCabeA();
    Samsung28ParesCabeB();
    Samsung28ParesCabeC();
    Samsung28ParesCabeD();
    Samsung28TriplesCabeA();
    Samsung28TriplesCabeB();
    Samsung28TriplesCabeC();
    Samsung28TriplesCabeD();
    Samsung28TriplesCabeE();
    Samsung28QuadruplesCabeA();
    Samsung28QuadruplesCabeB();
    Samsung28QuadruplesCabeC();
    Samsung28QuadruplesCabeD();
    CabemAppend(HvacModels.Samsung28Pares(), HvacModels.Samsung28Triples(), 48);
    CabemAppend(HvacModels.Samsung28Pares() + HvacModels.Samsung28Triples(), HvacModels.Samsung28Quadruples(), 48);
  }

  lemma DaikinCabem()
    ensures Cabem(HvacModels.Daikin18BiListas(), 24)
    ensures Cabem(HvacModels.Daikin18TriListas(), 30)
  {
    Daikin18BiListasCabeA();
    Daikin18TriListasCabeA();
    Daikin18TriListasCabeB();
  }

  /** Every hand-written Samsung and Daikin combination uses sizes from
      `MULTI_EVAPS` only and fits within its model's maximum capacity. */
  lemma ModelosCabem()
    ensures forall i :: 0 <= i < |SamsungModelos()| ==> ModeloCabe(SamsungModelos()[i])
    ensures forall i :: 0 <= i < |DaikinModelos()| ==> ModeloCabe(DaikinModelos()[i])
  {
    Samsung18Cabe();
    Samsung24Cabe();
    Samsung28Cabe();
    DaikinCabem();
    NormAllCabem(HvacModels.Samsung18Listas(), 30);
    NormAllCabem(HvacModels.Samsung18Listas() + HvacModels.Samsung24Extra(), 39);
    NormAllCabem(HvacModels.Samsung28Listas(), 48);
    NormAllCabem(HvacModels.Daikin18BiListas(), 24);
    NormAllCabem(HvacModels.Daikin18TriListas(), 30);
  }

  // ---- VRF outdoor units ----

  /** An outdoor unit record: horsepower, real capacity, and the supply
      voltage when the table gives one. */
  datatype CondEntry = CondEntry(hp: int, capReal: int, volt: Option<int>)

  /** Real capacities strictly ascending along the table. */
  predicate RealCrescente(cs: seq<CondEntry>)
  {
    forall i, j :: 0 <= i < j < |cs| ==> cs[i].capReal < cs[j].capReal
  }

  /** `COND_SAMSUNG.Horizontal`. */
  function CondSamsungHorizontal(): (cs: seq<CondEntry>)
    ensures |cs| == 8 && RealCrescente(cs)
  {
    [CondEntry(4, 41287, None), CondEntry(5, 47770, None), CondEntry(6, 52888, None),
     CondEntry(7, 61760, None), CondEntry(8, 76432, None), CondEntry(10, 95540, None),
     CondEntry(12, 114648, None), CondEntry(14, 136486, None)]
  }

  /** `COND_SAMSUNG.Vertical`: `Array.from({length: 46}, …)`. */
  function CondSamsungVertical(): (cs: seq<CondEntry>)
    ensures |cs| == 46 && RealCrescente(cs)
  {
    seq(46, i => CondEntry(8 + i * 2, 76432 + i * 19108, None))
  }

  /** `COND_DAIKIN.Vertical`: `Array.from({length: 36}, …)`. */
  function CondDaikinVertical(): (cs: seq<CondEntry>)
    ensures |cs| == 36 && RealCrescente(cs)
  {
    seq(36, i => CondEntry(8 + i * 2, 200 + i * 50, None))
  }

  /** `COND_DAIKIN.Horizontal`: the 10HP unit comes in two voltages. */
  function CondDaikinHorizontal(): (cs: seq<CondEntry>)
    ensures |cs| == 8 && RealCrescente(cs)
  {
    [CondEntry(3, 72, None), CondEntry(4, 100, None), CondEntry(5, 125, None),
     CondEntry(6, 150, None), CondEntry(8, 200, None), CondEntry(10, 223, Some(220)),
     CondEntry(10, 250, Some(380)), CondEntry(12, 300, Some(380))]
  }

  /** The Samsung vertical table runs from 8HP to 98HP in steps of 2HP and
      19108 BTU/h, so both columns strictly increase. */
  lemma CondSamsungVerticalForma()
    ensures |CondSamsungVertical()| == 46
    ensures forall i :: 0 <= i < 46 ==>
      CondSamsungVertical()[i].hp == 8 + 2 * i && CondSamsungVertical()[i].capReal == 76432 + 19108 * i
    ensures RealCrescente(CondSamsungVertical())
    ensures forall i, j :: 0 <= i < j < 46 ==> CondSamsungVertical()[i].hp < CondSamsungVertical()[j].hp
    ensures CondSamsungVertical()[45].hp == 98
  {
  }

  /** The Daikin vertical table runs from 8HP to 78HP in index steps of 50. */
  lemma CondDaikinVerticalForma()
    ensures |CondDaikinVertical()| == 36
    ensures forall i :: 0 <= i < 36 ==>
      CondDaikinVertical()[i].hp == 8 + 2 * i && CondDaikinVertical()[i].capReal == 200 + 50 * i
    ensures RealCrescente(CondDaikinVertical())
    ensures CondDaikinVertical()[35].hp == 78
  {
  }

  /** In the Daikin horizontal table the capacity strictly increases and the
      horsepower never falls; the only repeated horsepower is 10, whose two
      units are told apart by voltage (220 V and 380 V) and capacity. */
  lemma CondDaikinHorizontalForma()
    ensures |CondDaikinHorizontal()| == 8
    ensures RealCrescente(CondDaikinHorizontal())
    ensures forall i, j :: 0 <= i < j < 8 ==> CondDaikinHorizontal()[i].hp <= CondDaikinHorizontal()[j].hp
    ensures forall i, j :: 0 <= i < j < 8 && CondDaikinHorizontal()[i].hp == CondDaikinHorizontal()[j].hp ==>
      i == 5 && j == 6
    ensures CondDaikinHorizontal()[5].hp == CondDaikinHorizontal()[6].hp == 10
    ensures CondDaikinHorizontal()[5].volt == Some(220) && CondDaikinHorizontal()[6].volt == Some(380)
  {
  }

  /** The Samsung horizontal table has the capacities of the selector's
      horizontal Samsung catalogue, and its names carry the same horsepower;
      the capacity strictly increases. */
  lemma CondSamsungHorizontalComoCatalogo()
    ensures |CondSamsungHorizontal()| == |VrfEngine.SamsungHorizontal()| == 8
    ensures forall i :: 0 <= i < 8 ==>
      && CondSamsungHorizontal()[i].capReal == VrfEngine.SamsungHorizontal()[i].nominal
      && VrfEngine.SamsungHorizontal()[i].nome == "Samsung VRF H " + Decimal(CondSamsungHorizontal()[i].hp) + "HP"
    ensures RealCrescente(CondSamsungHorizontal())
  {
  }

  /** The selector's vertical Samsung catalogue and the `catalogs` list are
      the first seven rows of the seed's vertical table, with the same
      horsepower in their names. */
  lemma CondSamsungVerticalComoCatalogo()
    ensures forall i :: 0 <= i < 7 ==>
      && CondSamsungVertical()[i].capReal == VrfEngine.SamsungVertical()[i].nominal
      && VrfEngine.SamsungVertical()[i].nome == "Samsung VRF " + Decimal(CondSamsungVertical()[i].hp) + "HP"
    ensures |VrfEngine.SamsungVertical()| == 7 && |CondSamsungVertical()| == 46
  {
    VrfCatalogs.SamsungFormula();
    VrfCatalogs.SamsungAsInEngine();
    CondSamsungVerticalForma();
  }

  /** The selector's vertical Daikin catalogue is the first seven rows of the
      seed's vertical table, with the same horsepower in its names. */
  lemma CondDaikinVerticalComoCatalogo()
    ensures forall i :: 0 <= i < 7 ==>
      && CondDaikinVertical()[i].capReal == VrfEngine.DaikinVertical()[i].nominal
      && VrfEngine.DaikinVertical()[i].nome == "Daikin VRV IV " + Decimal(CondDaikinVertical()[i].hp) + "HP"
    ensures |VrfEngine.DaikinVertical()| == 7
  {
    VrfCatalogs.DaikinFormula();
    VrfCatalogs.DaikinVersusEngine();
    CondDaikinVerticalForma();
  }

  /** The selector's horizontal Daikin catalogue has the capacities of the
      seed's table; it gives the two 10HP units one name, where the seed
      tells them apart by voltage. */
  lemma CondDaikinHorizontalComoCatalogo()
    ensures |VrfEngine.DaikinHorizontal()| == |CondDaikinHorizontal()| == 8
    ensures forall i :: 0 <= i < 8 ==> CondDaikinHorizontal()[i].capReal == VrfEngine.DaikinHorizontal()[i].nominal
    ensures VrfEngine.DaikinHorizontal()[5].nome == VrfEngine.DaikinHorizontal()[6].nome
    ensures CondDaikinHorizontal()[5].volt != CondDaikinHorizontal()[6].volt
  {
  }

  // ---- VRF indoor units ----

  /** The type names the seed uses; they key both brands' tables. */
  function SeedTipos(): seq<string>
  {
    ["Hi Wall", "1 Via", "4 Vias", "Duto", "Piso Teto"]
  }

  /** `EVAPS_SAMSUNG`, without the product codes. */
  function EvapsSamsung(): (ts: seq<Evaporadoras.EvapTipo>)
    ensures |ts| == 5 && ts[4].modelos == []
  {
    [Evaporadoras.EvapTipo("Hi Wall",
       [Evaporadoras.EvapModelo(5, 5118), Evaporadoras.EvapModelo(7, 7507), Evaporadoras.EvapModelo(9, 9554),
        Evaporadoras.EvapModelo(12, 12284), Evaporadoras.EvapModelo(15, 15355), Evaporadoras.EvapModelo(18, 19108),
        Evaporadoras.EvapModelo(24, 23203), Evaporadoras.EvapModelo(28, 27980)]),
     Evaporadoras.EvapTipo("1 Via",
       [Evaporadoras.EvapModelo(7, 7507), Evaporadoras.EvapModelo(9, 9554), Evaporadoras.EvapModelo(12, 12284),
        Evaporadoras.EvapModelo(18, 18000), Evaporadoras.EvapModelo(24, 24000)]),
     Evaporadoras.EvapTipo("4 Vias",
       [Evaporadoras.EvapModelo(9, 9000), Evaporadoras.EvapModelo(12, 12000), Evaporadoras.EvapModelo(18, 18000),
        Evaporadoras.EvapModelo(24, 24000), Evaporadoras.EvapModelo(30, 30000), Evaporadoras.EvapModelo(36, 36000),
        Evaporadoras.EvapModelo(48, 48000), Evaporadoras.EvapModelo(58, 58006)]),
     Evaporadoras.EvapTipo("Duto",
       [Evaporadoras.EvapModelo(12, 12284), Evaporadoras.EvapModelo(18, 19108), Evaporadoras.EvapModelo(24, 24226),
        Evaporadoras.EvapModelo(30, 30709), Evaporadoras.EvapModelo(36, 38216), Evaporadoras.EvapModelo(42, 43675),
        Evaporadoras.EvapModelo(48, 47770), Evaporadoras.EvapModelo(60, 54000), Evaporadoras.EvapModelo(76, 76800),
        Evaporadoras.EvapModelo(96, 96000)]),
     Evaporadoras.EvapTipo("Piso Teto", [])]
  }

  /** `EVAPS_DAIKIN`, without the product codes. Its lists but Piso Teto open
      with the sizes 7 to 24 at the indices of the indoor table's Hi Wall. */
  function EvapsDaikin(): (ts: seq<Evaporadoras.EvapTipo>)
    ensures |ts| == 5
  {
    [Evaporadoras.EvapTipo("Hi Wall", Evaporadoras.DaikinHiWall()),
     Evaporadoras.EvapTipo("1 Via", Evaporadoras.DaikinHiWall()),
     Evaporadoras.EvapTipo("4 Vias", Evaporadoras.DaikinHiWall() +
       [Evaporadoras.EvapModelo(30, 80), Evaporadoras.EvapModelo(36, 100),
        Evaporadoras.EvapModelo(47, 125), Evaporadoras.EvapModelo(54, 140)]),
     Evaporadoras.EvapTipo("Duto", Evaporadoras.DaikinHiWall() +
       [Evaporadoras.EvapModelo(30, 80), Evaporadoras.EvapModelo(36, 100),
        Evaporadoras.EvapModelo(48, 125), Evaporadoras.EvapModelo(54, 140)]),
     Evaporadoras.EvapTipo("Piso Teto",
       [Evaporadoras.EvapModelo(12, 32), Evaporadoras.EvapModelo(24, 63), Evaporadoras.EvapModelo(36, 100),
        Evaporadoras.EvapModelo(48, 125), Evaporadoras.EvapModelo(54, 140)])]
  }

  /** Both seed tables list the same five types in the order of the indoor
      table, whose two cassette types carry a "Cassete " prefix. */
  lemma TiposComoEvaporadoras()
    ensures |EvapsSamsung()| == |EvapsDaikin()| == 5
    ensures forall t :: 0 <= t < 5 ==> EvapsSamsung()[t].tipo == EvapsDaikin()[t].tipo == SeedTipos()[t]
    ensures forall t :: 0 <= t < 5 ==>
      Evaporadoras.Tipos()[t] == if t == 1 || t == 2 then "Cassete " + SeedTipos()[t] else SeedTipos()[t]
  {
  }

  /** The seed's Samsung capacities are those of the indoor table. */
  lemma EvapsSamsungComoEvaporadoras()
    ensures forall t :: 0 <= t < 5 ==> EvapsSamsung()[t].modelos == Evaporadoras.SamsungTipos()[t].modelos
  {
  }

  /** The seed's Daikin capacities are those of the indoor table for the
      first four types. */
  lemma EvapsDaikinComoEvaporadoras()
    ensures forall t :: 0 <= t < 4 ==> EvapsDaikin()[t].modelos == Evaporadoras.DaikinTipos()[t].modelos
  {
  }

  /** Every list of both seed tables ascends strictly by index and has
      positive capacities. */
  lemma EvapsOrdenadas()
    ensures forall t :: 0 <= t < 5 ==>
      Evaporadoras.Crescente(EvapsSamsung()[t].modelos) && Evaporadoras.Positivos(EvapsSamsung()[t].modelos)
    ensures forall t :: 0 <= t < 5 ==>
      Evaporadoras.Crescente(EvapsDaikin()[t].modelos) && Evaporadoras.Positivos(EvapsDaikin()[t].modelos)
  {
    Evaporadoras.ListasOrdenadas("samsung");
    Evaporadoras.ListasOrdenadas("daikin");
    EvapsSamsungComoEvaporadoras();
    EvapsDaikinComoEvaporadoras();
  }

  /** Daikin "Piso Teto": the two tables agree on every size but 36, which
      the seed gives index 100 and the indoor table 90. */
  lemma PisoTetoDiverge()
    ensures |EvapsDaikin()[4].modelos| == |Evaporadoras.DaikinPisoTeto()| == 5
    ensures forall i :: 0 <= i < 5 && i != 2 ==> EvapsDaikin()[4].modelos[i] == Evaporadoras.DaikinPisoTeto()[i]
    ensures Evaporadoras.FindNominal(EvapsDaikin()[4].modelos, 36) == Some(100)
    ensures Evaporadoras.Lookup("daikin", "Piso Teto", 36) == Some(90)
  {
    Evaporadoras.FindNominalAt(EvapsDaikin()[4].modelos, 2, 36);
    Evaporadoras.DaikinPisoTeto36();
  }

  // ---- Simultaneity ----

  /** An entry of `LIMITE_SIMULT`: the largest ratio of indoor to outdoor
      capacity a brand allows. */
  datatype Limite = Limite(marca: string, simulMax: real)

  /** `LIMITE_SIMULT`: one limit per brand, each above 1. */
  function LimiteSimult(): (ls: seq<Limite>)
    ensures |ls| == 2 && ls[0].marca != ls[1].marca
    ensures forall i :: 0 <= i < |ls| ==> 1.0 < ls[i].simulMax
  {
    [Limite("Samsung", 1.45), Limite("Daikin", 1.30)]
  }

  /** The limit the seed stores under the brand's name, if any. */
  function LimiteDe(marca: string): (r: Option<real>)
    ensures r.Some? <==> marca == "Samsung" || marca == "Daikin"
    ensures r.Some? ==> 1.0 < r.value < 1.5
  {
    if marca == LimiteSimult()[0].marca then Some(LimiteSimult()[0].simulMax)
    else if marca == LimiteSimult()[1].marca then Some(LimiteSimult()[1].simulMax)
    else None
  }

  /** The selector does not apply the Daikin limit: at 145 % (the Samsung
      ratio) a Daikin load of 290 is placed on the 8HP unit at 145 % use,
      beyond the 130 % the seed records for Daikin. */
  lemma DaikinLimiteNaoAplicado(evaps: seq<VrfEngine.EvapEntry>)
    requires VrfEngine.SumEvaps(evaps) == 290
    ensures LimiteDe("Samsung") == Some(1.45) && LimiteDe("Daikin") == Some(1.30)
    ensures var r := VrfEngine.CalcCondenser("daikin", "vertical", 145, evaps);
      r.ideal.Some? && r.ideal.value.uso > LimiteDe("Daikin").value * 100.0
  {
    VrfEngine.NoDaikinCap(evaps);
  }

  /** An entry of `MULTI_MODOS`: a capacity factor, or the whole maximum. */
  datatype Modo = Modo(nome: string, limite: Option<real>, usaCapMax: bool)

  /** `MULTI_MODOS`: two factors above 1 and the mode that uses the maximum. */
  function MultiModos(): (ms: seq<Modo>)
    ensures |ms| == 3
    ensures forall i :: 0 <= i < |ms| ==> (ms[i].usaCapMax <==> i == 2)
    ensures forall i :: 0 <= i < |ms| && ms[i].limite.Some? ==> 1.0 < ms[i].limite.value
  {
    [Modo("Residencial", Some(1.40), false),
     Modo("Corporativo", Some(1.10), false),
     Modo("Capacidade M\U{e1}xima", None, true)]
  }

  /** The capacity a mode grants to a unit, read from its record: the maximum
      when it says so, otherwise the factor times the nominal capacity, never
      above the maximum. */
  function CapDoModo(modo: Modo, m: HvacModels.EvaporatorModel): (c: real)
    ensures c <= m.capMax as real
    ensures modo.usaCapMax || modo.limite.None? ==> c == m.capMax as real
    ensures modo.limite.Some? && !modo.usaCapMax ==> c <= modo.limite.value * m.capNominal as real
  {
    if modo.usaCapMax || modo.limite.None? then m.capMax as real
    else MinReal(modo.limite.value * m.capNominal as real, m.capMax as real)
  }

  lemma LowerIs(s: string, t: string)
    requires |s| == |t| && forall i :: 0 <= i < |s| ==> LowerChar(s[i]) == t[i]
    ensures ToLower(s) == t
  {
  }

  lemma ResidencialMinusculo()
    ensures ToLower(MultiModos()[0].nome) == "residencial"
  {
    LowerIs("Residencial", "residencial");
  }

  lemma CorporativoMinusculo()
    ensures ToLower(MultiModos()[1].nome) == "corporativo"
  {
    LowerIs("Corporativo", "corporativo");
  }

  lemma CapMaxMinusculo()
    ensures |ToLower(MultiModos()[2].nome)| == 17
  {
  }

  /** How the calculator reads a mode whose lower-case name is `nome`. */
  lemma CapDoModoIs(m: HvacModels.EvaporatorModel, modo: Modo, nome: string)
    requires || (nome == "residencial" && modo.limite == Some(1.40) && !modo.usaCapMax)
             || (nome == "corporativo" && modo.limite == Some(1.10) && !modo.usaCapMax)
             || (|nome| == 17 && modo.usaCapMax)
    ensures HvacModels.CapEfetiva(m, nome) == CapDoModo(modo, m)
  {
  }

  /** The calculator's ceiling for the mode named, in lower case, after a
      seeded mode is the ceiling that mode's record describes. */
  lemma ModosComoCapEfetiva(m: HvacModels.EvaporatorModel, i: int)
    requires 0 <= i < |MultiModos()|
    ensures HvacModels.CapEfetiva(m, ToLower(MultiModos()[i].nome)) == CapDoModo(MultiModos()[i], m)
  {
    var modo := MultiModos()[i];
    if i == 0 {
      ResidencialMinusculo();
    } else if i == 1 {
      CorporativoMinusculo();
    } else {
      CapMaxMinusculo();
    }
    CapDoModoIs(m, modo, ToLower(modo.nome));
  }
}
