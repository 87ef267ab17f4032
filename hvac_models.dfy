/** The multi-split side of the calculator: evaporator-model records, the
    combination tables of every outdoor unit, the LG generator, the
    per-brand key and the mode-dependent capacity ceiling. */
module HvacModels {
  import opened Common
  import opened Keys
  import opened Strings
  import opened LgCombinations

  /** An outdoor unit: its name, nominal and maximum capacity in thousands of
      BTU/h, and the table of evaporator combinations it accepts. */
  datatype EvaporatorModel = EvaporatorModel(
    nome: string,
    capNominal: int,
    capMax: int,
    combinacoes: Combinacoes)

  /** A combination table, as the set only ever answers `has`: a hand-written
      set of keys (Samsung, Daikin), or the set `gerarCombinacoesLG` generates
      for an LG unit, given by the two numbers that determine it. */
  datatype Combinacoes =
    | Listadas(chaves: set<seq<int>>)
    | Geradas(capMax: int, maxEvaps: int)

  /** `combinacoes.has(key)`. */
  predicate Has(c: Combinacoes, key: seq<int>)
  {
    match c
    case Listadas(chaves) => key in chaves
    case Geradas(capMax, maxEvaps) => IsLgKey(key, capMax, maxEvaps)
  }

  /** An LG table holds exactly the keys of the generated set. */
  lemma HasGeradas(capMax: int, maxEvaps: int, key: seq<int>)
    ensures Has(Geradas(capMax, maxEvaps), key) <==> key in LgCombos(capMax, maxEvaps)
  {
    IsLgKeyIff(key, capMax, maxEvaps);
  }

  /** `modelo`: the word after the brand (`nome.split(' ')[1]`). */
  function Modelo(m: EvaporatorModel): Option<string>
  {
    SecondWord(m.nome)
  }

  /** The units every calculation divides by have a positive nominal capacity. */
  predicate WellFormed(m: EvaporatorModel)
  {
    m.capNominal > 0 && m.capMax > 0
  }

  /** `nome.split(' ')[1]`; `None` when there is no second word (`undefined`). */
  function SecondWord(nome: string): (w: Option<string>)
    ensures w.Some? ==> ' ' !in w.value
  {
    var parts := Split(nome, ' ');
    if |parts| > 1 then Some(parts[1]) else None
  }

  /** `nome.split(' ')[0]`: the brand word of a model name. */
  function FirstWord(nome: string): (w: string)
    ensures ' ' !in w
    ensures StartsWith(nome, w)
  {
    var parts := Split(nome, ' ');
    JoinHead(parts, ' ');
    parts[0]
  }

  /** The set of keys of a list of combinations (`new Set(lista.map(norm))`). */
  function NormSet(listas: seq<seq<int>>): (s: set<seq<int>>)
    ensures forall k :: k in s ==> Sorted(k)
  {
    set l | l in listas :: Norm(l)
  }

  /** A tabulated unit accepts an input exactly when the input is a
      rearrangement of one of its listed combinations. */
  lemma NormSetIff(listas: seq<seq<int>>, e: seq<int>)
    ensures Norm(e) in NormSet(listas) <==> exists l :: l in listas && multiset(l) == multiset(e)
  {
    if Norm(e) in NormSet(listas) {
      var l :| l in listas && Norm(l) == Norm(e);
      NormEqualIff(l, e);
    }
    if l :| l in listas && multiset(l) == multiset(e) {
      NormEqualIff(l, e);
    }
  }

  /** `criarModeloDaikin`: a Daikin unit accepts an input exactly when it
      is a rearrangement of one of the listed combinations. */
  function CriarModeloDaikin(nome: string, capNominal: int, capMax: int, listas: seq<seq<int>>)
    : (m: EvaporatorModel)
    ensures m.nome == nome && m.capNominal == capNominal && m.capMax == capMax
    ensures m.combinacoes.Listadas?
    ensures forall k :: Has(m.combinacoes, k) ==> Sorted(k)
  {
    EvaporatorModel(nome, capNominal, capMax, Listadas(NormSet(listas)))
  }

  // ---- Daikin tables ----

  function Daikin18BiListas(): seq<seq<int>>
  {
    [[9, 9], [9, 12], [12, 12]]
  }

  function Daikin18TriListas(): seq<seq<int>>
  {
    [[9, 9], [9, 12], [9, 18], [12, 12], [12, 18], [9, 9, 9], [9, 9, 12]]
  }

  /** The sixteen combinations every larger Daikin unit starts with. */
  function Daikin24Listas(): seq<seq<int>>
  {
    [[9, 9], [9, 12], [9, 18],
     [12, 12], [12, 18], [9, 9, 9], [9, 9, 12],
     [9, 20], [12, 20], [18, 18], [18, 20],
     [9, 9, 18], [9, 9, 20], [9, 12, 12], [9, 12, 18], [12, 12, 12]]
  }

  /** The combinations the 28 adds to those of the 24. */
  function Daikin28Extra(): seq<seq<int>>
  {
    [[9, 24], [12, 24], [18, 24], [20, 20], [20, 24],
     [9, 9, 24], [9, 12, 20], [9, 12, 24], [9, 18, 18], [9, 18, 20], [9, 20, 20],
     [12, 12, 18], [12, 12, 20], [12, 12, 24], [12, 18, 18], [12, 18, 20],
     [9, 9, 9, 9], [9, 9, 9, 12], [9, 9, 9, 18], [9, 9, 9, 20],
     [9, 9, 12, 12], [9, 9, 12, 18], [9, 9, 12, 20],
     [9, 12, 12, 12], [9, 12, 12, 18], [12, 12, 12, 12]]
  }

  /** The combinations the 34 adds to those of the 28. */
  function Daikin34Extra(): seq<seq<int>>
  {
    [[9, 18, 24], [9, 20, 24], [12, 18, 24], [12, 20, 20], [18, 18, 18],
     [9, 9, 9, 24], [9, 9, 12, 24], [9, 9, 18, 18], [9, 12, 12, 20], [12, 12, 12, 18]]
  }

  /** The combinations the 38 adds to those of the 34. */
  function Daikin38Extra(): seq<seq<int>>
  {
    [[24, 24],
     [9, 9, 9, 9, 9], [9, 9, 9, 9, 12], [9, 9, 9, 9, 18], [9, 9, 9, 12, 12], [9, 9, 12, 12, 12]]
  }

  function DaikinModelos(): (ms: seq<EvaporatorModel>)
    ensures |ms| == 6 && forall i :: 0 <= i < |ms| ==> WellFormed(ms[i])
  {
    [CriarModeloDaikin("Daikin 18 Bi", 18, 24, Daikin18BiListas()),
     CriarModeloDaikin("Daikin 18 Tri", 18, 30, Daikin18TriListas()),
     CriarModeloDaikin("Daikin 24", 24, 38, Daikin24Listas()),
     CriarModeloDaikin("Daikin 28", 28, 45, Daikin24Listas() + Daikin28Extra()),
     CriarModeloDaikin("Daikin 34", 34, 54, Daikin24Listas() + Daikin28Extra() + Daikin34Extra()),
     CriarModeloDaikin("Daikin 38", 38, 60,
       Daikin24Listas() + Daikin28Extra() + Daikin34Extra() + Daikin38Extra())]
  }

  // ---- LG ----

  /** An entry of `LG_MODELOS_INFO`. */
  datatype LgInfo = LgInfo(nome: string, capNominal: int, capMax: int, maxEvaps: int)

  function LgModelosInfo(): seq<LgInfo>
  {
    [LgInfo("LG 18", 18, 24, 2),
     LgInfo("LG 21", 21, 30, 3),
     LgInfo("LG 24", 24, 36, 3),
     LgInfo("LG 30", 30, 51, 4),
     LgInfo("LG 36", 36, 54, 5),
     LgInfo("LG 48", 48, 72, 5)]
  }

  /** One element of `LG_MODELOS`: its table is the key set generated for its
      capacity and size limits. */
  function LgModelo(info: LgInfo): (m: EvaporatorModel)
    ensures m.nome == info.nome && m.capNominal == info.capNominal && m.capMax == info.capMax
    ensures m.combinacoes == Geradas(info.capMax, info.maxEvaps)
  {
    EvaporatorModel(info.nome, info.capNominal, info.capMax, Geradas(info.capMax, info.maxEvaps))
  }

  /** An LG unit lists exactly the keys `gerarCombinacoesLG` produces for it. */
  lemma LgModeloTabela(info: LgInfo, k: seq<int>)
    ensures Has(LgModelo(info).combinacoes, k) <==> k in LgCombos(info.capMax, info.maxEvaps)
  {
    HasGeradas(info.capMax, info.maxEvaps, k);
  }

  function LgModelos(): (ms: seq<EvaporatorModel>)
    ensures |ms| == 6 && forall i :: 0 <= i < |ms| ==> WellFormed(ms[i])
  {
    var infos := LgModelosInfo();
    [LgModelo(infos[0]), LgModelo(infos[1]), LgModelo(infos[2]),
     LgModelo(infos[3]), LgModelo(infos[4]), LgModelo(infos[5])]
  }

  /** The closure `comb` of `gerarCombinacoesLG` together with the set `res`
      it fills; `sizes` is the list `LG_EVAPS` it iterates. */
  class LgGenerator {
    const sizes: seq<int>
    const capMax: int
    const maxEvaps: int
    var res: set<seq<int>>

    constructor (capMax: int, maxEvaps: int)
      ensures sizes == LG_EVAPS && this.capMax == capMax && this.maxEvaps == maxEvaps
      ensures res == {}
    {
      sizes := LG_EVAPS;
      this.capMax := capMax;
      this.maxEvaps := maxEvaps;
      res := {};
    }

    /** `comb(atual)`: adds every valid key that extends the ascending partial
        combination `atual`, and nothing else. */
    method Comb(atual: seq<int>)
      requires GoodSizes(sizes) && Sorted(atual)
      requires forall i :: 0 <= i < |atual| ==> atual[i] in sizes
      modifies this
      ensures Adds(sizes, old(res), res, atual, capMax, maxEvaps)
      decreases maxEvaps - |atual|, 2
    {
      NormOfSorted(atual);
      var somaAtual := Soma(atual);
      if |atual| > 0 && somaAtual <= capMax && |atual| <= maxEvaps {
        res := res + {Norm(atual)};
      }
      if |atual| >= maxEvaps {
        FullCase(sizes, old(res), res, atual, capMax, maxEvaps);
        return;
      }
      Recorded(sizes, old(res), res, atual, capMax, maxEvaps);
      Children(atual, somaAtual, old(res));
    }

    /** The loop of `comb` over every size, once `atual` itself is recorded. */
    method Children(atual: seq<int>, somaAtual: int, ghost base: set<seq<int>>)
      requires GoodSizes(sizes) && Sorted(atual)
      requires forall j :: 0 <= j < |atual| ==> atual[j] in sizes
      requires |atual| < maxEvaps && somaAtual == Soma(atual)
      requires Sound(sizes, base, res, atual, capMax, maxEvaps) && base <= res
      requires |atual| > 0 && somaAtual <= capMax ==> atual in res
      modifies this
      ensures Adds(sizes, base, res, atual, capMax, maxEvaps)
      decreases maxEvaps - |atual|, 1
    {
      for i := 0 to |sizes|
        invariant Sound(sizes, base, res, atual, capMax, maxEvaps)
        invariant base <= res
        invariant |atual| > 0 && somaAtual <= capMax ==> atual in res
        invariant ChildrenIn(sizes, atual, i, res, capMax, maxEvaps)
      {
        Visit(atual, somaAtual, i, base);
      }
      CoveredByChildren(sizes, atual, res, capMax, maxEvaps);
    }

    /** One turn of the loop of `comb`: recurses into the child with size
        `sizes[i]` when it still fits under `capMax`. */
    method Visit(atual: seq<int>, somaAtual: int, i: int, ghost base: set<seq<int>>)
      requires GoodSizes(sizes) && Sorted(atual)
      requires forall j :: 0 <= j < |atual| ==> atual[j] in sizes
      requires 0 <= i < |sizes| && |atual| < maxEvaps && somaAtual == Soma(atual)
      requires Sound(sizes, base, res, atual, capMax, maxEvaps) && base <= res
      requires ChildrenIn(sizes, atual, i, res, capMax, maxEvaps)
      modifies this
      ensures Sound(sizes, base, res, atual, capMax, maxEvaps) && old(res) <= res
      ensures ChildrenIn(sizes, atual, i + 1, res, capMax, maxEvaps)
      decreases maxEvaps - |atual|, 0
    {
      var cap := sizes[i];
      if somaAtual + cap <= capMax {
        var filho := Norm(atual + [cap]);
        ChildInSizes(sizes, atual, cap);
        assert |filho| == |atual| + 1 by {
          assert |multiset(filho)| == |multiset(atual + [cap])|;
        }
        Comb(filho);
        Step(sizes, atual, i, base, old(res), res, capMax, maxEvaps);
      } else {
        NoChild(sizes, atual, i, res, capMax, maxEvaps);
      }
    }
  }

  /** `gerarCombinacoesLG(capMax, maxEvaps)`: exactly the valid keys, which is
      the reference enumeration. */
  method GerarCombinacoesLG(capMax: int, maxEvaps: int) returns (res: set<seq<int>>)
    ensures forall k :: k in res <==> ValidKey(LG_EVAPS, k, capMax, maxEvaps)
    ensures res == LgCombos(capMax, maxEvaps)
  {
    var g := new LgGenerator(capMax, maxEvaps);
    LgSizesGood();
    g.Comb([]);
    res := g.res;
    assert forall k :: Extends(LG_EVAPS, [], k, capMax, maxEvaps) <==> ValidKey(LG_EVAPS, k, capMax, maxEvaps);
  }

  // ---- Samsung tables ----

  function Samsung18Listas(): seq<seq<int>>
  {
    [[7, 7], [7, 9], [7, 12], [7, 18],
     [9, 9], [9, 12], [9, 18],
     [12, 12], [12, 18]]
  }

  /** The combinations the 24 adds to those of the 18. */
  function Samsung24Extra(): seq<seq<int>>
  {
    [[18, 18],
     [7, 7, 7], [7, 7, 9], [7, 7, 12], [7, 7, 18],
     [7, 9, 9], [7, 9, 12], [7, 9, 18],
     [7, 12, 12], [7, 12, 18],
     [9, 9, 9], [9, 9, 12], [9, 9, 18],
     [9, 12, 12], [9, 12, 18],
     [12, 12, 12]]
  }

  function Samsung28Listas(): seq<seq<int>>
  {
    Samsung28Pares() + Samsung28Triples() + Samsung28Quadruples()
  }

  function Samsung28Pares(): seq<seq<int>>
  {
    [[7, 7], [7, 9], [7, 12], [7, 18], [7, 24],
     [9, 9], [9, 12], [9, 18], [9, 24],
     [12, 12], [12, 18], [12, 24],
     [18, 18], [18, 24]]
  }

  function Samsung28Triples(): seq<seq<int>>
  {
    [[7, 7, 7], [7, 7, 9], [7, 7, 12], [7, 7, 18], [7, 7, 24],
     [7, 9, 9], [7, 9, 12], [7, 9, 18], [7, 9, 24],
     [7, 12, 12], [7, 12, 18], [7, 18, 18],
     [9, 9, 9], [9, 9, 12], [9, 9, 18], [9, 9, 24],
     [9, 12, 12], [9, 12, 18],
     [12, 12, 12], [12, 12, 18]]
  }

  function Samsung28Quadruples(): seq<seq<int>>
  {
    [[7, 7, 7, 7], [7, 7, 7, 9], [7, 7, 7, 12], [7, 7, 7, 18],
     [7, 7, 9, 9], [7, 7, 9, 12], [7, 7, 9, 18], [7, 7, 12, 12],
     [7, 9, 9, 9], [7, 9, 9, 12], [7, 9, 9, 18], [7, 9, 12, 12],
     [9, 9, 9, 9], [9, 9, 9, 12], [9, 9, 12, 12],
     [12, 12, 12, 12], [9, 9, 12, 18]]
  }

  function SamsungModelos(): (ms: seq<EvaporatorModel>)
    ensures |ms| == 3 && forall i :: 0 <= i < |ms| ==> WellFormed(ms[i])
  {
    [EvaporatorModel("Samsung 18", 18, 30, Listadas(NormSet(Samsung18Listas()))),
     EvaporatorModel("Samsung 24", 24, 39, Listadas(NormSet(Samsung18Listas() + Samsung24Extra()))),
     EvaporatorModel("Samsung 28", 28, 48, Listadas(NormSet(Samsung28Listas())))]
  }

  /** `MODELOS`: Samsung, then LG, then Daikin. */
  function Modelos(): (ms: seq<EvaporatorModel>)
    ensures |ms| == 15
    ensures forall i :: 0 <= i < |ms| ==> WellFormed(ms[i])
  {
    SamsungModelos() + LgModelos() + DaikinModelos()
  }

  // ---- Brand-dependent key and capacity ceiling ----

  /** `isDaikin`: the model name starts with "daikin", ignoring case. */
  predicate IsDaikin(m: EvaporatorModel)
  {
    StartsWith(ToLower(m.nome), "daikin")
  }

  /** Daikin tables have no 7: every 7 is looked up as a 9. */
  function SevenAsNine(entrada: seq<int>): (r: seq<int>)
    ensures |r| == |entrada|
    ensures forall i :: 0 <= i < |r| ==> r[i] == if entrada[i] == 7 then 9 else entrada[i]
  {
    if entrada == [] then [] else [if entrada[0] == 7 then 9 else entrada[0]] + SevenAsNine(entrada[1..])
  }

  /** Reading the head's 7 as a 9 is the first step of `SevenAsNine`. */
  lemma SevenAsNineHead(entrada: seq<int>)
    requires entrada != []
    ensures multiset(entrada) == multiset{entrada[0]} + multiset(entrada[1..])
    ensures multiset(SevenAsNine(entrada))
      == multiset{if entrada[0] == 7 then 9 else entrada[0]} + multiset(SevenAsNine(entrada[1..]))
  {
    assert entrada == [entrada[0]] + entrada[1..];
    var r := SevenAsNine(entrada);
    assert r == [r[0]] + SevenAsNine(entrada[1..]);
  }

  /** How the counts of an input change when its 7s become 9s. */
  lemma {:induction false} SevenAsNineCounts(entrada: seq<int>)
    ensures multiset(SevenAsNine(entrada))[7] == 0
    ensures multiset(SevenAsNine(entrada))[9] == multiset(entrada)[9] + multiset(entrada)[7]
    ensures forall v :: v != 7 && v != 9 ==> multiset(SevenAsNine(entrada))[v] == multiset(entrada)[v]
  {
    if entrada != [] {
      SevenAsNineCounts(entrada[1..]);
      SevenAsNineHead(entrada);
    }
  }

  /** `keyParaModelo`: the key an input is looked up by in a model's table. */
  function KeyParaModelo(m: EvaporatorModel, entrada: seq<int>): (k: seq<int>)
    ensures Sorted(k) && |k| == |entrada|
    ensures !IsDaikin(m) ==> multiset(k) == multiset(entrada)
    ensures IsDaikin(m) ==>
      && multiset(k)[7] == 0
      && multiset(k)[9] == multiset(entrada)[9] + multiset(entrada)[7]
      && forall v :: v != 7 && v != 9 ==> multiset(k)[v] == multiset(entrada)[v]
  {
    var arr := if IsDaikin(m) then SevenAsNine(entrada) else entrada;
    SevenAsNineCounts(entrada);
    assert |multiset(Norm(arr))| == |multiset(arr)|;
    Norm(arr)
  }

  /** For every brand but Daikin the key is `norm(entrada)` itself. */
  lemma KeyOtherBrands(m: EvaporatorModel, entrada: seq<int>)
    requires !IsDaikin(m)
    ensures KeyParaModelo(m, entrada) == Norm(entrada)
  {
    NormEqualIff(KeyParaModelo(m, entrada), entrada);
    NormOfSorted(KeyParaModelo(m, entrada));
  }

  /** For Daikin the key is `norm` of the input with its 7s read as 9s. */
  lemma KeyDaikin(m: EvaporatorModel, entrada: seq<int>)
    requires IsDaikin(m)
    ensures KeyParaModelo(m, entrada) == Norm(SevenAsNine(entrada))
  {
  }

  /** `capEfetiva`: the capacity an input may use in the given mode. */
  function CapEfetiva(m: EvaporatorModel, modo: string): (r: real)
    ensures r <= m.capMax as real
    ensures modo == "residencial" ==>
      && r <= 1.4 * m.capNominal as real
      && (r == 1.4 * m.capNominal as real || r == m.capMax as real)
    ensures modo == "corporativo" ==>
      && r <= 1.1 * m.capNominal as real
      && (r == 1.1 * m.capNominal as real || r == m.capMax as real)
    ensures modo != "residencial" && modo != "corporativo" ==> r == m.capMax as real
  {
    if modo == "residencial" then MinReal(m.capNominal as real * 1.4, m.capMax as real)
    else if modo == "corporativo" then MinReal(m.capNominal as real * 1.1, m.capMax as real)
    else m.capMax as real
  }
}
