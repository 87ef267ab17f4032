/** Worked answers of `calcular` for concrete inputs. */
module HvacScenarios {
  import opened Common
  import opened Keys
  import opened Strings
  import opened LgCombinations
  import opened HvacModels
  import opened HvacCalculator

  /** Units whose names are not of the brand contribute no candidate. */
  lemma SemCandidatos(ms: seq<EvaporatorModel>, entrada: seq<int>, modo: string, marca: string)
    requires forall i :: 0 <= i < |ms| ==> WellFormed(ms[i])
    requires forall i :: 0 <= i < |ms| ==> !StartsWith(ToLower(ms[i].nome), ToLower(marca))
    ensures Filter(Filter(Resultados(ms, entrada, modo), Compativel), FiltroMarca(marca)) == []
  {
    var rs := Resultados(ms, entrada, modo);
    var cs := Filter(rs, Compativel);
    forall i | 0 <= i < |cs| ensures !FiltroMarca(marca)(cs[i]) {
      assert cs[i] in rs;
      ResultadosMember(ms, entrada, modo, cs[i]);
    }
    FilterNone(cs, FiltroMarca(marca));
  }

  /** Every candidate is the evaluation of one of the units. */
  lemma CandidatoDe(ms: seq<EvaporatorModel>, entrada: seq<int>, modo: string, marca: string,
      c: CalculationResult)
    requires forall i :: 0 <= i < |ms| ==> WellFormed(ms[i])
    requires c in Filter(Filter(Resultados(ms, entrada, modo), Compativel), FiltroMarca(marca))
    ensures exists i :: 0 <= i < |ms| && c == Avaliar(ms[i], entrada, modo)
  {
    var rs := Resultados(ms, entrada, modo);
    FilterMembership(Filter(rs, Compativel), FiltroMarca(marca), c);
    FilterMembership(rs, Compativel, c);
    ResultadosMember(ms, entrada, modo, c);
  }

  /** The candidates of a brand whose units form one group that starts with a
      compatible unit: that unit first. */
  lemma CandidatosDoGrupo(grupo: seq<EvaporatorModel>, entrada: seq<int>, modo: string, marca: string)
    requires forall i :: 0 <= i < |grupo| ==> WellFormed(grupo[i])
    requires grupo != []
    requires Compativel(Avaliar(grupo[0], entrada, modo))
    requires StartsWith(ToLower(grupo[0].nome), ToLower(marca))
    ensures var cands := Filter(Filter(Resultados(grupo, entrada, modo), Compativel), FiltroMarca(marca));
      cands != [] && cands[0] == Avaliar(grupo[0], entrada, modo)
  {
    var a0 := Avaliar(grupo[0], entrada, modo);
    var rs := Resultados(grupo, entrada, modo);
    assert rs == [a0] + Resultados(grupo[1..], entrada, modo);
    assert rs[0] == a0 && rs[1..] == Resultados(grupo[1..], entrada, modo);
    var cs := Filter(rs, Compativel);
    assert cs == [a0] + Filter(rs[1..], Compativel);
    assert cs[0] == a0 && cs[1..] == Filter(rs[1..], Compativel);
    assert FiltroMarca(marca)(a0);
  }

  /** The candidates of a list made of three parts are those of the parts, in order. */
  lemma CandidatosConcat(antes: seq<EvaporatorModel>, grupo: seq<EvaporatorModel>, depois: seq<EvaporatorModel>,
      entrada: seq<int>, modo: string, marca: string)
    requires forall i :: 0 <= i < |antes| ==> WellFormed(antes[i])
    requires forall i :: 0 <= i < |grupo| ==> WellFormed(grupo[i])
    requires forall i :: 0 <= i < |depois| ==> WellFormed(depois[i])
    ensures forall i :: 0 <= i < |antes + grupo + depois| ==> WellFormed((antes + grupo + depois)[i])
    ensures Filter(Filter(Resultados(antes + grupo + depois, entrada, modo), Compativel), FiltroMarca(marca))
      == Filter(Filter(Resultados(antes, entrada, modo), Compativel), FiltroMarca(marca))
       + Filter(Filter(Resultados(grupo, entrada, modo), Compativel), FiltroMarca(marca))
       + Filter(Filter(Resultados(depois, entrada, modo), Compativel), FiltroMarca(marca))
  {
    ResultadosAppend(antes, grupo, entrada, modo);
    ResultadosAppend(antes + grupo, depois, entrada, modo);
    var ra, rg, rd := Resultados(antes, entrada, modo), Resultados(grupo, entrada, modo),
      Resultados(depois, entrada, modo);
    FilterAppend(ra + rg, rd, Compativel);
    FilterAppend(ra, rg, Compativel);
    var ca, cg, cd := Filter(ra, Compativel), Filter(rg, Compativel), Filter(rd, Compativel);
    FilterAppend(ca + cg, cd, FiltroMarca(marca));
    FilterAppend(ca, cg, FiltroMarca(marca));
  }

  /** A candidate list led by a unit no candidate is smaller than yields that unit. */
  lemma EscolheOPrimeiro(cands: seq<CalculationResult>)
    requires cands != []
    requires forall j :: 0 <= j < |cands| ==> cands[0].modelo.capNominal <= cands[j].modelo.capNominal
    ensures Escolher(cands) == Some(cands[0])
  {
    var o := Escolher(cands);
    var i :| 0 <= i < |cands| && o.value == cands[i]
      && (forall j :: 0 <= j < |cands| ==> cands[i].modelo.capNominal <= cands[j].modelo.capNominal)
      && (forall j :: 0 <= j < i ==> cands[j].modelo.capNominal > cands[i].modelo.capNominal);
    assert i == 0;
  }

  /** Well-formed units none of whose names is of the brand. */
  ghost predicate ForaDaMarca(ms: seq<EvaporatorModel>, marca: string)
  {
    && (forall i :: 0 <= i < |ms| ==> WellFormed(ms[i]))
    && (forall i :: 0 <= i < |ms| ==> !StartsWith(ToLower(ms[i].nome), ToLower(marca)))
  }

  /** Well-formed units led by a compatible unit of the brand that no unit of
      the group undercuts in nominal capacity. */
  ghost predicate Lidera(grupo: seq<EvaporatorModel>, entrada: seq<int>, modo: string, marca: string)
  {
    && (forall i :: 0 <= i < |grupo| ==> WellFormed(grupo[i]))
    && grupo != []
    && Compativel(Avaliar(grupo[0], entrada, modo))
    && StartsWith(ToLower(grupo[0].nome), ToLower(marca))
    && (forall i :: 0 <= i < |grupo| ==> grupo[0].capNominal <= grupo[i].capNominal)
  }

  lemma ForaDaMarcaAppend(a: seq<EvaporatorModel>, b: seq<EvaporatorModel>, marca: string)
    requires ForaDaMarca(a, marca) && ForaDaMarca(b, marca)
    ensures ForaDaMarca(a + b, marca)
  {
    forall i | 0 <= i < |a + b|
      ensures WellFormed((a + b)[i]) && !StartsWith(ToLower((a + b)[i].nome), ToLower(marca))
    {
      if i < |a| { assert (a + b)[i] == a[i]; } else { assert (a + b)[i] == b[i - |a|]; }
    }
  }

  /** Between units of other brands, a group's candidates are the whole list's. */
  lemma CandidatosSoDoGrupo(antes: seq<EvaporatorModel>, grupo: seq<EvaporatorModel>, depois: seq<EvaporatorModel>,
      entrada: seq<int>, modo: string, marca: string)
    requires ForaDaMarca(antes, marca) && ForaDaMarca(depois, marca)
    requires forall i :: 0 <= i < |grupo| ==> WellFormed(grupo[i])
    ensures forall i :: 0 <= i < |antes + grupo + depois| ==> WellFormed((antes + grupo + depois)[i])
    ensures Filter(Filter(Resultados(antes + grupo + depois, entrada, modo), Compativel), FiltroMarca(marca))
      == Filter(Filter(Resultados(grupo, entrada, modo), Compativel), FiltroMarca(marca))
  {
    CandidatosConcat(antes, grupo, depois, entrada, modo, marca);
    SemCandidatos(antes, entrada, modo, marca);
    SemCandidatos(depois, entrada, modo, marca);
    var cands := Filter(Filter(Resultados(grupo, entrada, modo), Compativel), FiltroMarca(marca));
    assert [] + cands + [] == cands;
  }

  /** When all the brand's units sit together in the list, the first of them
      is compatible, and none of them is smaller, that first unit is chosen. */
  lemma EscolhaDoGrupo(antes: seq<EvaporatorModel>, grupo: seq<EvaporatorModel>, depois: seq<EvaporatorModel>,
      entrada: seq<int>, modo: string, marca: string)
    requires ForaDaMarca(antes, marca) && ForaDaMarca(depois, marca)
    requires Lidera(grupo, entrada, modo, marca)
    ensures forall i :: 0 <= i < |antes + grupo + depois| ==> WellFormed((antes + grupo + depois)[i])
    ensures MelhorDaMarca(Filter(Resultados(antes + grupo + depois, entrada, modo), Compativel), marca)
      == Some(Avaliar(grupo[0], entrada, modo))
  {
    CandidatosSoDoGrupo(antes, grupo, depois, entrada, modo, marca);
    PrimeiroDoGrupo(grupo, entrada, modo, marca);
  }

  /** A group led by a compatible unit of the brand, none smaller, chooses it. */
  lemma PrimeiroDoGrupo(grupo: seq<EvaporatorModel>, entrada: seq<int>, modo: string, marca: string)
    requires Lidera(grupo, entrada, modo, marca)
    ensures Escolher(Filter(Filter(Resultados(grupo, entrada, modo), Compativel), FiltroMarca(marca)))
      == Some(Avaliar(grupo[0], entrada, modo))
  {
    CandidatosDoGrupo(grupo, entrada, modo, marca);
    CandidatosNaoMenores(grupo, entrada, modo, marca);
    EscolheOPrimeiro(Filter(Filter(Resultados(grupo, entrada, modo), Compativel), FiltroMarca(marca)));
  }

  /** No candidate of a group is smaller than the group's first unit. */
  lemma CandidatosNaoMenores(grupo: seq<EvaporatorModel>, entrada: seq<int>, modo: string, marca: string)
    requires forall i :: 0 <= i < |grupo| ==> WellFormed(grupo[i])
    requires grupo != []
    requires forall i :: 0 <= i < |grupo| ==> grupo[0].capNominal <= grupo[i].capNominal
    ensures var cands := Filter(Filter(Resultados(grupo, entrada, modo), Compativel), FiltroMarca(marca));
      forall j :: 0 <= j < |cands| ==> grupo[0].capNominal <= cands[j].modelo.capNominal
  {
    var cands := Filter(Filter(Resultados(grupo, entrada, modo), Compativel), FiltroMarca(marca));
    forall j | 0 <= j < |cands| ensures grupo[0].capNominal <= cands[j].modelo.capNominal {
      assert cands[j] in cands;
      CandidatoDe(grupo, entrada, modo, marca, cands[j]);
    }
  }

  lemma SamsungNaoE(marca: string)
    requires |ToLower(marca)| >= 1 && ToLower(marca)[0] != 's'
    ensures ForaDaMarca(SamsungModelos(), marca)
  {
    var ms := SamsungModelos();
    forall i | 0 <= i < |ms| ensures !StartsWith(ToLower(ms[i].nome), ToLower(marca)) {
      assert ms[i].nome[0] == 'S';
      NotStartsWithLower(ms[i].nome, ToLower(marca));
    }
  }

  lemma LgNaoE(marca: string)
    requires |ToLower(marca)| >= 1 && ToLower(marca)[0] != 'l'
    ensures ForaDaMarca(LgModelos(), marca)
  {
    var ms := LgModelos();
    forall i | 0 <= i < |ms| ensures !StartsWith(ToLower(ms[i].nome), ToLower(marca)) {
      assert ms[i].nome[0] == 'L';
      NotStartsWithLower(ms[i].nome, ToLower(marca));
    }
  }

  lemma DaikinNaoE(marca: string)
    requires |ToLower(marca)| >= 1 && ToLower(marca)[0] != 'd'
    ensures ForaDaMarca(DaikinModelos(), marca)
  {
    var ms := DaikinModelos();
    forall i | 0 <= i < |ms| ensures !StartsWith(ToLower(ms[i].nome), ToLower(marca)) {
      assert ms[i].nome[0] == 'D';
      NotStartsWithLower(ms[i].nome, ToLower(marca));
    }
  }

  /** Names that start with a letter other than D (in either case) are not Daikin. */
  lemma NaoDaikin(ms: seq<EvaporatorModel>, c: char)
    requires LowerChar(c) != 'd'
    requires forall i :: 0 <= i < |ms| ==> |ms[i].nome| >= 1 && ms[i].nome[0] == c
    ensures forall i :: 0 <= i < |ms| ==> !IsDaikin(ms[i])
  {
    forall i | 0 <= i < |ms| ensures !IsDaikin(ms[i]) {
      NotStartsWithLower(ms[i].nome, "daikin");
    }
  }

  lemma SamsungNaoDaikin()
    ensures forall i :: 0 <= i < |SamsungModelos()| ==> !IsDaikin(SamsungModelos()[i])
  {
    var ss := SamsungModelos();
    assert forall i :: 0 <= i < |ss| ==> ss[i].nome[0] == 'S';
    NaoDaikin(ss, 'S');
  }

  lemma LgNaoDaikin()
    ensures forall i :: 0 <= i < |LgModelos()| ==> !IsDaikin(LgModelos()[i])
  {
    var ls := LgModelos();
    assert forall i :: 0 <= i < |ls| ==> ls[i].nome[0] == 'L';
    NaoDaikin(ls, 'L');
  }

  /** Every unit of the Daikin table is Daikin. */
  lemma TodosDaikin()
    ensures forall i :: 0 <= i < |DaikinModelos()| ==> IsDaikin(DaikinModelos()[i])
  {
    var ds := DaikinModelos();
    forall i | 0 <= i < |ds| ensures IsDaikin(ds[i]) {
      assert ds[i].nome[..6] == "Daikin";
      StartsWithLower(ds[i].nome, "daikin");
    }
  }

  /** `isDaikin` over the three tables `MODELOS` joins: it holds of every
      Daikin unit and of no Samsung or LG unit. */
  lemma IsDaikinPorMarca()
    ensures forall i :: 0 <= i < |SamsungModelos()| ==> !IsDaikin(SamsungModelos()[i])
    ensures forall i :: 0 <= i < |LgModelos()| ==> !IsDaikin(LgModelos()[i])
    ensures forall i :: 0 <= i < |DaikinModelos()| ==> IsDaikin(DaikinModelos()[i])
  {
    SamsungNaoDaikin();
    LgNaoDaikin();
    TodosDaikin();
  }

  lemma UsoLg18()
    ensures RoundTenth(21.0 / 18.0 * 100.0) == 116.7
  {
    RoundIs(21.0 / 18.0 * 100.0 * 10.0, 1167);
  }

  lemma UsoDaikin18()
    ensures RoundTenth(19.0 / 18.0 * 100.0) == 105.6
  {
    RoundIs(19.0 / 18.0 * 100.0 * 10.0, 1056);
  }

  // ---- LG: 9 + 12, residential, "lg" ----

  lemma Lg18NaoDaikin()
    ensures !IsDaikin(LgModelos()[0])
  {
    assert LgModelos()[0].nome == "LG 18";
    assert ToLower("daikin") == "daikin";
    NotStartsWithLower("LG 18", "daikin");
  }

  lemma Lg18Chave()
    ensures KeyParaModelo(LgModelos()[0], [9, 12]) == [9, 12]
  {
    Lg18NaoDaikin();
    KeyOtherBrands(LgModelos()[0], [9, 12]);
    assert Sorted([9, 12]);
    NormOfSorted([9, 12]);
  }

  /** "LG 18" takes 9 + 12 in residential mode: the key is listed and 21 is
      within min(1.4 × 18, 24) = 24. */
  lemma Lg18Compativel()
    ensures Compativel(Avaliar(LgModelos()[0], [9, 12], "residencial"))
  {
    var m := LgModelos()[0];
    assert m.capNominal == 18 && m.capMax == 24;
    assert m.combinacoes == Geradas(24, 2);
    Lg18Chave();
    assert IsLgKey([9, 12], 24, 2);
    assert Soma([9, 12]) == 21;
  }

  lemma LgDaMarca()
    ensures StartsWith(ToLower(LgModelos()[0].nome), ToLower("lg"))
  {
    assert LgModelos()[0].nome == "LG 18";
    assert ToLower("lg") == "lg";
    StartsWithLower("LG 18", "lg");
  }

  lemma LgPrimeiroMenor()
    ensures forall i :: 0 <= i < |LgModelos()| ==> LgModelos()[0].capNominal <= LgModelos()[i].capNominal
  {
  }

  lemma LgLidera()
    ensures Lidera(LgModelos(), [9, 12], "residencial", "lg")
  {
    Lg18Compativel();
    LgDaMarca();
    LgPrimeiroMenor();
  }

  lemma OutrasNaoLg()
    ensures ForaDaMarca(SamsungModelos(), "lg") && ForaDaMarca(DaikinModelos(), "lg")
  {
    assert ToLower("lg") == "lg";
    SamsungNaoE("lg");
    DaikinNaoE("lg");
  }

  /** Among the compatible units for 9 + 12 in residential mode, the "lg" choice is "LG 18". */
  lemma MelhorLg()
    ensures MelhorDaMarca(Filter(Resultados(Modelos(), [9, 12], "residencial"), Compativel), "lg")
      == Some(Avaliar(LgModelos()[0], [9, 12], "residencial"))
  {
    OutrasNaoLg();
    LgLidera();
    EscolhaDoGrupo(SamsungModelos(), LgModelos(), DaikinModelos(), [9, 12], "residencial", "lg");
  }

  lemma DetalharLg18()
    ensures Detalhar(Avaliar(LgModelos()[0], [9, 12], "residencial"))
      == DetailedResult("LG 18", 18000, 24000.0, 116.7, Ok)
  {
    var m := LgModelos()[0];
    assert m.nome == "LG 18" && m.capNominal == 18 && m.capMax == 24;
    var a0 := Avaliar(m, [9, 12], "residencial");
    assert Soma([9, 12]) == 21;
    assert a0.simult == 21.0 / 18.0 * 100.0;
    UsoLg18();
    assert a0.limite == 24.0;
    Lg18Compativel();
  }

  /** Input 9 + 12, residential mode, brand "lg": the answer is "LG 18", with a
      ceiling of 24000 BTU/h and a usage of 116.7 %. */
  lemma CenarioLg(marcas: seq<string>)
    ensures ResultadosDetalhados(Resultados(Modelos(), [9, 12], "residencial"), marcas, "lg")
      == [DetailedResult("LG 18", 18000, 24000.0, 116.7, Ok)]
  {
    MelhorLg();
    DetalharLg18();
  }

  // ---- Daikin: 7 + 12, residential, "daikin" ----

  lemma DaikinChave(m: EvaporatorModel)
    requires IsDaikin(m)
    ensures KeyParaModelo(m, [7, 12]) == [9, 12]
  {
    KeyDaikin(m, [7, 12]);
    assert SevenAsNine([7, 12]) == [9, 12];
    NormOfSorted([9, 12]);
  }

  lemma Daikin18DaMarca(i: nat)
    requires i < 2
    ensures IsDaikin(DaikinModelos()[i])
    ensures StartsWith(ToLower(DaikinModelos()[i].nome), ToLower("daikin"))
  {
    var nome := DaikinModelos()[i].nome;
    assert nome[..6] == "Daikin";
    assert ToLower("daikin") == "daikin";
    StartsWithLower(nome, "daikin");
  }

  lemma Daikin18BiTabela()
    ensures Has(DaikinModelos()[0].combinacoes, [9, 12])
  {
    assert DaikinModelos()[0] == CriarModeloDaikin("Daikin 18 Bi", 18, 24, Daikin18BiListas());
    assert Sorted([9, 12]);
    NormOfSorted([9, 12]);
    assert Daikin18BiListas()[1] == [9, 12];
    assert [9, 12] in NormSet(Daikin18BiListas());
  }

  /** "Daikin 18 Bi" takes 7 + 12 read as 9 + 12: the key is listed and 19 is
      within min(1.4 × 18, 24) = 24. */
  lemma Daikin18BiCompativel()
    ensures Compativel(Avaliar(DaikinModelos()[0], [7, 12], "residencial"))
  {
    var m := DaikinModelos()[0];
    assert m.capNominal == 18 && m.capMax == 24;
    Daikin18DaMarca(0);
    DaikinChave(m);
    Daikin18BiTabela();
    assert Soma([7, 12]) == 19;
  }

  /** "Daikin 18 Tri", of the same nominal capacity, is compatible as well:
      only the list order puts it after "Daikin 18 Bi". */
  lemma Daikin18TriCompativel()
    ensures Compativel(Avaliar(DaikinModelos()[1], [7, 12], "residencial"))
    ensures DaikinModelos()[1].capNominal == DaikinModelos()[0].capNominal
  {
    var m := DaikinModelos()[1];
    assert m == CriarModeloDaikin("Daikin 18 Tri", 18, 30, Daikin18TriListas());
    Daikin18DaMarca(1);
    DaikinChave(m);
    assert Sorted([9, 12]);
    NormOfSorted([9, 12]);
    assert Daikin18TriListas()[1] == [9, 12];
    assert [9, 12] in NormSet(Daikin18TriListas());
    assert Soma([7, 12]) == 19;
  }

  lemma DaikinPrimeiroMenor()
    ensures forall i :: 0 <= i < |DaikinModelos()| ==>
      DaikinModelos()[0].capNominal <= DaikinModelos()[i].capNominal
  {
  }

  lemma DaikinLidera()
    ensures Lidera(DaikinModelos(), [7, 12], "residencial", "daikin")
  {
    Daikin18BiCompativel();
    Daikin18DaMarca(0);
    DaikinPrimeiroMenor();
  }

  lemma OutrasNaoDaikin()
    ensures ForaDaMarca(SamsungModelos() + LgModelos(), "daikin")
  {
    assert ToLower("daikin") == "daikin";
    SamsungNaoE("daikin");
    LgNaoE("daikin");
    ForaDaMarcaAppend(SamsungModelos(), LgModelos(), "daikin");
  }

  /** The choice for a brand whose units close the list. */
  lemma EscolhaDoUltimoGrupo(antes: seq<EvaporatorModel>, grupo: seq<EvaporatorModel>, ms: seq<EvaporatorModel>,
      entrada: seq<int>, modo: string, marca: string)
    requires ms == antes + grupo
    requires ForaDaMarca(antes, marca)
    requires Lidera(grupo, entrada, modo, marca)
    ensures forall i :: 0 <= i < |ms| ==> WellFormed(ms[i])
    ensures MelhorDaMarca(Filter(Resultados(ms, entrada, modo), Compativel), marca)
      == Some(Avaliar(grupo[0], entrada, modo))
  {
    EscolhaDoGrupo(antes, grupo, [], entrada, modo, marca);
    assert antes + grupo + [] == ms;
  }

  /** Among the compatible units for 7 + 12 in residential mode, the "daikin"
      choice is "Daikin 18 Bi". */
  lemma MelhorDaikin()
    ensures MelhorDaMarca(Filter(Resultados(Modelos(), [7, 12], "residencial"), Compativel), "daikin")
      == Some(Avaliar(DaikinModelos()[0], [7, 12], "residencial"))
  {
    OutrasNaoDaikin();
    DaikinLidera();
    EscolhaDoUltimoGrupo(SamsungModelos() + LgModelos(), DaikinModelos(), Modelos(), [7, 12], "residencial", "daikin");
  }

  lemma DetalharDaikin18Bi()
    ensures Detalhar(Avaliar(DaikinModelos()[0], [7, 12], "residencial"))
      == DetailedResult("Daikin 18 Bi", 18000, 24000.0, 105.6, Ok)
  {
    var m := DaikinModelos()[0];
    assert m == CriarModeloDaikin("Daikin 18 Bi", 18, 24, Daikin18BiListas());
    var a0 := Avaliar(m, [7, 12], "residencial");
    assert Soma([7, 12]) == 19;
    assert a0.simult == 19.0 / 18.0 * 100.0;
    UsoDaikin18();
    assert a0.limite == 24.0;
    Daikin18BiCompativel();
  }

  /** Input 7 + 12, residential mode, brand "daikin": the 7 is read as a 9,
      both 18 units fit, and the stable sort keeps "Daikin 18 Bi" first; the
      usage is 19 / 18 = 105.6 %, from the input as typed. */
  lemma CenarioDaikin(marcas: seq<string>)
    ensures ResultadosDetalhados(Resultados(Modelos(), [7, 12], "residencial"), marcas, "daikin")
      == [DetailedResult("Daikin 18 Bi", 18000, 24000.0, 105.6, Ok)]
    ensures Compativel(Avaliar(DaikinModelos()[1], [7, 12], "residencial"))
    ensures DaikinModelos()[1].capNominal == DaikinModelos()[0].capNominal
  {
    MelhorDaikin();
    DetalharDaikin18Bi();
    Daikin18TriCompativel();
  }
}
