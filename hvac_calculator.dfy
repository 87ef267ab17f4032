/** `parseEntrada` and `calcular`: from the typed list of evaporators to the
    unit reported per brand and the classification of every unit. */
module HvacCalculator {
  import opened Common
  import opened Keys
  import opened Strings
  import opened HvacModels

  // ---- parseEntrada ----

  /** The evaporator sizes an input may name. */
  const NOMINAIS_ACEITOS: seq<int> := [7, 9, 12, 18, 24]

  /** `.map(x => parseInt(x.trim(), 10))`. */
  function ParseTokens(tokens: seq<string>): (vs: seq<Option<int>>)
    ensures |vs| == |tokens|
    ensures forall i :: 0 <= i < |vs| ==> vs[i] == ParseInt10(Trim(tokens[i]))
  {
    if tokens == [] then [] else [ParseInt10(Trim(tokens[0]))] + ParseTokens(tokens[1..])
  }

  predicate Aceito(v: Option<int>)
  {
    v.Some? && v.value in NOMINAIS_ACEITOS
  }

  /** `.filter(x => [7, 9, 12, 18, 24].includes(x))`; `NaN` is never included. */
  function Aceitos(vs: seq<Option<int>>): (r: seq<int>)
    ensures |r| <= |vs|
    ensures forall i :: 0 <= i < |r| ==> r[i] in NOMINAIS_ACEITOS
  {
    if vs == [] then []
    else (if Aceito(vs[0]) then [vs[0].value] else []) + Aceitos(vs[1..])
  }

  /** The filter keeps the order of the tokens it keeps. */
  lemma {:induction false} AceitosAppend(a: seq<Option<int>>, b: seq<Option<int>>)
    ensures Aceitos(a + b) == Aceitos(a) + Aceitos(b)
  {
    if a == [] {
      assert a + b == b;
    } else {
      assert (a + b)[0] == a[0];
      assert (a + b)[1..] == a[1..] + b;
      AceitosAppend(a[1..], b);
    }
  }

  /** A value is kept exactly when some token parses to it and it is an accepted size. */
  lemma {:induction false} AceitosMembership(vs: seq<Option<int>>, v: int)
    ensures v in Aceitos(vs) <==> Some(v) in vs && v in NOMINAIS_ACEITOS
  {
    if vs != [] {
      AceitosMembership(vs[1..], v);
      assert vs == [vs[0]] + vs[1..];
    }
  }

  lemma {:induction false} ParseTokensAppend(a: seq<string>, b: seq<string>)
    ensures ParseTokens(a + b) == ParseTokens(a) + ParseTokens(b)
  {
    if a == [] {
      assert a + b == b;
    } else {
      assert (a + b)[0] == a[0];
      assert (a + b)[1..] == a[1..] + b;
      ParseTokensAppend(a[1..], b);
    }
  }

  /** `parseEntrada`: a blank text gives no evaporator; otherwise the accepted
      sizes among the comma-separated tokens, in input order, at most five. */
  function ParseEntrada(txt: string): (r: seq<int>)
    ensures Trim(txt) == [] ==> r == []
    ensures |r| <= 5
    ensures forall i :: 0 <= i < |r| ==> r[i] in NOMINAIS_ACEITOS
  {
    if Trim(txt) == [] then []
    else Take(Aceitos(ParseTokens(Split(txt, ','))), 5)
  }

  /** The five-item cap applies after the domain filter: the result is the
      first accepted values, as many as there are up to five. */
  lemma ParseEntradaCapsAfterFilter(txt: string)
    requires Trim(txt) != []
    ensures var a := Aceitos(ParseTokens(Split(txt, ',')));
      && ParseEntrada(txt) == a[..|ParseEntrada(txt)|]
      && |ParseEntrada(txt)| == if |a| < 5 then |a| else 5
  {
  }

  ghost predicate SemVirgula(ps: seq<string>)
  {
    forall i :: 0 <= i < |ps| ==> ',' !in ps[i]
  }

  lemma AceitosSingle(v: Option<int>)
    ensures Aceitos([v]) == if Aceito(v) then [v.value] else []
  {
    assert [v][1..] == [];
  }

  lemma ParseTokensSingle(t: string)
    ensures ParseTokens([t]) == [ParseInt10(Trim(t))]
  {
  }

  /** Dropping a token the filter rejects leaves the accepted values alone. */
  lemma DropToken(antes: seq<string>, ruim: string, depois: seq<string>)
    requires !Aceito(ParseInt10(Trim(ruim)))
    ensures Aceitos(ParseTokens(antes + [ruim] + depois)) == Aceitos(ParseTokens(antes + depois))
  {
    ParseTokensAppend(antes + [ruim], depois);
    ParseTokensAppend(antes, [ruim]);
    ParseTokensAppend(antes, depois);
    ParseTokensSingle(ruim);
    var pa, pr, pd := ParseTokens(antes), ParseTokens([ruim]), ParseTokens(depois);
    AceitosSingle(ParseInt10(Trim(ruim)));
    AceitosAppend(pa + pr, pd);
    AceitosAppend(pa, pr);
    AceitosAppend(pa, pd);
  }

  lemma SemVirgulaAppend(a: seq<string>, b: seq<string>)
    requires SemVirgula(a) && SemVirgula(b)
    ensures SemVirgula(a + b)
  {
    forall i | 0 <= i < |a + b| ensures ',' !in (a + b)[i] {
      if i < |a| { assert (a + b)[i] == a[i]; } else { assert (a + b)[i] == b[i - |a|]; }
    }
  }

  /** A text written as comma-separated tokens splits back into them. */
  lemma ParseEntradaOfJoin(tokens: seq<string>)
    requires SemVirgula(tokens) && |tokens| >= 1
    requires Trim(Join(tokens, ',')) != []
    ensures ParseEntrada(Join(tokens, ',')) == Take(Aceitos(ParseTokens(tokens)), 5)
  {
    SplitJoin(tokens, ',');
  }

  /** A rejected token never uses one of the five places: removing it from the
      text changes nothing. */
  lemma DroppedTokenUsesNoSlot(antes: seq<string>, ruim: string, depois: seq<string>)
    requires SemVirgula(antes) && SemVirgula(depois) && ',' !in ruim
    requires !Aceito(ParseInt10(Trim(ruim)))
    requires |antes + depois| >= 1
    requires Trim(Join(antes + [ruim] + depois, ',')) != []
    requires Trim(Join(antes + depois, ',')) != []
    ensures ParseEntrada(Join(antes + [ruim] + depois, ',')) == ParseEntrada(Join(antes + depois, ','))
  {
    assert SemVirgula([ruim]);
    SemVirgulaAppend(antes, [ruim]);
    SemVirgulaAppend(antes + [ruim], depois);
    SemVirgulaAppend(antes, depois);
    ParseEntradaOfJoin(antes + [ruim] + depois);
    ParseEntradaOfJoin(antes + depois);
    DropToken(antes, ruim, depois);
  }

  /** The blank-text guard only saves work: without it a blank text would
      still give no evaporator, since each of its tokens is blank. */
  lemma BlankGuardRedundant(txt: string)
    requires Trim(txt) == []
    ensures Take(Aceitos(ParseTokens(Split(txt, ','))), 5) == []
  {
    TrimEmptyIff(txt);
    var toks := Split(txt, ',');
    forall i | 0 <= i < |toks| ensures !Aceito(ParseTokens(toks)[i]) {
      forall k | 0 <= k < |toks[i]| ensures IsWhiteSpace(toks[i][k]) {
        JoinPieceChars(toks, ',', i, k);
      }
      TrimEmptyIff(toks[i]);
      assert TrimStart(Trim(toks[i])) == [];
    }
    NoneAccepted(ParseTokens(toks));
  }

  lemma {:induction false} NoneAccepted(vs: seq<Option<int>>)
    requires forall i :: 0 <= i < |vs| ==> !Aceito(vs[i])
    ensures Aceitos(vs) == []
  {
    if vs != [] {
      NoneAccepted(vs[1..]);
    }
  }

  // ---- calcular ----

  /** `CalculationResult`: one unit as `calcular` sees it for an input. */
  datatype CalculationResult = CalculationResult(
    modelo: EvaporatorModel,
    existeNaTabela: bool,
    limite: real,
    cabeNoLimite: bool,
    ocupa: real,
    simult: real)

  /** `DetailedResult`: capacities in BTU/h, usage as a percentage of the
      nominal capacity kept to one decimal. */
  datatype DetailedResult = DetailedResult(
    nome: string,
    capNominal: int,
    capEfetiva: real,
    uso: real,
    status: Status)

  /** The `1e-9` slack of the limit comparison. */
  const TOLERANCIA: real := 0.000000001

  /** For an integer sum and a limit in tenths, the slack never changes the
      outcome of the comparison. */
  lemma TenthsTolerance(t: int, q: int)
    ensures t as real <= q as real / 10.0 + TOLERANCIA <==> t as real <= q as real / 10.0
  {
    if t as real > q as real / 10.0 {
      assert 10 * t > q;
      assert (10 * t) as real >= (q + 1) as real;
    }
  }

  /** Every capacity ceiling of a unit with integer capacities is a number of tenths. */
  lemma ToleranceHarmless(m: EvaporatorModel, modo: string, t: int)
    ensures t as real <= CapEfetiva(m, modo) + TOLERANCIA <==> t as real <= CapEfetiva(m, modo)
  {
    var c, mx := m.capNominal, m.capMax;
    var l := CapEfetiva(m, modo);
    if l == mx as real {
      TenthsTolerance(t, 10 * mx);
      assert (10 * mx) as real / 10.0 == l;
    } else if modo == "residencial" {
      TenthsTolerance(t, 14 * c);
      assert (14 * c) as real / 10.0 == l;
    } else {
      TenthsTolerance(t, 11 * c);
      assert (11 * c) as real / 10.0 == l;
    }
  }

  /** One element of `resultados`. With the slack shown harmless, the unit
      fits exactly when the input's sum is at most the ceiling, that is when
      it takes at most 100 % of the ceiling (`ocupa`). `simult`, reported as
      `uso`, is the sum as a percentage of the nominal capacity. */
  function Avaliar(m: EvaporatorModel, entrada: seq<int>, modo: string): (r: CalculationResult)
    requires WellFormed(m)
    ensures r.modelo == m
    ensures r.existeNaTabela == Has(m.combinacoes, KeyParaModelo(m, entrada))
    ensures r.limite == CapEfetiva(m, modo) && r.limite > 0.0
    ensures r.cabeNoLimite <==> Soma(entrada) as real <= r.limite
    ensures r.ocupa == Percentual(Soma(entrada) as real, r.limite)
    ensures r.cabeNoLimite <==> r.ocupa <= 100.0
    ensures r.simult == Percentual(Soma(entrada) as real, m.capNominal as real)
  {
    var total := Soma(entrada) as real;
    var limite := CapEfetiva(m, modo);
    ToleranceHarmless(m, modo, Soma(entrada));
    CalculationResult(m, Has(m.combinacoes, KeyParaModelo(m, entrada)), limite,
      total <= limite + TOLERANCIA, Percentual(total, limite),
      Percentual(total, m.capNominal as real))
  }

  /** `resultados`: every unit, in `MODELOS` order. */
  function Resultados(ms: seq<EvaporatorModel>, entrada: seq<int>, modo: string): (rs: seq<CalculationResult>)
    requires forall i :: 0 <= i < |ms| ==> WellFormed(ms[i])
    ensures |rs| == |ms|
  {
    if ms == [] then [] else [Avaliar(ms[0], entrada, modo)] + Resultados(ms[1..], entrada, modo)
  }

  /** Element `i` of `resultados` is the evaluation of unit `i`. */
  lemma {:induction false} ResultadosAt(ms: seq<EvaporatorModel>, entrada: seq<int>, modo: string, i: nat)
    requires forall j :: 0 <= j < |ms| ==> WellFormed(ms[j])
    requires i < |ms|
    ensures Resultados(ms, entrada, modo)[i] == Avaliar(ms[i], entrada, modo)
  {
    if i > 0 {
      ResultadosAt(ms[1..], entrada, modo, i - 1);
    }
  }

  lemma BemFormadosAppend(a: seq<EvaporatorModel>, b: seq<EvaporatorModel>)
    requires forall i :: 0 <= i < |a| ==> WellFormed(a[i])
    requires forall i :: 0 <= i < |b| ==> WellFormed(b[i])
    ensures forall i :: 0 <= i < |a + b| ==> WellFormed((a + b)[i])
  {
    forall i | 0 <= i < |a + b| ensures WellFormed((a + b)[i]) {
      if i < |a| { assert (a + b)[i] == a[i]; } else { assert (a + b)[i] == b[i - |a|]; }
    }
  }

  lemma {:induction false} ResultadosAppend(a: seq<EvaporatorModel>, b: seq<EvaporatorModel>,
      entrada: seq<int>, modo: string)
    requires forall i :: 0 <= i < |a| ==> WellFormed(a[i])
    requires forall i :: 0 <= i < |b| ==> WellFormed(b[i])
    ensures forall i :: 0 <= i < |a + b| ==> WellFormed((a + b)[i])
    ensures Resultados(a + b, entrada, modo) == Resultados(a, entrada, modo) + Resultados(b, entrada, modo)
  {
    BemFormadosAppend(a, b);
    if a != [] {
      var ab := a + b;
      assert ab[0] == a[0];
      assert ab[1..] == a[1..] + b;
      ResultadosAppend(a[1..], b, entrada, modo);
      var h := [Avaliar(a[0], entrada, modo)];
      var ra, rb := Resultados(a[1..], entrada, modo), Resultados(b, entrada, modo);
      assert Resultados(ab, entrada, modo) == h + (ra + rb);
      assert Resultados(a, entrada, modo) == h + ra;
      AppendAssoc(h, ra, rb);
    } else {
      assert a + b == b;
    }
  }

  /** Listed in the unit's table and within its ceiling. */
  predicate Compativel(r: CalculationResult)
  {
    r.existeNaTabela && r.cabeNoLimite
  }

  /** `nome.toLowerCase().startsWith(marca.toLowerCase())`. */
  predicate DaMarca(r: CalculationResult, marca: string)
  {
    StartsWith(ToLower(r.modelo.nome), ToLower(marca))
  }

  function FiltroMarca(marca: string): CalculationResult -> bool
  {
    r => DaMarca(r, marca)
  }

  /** Position of the first unit with the least nominal capacity. */
  function PrimeiroMenor(cs: seq<CalculationResult>): (i: nat)
    requires cs != []
    ensures i < |cs|
    ensures forall j :: 0 <= j < |cs| ==> cs[i].modelo.capNominal <= cs[j].modelo.capNominal
    ensures forall j :: 0 <= j < i ==> cs[j].modelo.capNominal > cs[i].modelo.capNominal
  {
    if |cs| == 1 then 0
    else
      var k := PrimeiroMenor(cs[1..]);
      assert forall j :: 1 <= j < |cs| ==> cs[j] == cs[1..][j - 1];
      if cs[0].modelo.capNominal <= cs[1 + k].modelo.capNominal then 0 else 1 + k
  }

  /** Element `0` of the candidates after the stable sort by `capNominal`:
      none for no candidate, else the first one of least nominal capacity. */
  function Escolher(cands: seq<CalculationResult>): (o: Option<CalculationResult>)
    ensures o.None? <==> cands == []
    ensures o.Some? ==> exists i :: (0 <= i < |cands| && o.value == cands[i]
      && (forall j :: 0 <= j < |cands| ==> cands[i].modelo.capNominal <= cands[j].modelo.capNominal)
      && (forall j :: 0 <= j < i ==> cands[j].modelo.capNominal > cands[i].modelo.capNominal))
  {
    if cands == [] then None
    else
      var i := PrimeiroMenor(cands);
      Some(cands[i])
  }

  /** `melhor` for one brand: the choice among its compatible units. */
  function MelhorDaMarca(compativeis: seq<CalculationResult>, marca: string): Option<CalculationResult>
  {
    Escolher(Filter(compativeis, FiltroMarca(marca)))
  }

  function Melhores(compativeis: seq<CalculationResult>): string -> Option<CalculationResult>
  {
    marca => MelhorDaMarca(compativeis, marca)
  }

  /** The `DetailedResult` pushed for a chosen unit: its name, its
      capacities in BTU/h, its simultaneity to one decimal as `uso`, and `Ok`
      when it fits or `Warn` when it does not; never `Error`. */
  function Detalhar(r: CalculationResult): (d: DetailedResult)
    ensures d.nome == r.modelo.nome
    ensures d.capNominal == 1000 * r.modelo.capNominal && d.capEfetiva == 1000.0 * r.limite
    ensures d.uso == RoundTenth(r.simult) && r.simult - 0.05 < d.uso <= r.simult + 0.05
    ensures d.status == Ok <==> r.cabeNoLimite
    ensures d.status != Error
  {
    DetailedResult(r.modelo.nome, r.modelo.capNominal * 1000, r.limite * 1000.0,
      RoundTenth(r.simult), if r.cabeNoLimite then Ok else Warn)
  }

  function Detalhados(cs: seq<CalculationResult>): (ds: seq<DetailedResult>)
    ensures |ds| == |cs|
    ensures forall i :: 0 <= i < |cs| ==> ds[i] == Detalhar(cs[i])
  {
    if cs == [] then [] else [Detalhar(cs[0])] + Detalhados(cs[1..])
  }

  lemma DetalhadosAppend(a: seq<CalculationResult>, b: seq<CalculationResult>)
    ensures Detalhados(a + b) == Detalhados(a) + Detalhados(b)
  {
  }

  function AsSeq<T>(o: Option<T>): seq<T>
  {
    if o.Some? then [o.value] else []
  }

  /** The units chosen by the `marcas.forEach` loop, brand after brand: at
      most one per brand. */
  function PorMarca(melhor: string -> Option<CalculationResult>, marcas: seq<string>): (cs: seq<CalculationResult>)
    ensures |cs| <= |marcas|
  {
    if marcas == [] then []
    else
      PorMarca(melhor, marcas[..|marcas| - 1]) + AsSeq(melhor(marcas[|marcas| - 1]))
  }

  /** The position where `x` first occurs in `xs`. */
  function PrimeiraPosicao(xs: seq<string>, x: string): (k: nat)
    requires x in xs
    ensures k < |xs| && xs[k] == x && x !in xs[..k]
  {
    if xs[0] == x then 0 else 1 + PrimeiraPosicao(xs[1..], x)
  }

  /** Any position holding the first `x` is the one `PrimeiraPosicao` finds. */
  lemma {:induction false} PrimeiraPosicaoIs(xs: seq<string>, x: string, k: nat)
    requires k < |xs| && xs[k] == x && x !in xs[..k]
    ensures PrimeiraPosicao(xs, x) == k
  {
    if k > 0 {
      assert xs[0] in xs[..k];
      var pre := xs[1..][..k - 1];
      forall j | 0 <= j < |pre| ensures pre[j] != x {
        assert pre[j] == xs[..k][j + 1];
      }
      PrimeiraPosicaoIs(xs[1..], x, k - 1);
    }
  }

  /** Appending an element leaves the first positions of the earlier ones alone. */
  lemma PrimeiraPosicaoSnoc(ys: seq<string>, z: string, x: string)
    requires x in ys
    ensures PrimeiraPosicao(ys + [z], x) == PrimeiraPosicao(ys, x)
  {
    var k := PrimeiraPosicao(ys, x);
    assert (ys + [z])[..k] == ys[..k];
    PrimeiraPosicaoIs(ys + [z], x, k);
  }

  /** `[...new Set(xs)]`: every element of `xs` once, in the order of its
      first occurrence. */
  function Distintos(xs: seq<string>): (r: seq<string>)
    ensures forall x :: x in r <==> x in xs
    ensures forall i, j :: 0 <= i < j < |r| ==> r[i] != r[j]
    ensures forall i, j :: 0 <= i < j < |r| ==> PrimeiraPosicao(xs, r[i]) < PrimeiraPosicao(xs, r[j])
  {
    if xs == [] then []
    else
      var ys := xs[..|xs| - 1];
      var z := xs[|xs| - 1];
      var p := Distintos(ys);
      assert xs == ys + [z];
      forall x | x in ys ensures PrimeiraPosicao(xs, x) == PrimeiraPosicao(ys, x) {
        PrimeiraPosicaoSnoc(ys, z, x);
      }
      if z in p then p
      else
        assert z !in xs[..|xs| - 1];
        PrimeiraPosicaoIs(xs, z, |xs| - 1);
        p + [z]
  }

  /** The brand words of the model names. */
  function PrimeirasPalavras(ms: seq<EvaporatorModel>): (ws: seq<string>)
    ensures |ws| == |ms|
    ensures forall i :: 0 <= i < |ms| ==> ws[i] == FirstWord(ms[i].nome)
  {
    if ms == [] then [] else [FirstWord(ms[0].nome)] + PrimeirasPalavras(ms[1..])
  }

  /** `marcas`: the distinct brand words of `MODELOS`, in order: each
      brand word of a unit once. */
  function Marcas(ms: seq<EvaporatorModel>): (bs: seq<string>)
    ensures forall b :: b in bs <==> exists i :: 0 <= i < |ms| && FirstWord(ms[i].nome) == b
    ensures forall i, j :: 0 <= i < j < |bs| ==> bs[i] != bs[j]
  {
    Distintos(PrimeirasPalavras(ms))
  }

  /** The brands come in the order of the first unit of each in `ms`. */
  lemma MarcasOrdem(ms: seq<EvaporatorModel>, i: nat, j: nat)
    requires i < j < |Marcas(ms)|
    ensures Marcas(ms)[i] in PrimeirasPalavras(ms) && Marcas(ms)[j] in PrimeirasPalavras(ms)
    ensures PrimeiraPosicao(PrimeirasPalavras(ms), Marcas(ms)[i])
      < PrimeiraPosicao(PrimeirasPalavras(ms), Marcas(ms)[j])
  {
  }

  /** The brand word of `"<w> <resto>"` is `w`. */
  lemma PrimeiraPalavraDe(w: string, resto: string)
    requires ' ' !in w
    ensures FirstWord(w + " " + resto) == w
  {
    var s := w + [' '] + resto;
    IndexOfAfter(w, ' ', resto);
    assert s[..|w|] == w;
  }

  /** `n` copies of `w`. */
  function Repete(w: string, n: nat): (ws: seq<string>)
    ensures |ws| == n && forall i :: 0 <= i < n ==> ws[i] == w
  {
    seq(n, _ => w)
  }

  /** A block of one new word adds that word once to the distinct list. */
  lemma {:induction false} DistintosBloco(xs: seq<string>, w: string, n: nat)
    requires w !in xs && n >= 1
    ensures Distintos(xs + Repete(w, n)) == Distintos(xs) + [w]
  {
    if n == 1 {
      assert (xs + Repete(w, 1))[..|xs|] == xs;
    } else {
      var ys := xs + Repete(w, n - 1);
      assert xs + Repete(w, n) == ys + [w];
      assert (ys + [w])[..|ys|] == ys;
      DistintosBloco(xs, w, n - 1);
    }
  }

  lemma PrimeirasPalavrasAppend(a: seq<EvaporatorModel>, b: seq<EvaporatorModel>)
    ensures PrimeirasPalavras(a + b) == PrimeirasPalavras(a) + PrimeirasPalavras(b)
  {
  }

  /** Names that all open with the word `w` give `w` as every brand word. */
  lemma PalavrasDe(ms: seq<EvaporatorModel>, w: string, restos: seq<string>)
    requires ' ' !in w && |restos| == |ms|
    requires forall i :: 0 <= i < |ms| ==> ms[i].nome == w + " " + restos[i]
    ensures PrimeirasPalavras(ms) == Repete(w, |ms|)
  {
    forall i | 0 <= i < |ms| ensures FirstWord(ms[i].nome) == w {
      PrimeiraPalavraDe(w, restos[i]);
    }
  }

  lemma DistintosUmBloco(a: string, na: nat)
    requires na >= 1
    ensures Distintos(Repete(a, na)) == [a]
  {
    var e: seq<string> := [];
    assert e + Repete(a, na) == Repete(a, na);
    DistintosBloco(e, a, na);
  }

  /** Three blocks of distinct words give those words, in order. */
  lemma DistintosTresBlocos(a: string, na: nat, b: string, nb: nat, c: string, nc: nat)
    requires na >= 1 && nb >= 1 && nc >= 1 && a != b && b != c && a != c
    ensures Distintos(Repete(a, na) + Repete(b, nb) + Repete(c, nc)) == [a, b, c]
  {
    var s, l := Repete(a, na), Repete(b, nb);
    DistintosUmBloco(a, na);
    assert b !in s;
    DistintosBloco(s, b, nb);
    assert c !in s + l;
    DistintosBloco(s + l, c, nc);
  }

  lemma PalavrasSamsung()
    ensures PrimeirasPalavras(SamsungModelos()) == Repete("Samsung", 3)
  {
    PalavrasDe(SamsungModelos(), "Samsung", ["18", "24", "28"]);
  }

  lemma PalavrasLg()
    ensures PrimeirasPalavras(LgModelos()) == Repete("LG", 6)
  {
    PalavrasDe(LgModelos(), "LG", ["18", "21", "24", "30", "36", "48"]);
  }

  lemma PalavrasDaikin()
    ensures PrimeirasPalavras(DaikinModelos()) == Repete("Daikin", 6)
  {
    PalavrasDe(DaikinModelos(), "Daikin", ["18 Bi", "18 Tri", "24", "28", "34", "38"]);
  }

  /** `marcas` over `MODELOS` is Samsung, LG, Daikin: the order in which the
      "todas" answer lists the brands. */
  lemma MarcasDosModelos()
    ensures Marcas(Modelos()) == ["Samsung", "LG", "Daikin"]
  {
    var ss, ls, ds := SamsungModelos(), LgModelos(), DaikinModelos();
    PalavrasSamsung();
    PalavrasLg();
    PalavrasDaikin();
    PrimeirasPalavrasAppend(ss, ls);
    PrimeirasPalavrasAppend(ss + ls, ds);
    DistintosTresBlocos("Samsung", 3, "LG", 6, "Daikin", 6);
  }

  /** The units reported: one per brand for "todas", else at most one. */
  function Escolhidos(rs: seq<CalculationResult>, marcas: seq<string>, marca: string)
    : (cs: seq<CalculationResult>)
  {
    var compativeis := Filter(rs, Compativel);
    if marca == "todas" then PorMarca(Melhores(compativeis), marcas)
    else AsSeq(MelhorDaMarca(compativeis, marca))
  }

  /** `results`: one detailed line per reported unit, in order. */
  function ResultadosDetalhados(rs: seq<CalculationResult>, marcas: seq<string>, marca: string)
    : (ds: seq<DetailedResult>)
  {
    Detalhados(Escolhidos(rs, marcas, marca))
  }

  /** At most one line per listed brand under "todas", at most one line
      for a single brand. */
  lemma LinhasPorMarca(rs: seq<CalculationResult>, marcas: seq<string>, marca: string)
    ensures |ResultadosDetalhados(rs, marcas, marca)| == |Escolhidos(rs, marcas, marca)|
    ensures |Escolhidos(rs, marcas, marca)| <= if marca == "todas" then |marcas| else 1
  {
  }

  // ---- detail lines ----

  datatype Classe = Compativel_ | UltrapassaLimite | NaoListada

  /** The classification a detail line shows: compatible exactly when the
      unit passes the `compativeis` filter, not listed exactly when its table
      lacks the key. */
  function Classificar(r: CalculationResult): (c: Classe)
    ensures c == Compativel_ <==> Compativel(r)
    ensures c == NaoListada <==> !r.existeNaTabela
  {
    if r.existeNaTabela then (if r.cabeNoLimite then Compativel_ else UltrapassaLimite)
    else NaoListada
  }

  /** One detail line, with the values it shows: the mark (✔ or ✖), the name,
      the capacities, the ceiling, the class and the simultaneity as rounded
      by `porcento`. */
  datatype Linha = Linha(
    listada: bool,
    nome: string,
    capNominal: int,
    capMax: int,
    limite: real,
    classe: Classe,
    simultaneidade: real)

  function LinhaDe(r: CalculationResult): Linha
  {
    Linha(r.existeNaTabela, r.modelo.nome, r.modelo.capNominal, r.modelo.capMax, r.limite,
      Classificar(r), RoundTenth(r.simult))
  }

  function Listar(marca: string): CalculationResult -> bool
  {
    r => marca == "todas" || DaMarca(r, marca)
  }

  function LinhasDe(rs: seq<CalculationResult>): (ls: seq<Linha>)
    ensures |ls| == |rs|
    ensures forall i :: 0 <= i < |rs| ==> ls[i] == LinhaDe(rs[i])
  {
    if rs == [] then [] else [LinhaDe(rs[0])] + LinhasDe(rs[1..])
  }

  /** The note about 7s: Daikin tables read them as 9s. */
  datatype Nota7 = SemNota | SeteComoNove | SeteComoNoveParaDaikin

  function Nota(entrada: seq<int>, marca: string): (n: Nota7)
    ensures n != SemNota <==> 7 in entrada && (marca == "daikin" || marca == "todas")
  {
    if 7 in entrada && marca == "daikin" then SeteComoNove
    else if 7 in entrada && marca == "todas" then SeteComoNoveParaDaikin
    else SemNota
  }

  /** `details`, with the values it shows rather than its text. */
  datatype Detalhes = Detalhes(
    entradaNormalizada: seq<int>,
    nota: Nota7,
    soma: int,
    linhas: seq<Linha>)

  function DetalhesDe(entrada: seq<int>, marca: string, rs: seq<CalculationResult>): (d: Detalhes)
    ensures Sorted(d.entradaNormalizada) && multiset(d.entradaNormalizada) == multiset(entrada)
    ensures d.soma == Soma(entrada)
    ensures |d.linhas| <= |rs|
  {
    Detalhes(Norm(entrada), Nota(entrada, marca), Soma(entrada), LinhasDe(Filter(rs, Listar(marca))))
  }


  lemma PorMarcaSnoc(melhor: string -> Option<CalculationResult>, marcas: seq<string>, i: nat)
    requires i < |marcas|
    ensures PorMarca(melhor, marcas[..i + 1]) == PorMarca(melhor, marcas[..i]) + AsSeq(melhor(marcas[i]))
  {
    assert marcas[..i + 1][..i] == marcas[..i];
  }

  /** The `marcas.forEach` loop: push the best unit of each brand that has one. */
  method MelhoresPorMarca(compativeis: seq<CalculationResult>, marcas: seq<string>)
      returns (results: seq<DetailedResult>)
    ensures results == Detalhados(PorMarca(Melhores(compativeis), marcas))
  {
    results := [];
    ghost var melhores := Melhores(compativeis);
    for i := 0 to |marcas|
      invariant results == Detalhados(PorMarca(melhores, marcas[..i]))
    {
      PorMarcaSnoc(melhores, marcas, i);
      DetalhadosAppend(PorMarca(melhores, marcas[..i]), AsSeq(melhores(marcas[i])));
      var melhor := MelhorDaMarca(compativeis, marcas[i]);
      if melhor.Some? {
        results := results + [Detalhar(melhor.value)];
      }
    }
    assert marcas[..|marcas|] == marcas;
  }

  /** `calcular` over a given unit list. */
  method CalcularEm(modelos: seq<EvaporatorModel>, entradaOriginal: seq<int>, modo: string,
      marcaSelecionada: string)
      returns (results: seq<DetailedResult>, details: Detalhes)
    requires forall i :: 0 <= i < |modelos| ==> WellFormed(modelos[i])
    ensures results == ResultadosDetalhados(Resultados(modelos, entradaOriginal, modo),
      Marcas(modelos), marcaSelecionada)
    ensures details == DetalhesDe(entradaOriginal, marcaSelecionada,
      Resultados(modelos, entradaOriginal, modo))
  {
    var resultados := Resultados(modelos, entradaOriginal, modo);
    var compativeis := Filter(resultados, Compativel);
    if marcaSelecionada == "todas" {
      results := MelhoresPorMarca(compativeis, Marcas(modelos));
    } else {
      results := [];
      var melhor := MelhorDaMarca(compativeis, marcaSelecionada);
      if melhor.Some? {
        results := results + [Detalhar(melhor.value)];
      }
      assert results == Detalhados(AsSeq(melhor));
    }
    assert results == Detalhados(Escolhidos(resultados, Marcas(modelos), marcaSelecionada));
    details := DetalhesDe(entradaOriginal, marcaSelecionada, resultados);
  }

  /** `calcular(entradaOriginal, modo, marcaSelecionada)` over `MODELOS`. */
  method Calcular(entradaOriginal: seq<int>, modo: string, marcaSelecionada: string)
      returns (results: seq<DetailedResult>, details: Detalhes)
    ensures results == ResultadosDetalhados(Resultados(Modelos(), entradaOriginal, modo),
      Marcas(Modelos()), marcaSelecionada)
    ensures details == DetalhesDe(entradaOriginal, marcaSelecionada,
      Resultados(Modelos(), entradaOriginal, modo))
  {
    results, details := CalcularEm(Modelos(), entradaOriginal, modo, marcaSelecionada);
  }

  // ---- properties of calcular ----

  /** The candidates for a brand are its compatible units, in list order. */
  lemma CandidatosDaMarca(compativeis: seq<CalculationResult>, marca: string, c: CalculationResult)
    ensures c in Filter(compativeis, FiltroMarca(marca)) <==> c in compativeis && DaMarca(c, marca)
  {
    FilterMembership(compativeis, FiltroMarca(marca), c);
  }

  /** No best unit for a brand exactly when none of its units is compatible;
      otherwise the best is a compatible unit of that brand whose nominal
      capacity is at most that of every other one. */
  lemma MelhorDaMarcaMinimo(compativeis: seq<CalculationResult>, marca: string)
    ensures MelhorDaMarca(compativeis, marca).None?
      <==> forall c :: c in compativeis ==> !DaMarca(c, marca)
    ensures MelhorDaMarca(compativeis, marca).Some? ==>
      var c := MelhorDaMarca(compativeis, marca).value;
      && c in compativeis && DaMarca(c, marca)
      && forall c2 :: c2 in compativeis && DaMarca(c2, marca) ==>
           c.modelo.capNominal <= c2.modelo.capNominal
  {
    var cands := Filter(compativeis, FiltroMarca(marca));
    forall c ensures c in cands <==> c in compativeis && DaMarca(c, marca) {
      CandidatosDaMarca(compativeis, marca, c);
    }
    if cands != [] {
      var i :| 0 <= i < |cands| && Escolher(cands).value == cands[i]
          && (forall j :: 0 <= j < |cands| ==> cands[i].modelo.capNominal <= cands[j].modelo.capNominal);
      assert cands[i] in cands;
      forall c2 | c2 in compativeis && DaMarca(c2, marca)
        ensures cands[i].modelo.capNominal <= c2.modelo.capNominal
      {
        var j :| 0 <= j < |cands| && cands[j] == c2;
      }
    }
  }

  /** Where a "todas" answer comes from: strictly increasing positions in the
      brand list, holding exactly the brands that have a best unit. */
  function Origens(melhor: string -> Option<CalculationResult>, marcas: seq<string>): (pos: seq<nat>)
    ensures OrigensOk(melhor, marcas, pos)
  {
    if marcas == [] then []
    else
      var n := |marcas| - 1;
      var p := Origens(melhor, marcas[..n]);
      var q := if melhor(marcas[n]).Some? then p + [n] else p;
      OrigensStep(melhor, marcas, p, q);
      q
  }

  ghost predicate OrigensOk(melhor: string -> Option<CalculationResult>, marcas: seq<string>, pos: seq<nat>)
  {
    && |pos| == |PorMarca(melhor, marcas)|
    && (forall j :: 0 <= j < |pos| ==>
      pos[j] < |marcas| && melhor(marcas[pos[j]]) == Some(PorMarca(melhor, marcas)[j]))
    && (forall j, k :: 0 <= j < k < |pos| ==> pos[j] < pos[k])
    && (forall k :: 0 <= k < |marcas| && melhor(marcas[k]).Some? ==> k in pos)
  }

  /** One more brand extends the positions by its own, when it has a best unit. */
  lemma OrigensStep(melhor: string -> Option<CalculationResult>, marcas: seq<string>, p: seq<nat>, q: seq<nat>)
    requires marcas != []
    requires OrigensOk(melhor, marcas[..|marcas| - 1], p)
    requires q == if melhor(marcas[|marcas| - 1]).Some? then p + [|marcas| - 1] else p
    ensures OrigensOk(melhor, marcas, q)
  {
    var n := |marcas| - 1;
    var prev := marcas[..n];
    var antes := PorMarca(melhor, prev);
    var todos := PorMarca(melhor, marcas);
    assert todos == antes + AsSeq(melhor(marcas[n]));
    OrigensStepValues(melhor, marcas, p, q, antes, todos);
    OrigensStepComplete(melhor, marcas, p, q);
  }

  lemma OrigensStepValues(melhor: string -> Option<CalculationResult>, marcas: seq<string>, p: seq<nat>,
      q: seq<nat>, antes: seq<CalculationResult>, todos: seq<CalculationResult>)
    requires marcas != []
    requires |p| == |antes|
    requires forall j :: 0 <= j < |p| ==>
      p[j] < |marcas| - 1 && melhor(marcas[..|marcas| - 1][p[j]]) == Some(antes[j])
    requires q == if melhor(marcas[|marcas| - 1]).Some? then p + [|marcas| - 1] else p
    requires todos == antes + AsSeq(melhor(marcas[|marcas| - 1]))
    ensures |q| == |todos|
    ensures forall j :: 0 <= j < |q| ==> q[j] < |marcas| && melhor(marcas[q[j]]) == Some(todos[j])
  {
    var n := |marcas| - 1;
    forall j | 0 <= j < |q|
      ensures q[j] < |marcas| && melhor(marcas[q[j]]) == Some(todos[j])
    {
      if j < |p| {
        assert q[j] == p[j] && todos[j] == antes[j];
        assert marcas[..n][p[j]] == marcas[p[j]];
      }
    }
  }

  lemma OrigensStepComplete(melhor: string -> Option<CalculationResult>, marcas: seq<string>,
      p: seq<nat>, q: seq<nat>)
    requires marcas != []
    requires forall j :: 0 <= j < |p| ==> p[j] < |marcas| - 1
    requires forall j, k :: 0 <= j < k < |p| ==> p[j] < p[k]
    requires forall k :: 0 <= k < |marcas| - 1 && melhor(marcas[..|marcas| - 1][k]).Some? ==> k in p
    requires q == if melhor(marcas[|marcas| - 1]).Some? then p + [|marcas| - 1] else p
    ensures forall j, k :: 0 <= j < k < |q| ==> q[j] < q[k]
    ensures forall k :: 0 <= k < |marcas| && melhor(marcas[k]).Some? ==> k in q
  {
    var n := |marcas| - 1;
    forall k | 0 <= k < |marcas| && melhor(marcas[k]).Some? ensures k in q {
      if k < n {
        assert marcas[..n][k] == marcas[k];
      }
    }
  }

  /** With distinct brand words, no two answers come from the same brand. */
  lemma UmaPorMarca(melhor: string -> Option<CalculationResult>, marcas: seq<string>)
    requires forall i, j :: 0 <= i < j < |marcas| ==> marcas[i] != marcas[j]
    ensures var pos := Origens(melhor, marcas);
      forall j, k :: 0 <= j < k < |pos| ==> marcas[pos[j]] != marcas[pos[k]]
  {
  }

  lemma {:induction false} ResultadosMember(ms: seq<EvaporatorModel>, entrada: seq<int>, modo: string,
      r: CalculationResult)
    requires forall j :: 0 <= j < |ms| ==> WellFormed(ms[j])
    requires r in Resultados(ms, entrada, modo)
    ensures exists i :: 0 <= i < |ms| && r == Avaliar(ms[i], entrada, modo)
  {
    var rs := Resultados(ms, entrada, modo);
    var i :| 0 <= i < |rs| && rs[i] == r;
    ResultadosAt(ms, entrada, modo, i);
  }

  /** Every reported unit is the best unit of some brand. */
  lemma MarcaDoEscolhido(rs: seq<CalculationResult>, marcas: seq<string>, marca: string,
      c: CalculationResult)
      returns (marcaDe: string)
    requires c in Escolhidos(rs, marcas, marca)
    ensures MelhorDaMarca(Filter(rs, Compativel), marcaDe) == Some(c)
  {
    var compativeis := Filter(rs, Compativel);
    if marca == "todas" {
      var pos := Origens(Melhores(compativeis), marcas);
      var j :| 0 <= j < |pos| && PorMarca(Melhores(compativeis), marcas)[j] == c;
      marcaDe := marcas[pos[j]];
    } else {
      marcaDe := marca;
    }
  }

  /** A reported unit is a compatible result. */
  lemma EscolhidoCompativel(rs: seq<CalculationResult>, marcas: seq<string>, marca: string,
      c: CalculationResult)
    requires c in Escolhidos(rs, marcas, marca)
    ensures c in rs && Compativel(c)
  {
    var marcaDe := MarcaDoEscolhido(rs, marcas, marca, c);
    var compativeis := Filter(rs, Compativel);
    MelhorDaMarcaMinimo(compativeis, marcaDe);
    FilterMembership(rs, Compativel, c);
  }

  /** Every line of the answer details a compatible result. */
  lemma DetalhadoCompativel(rs: seq<CalculationResult>, marcas: seq<string>, marca: string,
      d: DetailedResult)
      returns (c: CalculationResult)
    requires d in ResultadosDetalhados(rs, marcas, marca)
    ensures c in rs && Compativel(c) && d == Detalhar(c)
  {
    var cs := Escolhidos(rs, marcas, marca);
    var j :| 0 <= j < |cs| && d == Detalhar(cs[j]);
    c := cs[j];
    EscolhidoCompativel(rs, marcas, marca, c);
  }

  /** A reported unit is listed for the input's key, the input's sum is within
      its ceiling, and its status is ok; for one brand at most one unit is
      reported. */
  lemma Reportado(ms: seq<EvaporatorModel>, entrada: seq<int>, modo: string, marca: string,
      d: DetailedResult)
    requires forall j :: 0 <= j < |ms| ==> WellFormed(ms[j])
    requires d in ResultadosDetalhados(Resultados(ms, entrada, modo), Marcas(ms), marca)
    ensures d.status == Ok
    ensures exists i :: (0 <= i < |ms|
      && d == Detalhar(Avaliar(ms[i], entrada, modo))
      && Has(ms[i].combinacoes, KeyParaModelo(ms[i], entrada))
      && Soma(entrada) as real <= CapEfetiva(ms[i], modo))
    ensures marca != "todas" ==> |ResultadosDetalhados(Resultados(ms, entrada, modo), Marcas(ms), marca)| <= 1
  {
    var rs := Resultados(ms, entrada, modo);
    var c := DetalhadoCompativel(rs, Marcas(ms), marca, d);
    ResultadosMember(ms, entrada, modo, c);
  }

  /** The classification of a detail line: not listed whatever the sum;
      listed but over the ceiling; listed and within it. */
  lemma ClassificacaoIff(m: EvaporatorModel, entrada: seq<int>, modo: string)
    requires WellFormed(m)
    ensures var r := Avaliar(m, entrada, modo);
      var listada := Has(m.combinacoes, KeyParaModelo(m, entrada));
      && (Classificar(r) == NaoListada <==> !listada)
      && (Classificar(r) == UltrapassaLimite <==> listada && Soma(entrada) as real > CapEfetiva(m, modo))
      && (Classificar(r) == Compativel_ <==> listada && Soma(entrada) as real <= CapEfetiva(m, modo))
  {
  }

  /** The detail lines list the selected brand's units, or every unit for "todas". */
  lemma LinhasListadas(rs: seq<CalculationResult>, marca: string)
    ensures marca == "todas" ==> Filter(rs, Listar(marca)) == rs
    ensures forall r :: r in Filter(rs, Listar(marca)) <==> r in rs && (marca == "todas" || DaMarca(r, marca))
  {
    forall r ensures r in Filter(rs, Listar(marca)) <==> r in rs && (marca == "todas" || DaMarca(r, marca)) {
      FilterMembership(rs, Listar(marca), r);
    }
    if marca == "todas" {
      FilterAll(rs, Listar(marca));
    }
  }

  /** The evaluation of a unit depends on the input as a multiset only. */
  lemma KeyPermutation(m: EvaporatorModel, e1: seq<int>, e2: seq<int>)
    requires multiset(e1) == multiset(e2)
    ensures KeyParaModelo(m, e1) == KeyParaModelo(m, e2)
  {
    var k1, k2 := KeyParaModelo(m, e1), KeyParaModelo(m, e2);
    if IsDaikin(m) {
      forall v ensures multiset(k1)[v] == multiset(k2)[v] {
        if v == 7 {
        } else if v == 9 {
        } else {
        }
      }
      assert multiset(k1) == multiset(k2);
    }
    SortedUnique(k1, k2);
  }

  /** The answer for one unit does not depend on the order of the input. */
  lemma AvaliarPermutacao(m: EvaporatorModel, e1: seq<int>, e2: seq<int>, modo: string)
    requires WellFormed(m)
    requires multiset(e1) == multiset(e2)
    ensures Avaliar(m, e1, modo) == Avaliar(m, e2, modo)
  {
    KeyPermutation(m, e1, e2);
    SomaPermutation(e1, e2);
  }

  /** The ceilings are ordered: corporate, then residential, then maximum capacity. */
  lemma TetosOrdenados(m: EvaporatorModel, outro: string)
    requires WellFormed(m)
    requires outro != "residencial" && outro != "corporativo"
    ensures CapEfetiva(m, "corporativo") <= CapEfetiva(m, "residencial") <= CapEfetiva(m, outro)
  {
  }
}
