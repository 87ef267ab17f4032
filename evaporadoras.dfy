/** The indoor-unit table `evaporadoras`: per brand, per unit type, the real
    capacity of each nominal size, and a lookup over it. Samsung capacities
    are in BTU/h, Daikin ones in the manufacturer's capacity index. */
module Evaporadoras {
  import opened Common

  datatype EvapModelo = EvapModelo(nominal: int, capReal: int)
  datatype EvapTipo = EvapTipo(tipo: string, modelos: seq<EvapModelo>)

  /** The five unit types, in table order. */
  function Tipos(): seq<string>
  {
    ["Hi Wall", "Cassete 1 Via", "Cassete 4 Vias", "Duto", "Piso Teto"]
  }

  /** Nominal sizes strictly ascending along a list. */
  predicate Crescente(ms: seq<EvapModelo>)
  {
    forall i :: 0 <= i < |ms| - 1 ==> ms[i].nominal < ms[i + 1].nominal
  }

  /** Every real capacity positive. */
  predicate Positivos(ms: seq<EvapModelo>)
  {
    forall i :: 0 <= i < |ms| ==> ms[i].capReal > 0
  }

  // ---- Samsung ----

  function SamsungHiWall(): (ms: seq<EvapModelo>)
    ensures Crescente(ms) && Positivos(ms)
  {
    [EvapModelo(5, 5118), EvapModelo(7, 7507), EvapModelo(9, 9554), EvapModelo(12, 12284),
     EvapModelo(15, 15355), EvapModelo(18, 19108), EvapModelo(24, 23203), EvapModelo(28, 27980)]
  }

  function SamsungCassete1(): (ms: seq<EvapModelo>)
    ensures Crescente(ms) && Positivos(ms)
  {
    [EvapModelo(7, 7507), EvapModelo(9, 9554), EvapModelo(12, 12284), EvapModelo(18, 18000),
     EvapModelo(24, 24000)]
  }

  function SamsungCassete4(): (ms: seq<EvapModelo>)
    ensures Crescente(ms) && Positivos(ms)
  {
    [EvapModelo(9, 9000), EvapModelo(12, 12000), EvapModelo(18, 18000), EvapModelo(24, 24000),
     EvapModelo(30, 30000), EvapModelo(36, 36000), EvapModelo(48, 48000), EvapModelo(58, 58006)]
  }

  function SamsungDuto(): (ms: seq<EvapModelo>)
    ensures Crescente(ms) && Positivos(ms)
  {
    [EvapModelo(12, 12284), EvapModelo(18, 19108), EvapModelo(24, 24226), EvapModelo(30, 30709),
     EvapModelo(36, 38216), EvapModelo(42, 43675), EvapModelo(48, 47770), EvapModelo(60, 54000),
     EvapModelo(76, 76800), EvapModelo(96, 96000)]
  }

  function SamsungTipos(): seq<EvapTipo>
  {
    [EvapTipo("Hi Wall", SamsungHiWall()),
     EvapTipo("Cassete 1 Via", SamsungCassete1()),
     EvapTipo("Cassete 4 Vias", SamsungCassete4()),
     EvapTipo("Duto", SamsungDuto()),
     EvapTipo("Piso Teto", [])]
  }

  // ---- Daikin ----

  /** Also the index scale of the sizes 7 to 24 in every other Daikin list
      but Piso Teto. */
  function DaikinHiWall(): (ms: seq<EvapModelo>)
    ensures Crescente(ms) && Positivos(ms)
  {
    [EvapModelo(7, 20), EvapModelo(9, 25), EvapModelo(12, 32), EvapModelo(15, 40),
     EvapModelo(18, 50), EvapModelo(24, 63)]
  }

  function DaikinCassete1(): (ms: seq<EvapModelo>)
    ensures Crescente(ms) && Positivos(ms)
  {
    [EvapModelo(7, 20), EvapModelo(9, 25), EvapModelo(12, 32), EvapModelo(15, 40),
     EvapModelo(18, 50), EvapModelo(24, 63)]
  }

  function DaikinCassete4(): (ms: seq<EvapModelo>)
    ensures Crescente(ms) && Positivos(ms)
  {
    [EvapModelo(7, 20), EvapModelo(9, 25), EvapModelo(12, 32), EvapModelo(15, 40),
     EvapModelo(18, 50), EvapModelo(24, 63), EvapModelo(30, 80), EvapModelo(36, 100),
     EvapModelo(47, 125), EvapModelo(54, 140)]
  }

  function DaikinDuto(): (ms: seq<EvapModelo>)
    ensures Crescente(ms) && Positivos(ms)
  {
    [EvapModelo(7, 20), EvapModelo(9, 25), EvapModelo(12, 32), EvapModelo(15, 40),
     EvapModelo(18, 50), EvapModelo(24, 63), EvapModelo(30, 80), EvapModelo(36, 100),
     EvapModelo(48, 125), EvapModelo(54, 140)]
  }

  function DaikinPisoTeto(): (ms: seq<EvapModelo>)
    ensures Crescente(ms) && Positivos(ms)
  {
    [EvapModelo(12, 32), EvapModelo(24, 63), EvapModelo(36, 90), EvapModelo(48, 125),
     EvapModelo(54, 140)]
  }

  function DaikinTipos(): seq<EvapTipo>
  {
    [EvapTipo("Hi Wall", DaikinHiWall()),
     EvapTipo("Cassete 1 Via", DaikinCassete1()),
     EvapTipo("Cassete 4 Vias", DaikinCassete4()),
     EvapTipo("Duto", DaikinDuto()),
     EvapTipo("Piso Teto", DaikinPisoTeto())]
  }

  /** `evaporadoras[brand]`, empty for a brand it does not hold. */
  function Evaporadoras(brand: string): (ts: seq<EvapTipo>)
    ensures ts != [] <==> brand == "samsung" || brand == "daikin"
  {
    if brand == "samsung" then SamsungTipos() else if brand == "daikin" then DaikinTipos() else []
  }

  // ---- Lookup ----

  /** The sizes of the first type named `tipo`, if there is one. */
  function FindTipo(ts: seq<EvapTipo>, tipo: string): (r: Option<seq<EvapModelo>>)
    ensures r.None? <==> forall i :: 0 <= i < |ts| ==> ts[i].tipo != tipo
    ensures r.Some? ==> exists i :: (0 <= i < |ts| && ts[i].tipo == tipo && ts[i].modelos == r.value
      && forall j :: 0 <= j < i ==> ts[j].tipo != tipo)
  {
    if ts == [] then None
    else if ts[0].tipo == tipo then Some(ts[0].modelos)
    else
      var r := FindTipo(ts[1..], tipo);
      assert r.Some? ==> exists i :: (1 <= i < |ts| && ts[i].tipo == tipo && ts[i].modelos == r.value
        && forall j :: 0 <= j < i ==> ts[j].tipo != tipo) by {
        if r.Some? {
          var i :| 0 <= i < |ts[1..]| && ts[1..][i].tipo == tipo && ts[1..][i].modelos == r.value
            && forall j :: 0 <= j < i ==> ts[1..][j].tipo != tipo;
          assert forall j :: 1 <= j < i + 1 ==> ts[j] == ts[1..][j - 1];
        }
      }
      r
  }

  /** The real capacity of the first size `nominal` in the list, if listed. */
  function FindNominal(ms: seq<EvapModelo>, nominal: int): (r: Option<int>)
    ensures r.None? <==> forall i :: 0 <= i < |ms| ==> ms[i].nominal != nominal
    ensures r.Some? ==> EvapModelo(nominal, r.value) in ms
  {
    if ms == [] then None
    else if ms[0].nominal == nominal then Some(ms[0].capReal)
    else
      var r := FindNominal(ms[1..], nominal);
      assert r.None? <==> forall i :: 1 <= i < |ms| ==> ms[i].nominal != nominal by {
        assert forall i :: 1 <= i < |ms| ==> ms[i] == ms[1..][i - 1];
      }
      r
  }

  /** The real capacity of a brand's unit of a type and nominal size, or
      none when the brand, the type or the size is not in the table. Every
      answer is a positive capacity of a brand the table holds. */
  function Lookup(brand: string, tipo: string, nominal: int): (r: Option<int>)
    ensures r.Some? ==> (brand == "samsung" || brand == "daikin") && r.value > 0
  {
    ListasOrdenadas(brand);
    match FindTipo(Evaporadoras(brand), tipo)
    case None => None
    case Some(ms) => FindNominal(ms, nominal)
  }

  // ---- Properties ----

  /** Every list of every brand is strictly ascending, with positive capacities. */
  lemma ListasOrdenadas(brand: string)
    ensures forall t :: 0 <= t < |Evaporadoras(brand)| ==>
      Crescente(Evaporadoras(brand)[t].modelos) && Positivos(Evaporadoras(brand)[t].modelos)
  {
  }

  /** Both brands list the same five types in the same order. */
  lemma MesmosTipos()
    ensures |SamsungTipos()| == |DaikinTipos()| == |Tipos()|
    ensures forall t :: 0 <= t < |Tipos()| ==> SamsungTipos()[t].tipo == DaikinTipos()[t].tipo == Tipos()[t]
  {
  }

  /** The type found is the first of that name. */
  lemma FindTipoAt(ts: seq<EvapTipo>, t: nat, tipo: string)
    requires t < |ts| && ts[t].tipo == tipo
    requires forall j :: 0 <= j < t ==> ts[j].tipo != tipo
    ensures FindTipo(ts, tipo) == Some(ts[t].modelos)
  {
    var i :| 0 <= i < |ts| && ts[i].tipo == tipo && ts[i].modelos == FindTipo(ts, tipo).value
      && forall j :: 0 <= j < i ==> ts[j].tipo != tipo;
    assert i == t;
  }

  /** The size found is the first of that nominal. */
  lemma {:induction false} FindNominalAt(ms: seq<EvapModelo>, i: nat, nominal: int)
    requires i < |ms| && ms[i].nominal == nominal
    requires forall j :: 0 <= j < i ==> ms[j].nominal != nominal
    ensures FindNominal(ms, nominal) == Some(ms[i].capReal)
  {
    if i > 0 {
      FindNominalAt(ms[1..], i - 1, nominal);
    }
  }

  /** A lookup in the empty Samsung "Piso Teto" list finds nothing. */
  lemma SamsungPisoTetoVazio(nominal: int)
    ensures Lookup("samsung", "Piso Teto", nominal) == None
  {
    var ts := SamsungTipos();
    FindTipoAt(ts, 4, "Piso Teto");
  }

  /** A found value is the listed capacity of the first type of that name. */
  lemma LookupFound(brand: string, tipo: string, nominal: int)
    ensures Lookup(brand, tipo, nominal).Some? ==>
      exists t :: 0 <= t < |Evaporadoras(brand)| && Evaporadoras(brand)[t].tipo == tipo
        && EvapModelo(nominal, Lookup(brand, tipo, nominal).value) in Evaporadoras(brand)[t].modelos
  {
  }

  /** After each type, the lookup finds a size exactly when that type lists it. */
  lemma {:induction false} LookupIff(brand: string, t: nat, nominal: int)
    requires t < |Evaporadoras(brand)|
    requires forall j :: 0 <= j < t ==> Evaporadoras(brand)[j].tipo != Evaporadoras(brand)[t].tipo
    ensures Lookup(brand, Evaporadoras(brand)[t].tipo, nominal).Some? <==>
      exists i :: 0 <= i < |Evaporadoras(brand)[t].modelos| && Evaporadoras(brand)[t].modelos[i].nominal == nominal
  {
    var ts := Evaporadoras(brand);
    var tipo := ts[t].tipo;
    var r := FindTipo(ts, tipo);
    var i :| 0 <= i < |ts| && ts[i].tipo == tipo && ts[i].modelos == r.value
      && forall j :: 0 <= j < i ==> ts[j].tipo != tipo;
    assert i == t;
  }

  lemma SamsungHiWall9()
    ensures Lookup("samsung", "Hi Wall", 9) == Some(9554)
  {
    FindTipoAt(SamsungTipos(), 0, "Hi Wall");
    var ms := SamsungHiWall();
    assert FindNominal(ms, 9) == Some(9554) by {
      FindNominalAt(ms, 2, 9);
    }
  }

  lemma DaikinHiWall9()
    ensures Lookup("daikin", "Hi Wall", 9) == Some(25)
  {
    FindTipoAt(DaikinTipos(), 0, "Hi Wall");
    var ms := DaikinHiWall();
    assert FindNominal(ms, 9) == Some(25) by {
      FindNominalAt(ms, 1, 9);
    }
  }

  /** Samsung capacities are in BTU/h, Daikin ones are index values. */
  lemma Unidades()
    ensures Lookup("samsung", "Hi Wall", 9) == Some(9554)
    ensures Lookup("daikin", "Hi Wall", 9) == Some(25)
  {
    SamsungHiWall9();
    DaikinHiWall9();
  }

  /** The Daikin 1 Via, 4 Vias and Duto lists open with the Hi Wall scale
      for the sizes 7 to 24. */
  lemma DaikinEscalaComum()
    ensures forall t :: 0 <= t < 4 ==> DaikinTipos()[t].modelos[..6] == DaikinHiWall()
  {
    assert DaikinCassete1()[..6] == DaikinHiWall();
    assert DaikinCassete4()[..6] == DaikinHiWall();
    assert DaikinDuto()[..6] == DaikinHiWall();
  }

  lemma DaikinPisoTetoTipo()
    ensures FindTipo(Evaporadoras("daikin"), "Piso Teto") == Some(DaikinPisoTeto())
  {
    FindTipoAt(DaikinTipos(), 4, "Piso Teto");
  }

  /** The Daikin "Piso Teto" 36 reads 90 in this table. */
  lemma DaikinPisoTeto36()
    ensures Lookup("daikin", "Piso Teto", 36) == Some(90)
  {
    var ms := DaikinPisoTeto();
    assert FindNominal(ms, 36) == Some(90) by {
      FindNominalAt(ms, 2, 36);
    }
    DaikinPisoTetoTipo();
  }
}
