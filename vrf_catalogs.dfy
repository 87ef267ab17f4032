/** The per-brand condenser lists of `catalogs`: seven sizes from 8HP to
    20HP, nominal capacities in BTU/h for both brands. */
module VrfCatalogs {
  import opened Strings
  import opened VrfEngine

  function Samsung(): (list: seq<Condenser>)
    ensures |list| == 7
  {
    [Condenser("Samsung VRF 8HP", 76432, 85000),
     Condenser("Samsung VRF 10HP", 95540, 105000),
     Condenser("Samsung VRF 12HP", 114648, 125000),
     Condenser("Samsung VRF 14HP", 133756, 145000),
     Condenser("Samsung VRF 16HP", 152864, 165000),
     Condenser("Samsung VRF 18HP", 171972, 185000),
     Condenser("Samsung VRF 20HP", 191080, 205000)]
  }

  function Daikin(): (list: seq<Condenser>)
    ensures |list| == 7
  {
    [Condenser("Daikin VRV IV 8HP", 76800, 85000),
     Condenser("Daikin VRV IV 10HP", 96000, 106000),
     Condenser("Daikin VRV IV 12HP", 115200, 127000),
     Condenser("Daikin VRV IV 14HP", 134400, 148000),
     Condenser("Daikin VRV IV 16HP", 153600, 169000),
     Condenser("Daikin VRV IV 18HP", 172800, 190000),
     Condenser("Daikin VRV IV 20HP", 192000, 211000)]
  }

  /** Neither list repeats a name. */
  lemma CatalogNamesDistinct()
    ensures DistinctNames(Samsung()) && DistinctNames(Daikin())
  {
  }

  /** `catalogs[brand]`, empty for a brand it does not hold. */
  function Catalogs(brand: string): (list: seq<Condenser>)
    ensures list != [] <==> brand == "samsung" || brand == "daikin"
  {
    if brand == "samsung" then Samsung() else if brand == "daikin" then Daikin() else []
  }

  lemma SamsungOrdered()
    ensures StepsUp(Samsung()) && Sane(Samsung())
  {
  }

  lemma DaikinOrdered()
    ensures StepsUp(Daikin()) && Sane(Daikin())
  {
  }

  /** Both lists are strictly ascending, every maximum above its nominal. */
  lemma CatalogsOrdered(brand: string)
    ensures Ascending(Catalogs(brand)) && Sane(Catalogs(brand))
  {
    SamsungOrdered();
    DaikinOrdered();
    StepsUpAscending(Catalogs(brand));
  }

  /** Samsung entry `i` is the (8 + 2i)HP unit of 76432 + 19108·i BTU/h. */
  lemma SamsungFormula()
    ensures |Samsung()| == 7
    ensures forall i :: 0 <= i < 7 ==>
      && Samsung()[i].nominal == 76432 + 19108 * i
      && Samsung()[i].nome == "Samsung VRF " + Decimal(8 + 2 * i) + "HP"
  {
  }

  /** Daikin entry `i` is the (8 + 2i)HP unit of 76800 + 19200·i BTU/h. */
  lemma DaikinFormula()
    ensures |Daikin()| == 7
    ensures forall i :: 0 <= i < 7 ==>
      && Daikin()[i].nominal == 76800 + 19200 * i
      && Daikin()[i].nome == "Daikin VRV IV " + Decimal(8 + 2 * i) + "HP"
  {
  }

  /** The Samsung list is the vertical Samsung list of the selector's catalog. */
  lemma SamsungAsInEngine()
    ensures Samsung() == SamsungVertical()
  {
  }

  /** The Daikin list has the names of the selector's vertical Daikin list,
      but in BTU/h: each nominal capacity is 384 times the selector's index,
      while the maxima follow no such ratio. */
  lemma DaikinVersusEngine()
    ensures |Daikin()| == |DaikinVertical()|
    ensures forall i :: 0 <= i < |Daikin()| ==>
      Daikin()[i].nome == DaikinVertical()[i].nome && Daikin()[i].nominal == 384 * DaikinVertical()[i].nominal
    ensures Daikin()[0].max != 384 * DaikinVertical()[0].max
  {
  }
}
