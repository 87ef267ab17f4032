# HVAC matcher core in Dafny

This project models the calculation core of an HVAC sizing toolkit and proves
properties of it. The core has four parts.

- **The multi-split matcher.** `parseEntrada` and `calcular` in
  `src/utils/hvac-calculator.ts` read a typed list of evaporator sizes (7, 9, 12,
  18, 24 thousand BTU/h). Each Samsung, LG and Daikin outdoor unit has a
  combination table, and each mode (residential, corporate, maximum capacity)
  sets a capacity ceiling. The matcher checks the input against every unit's
  table and ceiling, reports the smallest compatible unit per brand, and
  classifies every unit for the detail lines. Samsung and Daikin tables are
  hand-written lists. LG tables are generated by the recursive
  `gerarCombinacoesLG`. Daikin tables have no 7, so every 7 is read as a 9.
- **The VRF condenser selector.** `calcCondenser` in `src/utils/vrf-engine.ts`
  sums the load of the evaporators and annotates every condenser of the demo
  catalog with its limit, usage and status. It picks an ideal condenser among
  those within the simultaneity ratio and reports its neighbours.
- **The static catalogs.** These are `src/utils/evaporadoras.ts` (indoor units
  per brand and type, nominal size to real capacity) and
  `src/utils/vrf-catalogs.ts` (per-brand condenser lists).
- **The pure data of the seed script** (`scripts/seed.ts`): its own copy of
  `norm`, `soma` and `gerarCombinacoesLG`, the Samsung and Daikin multi-split
  models built with `criarModeloDaikin`, and the condenser and evaporator
  tables. It also holds the simultaneity limits per brand and the three modes.

## Form of the model

- **Data.**
  - Capacities are integers (`int`).
  - Ratios and ceilings are `real`.
  - A combination key is the ascending sequence of sizes. The source renders
    it as that sequence joined with `','`, which is a one-to-one image.
- **Imperative parts.**
  - `gerarCombinacoesLG` works by mutating a `Set` from inside a recursive
    closure. It becomes a class whose field is that set (`HvacModels.LgGenerator`),
    with the size list `LG_EVAPS` as a constant field. `comb` is split into three
    mutually recursive methods: `Comb` records `atual` and stops at the size cap,
    `Children` holds the `for` loop, and `Visit` is one turn of that loop.
  - The seed script's copy returns the set's elements as an array. Its class
    (`Seed.SeedLgGenerator`) keeps a duplicate-free `seq` in insertion order,
    and is split the same way.
  - Both generators are proved equal to an independent reference enumeration
    (`LgCombinations.Enumerate`).
  - The `marcas.forEach` push loop of `calcular` is a `for` loop
    (`HvacCalculator.MelhoresPorMarca`). Its result is proved equal to the
    functional reading.
- **Pure parts.** Everything else is a pure function with lemmas.
- **Choosing a unit.** `.sort(...)[0]` in `calcular` is the first element after
  a stable sort by nominal capacity. It is modelled as "the first candidate of
  least nominal capacity", and only that element is modelled.
- **Library behaviour.**
  - `Math.round` rounds halves up.
  - `parseInt(_, 10)` skips leading white space, takes an optional sign and the
    longest digit run, and gives `NaN` (here `None`) when there is no digit.
  - `x || d` falls back to `d` for a missing or zero value.

`calcCondenser` applies no brand-specific cap to the simultaneity percentage:
it uses the percentage as given. The seed's Daikin limit of 1.30
(`LIMITE_SIMULT`, scripts/seed.ts:159-162) is only stored. At 145 % a Daikin load
of 145 % of a condenser's nominal capacity is accepted, which 130 % would
refuse (`VrfEngine.NoDaikinCap`, `Seed.DaikinLimiteNaoAplicado`). So 145 % and
130 % give different answers for the same Daikin load
(`VrfEngine.DaikinPercentagesDiffer`).

The `1e-9` slack in the matcher's ceiling comparison never changes an outcome.
All capacities are integers, so every ceiling is a whole number of tenths
(`HvacCalculator.ToleranceHarmless`).

The seed script and the application's catalogs disagree on two data points.
The model records both exactly as written:

- The Daikin Piso Teto 36 unit is 100 in the seed and 90 in `evaporadoras.ts`
  (`Seed.PisoTetoDiverge`).
- The seed's type names are "1 Via" and "4 Vias", where the catalog has
  "Cassete 1 Via" and "Cassete 4 Vias" (`Seed.TiposComoEvaporadoras`).

## Model

| member | source | states |
|---|---|---|
| Common.Round | src/utils/vrf-engine.ts:78 | `Math.round`: the result is within half a unit of the argument, halves going up |
| Common.RoundIs | src/utils/vrf-engine.ts:88-89 | any integer in that half-open window is the rounded value, so rounding is determined by its bounds |
| Common.RoundMonotonic | src/utils/vrf-engine.ts:88 | rounding never reverses an order |
| Common.MinReal | src/utils/hvac-calculator.ts:16-17 | `Math.min`: at most both arguments and equal to one of them |
| Common.RoundTenth | src/utils/hvac-calculator.ts:279 | `Math.round(v*10)/10` is a whole number of tenths within 0.05 of `v` (strictly above `v - 0.05`); the two together leave exactly one value |
| Common.RoundTenthMonotonic | src/utils/vrf-engine.ts:89 | keeping one decimal never reverses an order |
| Common.Percentual | src/utils/hvac-calculator.ts:256-258 | `total / x * 100` for a positive `x`: the result times `x` is 100 times the total, and it is at most 100 exactly when the total is at most `x` |
| Common.Filter | src/utils/hvac-calculator.ts:262 | `filter`: no longer than the input, and every survivor satisfies the predicate and comes from the input |
| Common.FilterMembership | src/utils/hvac-calculator.ts:262 | an element survives exactly when it is in the input and satisfies the predicate |
| Common.FilterAppend | src/utils/hvac-calculator.ts:270-271 | filtering distributes over concatenation, so input order is kept |
| Common.FilterAll | src/utils/hvac-calculator.ts:303 | a predicate every element meets changes nothing |
| Common.FilterNone | src/utils/hvac-calculator.ts:262 | a predicate no element meets leaves nothing |
| Common.Take | src/utils/hvac-calculator.ts:31 | `slice(0, n)`: the first `min(n, length)` elements |
| Common.FilterHead | src/utils/hvac-calculator.ts:270-272 | the first survivor is the first element satisfying the predicate |
| Common.FilterIndex | src/utils/hvac-calculator.ts:270-272 | survivor `i` sits at some position `k`, and the survivors before it are those of the prefix before `k` |
| Keys.Insert | src/utils/hvac-calculator.ts:11 | inserting into an ascending sequence keeps it ascending and adds exactly the element to its multiset |
| Keys.Norm | src/utils/hvac-calculator.ts:11 | `norm`: ascending and the same multiset as the input |
| Keys.HeadIsLeast | src/utils/hvac-calculator.ts:11 | the head of an ascending sequence is at most any of its elements |
| Keys.SortedUnique | src/utils/hvac-calculator.ts:11 | two ascending sequences with the same multiset are equal, so a key is canonical |
| Keys.NormOfSorted | src/utils/hvac-calculator.ts:11 | `norm` is the identity on ascending input, so it is idempotent |
| Keys.NormEqualIff | src/utils/hvac-calculator.ts:11 | two inputs have the same key exactly when they hold the same multiset |
| Keys.Soma | src/utils/hvac-calculator.ts:12 | `soma`, the reduce from 0; it has no contract of its own, and the `Soma` lemmas below state its properties |
| Keys.SomaAppend | src/utils/hvac-calculator.ts:12 | `soma` of a concatenation is the sum of the parts |
| Keys.SomaRemove | src/utils/hvac-calculator.ts:12 | removing one element takes exactly that element off the sum, and off the multiset |
| Keys.SomaPermutation | src/utils/hvac-calculator.ts:12 | `soma` does not depend on order |
| Keys.SomaSubMultiset | src/utils/hvac-calculator.ts:12 | for non-negative values a sub-multiset never sums to more |
| Keys.SomaNonNegative | src/utils/hvac-calculator.ts:12 | non-negative values give a non-negative sum |
| Keys.SomaPositiva | src/utils/hvac-calculator.ts:12 | positive values sum to a positive number exactly when there is at least one |
| Keys.TakeHead | src/utils/hvac-calculator.ts:12 | the head of a sequence sits at some position of any rearrangement, and the rest rearranges what is left there |
| Strings.FirstNonSpace | src/utils/hvac-calculator.ts:28 | the first position that is not white space, with only white space before it |
| Strings.TrimStart | src/utils/hvac-calculator.ts:28 | the leading white space `parseInt` skips: the result is a suffix of the text that does not start with white space, and only white space was removed |
| Strings.LastNonSpaceEnd | src/utils/hvac-calculator.ts:28 | the end of the text once trailing white space is removed, with only white space after it |
| Strings.Trim | src/utils/hvac-calculator.ts:26-28 | `trim`: the substring between leading and trailing white space, not starting or ending in white space |
| Strings.TrimEmptyIff | src/utils/hvac-calculator.ts:26 | a text trims to empty exactly when it is all white space |
| Strings.IndexOf | src/utils/hvac-calculator.ts:27 | the first occurrence of a character, or the length when there is none |
| Strings.Split | src/utils/hvac-calculator.ts:27 | `split(',')`: at least one piece, no piece holds the separator, and joining the pieces gives the text back |
| Strings.SplitJoin | src/utils/hvac-calculator.ts:27 | splitting a join of separator-free pieces gives the pieces back |
| Strings.JoinPieceChars | src/utils/hvac-calculator.ts:27 | every character of a piece occurs in the joined text |
| Strings.JoinHead | src/utils/hvac-calculator.ts:27 | a joined text starts with its first piece |
| Strings.IndexOfAbsent | src/utils/hvac-calculator.ts:27 | an absent character is found at the end |
| Strings.IndexOfAfter | src/utils/hvac-calculator.ts:27 | the first separator is found right after a separator-free prefix |
| Strings.LowerChar | src/utils/hvac-calculator.ts:218 | ASCII capitals map to their lower case and everything else is unchanged |
| Strings.ToLower | src/utils/hvac-calculator.ts:218 | `toLowerCase`: same length, character by character |
| Strings.StartsWithLower | src/utils/hvac-calculator.ts:218 | a lower-cased text starts with `p` when its leading characters lower to `p` |
| Strings.NotStartsWithLower | src/utils/hvac-calculator.ts:271 | a lower-cased text whose first character lowers to something else does not start with `p` |
| Strings.DigitRun | src/utils/hvac-calculator.ts:28 | the longest run of leading decimal digits |
| Strings.ParseInt10 | src/utils/hvac-calculator.ts:28 | `parseInt(_, 10)` is a number exactly when a digit follows the leading white space and optional sign |
| Strings.Decimal | src/utils/vrf-catalogs.ts:2-10 | the decimal digits of a natural number, at least one |
| Strings.DecimalValue | src/utils/vrf-catalogs.ts:2-10 | the digits denote the number back |
| Strings.DigitRunOf | src/utils/hvac-calculator.ts:28 | the digit run of digits followed by a non-digit is exactly those digits |
| Strings.ParseDecimal | src/utils/hvac-calculator.ts:28 | `parseInt` reads back a written number, ignoring leading white space and whatever follows the digits |
| Strings.ParseNegativeDecimal | src/utils/hvac-calculator.ts:28 | the same with a minus sign, giving the negative number |
| Strings.LeadingSpace | src/utils/hvac-calculator.ts:28 | skipping leading white space lands on the first other character |
| LgCombinations.LgSizesGood | src/utils/hvac-calculator.ts:125 | `LG_EVAPS` is strictly ascending and positive |
| LgCombinations.EnumerateIff | src/utils/hvac-calculator.ts:127-143 | the reference enumeration holds exactly the ascending, non-empty keys over the sizes with at most `maxEvaps` elements and sum at most `capMax` |
| LgCombinations.EnumerateSound | src/utils/hvac-calculator.ts:131-132 | every enumerated key is valid |
| LgCombinations.EnumerateComplete | src/utils/hvac-calculator.ts:134-139 | every valid key is enumerated |
| LgCombinations.LgCombos | src/utils/hvac-calculator.ts:127-143 | the LG key set: exactly the valid keys over `LG_EVAPS` |
| LgCombinations.ExtendsFull | src/utils/hvac-calculator.ts:134 | at the size cap the only key extending `atual` is `atual` itself, which is why the recursion stops there |
| LgCombinations.ExtendsChild | src/utils/hvac-calculator.ts:135-138 | a key strictly extending `atual` extends one of the children `comb` recurses into, and that child passes the sum guard |
| LgCombinations.CoveredByChildren | src/utils/hvac-calculator.ts:129-140 | `atual` itself plus everything its children add covers every key that extends `atual` |
| LgCombinations.ChildInSizes | src/utils/hvac-calculator.ts:137 | a child keeps all its elements among the sizes |
| LgCombinations.FullCase | src/utils/hvac-calculator.ts:131-134 | at the size cap, adding `atual` when it is valid is exactly what `comb` owes |
| LgCombinations.Recorded | src/utils/hvac-calculator.ts:130-133 | recording `atual` when it is a valid key leaves only keys that extend it beyond what was there, and holds `atual` when it is valid |
| LgCombinations.Step | src/utils/hvac-calculator.ts:135-138 | one iteration of the loop that recurses into a child keeps the set sound and covers that child |
| LgCombinations.NoChild | src/utils/hvac-calculator.ts:136 | a size the sum guard rejects has no valid extension to cover |
| LgCombinations.IsAscendingIff | src/utils/hvac-calculator.ts:137 | the executable ascending check agrees with the specification |
| LgCombinations.AllLgSizesIff | src/utils/hvac-calculator.ts:135 | the executable size check agrees with membership in `LG_EVAPS` |
| LgCombinations.IsLgKeyIff | src/utils/hvac-calculator.ts:127-143 | the executable key check holds exactly for the keys of the LG set |
| HvacModels.HasGeradas | src/utils/hvac-calculator.ts:150 | an LG table holds exactly the keys of the generated set |
| HvacModels.SecondWord | src/utils/hvac-calculator.ts:147 | `split(' ')[1]` holds no space, and is absent when there is no second word |
| HvacModels.FirstWord | src/utils/hvac-calculator.ts:268 | `split(' ')[0]` holds no space and is a prefix of the name |
| HvacModels.NormSet | src/utils/hvac-calculator.ts:33-41 | every key of a tabulated set is ascending |
| HvacModels.NormSetIff | src/utils/hvac-calculator.ts:33-41 | an input's key is in a tabulated set exactly when the input rearranges a listed combination |
| HvacModels.CriarModeloDaikin | src/utils/hvac-calculator.ts:33-41 | `criarModeloDaikin` copies the name and capacities and lists only ascending keys |
| HvacModels.DaikinModelos | src/utils/hvac-calculator.ts:44-114 | six Daikin units, each with a positive nominal capacity |
| HvacModels.LgModelo | src/utils/hvac-calculator.ts:145-151 | an `LG_MODELOS` element copies its record and holds the generated table for its limits |
| HvacModels.LgModeloTabela | src/utils/hvac-calculator.ts:145-151 | an LG unit accepts exactly the keys `gerarCombinacoesLG` produces for it |
| HvacModels.LgModelos | src/utils/hvac-calculator.ts:117-124 | six LG units, each with a positive nominal capacity |
| HvacModels.LgGenerator.constructor | src/utils/hvac-calculator.ts:128 | the set starts empty |
| HvacModels.LgGenerator.Comb | src/utils/hvac-calculator.ts:129-140 | `comb(atual)` keeps every key already there, adds exactly the valid keys extending `atual`, and adds nothing else |
| HvacModels.LgGenerator.Children | src/utils/hvac-calculator.ts:135-139 | the `for` loop over `LG_EVAPS`, started with `atual` recorded, adds exactly the valid keys extending `atual` |
| HvacModels.LgGenerator.Visit | src/utils/hvac-calculator.ts:136-138 | one turn: recursing into the child with the next size, when it passes the sum guard, keeps the set sound and covers one more size |
| HvacModels.GerarCombinacoesLG | src/utils/hvac-calculator.ts:127-143 | the generated set holds exactly the valid keys, and equals the reference enumeration |
| HvacModels.SamsungModelos | src/utils/hvac-calculator.ts:154-206 | three Samsung units, each with a positive nominal capacity |
| HvacModels.Modelos | src/utils/hvac-calculator.ts:211-215 | `MODELOS` has fifteen units, all with a positive nominal capacity |
| HvacModels.IsDaikin | src/utils/hvac-calculator.ts:217-219 | `isDaikin`: the lower-cased name starts with "daikin"; `HvacScenarios.IsDaikinPorMarca` states which units it holds of |
| HvacModels.SevenAsNine | src/utils/hvac-calculator.ts:222 | every 7 becomes a 9 and nothing else changes |
| HvacModels.SevenAsNineCounts | src/utils/hvac-calculator.ts:222 | after the mapping there is no 7, the 9s are the old 9s plus the old 7s, and every other count is unchanged |
| HvacModels.KeyParaModelo | src/utils/hvac-calculator.ts:221-224 | the key is ascending and as long as the input; for Daikin it is the input with 7s counted as 9s, for the rest the input's own multiset |
| HvacModels.SevenAsNineHead | src/utils/hvac-calculator.ts:222 | the mapping of a non-empty input is the mapped head followed by the mapped rest, as multisets |
| HvacModels.KeyDaikin | src/utils/hvac-calculator.ts:221-224 | for a Daikin unit the key is `norm` of the input with every 7 read as a 9 |
| HvacModels.KeyOtherBrands | src/utils/hvac-calculator.ts:222-223 | for every brand but Daikin the key is `norm(entrada)` |
| HvacModels.CapEfetiva | src/utils/hvac-calculator.ts:14-19 | the ceiling never exceeds `capMax`; residential is the smaller of 1.4 x nominal and `capMax`, corporate the smaller of 1.1 x nominal and `capMax`, any other mode `capMax` |
| HvacCalculator.ParseTokens | src/utils/hvac-calculator.ts:28 | one `parseInt` of each trimmed token, in order |
| HvacCalculator.Aceitos | src/utils/hvac-calculator.ts:29 | the kept values are accepted sizes, no more than the tokens |
| HvacCalculator.AceitosAppend | src/utils/hvac-calculator.ts:29 | the filter keeps the order of what it keeps |
| HvacCalculator.AceitosMembership | src/utils/hvac-calculator.ts:29 | a value is kept exactly when a token parses to it and it is an accepted size; `NaN` never is |
| HvacCalculator.ParseTokensAppend | src/utils/hvac-calculator.ts:28 | parsing distributes over concatenation |
| HvacCalculator.ParseEntrada | src/utils/hvac-calculator.ts:25-31 | a blank text gives nothing; otherwise at most five accepted sizes |
| HvacCalculator.ParseEntradaCapsAfterFilter | src/utils/hvac-calculator.ts:27-31 | the five-item cap applies after the size filter: the first accepted values, up to five |
| HvacCalculator.DropToken | src/utils/hvac-calculator.ts:28-29 | dropping a token that is not an accepted size leaves the accepted values alone |
| HvacCalculator.ParseEntradaOfJoin | src/utils/hvac-calculator.ts:25-31 | a text written as comma-separated tokens gives the first five accepted values of those tokens |
| HvacCalculator.DroppedTokenUsesNoSlot | src/utils/hvac-calculator.ts:27-31 | a rejected token never takes one of the five places: removing it from the text changes nothing |
| HvacCalculator.BlankGuardRedundant | src/utils/hvac-calculator.ts:26 | without the blank guard a blank text would still give nothing |
| HvacCalculator.NoneAccepted | src/utils/hvac-calculator.ts:29 | tokens none of which is accepted give nothing |
| HvacCalculator.TenthsTolerance | src/utils/hvac-calculator.ts:257 | for an integer sum and a ceiling in tenths, the `1e-9` slack never changes the comparison |
| HvacCalculator.ToleranceHarmless | src/utils/hvac-calculator.ts:255-257 | for every unit and mode, the slack never changes whether the sum fits the ceiling |
| HvacCalculator.Avaliar | src/utils/hvac-calculator.ts:252-260 | one entry of `resultados`: in the table exactly when the unit's key is listed; the ceiling is `capEfetiva` and positive; the unit fits exactly when the sum is at most the ceiling, which is exactly when `ocupa`, the sum as a percentage of the ceiling, is at most 100; `simult` is the sum as a percentage of the nominal capacity |
| HvacCalculator.Resultados | src/utils/hvac-calculator.ts:252 | one entry per unit |
| HvacCalculator.ResultadosAt | src/utils/hvac-calculator.ts:252-260 | entry `i` evaluates unit `i` |
| HvacCalculator.ResultadosAppend | src/utils/hvac-calculator.ts:252 | the evaluation of a concatenated unit list is the concatenation of the evaluations |
| HvacCalculator.Compativel | src/utils/hvac-calculator.ts:262 | the `compativeis` filter, listed and within the ceiling; `ClassificacaoIff` and `Classificar` tie it to the class of a detail line |
| HvacCalculator.FiltroMarca | src/utils/hvac-calculator.ts:270-271 | the brand filter of `melhor`; `CandidatosDaMarca` states what it keeps |
| HvacCalculator.MelhorDaMarca | src/utils/hvac-calculator.ts:270-272 | `melhor` for one brand; `MelhorDaMarcaMinimo` states which unit it is |
| HvacCalculator.PrimeiroMenor | src/utils/hvac-calculator.ts:272 | the position of the first unit of least nominal capacity: none is smaller, and every earlier one is larger |
| HvacCalculator.Escolher | src/utils/hvac-calculator.ts:272 | element 0 of the stable sort: none for no candidate, else the first candidate of least nominal capacity |
| HvacCalculator.Detalhar | src/utils/hvac-calculator.ts:275-281 | the pushed `DetailedResult`: the unit's name, both capacities times 1000, `uso` the simultaneity rounded to one decimal and so within 0.05 of it, status ok exactly when the unit fits and warn otherwise, never error |
| HvacCalculator.Detalhados | src/utils/hvac-calculator.ts:275-281 | one detailed result per chosen unit, in order |
| HvacCalculator.PorMarca | src/utils/hvac-calculator.ts:269-283 | the `forEach` over the brands: at most one result per brand |
| HvacCalculator.Marcas | src/utils/hvac-calculator.ts:268 | `marcas`: exactly the first words of the unit names, each once; their order is stated by `MarcasOrdem` and `MarcasDosModelos` |
| HvacCalculator.MarcasOrdem | src/utils/hvac-calculator.ts:268 | the brands come in the order in which their first unit appears |
| HvacCalculator.MarcasDosModelos | src/utils/hvac-calculator.ts:268-269 | over `MODELOS` the brands are Samsung, LG, Daikin, the order of the "todas" answer |
| HvacCalculator.PalavrasSamsung | src/utils/hvac-calculator.ts:268 | every Samsung unit has the brand word "Samsung" |
| HvacCalculator.PalavrasLg | src/utils/hvac-calculator.ts:268 | every LG unit has the brand word "LG" |
| HvacCalculator.PalavrasDaikin | src/utils/hvac-calculator.ts:268 | every Daikin unit has the brand word "Daikin" |
| HvacCalculator.PalavrasDe | src/utils/hvac-calculator.ts:268 | names that open with the word `w` all give `w` |
| HvacCalculator.PrimeiraPalavraDe | src/utils/hvac-calculator.ts:268 | `split(' ')[0]` of `w + " " + resto` is `w` when `w` holds no space |
| HvacCalculator.PrimeirasPalavrasAppend | src/utils/hvac-calculator.ts:268 | the `map` distributes over concatenation |
| HvacCalculator.Escolhidos | src/utils/hvac-calculator.ts:262-298 | the units `detailedResults` is built from; `LinhasPorMarca`, `Reportado` and `MarcaDoEscolhido` state them |
| HvacCalculator.ResultadosDetalhados | src/utils/hvac-calculator.ts:264-298 | `detailedResults`; `LinhasPorMarca`, `DetalhadoCompativel` and `Reportado` state it |
| HvacCalculator.LinhasPorMarca | src/utils/hvac-calculator.ts:264-298 | one detailed result per reported unit, at most one per brand for "todas" and at most one otherwise |
| HvacCalculator.Distintos | src/utils/hvac-calculator.ts:268 | `[...new Set(xs)]`: the same elements as `xs`, each once, in the order of their first occurrence in `xs` |
| HvacCalculator.PrimeiraPosicao | src/utils/hvac-calculator.ts:268 | the position of the first occurrence: holds the element, with no earlier copy |
| HvacCalculator.PrimeiraPosicaoIs | src/utils/hvac-calculator.ts:268 | any position holding the first copy is that position |
| HvacCalculator.PrimeiraPosicaoSnoc | src/utils/hvac-calculator.ts:268 | appending leaves the first positions of earlier elements alone |
| HvacCalculator.DistintosBloco | src/utils/hvac-calculator.ts:268 | a run of one new word adds that word once, at the end |
| HvacCalculator.DistintosUmBloco | src/utils/hvac-calculator.ts:268 | a run of one word gives that word |
| HvacCalculator.DistintosTresBlocos | src/utils/hvac-calculator.ts:268 | three runs of distinct words give the three words in order |
| HvacCalculator.PrimeirasPalavras | src/utils/hvac-calculator.ts:268 | the brand word of every model name, in order |
| HvacCalculator.LinhasDe | src/utils/hvac-calculator.ts:306-310 | one detail line per listed unit, in order |
| HvacCalculator.Classificar | src/utils/hvac-calculator.ts:307-308 | the class of a detail line: compatible exactly when the unit passes the `compativeis` filter, not listed exactly when its key is absent |
| HvacCalculator.Listar | src/utils/hvac-calculator.ts:301-305 | the filter of the detail lines; `LinhasListadas` states what it keeps |
| HvacCalculator.Nota | src/utils/hvac-calculator.ts:246-250 | the note about 7s is present exactly when the input holds a 7 and the brand is "daikin" or "todas" |
| HvacCalculator.DetalhesDe | src/utils/hvac-calculator.ts:313 | `details`: the input in ascending order with the same multiset, its sum, and at most one line per unit |
| HvacCalculator.PorMarcaSnoc | src/utils/hvac-calculator.ts:269-283 | one more brand appends that brand's best unit, when it has one |
| HvacCalculator.MelhoresPorMarca | src/utils/hvac-calculator.ts:267-283 | the push loop yields the detailed best unit of each brand that has one, in brand order |
| HvacCalculator.CalcularEm | src/utils/hvac-calculator.ts:243-319 | `calcular` over a unit list: the one-per-brand or single-brand answer, and the details from the evaluated units |
| HvacCalculator.Calcular | src/utils/hvac-calculator.ts:243-319 | `calcular` over `MODELOS` |
| HvacCalculator.CandidatosDaMarca | src/utils/hvac-calculator.ts:270-271 | the candidates of a brand are the compatible units whose lower-cased name starts with the lower-cased brand |
| HvacCalculator.MelhorDaMarcaMinimo | src/utils/hvac-calculator.ts:270-272 | there is no best unit exactly when the brand has no compatible unit; otherwise the best is a compatible unit of the brand of least nominal capacity |
| HvacCalculator.Origens | src/utils/hvac-calculator.ts:268-283 | every "todas" answer comes from a brand, at strictly increasing positions, and every brand with a best unit contributes one |
| HvacCalculator.OrigensStep | src/utils/hvac-calculator.ts:269-283 | one more brand extends the positions with its own, when it has a best unit |
| HvacCalculator.OrigensStepValues | src/utils/hvac-calculator.ts:274-281 | after one more brand, each position still names the brand whose best unit is the answer at that place |
| HvacCalculator.OrigensStepComplete | src/utils/hvac-calculator.ts:269-283 | after one more brand the positions stay increasing and still cover every brand with a best unit |
| HvacCalculator.UmaPorMarca | src/utils/hvac-calculator.ts:268-283 | with distinct brand words no two answers come from the same brand |
| HvacCalculator.ResultadosMember | src/utils/hvac-calculator.ts:252-260 | every entry of `resultados` evaluates some unit |
| HvacCalculator.MarcaDoEscolhido | src/utils/hvac-calculator.ts:267-298 | every reported unit is the best unit of some brand |
| HvacCalculator.EscolhidoCompativel | src/utils/hvac-calculator.ts:262-298 | a reported unit is a compatible result |
| HvacCalculator.DetalhadoCompativel | src/utils/hvac-calculator.ts:262-298 | every answer line details a compatible result |
| HvacCalculator.Reportado | src/utils/hvac-calculator.ts:243-298 | a reported unit is listed for the input's key, the sum is within its ceiling, and its status is ok; outside "todas" at most one unit is reported |
| HvacCalculator.ClassificacaoIff | src/utils/hvac-calculator.ts:307-308 | "not listed" exactly when the key is absent; "over the limit" exactly when listed and over the ceiling; "compatible" exactly when listed and within it |
| HvacCalculator.LinhasListadas | src/utils/hvac-calculator.ts:301-305 | the detail lines cover every unit for "todas", else exactly the selected brand's units |
| HvacCalculator.KeyPermutation | src/utils/hvac-calculator.ts:221-224 | the key depends on the input as a multiset only |
| HvacCalculator.AvaliarPermutacao | src/utils/hvac-calculator.ts:252-260 | the evaluation of a unit does not depend on the order of the input |
| HvacCalculator.TetosOrdenados | src/utils/hvac-calculator.ts:14-19 | the corporate ceiling is at most the residential one, which is at most that of any other mode |
| HvacScenarios.SemCandidatos | src/utils/hvac-calculator.ts:270-271 | units not of the brand give no candidate |
| HvacScenarios.CandidatoDe | src/utils/hvac-calculator.ts:252-271 | every candidate evaluates one of the units |
| HvacScenarios.CandidatosDoGrupo | src/utils/hvac-calculator.ts:262-271 | a group led by a compatible unit of the brand has that unit as its first candidate |
| HvacScenarios.CandidatosConcat | src/utils/hvac-calculator.ts:252-271 | the candidates of a three-part list are those of the parts, in order |
| HvacScenarios.EscolheOPrimeiro | src/utils/hvac-calculator.ts:272 | a candidate list led by a unit none is smaller than yields that unit |
| HvacScenarios.ForaDaMarcaAppend | src/utils/hvac-calculator.ts:271 | two lists without units of a brand concatenate to one without |
| HvacScenarios.EscolhaDoGrupo | src/utils/hvac-calculator.ts:262-272 | when a brand's units sit together, the first is compatible and none is smaller, that first unit is chosen |
| HvacScenarios.PrimeiroDoGrupo | src/utils/hvac-calculator.ts:270-272 | a group led by a compatible unit of the brand, none smaller, chooses it |
| HvacScenarios.CandidatosNaoMenores | src/utils/hvac-calculator.ts:270-272 | no candidate of a group is smaller than the group's first unit |
| HvacScenarios.SamsungNaoE | src/utils/hvac-calculator.ts:271 | a brand not starting with "s" holds no Samsung unit |
| HvacScenarios.LgNaoE | src/utils/hvac-calculator.ts:271 | a brand not starting with "l" holds no LG unit |
| HvacScenarios.DaikinNaoE | src/utils/hvac-calculator.ts:271 | a brand not starting with "d" holds no Daikin unit |
| HvacScenarios.NaoDaikin | src/utils/hvac-calculator.ts:217-219 | a name starting with a letter that does not lower to "d" is not Daikin |
| HvacScenarios.SamsungNaoDaikin | src/utils/hvac-calculator.ts:217-219 | no Samsung unit is Daikin |
| HvacScenarios.LgNaoDaikin | src/utils/hvac-calculator.ts:217-219 | no LG unit is Daikin |
| HvacScenarios.TodosDaikin | src/utils/hvac-calculator.ts:217-219 | every unit of the Daikin table is Daikin |
| HvacScenarios.IsDaikinPorMarca | src/utils/hvac-calculator.ts:211-219 | over the three tables `MODELOS` joins, `isDaikin` holds of every Daikin unit and of no Samsung or LG unit |
| HvacScenarios.UsoLg18 | src/utils/hvac-calculator.ts:279 | 21 on an 18 unit is 116.7 % |
| HvacScenarios.UsoDaikin18 | src/utils/hvac-calculator.ts:294 | 19 on an 18 unit is 105.6 % |
| HvacScenarios.Lg18NaoDaikin | src/utils/hvac-calculator.ts:217-219 | "LG 18" is not a Daikin unit |
| HvacScenarios.Lg18Chave | src/utils/hvac-calculator.ts:221-224 | the key of 9 + 12 for "LG 18" is `[9, 12]` |
| HvacScenarios.Lg18Compativel | src/utils/hvac-calculator.ts:252-262 | "LG 18" takes 9 + 12 in residential mode |
| HvacScenarios.LgDaMarca | src/utils/hvac-calculator.ts:271 | "LG 18" is of brand "lg" |
| HvacScenarios.LgPrimeiroMenor | src/utils/hvac-calculator.ts:117-124 | "LG 18" is the smallest LG unit |
| HvacScenarios.LgLidera | src/utils/hvac-calculator.ts:117-151 | the LG units form a group led by a compatible "LG 18" for 9 + 12 |
| HvacScenarios.OutrasNaoLg | src/utils/hvac-calculator.ts:211-215 | no Samsung or Daikin unit is of brand "lg" |
| HvacScenarios.MelhorLg | src/utils/hvac-calculator.ts:285-287 | for 9 + 12 in residential mode the "lg" choice is "LG 18" |
| HvacScenarios.DetalharLg18 | src/utils/hvac-calculator.ts:290-296 | its detailed result is "LG 18", 18000, 24000.0, 116.7, ok |
| HvacScenarios.CenarioLg | src/utils/hvac-calculator.ts:243-298 | input 9 + 12, residential, brand "lg": the answer is exactly that one line |
| HvacScenarios.DaikinChave | src/utils/hvac-calculator.ts:221-224 | for a Daikin unit, 7 + 12 is looked up as `[9, 12]` |
| HvacScenarios.Daikin18DaMarca | src/utils/hvac-calculator.ts:112-114 | the two Daikin 18 units are Daikin units of brand "daikin" |
| HvacScenarios.Daikin18BiTabela | src/utils/hvac-calculator.ts:44-46 | "Daikin 18 Bi" lists 9 + 12 |
| HvacScenarios.Daikin18BiCompativel | src/utils/hvac-calculator.ts:252-262 | "Daikin 18 Bi" takes 7 + 12 in residential mode |
| HvacScenarios.Daikin18TriCompativel | src/utils/hvac-calculator.ts:252-262 | "Daikin 18 Tri", of the same nominal capacity, takes it as well |
| HvacScenarios.DaikinPrimeiroMenor | src/utils/hvac-calculator.ts:112-114 | no Daikin unit is smaller than "Daikin 18 Bi" |
| HvacScenarios.DaikinLidera | src/utils/hvac-calculator.ts:112-114 | the Daikin units form a group led by a compatible "Daikin 18 Bi" for 7 + 12 |
| HvacScenarios.OutrasNaoDaikin | src/utils/hvac-calculator.ts:211-215 | no Samsung or LG unit is of brand "daikin" |
| HvacScenarios.EscolhaDoUltimoGrupo | src/utils/hvac-calculator.ts:262-272 | the choice for a brand whose units close the list |
| HvacScenarios.MelhorDaikin | src/utils/hvac-calculator.ts:285-287 | for 7 + 12 in residential mode the "daikin" choice is "Daikin 18 Bi", the first of two equal units under the stable sort |
| HvacScenarios.DetalharDaikin18Bi | src/utils/hvac-calculator.ts:290-296 | its detailed result is "Daikin 18 Bi", 18000, 24000.0, 105.6, ok |
| HvacScenarios.CenarioDaikin | src/utils/hvac-calculator.ts:243-298 | input 7 + 12, residential, brand "daikin": the 7 is read as a 9, and the answer is that one line, with usage from the input as typed |
| VrfEngine.StepsUpAscending | src/utils/vrf-engine.ts:26-69 | a list rising at every step is strictly ascending |
| VrfEngine.SamsungVertical | src/utils/vrf-engine.ts:28-36 | the Samsung vertical list has seven entries |
| VrfEngine.SamsungHorizontal | src/utils/vrf-engine.ts:37-46 | the Samsung horizontal list has eight entries |
| VrfEngine.DaikinVertical | src/utils/vrf-engine.ts:49-57 | the Daikin vertical list has seven entries |
| VrfEngine.DaikinHorizontal | src/utils/vrf-engine.ts:58-67 | the Daikin horizontal list has eight entries |
| VrfEngine.SamsungVerticalNamesDistinct | src/utils/vrf-engine.ts:28-36 | no two Samsung vertical entries share a name |
| VrfEngine.SamsungHorizontalNamesDistinct | src/utils/vrf-engine.ts:37-46 | no two Samsung horizontal entries share a name |
| VrfEngine.DaikinVerticalNamesDistinct | src/utils/vrf-engine.ts:49-57 | no two Daikin vertical entries share a name |
| VrfEngine.Catalog | src/utils/vrf-engine.ts:85 | `CATALOG[brand]?.[orientation] \|\| []` is non-empty exactly for a known brand and orientation, and holds positive nominal capacities |
| VrfEngine.SamsungVerticalOrdered | src/utils/vrf-engine.ts:28-36 | the Samsung vertical list rises and each maximum is above its nominal |
| VrfEngine.SamsungHorizontalOrdered | src/utils/vrf-engine.ts:37-46 | the same for Samsung horizontal |
| VrfEngine.DaikinVerticalOrdered | src/utils/vrf-engine.ts:49-57 | the same for Daikin vertical |
| VrfEngine.DaikinHorizontalOrdered | src/utils/vrf-engine.ts:58-67 | the same for Daikin horizontal, whose nominal capacities rise even across the repeated name |
| VrfEngine.CatalogOrdered | src/utils/vrf-engine.ts:26-69 | every catalog list is strictly ascending, each maximum above its nominal |
| VrfEngine.Contribution | src/utils/vrf-engine.ts:73 | `(e.real \|\| 0) * (e.qty \|\| 1)`: nothing without a real capacity, the capacity alone without a quantity, else their product |
| VrfEngine.OrElse | src/utils/vrf-engine.ts:73 | `x \|\| d` on an optional number: `x` when present and non-zero, `d` when missing or zero |
| VrfEngine.SumEvaps | src/utils/vrf-engine.ts:72-74 | `sumEvapsBTUh`; it has no contract of its own, and the `SumEvaps` lemmas below state its properties |
| VrfEngine.SumEvapsAppend | src/utils/vrf-engine.ts:72-74 | the load of two lists is the sum of their loads |
| VrfEngine.SumEvapsSingle | src/utils/vrf-engine.ts:73 | the load of one entry is its share |
| VrfEngine.SumEvapsNonNegative | src/utils/vrf-engine.ts:72-74 | non-negative figures give a non-negative load |
| VrfEngine.SumEvapsPositive | src/utils/vrf-engine.ts:72-74 | entries that each bring a positive share give a positive load exactly when there is one |
| VrfEngine.MinRequired | src/utils/vrf-engine.ts:77-79 | the load divided by the ratio, rounded; no finite number at 0 % |
| VrfEngine.Annotate | src/utils/vrf-engine.ts:87-92 | the limit is the rounded nominal times the ratio, the usage is `RoundTenth` of the load as a percentage of the nominal (a whole number of tenths within 0.05 of it), and the status is ok within the limit, warn up to the maximum, error above |
| VrfEngine.Anotar | src/utils/vrf-engine.ts:87-92 | `withLimits`: one annotation per catalog entry, in order |
| VrfEngine.MelhorIdx | src/utils/vrf-engine.ts:100-102 | the reduce picks the highest usage, and the earliest one on ties |
| VrfEngine.FirstNamed | src/utils/vrf-engine.ts:106 | `findIndex` by name: the first entry of that name, or -1 when there is none |
| VrfEngine.OneUpAt | src/utils/vrf-engine.ts:107 | `oneUp` is the entry after the index, when there is one |
| VrfEngine.OneDownAt | src/utils/vrf-engine.ts:110 | `oneDown` is the entry before the index, when the index is positive |
| VrfEngine.CalcOn | src/utils/vrf-engine.ts:81-120 | `calcCondenser` over a list: the load, the minimum, the annotated list and the ideal among the valid entries |
| VrfEngine.CalcCondenser | src/utils/vrf-engine.ts:81-120 | `calcCondenser`: one annotated condenser per catalog entry, in catalog order |
| VrfEngine.FirstIndexOf | src/utils/vrf-engine.ts:106 | the first position holding exactly an entry, or -1 when it is absent |
| VrfEngine.CalcCondenserFixed | src/utils/vrf-engine.ts:81-120 | the corrected `calcCondenser` over a brand and orientation: one annotated condenser per catalog entry, in catalog order |
| VrfEngine.CalcOnFixed | src/utils/vrf-engine.ts:106-110 | the corrected selector, with the ideal located by position: the same load, minimum, list and ideal |
| VrfEngine.IdealSpec | src/utils/vrf-engine.ts:95-103 | no ideal exactly when no entry is valid; otherwise a valid entry whose usage no valid entry exceeds, every earlier valid entry strictly lower |
| VrfEngine.IdealAtBest | src/utils/vrf-engine.ts:95-103 | with some valid entry, the ideal is at a position no valid entry beats, every valid entry before it strictly lower |
| VrfEngine.Ideal | src/utils/vrf-engine.ts:98-103 | `ideal` over the valid entries; `IdealSpec` states which entry it is |
| VrfEngine.ValidaIff | src/utils/vrf-engine.ts:95 | valid exactly when the load times 100 is at most the percentage times the nominal |
| VrfEngine.Valida | src/utils/vrf-engine.ts:95 | the filter of `validCondensers`; `ValidaIff` restates it without division |
| VrfEngine.UsoNaoCresce | src/utils/vrf-engine.ts:89 | over an ascending list and a non-negative load, usage never grows along the list |
| VrfEngine.FirstValid | src/utils/vrf-engine.ts:95 | the first valid position, or -1 when no entry is valid |
| VrfEngine.IdealIsFirstValid | src/utils/vrf-engine.ts:95-103 | over an ascending catalog the ideal is the first valid entry, which is the smallest that takes the load |
| VrfEngine.IdealMonotone | src/utils/vrf-engine.ts:95-103 | a larger load never picks a smaller ideal, and a load with an ideal gives any smaller load one |
| VrfEngine.NaoValida | src/utils/vrf-engine.ts:95 | an entry no larger than one that cannot take the load cannot take it either |
| VrfEngine.FirstValidAt | src/utils/vrf-engine.ts:95 | a valid entry with no valid entry before it is the first valid one |
| VrfEngine.IdealAt | src/utils/vrf-engine.ts:95-103 | the first entry of an ascending catalog that takes the load is the ideal |
| VrfEngine.DistinctNamesAgree | src/utils/vrf-engine.ts:106 | with distinct names, locating the ideal by name and by position agree |
| VrfEngine.FixedAgreesOnDistinctNames | src/utils/vrf-engine.ts:26-57 | on every catalog list but Daikin horizontal, whose names do not repeat, the corrected selector gives what `calcCondenser` gives |
| VrfEngine.NeighboursOf | src/utils/vrf-engine.ts:107-110 | over an ascending list, the entry after a position is larger and the one before it smaller, and each is missing only at an end |
| VrfEngine.FixedNeighbours | src/utils/vrf-engine.ts:105-110 | located by position, `oneUp` is larger and `oneDown` smaller than the ideal, and each is absent only at an end of the list |
| VrfEngine.CargaSamsung | src/utils/vrf-engine.ts:72-74 | one Hi Wall of 21000, quantity 1, is a load of 21000 |
| VrfEngine.Samsung8HP | src/utils/vrf-engine.ts:87-92 | the 8HP for 21000 at 110 %: limit 84075, usage 27.5, ok |
| VrfEngine.CalcOnAt | src/utils/vrf-engine.ts:81-120 | when entry `k` is the first to take the load and the first of its name is at `idx`, entry `k` is the ideal and the neighbours are those of `idx` |
| VrfEngine.CalcOnFixedAt | src/utils/vrf-engine.ts:105-110 | the same located by position: the neighbours are those of `k` |
| VrfEngine.FirstNamedAt | src/utils/vrf-engine.ts:106 | over an annotated list, the lookup by name finds the first catalog entry of that name |
| VrfEngine.FirstIndexAt | src/utils/vrf-engine.ts:106 | over an annotated ascending list, the lookup by position finds entry `k` at `k` |
| VrfEngine.CalcCondenserAt | src/utils/vrf-engine.ts:81-120 | over a brand's catalog, when entry `k` is the first to take the load and the first of its name is at `idx`, entry `k` is the ideal and the neighbours are those of `idx` |
| VrfEngine.CalcCondenserFixedAt | src/utils/vrf-engine.ts:105-110 | the same for the corrected selector: the neighbours are those of `k` |
| VrfEngine.CenarioSamsung | src/utils/vrf-engine.ts:81-120 | Samsung vertical, 21000 at 110 %: minimum 19091, ideal 8HP at 27.5 % and ok, nothing below, 10HP above |
| VrfEngine.NoDaikinCap | src/utils/vrf-engine.ts:95 | Daikin vertical at 145 % takes the 8HP at 145 % usage: no brand cap applies |
| VrfEngine.DaikinPercentagesDiffer | src/utils/vrf-engine.ts:81-103 | for a Daikin load of 290 the ideal at 130 % is the 10HP and differs from the ideal at 145 %: the percentage is used as given |
| VrfEngine.DaikinHorizontalFacts | src/utils/vrf-engine.ts:58-67 | the Daikin horizontal list has eight entries; entries 4 to 7 are 200, 223, 250 and 300; entries 5 and 6 share a name no earlier entry has, and no other two entries share one |
| VrfEngine.DuplicateNameNeighbours | src/utils/vrf-engine.ts:64-65 | Daikin horizontal, 300 at 130 %: the ideal is the second "10HP", but `oneUp` is the ideal itself and `oneDown` skips the first "10HP" |
| VrfEngine.DuplicateNameFixed | src/utils/vrf-engine.ts:105-110 | for the same input the corrected selector keeps the 250 ideal, with the 12HP (300) above and the 223 "10HP" below |
| VrfCatalogs.Catalogs | src/utils/vrf-catalogs.ts:1-19 | `catalogs[brand]` is non-empty exactly for Samsung and Daikin |
| VrfCatalogs.Samsung | src/utils/vrf-catalogs.ts:2-10 | the Samsung list has seven entries |
| VrfCatalogs.Daikin | src/utils/vrf-catalogs.ts:11-19 | the Daikin list has seven entries |
| VrfCatalogs.CatalogNamesDistinct | src/utils/vrf-catalogs.ts:1-19 | neither list repeats a name |
| VrfCatalogs.SamsungOrdered | src/utils/vrf-catalogs.ts:2-10 | the Samsung list rises and each maximum is above its nominal |
| VrfCatalogs.DaikinOrdered | src/utils/vrf-catalogs.ts:11-19 | the same for Daikin |
| VrfCatalogs.CatalogsOrdered | src/utils/vrf-catalogs.ts:1-19 | every list is strictly ascending, each maximum above its nominal |
| VrfCatalogs.SamsungFormula | src/utils/vrf-catalogs.ts:2-10 | entry `i` is the (8 + 2i)HP unit of 76432 + 19108 i BTU/h |
| VrfCatalogs.DaikinFormula | src/utils/vrf-catalogs.ts:11-19 | entry `i` is the (8 + 2i)HP unit of 76800 + 19200 i BTU/h |
| VrfCatalogs.SamsungAsInEngine | src/utils/vrf-catalogs.ts:2-10 | the Samsung list is the selector's Samsung vertical list |
| VrfCatalogs.DaikinVersusEngine | src/utils/vrf-catalogs.ts:11-19 | the Daikin list has the selector's vertical names with nominal capacities 384 times larger, but maxima that do not scale |
| Evaporadoras.SamsungHiWall | src/utils/evaporadoras.ts:3-15 | strictly ascending nominal sizes with positive capacities |
| Evaporadoras.SamsungCassete1 | src/utils/evaporadoras.ts:16-25 | the same for Samsung Cassete 1 Via |
| Evaporadoras.SamsungCassete4 | src/utils/evaporadoras.ts:26-38 | the same for Samsung Cassete 4 Vias |
| Evaporadoras.SamsungDuto | src/utils/evaporadoras.ts:39-53 | the same for Samsung Duto |
| Evaporadoras.DaikinHiWall | src/utils/evaporadoras.ts:61-71 | the same for Daikin Hi Wall |
| Evaporadoras.DaikinCassete1 | src/utils/evaporadoras.ts:72-82 | the same for Daikin Cassete 1 Via |
| Evaporadoras.DaikinCassete4 | src/utils/evaporadoras.ts:83-97 | the same for Daikin Cassete 4 Vias |
| Evaporadoras.DaikinDuto | src/utils/evaporadoras.ts:98-112 | the same for Daikin Duto |
| Evaporadoras.DaikinPisoTeto | src/utils/evaporadoras.ts:113-122 | the same for Daikin Piso Teto |
| Evaporadoras.Evaporadoras | src/utils/evaporadoras.ts:1-124 | the table is non-empty exactly for Samsung and Daikin |
| Evaporadoras.FindTipo | src/utils/evaporadoras.ts:1-124 | the first type of that name, or none exactly when no type has it |
| Evaporadoras.FindNominal | src/utils/evaporadoras.ts:1-124 | the real capacity of a size, or none exactly when the size is absent |
| Evaporadoras.Lookup | src/utils/evaporadoras.ts:1-124 | the real capacity of a brand's unit of a type and size: an answer only for Samsung or Daikin, and always positive |
| Evaporadoras.ListasOrdenadas | src/utils/evaporadoras.ts:1-124 | every list of every brand is ascending and positive |
| Evaporadoras.MesmosTipos | src/utils/evaporadoras.ts:1-124 | both brands list the same five types in the same order |
| Evaporadoras.FindNominalAt | src/utils/evaporadoras.ts:1-124 | the first entry of a size gives the lookup's answer |
| Evaporadoras.SamsungPisoTetoVazio | src/utils/evaporadoras.ts:54-57 | Samsung has no Piso Teto unit of any size |
| Evaporadoras.LookupFound | src/utils/evaporadoras.ts:1-124 | a lookup that answers names a listed entry |
| Evaporadoras.LookupIff | src/utils/evaporadoras.ts:1-124 | a lookup of a listed type answers exactly when the size is listed |
| Evaporadoras.SamsungHiWall9 | src/utils/evaporadoras.ts:8 | the Samsung Hi Wall 9 is 9554 BTU/h |
| Evaporadoras.DaikinHiWall9 | src/utils/evaporadoras.ts:65 | the Daikin Hi Wall 9 is 25, on the condenser index scale |
| Evaporadoras.Unidades | src/utils/evaporadoras.ts:8 | the two brands use different units for the same nominal size |
| Evaporadoras.DaikinEscalaComum | src/utils/evaporadoras.ts:61-112 | every Daikin type but Piso Teto opens with the six entries of the Hi Wall list |
| Evaporadoras.DaikinPisoTeto36 | src/utils/evaporadoras.ts:118 | a Daikin Piso Teto 36 is 90 |
| Seed.MultiEvapsAsLg | scripts/seed.ts:166 | `MULTI_EVAPS` is the calculator's LG size list, ascending and positive |
| Seed.SeedLgGenerator.constructor | scripts/seed.ts:181 | the set starts empty |
| Seed.SeedLgGenerator.Add | scripts/seed.ts:184 | `res.add`: the element is appended once, in insertion order, and nothing is duplicated |
| Seed.SeedLgGenerator.Comb | scripts/seed.ts:182-187 | `comb(atual)` keeps what is there, and adds exactly the valid keys over `MULTI_EVAPS` extending `atual` |
| Seed.SeedLgGenerator.Children | scripts/seed.ts:186 | the `for` loop over `MULTI_EVAPS`, started with `atual` recorded, adds exactly the valid keys extending `atual` and keeps the array duplicate-free |
| Seed.SeedLgGenerator.Visit | scripts/seed.ts:186 | one turn: recursing into the child with the next size, when it passes the sum guard, keeps the array sound and covers one more size |
| Seed.SeedLgGenerator.Passo | scripts/seed.ts:186 | after that recursion, the array only grew and the loop invariant holds for one more size |
| Seed.GerarCombinacoesLG | scripts/seed.ts:180-189 | `[...res]` holds each key once, exactly the valid keys, and the same set as the calculator's generator |
| Seed.MesmasChaves | scripts/seed.ts:356-357 | for every LG record the seed's array and the calculator's table hold the same keys |
| Seed.NormAll | scripts/seed.ts:196 | `.map(norm)`: one ascending key per list, with the list's multiset |
| Seed.NormAllSet | scripts/seed.ts:196 | the seed's keys are the calculator's key set of the same lists |
| Seed.CriarModeloDaikin | scripts/seed.ts:225-227 | copies the name and capacities, keeps one key per list, and holds the same keys as the calculator's `criarModeloDaikin` |
| Seed.SamsungModelos | scripts/seed.ts:192-222 | three Samsung models, each with a positive nominal capacity below its maximum |
| Seed.DaikinModelos | scripts/seed.ts:228-231 | two Daikin models, each of nominal capacity 18 below its maximum |
| Seed.SamsungComoCalculadora | scripts/seed.ts:192-222 | the seeded Samsung models are the calculator's Samsung units |
| Seed.DaikinComoCalculadora | scripts/seed.ts:228-231 | the two seeded Daikin models are the calculator's first two Daikin units |
| Seed.NormAllCabem | scripts/seed.ts:196 | `norm` keeps a list's sum and sizes |
| Seed.CabemAppend | scripts/seed.ts:199-203 | two fitting list tables concatenate to a fitting table |
| Seed.Samsung18Cabe | scripts/seed.ts:193-196 | every Samsung 18 combination uses the offered sizes and fits 30 |
| Seed.Samsung24Cabe | scripts/seed.ts:198-203 | every Samsung 24 combination fits 39 |
| Seed.Samsung28Cabe | scripts/seed.ts:205-220 | every Samsung 28 combination fits 48 |
| Seed.DaikinCabem | scripts/seed.ts:229-230 | every Daikin 18 Bi combination fits 24 and every Tri one fits 30 |
| Seed.ModelosCabem | scripts/seed.ts:192-231 | every key of every seeded Samsung and Daikin model uses only `MULTI_EVAPS` sizes and sums to at most the model's `capMax` |
| Seed.CondSamsungHorizontal | scripts/seed.ts:78-87 | eight condensers with strictly ascending capacities |
| Seed.CondSamsungVertical | scripts/seed.ts:88-91 | 46 condensers with strictly ascending capacities |
| Seed.CondDaikinVertical | scripts/seed.ts:145 | 36 condensers with strictly ascending capacities |
| Seed.CondDaikinHorizontal | scripts/seed.ts:146-155 | eight condensers with strictly ascending capacities |
| Seed.CondSamsungVerticalForma | scripts/seed.ts:88-91 | 46 condensers, entry `i` of (8 + 2i)HP and 76432 + 19108 i, strictly ascending, up to 98HP |
| Seed.CondDaikinVerticalForma | scripts/seed.ts:145 | 36 condensers, entry `i` of (8 + 2i)HP and 200 + 50 i, capacities strictly ascending, up to 78HP |
| Seed.CondDaikinHorizontalForma | scripts/seed.ts:146-155 | eight ascending condensers whose only repeated HP is the 10HP pair, distinguished by 220 V and 380 V |
| Seed.CondSamsungHorizontalComoCatalogo | scripts/seed.ts:78-87 | the seed's Samsung horizontal capacities are the selector's, entry by entry, and each selector name carries the seed's horsepower |
| Seed.CondSamsungVerticalComoCatalogo | scripts/seed.ts:88-91 | the selector's Samsung vertical list is the seed's first seven entries |
| Seed.CondDaikinVerticalComoCatalogo | scripts/seed.ts:145 | the selector's Daikin vertical list is the seed's first seven entries |
| Seed.CondDaikinHorizontalComoCatalogo | scripts/seed.ts:146-155 | the same capacities as the selector's Daikin horizontal list; the selector's two "10HP" names coincide where the seed's voltages differ |
| Seed.EvapsSamsung | scripts/seed.ts:34-75 | five types, the last (Piso Teto) with no unit |
| Seed.EvapsDaikin | scripts/seed.ts:94-142 | five types |
| Seed.TiposComoEvaporadoras | scripts/seed.ts:34-142 | the seed's five types per brand, in the catalog's order under shorter names |
| Seed.EvapsSamsungComoEvaporadoras | scripts/seed.ts:34-75 | the seed's Samsung indoor units are the catalog's |
| Seed.EvapsDaikinComoEvaporadoras | scripts/seed.ts:94-134 | the seed's first four Daikin types are the catalog's |
| Seed.EvapsOrdenadas | scripts/seed.ts:34-142 | every list of both seed tables ascends strictly by size and has positive capacities |
| Seed.PisoTetoDiverge | scripts/seed.ts:135-141 | the Daikin Piso Teto lists agree except the 36, which is 100 in the seed and 90 in the catalog |
| Seed.LimiteSimult | scripts/seed.ts:159-162 | two limits, for two different brands, each above 1 |
| Seed.LimiteDe | scripts/seed.ts:159-162 | a limit exists exactly for Samsung and Daikin, between 1.0 and 1.5 |
| Seed.DaikinLimiteNaoAplicado | scripts/seed.ts:161 | the Daikin limit is 1.30, yet the selector accepts a Daikin load at 145 % |
| Seed.MultiModos | scripts/seed.ts:234-238 | three modes; only the third uses the maximum, and every factor is above 1 |
| Seed.CapDoModo | scripts/seed.ts:234-238 | the capacity a mode record grants: never above the maximum, the maximum itself for the maximum mode or a record without a factor, else at most the factor times the nominal capacity |
| Seed.CapDoModoIs | scripts/seed.ts:234-238 | a mode record with the residential, corporate or maximum settings gives the calculator's ceiling |
| Seed.ModosComoCapEfetiva | scripts/seed.ts:234-238 | each seeded mode, lower-cased, gives the ceiling its record describes |

## Left out

- Keys rendered as text: a key is the ascending sequence itself, since joining numbers with `','` is one-to-one.
- Strings.ToLower: maps only ASCII capitals, because every brand, model and mode name compared is ASCII. The one non-ASCII mode name ("Capacidade Máxima") only needs its length and its difference from the two named modes.
- Floating point: ratios, ceilings and percentages are exact `real`s. IEEE rounding is not modelled.
- `porcento` and every text rendering (the ✔/✖ marks, the detail text, the `', '` joins, the decimal comma) are not modelled. Detail lines and details are values (`Linha`, `Detalhes`) holding what the text shows.
- HvacCalculator.Escolher: models only element 0 of the sorted candidates, because that is all `calcular` reads.
- The `modelo` field of `EvaporatorModel` is derived (`HvacModels.Modelo`) rather than stored, since nothing in the core reads it.
- `ocupa` is computed and its meaning stated (`HvacCalculator.Avaliar`), but neither the choice nor the output reads it.
- VrfEngine.SumEvaps: `real` and `qty` are integers or missing. Fractional or negative figures from the form are not modelled.
- VrfEngine.MinRequired: a zero percentage gives `None` where JavaScript gives `Infinity` or `NaN`.
- Product codes (`codes`), grouping names and ordering fields of the seed script are not modelled, because they are only written to the database.
- The seed script's upsert loops (`upsert` and the async block at scripts/seed.ts:257-406) are database I/O. The model covers only the data they store and the generator they call.
- `DIARIAS` (scripts/seed.ts:241-254) belongs to the daily-rate calculator, which is not part of this model.
- `MULTI_MARCAS` is data only. Nothing in the core reads it beyond storing it.
- Seed.SamsungModelos reuses the calculator's combination lists, because the two files write them identically.
- Seed.CapDoModo: the meaning of a mode's `limite` and `usaCapMax` is taken from `capEfetiva`, because the seed only stores them.
- The UI pages, hooks and components (`src/pages`, `src/components`, `src/hooks`) and `src/utils/vrf-calculator.ts` are not part of this model.

## Findings

| source | as written | input that shows it | evidently intended | confidence | as-written member | corrected member |
|---|---|---|---|---|---|---|
| src/utils/vrf-engine.ts:106-110 with :64-65 | `oneUp` and `oneDown` are the neighbours of the first entry whose name equals the ideal's. The Daikin horizontal list names two entries "Daikin VRV H 10HP". | brand daikin, orientation horizontal, 130 %, load 300: the ideal is the 250 entry. `oneUp` is that same entry, and `oneDown` is the 8HP (200), skipping the 223 entry. | the next larger and next smaller condensers of the ideal: the 12HP (300) above and the 223 entry below | not executed | VrfEngine.DuplicateNameNeighbours | VrfEngine.CalcCondenserFixed (VrfEngine.DuplicateNameFixed, VrfEngine.FixedNeighbours) |
