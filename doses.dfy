/** Nutrient entries of a recipe and the dose calculation: `RecipeManager.calculate_nutrients`
    and `NutrientCalculatorUI.calculate_recipe` (nutrient_calculator.py). */
module Doses {
  import opened Common
  import opened Catalog

  /** The dictionary stored for one nutrient of a recipe. A field is None when the key is
      absent. `perUnit` is the dose per gallon that the source formats as "<rate> ml/gal". */
  datatype Dose = Dose(
    amount: Option<real>,
    unit: Option<string>,
    kind: Option<string>,
    perUnit: Option<real>,
    notes: Option<string>,
    npk: Option<string>,
    whenToUse: Option<string>)

  datatype NutrientItem = NutrientItem(name: string, dose: Dose)

  /** A recipe's nutrient dictionary, in insertion order; its names are distinct. */
  type Nutrients = seq<NutrientItem>

  function Names(items: Nutrients): (r: seq<string>)
    ensures |r| == |items|
    ensures forall i :: 0 <= i < |items| ==> r[i] == items[i].name
  {
    if items == [] then [] else [items[0].name] + Names(items[1..])
  }

  lemma NamesAppend(a: Nutrients, b: Nutrients)
    ensures Names(a + b) == Names(a) + Names(b)
  {
    assert |Names(a + b)| == |Names(a) + Names(b)|;
  }

  /** `items[name] = dose`: a new name goes to the end, an existing one keeps its place. */
  function Put(items: Nutrients, name: string, dose: Dose): (r: Nutrients)
    requires Distinct(Names(items))
    ensures Names(r) == if name in Names(items) then Names(items) else Names(items) + [name]
    ensures forall i :: 0 <= i < |r| ==>
              r[i] == if r[i].name == name then NutrientItem(name, dose) else items[i]
  {
    if items == [] then [NutrientItem(name, dose)]
    else if items[0].name == name then
      assert Names(items) == [name] + Names(items[1..]);
      [NutrientItem(name, dose)] + items[1..]
    else
      assert Names(items) == [items[0].name] + Names(items[1..]);
      var rest := Put(items[1..], name, dose);
      assert Names([items[0]] + rest) == [items[0].name] + Names(rest);
      [items[0]] + rest
  }

  lemma PutDistinct(items: Nutrients, name: string, dose: Dose)
    requires Distinct(Names(items))
    ensures Distinct(Names(Put(items, name, dose)))
  {
    if name !in Names(items) {
      DistinctSnoc(Names(items), name);
    }
  }

  lemma PutFresh(items: Nutrients, name: string, dose: Dose)
    requires Distinct(Names(items)) && name !in Names(items)
    ensures Put(items, name, dose) == items + [NutrientItem(name, dose)]
  {
    var r := Put(items, name, dose);
    assert |r| == |items| + 1;
    forall i | 0 <= i < |r| ensures r[i] == (items + [NutrientItem(name, dose)])[i] {
      if i < |items| {
        assert Names(r)[i] == Names(items)[i];
      }
    }
  }

  // ---------------------------------------------------------------------------
  // The scalar factors.

  const KnownStages: set<string> :=
    {"Seedling", "Early Veg", "Late Veg", "Pre-Flower", "Early Flower", "Mid Flower", "Late Flower", "Flush"}

  /** `stage_multipliers.get(growth_stage, 1.0)` */
  function StageMultiplier(stage: string): (m: real)
    ensures 0.0 <= m <= 1.0
    ensures stage == "Flush" <==> m == 0.0
    ensures stage !in KnownStages ==> m == 1.0
  {
    if stage == "Seedling" then 0.25
    else if stage == "Early Veg" then 0.5
    else if stage == "Late Veg" then 0.75
    else if stage == "Pre-Flower" then 0.8
    else if stage == "Early Flower" then 1.0
    else if stage == "Mid Flower" then 1.0
    else if stage == "Late Flower" then 0.75
    else if stage == "Flush" then 0.0
    else 1.0
  }

  const GallonsPerLitre: real := 0.264172

  /** The reservoir size in gallons: taken as is for "US", converted from litres otherwise. */
  function Gallons(size: real, unitSystem: string): (g: real)
    ensures size >= 0.0 ==> g >= 0.0
  {
    if unitSystem == "US" then size else size * GallonsPerLitre
  }

  /** `(strength / 100) * stage_multiplier` */
  function FinalStrength(strength: real, stage: string): real {
    (strength / 100.0) * StageMultiplier(stage)
  }

  /** The amount of a product for a reservoir: max_strength (ml per gallon at 100%) times the
      final strength fraction times the gallons. */
  function AmountOf(maxStrength: real, fs: real, gallons: real): real {
    maxStrength * fs * gallons
  }

  function BaseDose(p: Product, fs: real, gallons: real): Dose {
    Dose(Some(AmountOf(p.maxStrength, fs, gallons)), Some("ml"), Some(KindName(p.kind)), Some(p.maxStrength * fs),
         Some(p.description), Some(p.npk.GetOr("N/A")), None)
  }

  function SupplementDose(p: Product, fs: real, gallons: real): Dose {
    Dose(Some(AmountOf(p.maxStrength, fs, gallons)), Some("ml"), Some(KindName(p.kind)), Some(p.maxStrength * fs),
         Some(p.description), None, Some(p.whenToUse.GetOr("")))
  }

  /** The entry stored for a base nutrient and for a supplement, given final strength and gallons. */
  function BaseDoser(fs: real, gallons: real): Product -> Dose {
    p => BaseDose(p, fs, gallons)
  }

  function SupplementDoser(fs: real, gallons: real): Product -> Dose {
    p => SupplementDose(p, fs, gallons)
  }

  // ---------------------------------------------------------------------------
  // calculate_nutrients, over any pair of product tables and any way of computing an entry
  // from a product; the source uses the General Hydroponics tables whatever line is chosen.

  /** The first loop of calculate_nutrients: it visits the selected names in order and stores
      `dose(product)` for each name that is a base nutrient of the table. It is written on
      prefixes of `selected`: `AddBaseNutrients(base, selected[..k], dose)` is the dictionary
      after `k` iterations. */
  function AddBaseNutrients(base: seq<Entry>, selected: seq<string>, dose: Product -> Dose): (r: Nutrients)
    ensures Distinct(Names(r))
  {
    if selected == [] then []
    else
      var prior := AddBaseNutrients(base, selected[..|selected| - 1], dose);
      var name := selected[|selected| - 1];
      match Find(base, name)
      case Some(p) => PutDistinct(prior, name, dose(p)); Put(prior, name, dose(p))
      case None => prior
  }

  const DosedSupplementKinds: set<Kind> := {CalMag, Silica, PkBoost}

  /** The second loop: every supplement of the table whose type is calmag, silica or pk_boost. */
  function AddSupplements(acc: Nutrients, table: seq<Entry>, dose: Product -> Dose): (r: Nutrients)
    requires Distinct(Names(acc))
    ensures Distinct(Names(r))
    decreases |table|
  {
    if table == [] then acc
    else
      var next := if table[0].product.kind in DosedSupplementKinds
                  then PutDistinct(acc, table[0].name, dose(table[0].product));
                       Put(acc, table[0].name, dose(table[0].product))
                  else acc;
      AddSupplements(next, table[1..], dose)
  }

  /** calculate_nutrients over the given tables. */
  function CalculateFrom(base: seq<Entry>, supplements: seq<Entry>, size: real, strength: real,
                         selected: seq<string>, growthStage: string, unitSystem: string): (r: Nutrients)
    ensures Distinct(Names(r))
  {
    var gallons := Gallons(size, unitSystem);
    var fs := FinalStrength(strength, growthStage);
    AddSupplements(AddBaseNutrients(base, selected, BaseDoser(fs, gallons)), supplements,
                   SupplementDoser(fs, gallons))
  }

  /** `calculate_nutrients(size, strength, selected_nutrients, growth_stage, strain_info,
      unit_system)`; `strain_info` is accepted there and never read, so it is not a parameter. */
  function CalculateNutrients(size: real, strength: real, selected: seq<string>,
                              growthStage: string, unitSystem: string): (r: Nutrients)
    ensures Distinct(Names(r))
  {
    CalculateFrom(GhBase, GhSupplements, size, strength, selected, growthStage, unitSystem)
  }

  // ---------------------------------------------------------------------------
  // The specification of calculate_nutrients.

  /** The first index of `x` in `s`. */
  function IndexOf(s: seq<string>, x: string): (k: nat)
    requires x in s
    ensures k < |s| && s[k] == x && x !in s[..k]
  {
    if s[0] == x then 0 else 1 + IndexOf(s[1..], x)
  }

  lemma IndexOfPrefix(s: seq<string>, k: nat, x: string)
    requires k <= |s| && x in s[..k]
    ensures x in s && IndexOf(s, x) == IndexOf(s[..k], x)
  {
    var i := IndexOf(s[..k], x);
    assert s[..k][..i] == s[..i];
    IndexOfUnique(s, x, i);
  }

  lemma IndexOfUnique(s: seq<string>, x: string, i: nat)
    requires i < |s| && s[i] == x && x !in s[..i]
    ensures IndexOf(s, x) == i
  {
    var k := IndexOf(s, x);
  }

  /** `names` lists distinct elements of `selected` in the order of their first occurrence. */
  ghost predicate InSelectionOrder(selected: seq<string>, names: seq<string>) {
    && Distinct(names)
    && (forall n :: n in names ==> n in selected)
    && (forall i, j :: 0 <= i < j < |names| ==>
          names[i] in selected && names[j] in selected && IndexOf(selected, names[i]) < IndexOf(selected, names[j]))
  }

  /** The names among `selected` that are in `catalog`, each once, in the order in which
      they first occur. */
  ghost predicate IsSelectedNames(selected: seq<string>, catalog: seq<string>, names: seq<string>) {
    && InSelectionOrder(selected, names)
    && (forall n :: n in names <==> n in selected && n in catalog)
  }

  /** The supplements of a table that calculate_nutrients doses. */
  function DosedEntries(table: seq<Entry>): seq<Entry> {
    if table == [] then []
    else if table[0].product.kind in DosedSupplementKinds then [table[0]] + DosedEntries(table[1..])
    else DosedEntries(table[1..])
  }

  function SupplementItems(entries: seq<Entry>, dose: Product -> Dose): (r: Nutrients)
    ensures Names(r) == EntryNames(entries)
    ensures forall i :: 0 <= i < |r| ==> r[i] == NutrientItem(entries[i].name, dose(entries[i].product))
  {
    if entries == [] then []
    else [NutrientItem(entries[0].name, dose(entries[0].product))] + SupplementItems(entries[1..], dose)
  }

  /** The entry that calculate_nutrients stores under `name`: the base nutrient's when the
      name is one, otherwise the dosed supplement's. */
  function DoseFor(base: seq<Entry>, supplements: seq<Entry>, name: string,
                   baseDose: Product -> Dose, supplementDose: Product -> Dose): Dose {
    match Find(base, name)
    case Some(p) => baseDose(p)
    case None =>
      match Find(DosedEntries(supplements), name)
      case Some(p) => supplementDose(p)
      case None => Dose(None, None, None, None, None, None, None)
  }

  /** max_strength of the product whose entry calculate_nutrients stores under `name`. */
  function MaxStrengthFor(base: seq<Entry>, supplements: seq<Entry>, name: string): real {
    match Find(base, name)
    case Some(p) => p.maxStrength
    case None =>
      match Find(DosedEntries(supplements), name)
      case Some(p) => p.maxStrength
      case None => 0.0
  }

  /** The keys after the first loop are the selected base nutrients, each once, in the order
      of first selection. */
  lemma {:induction false} AddBaseNutrientsNames(base: seq<Entry>, selected: seq<string>, dose: Product -> Dose)
    ensures IsSelectedNames(selected, EntryNames(base), Names(AddBaseNutrients(base, selected, dose)))
  {
    if selected != [] {
      var init := selected[..|selected| - 1];
      var name := selected[|selected| - 1];
      var pn := Names(AddBaseNutrients(base, init, dose));
      AddBaseNutrientsNames(base, init, dose);
      SplitLast(selected);
      ExtendSelection(init, name, EntryNames(base), pn);
    }
  }

  /** One more iteration of the first loop keeps `IsSelectedNames`. */
  lemma ExtendSelection(init: seq<string>, name: string, catalog: seq<string>, names: seq<string>)
    requires IsSelectedNames(init, catalog, names)
    ensures IsSelectedNames(init + [name], catalog,
                            if name in catalog && name !in names then names + [name] else names)
  {
    if name in catalog && name !in names {
      ExtendOrderFresh(init, name, names);
    } else {
      ExtendOrderSame(init, name, names);
    }
  }

  /** A name visited again, or not in the table, leaves the keys as they were. */
  lemma ExtendOrderSame(init: seq<string>, name: string, names: seq<string>)
    requires InSelectionOrder(init, names)
    ensures InSelectionOrder(init + [name], names)
  {
    var selected := init + [name];
    AppendSlices(init, [name]);
    forall n | n in names ensures n in selected && IndexOf(selected, n) == IndexOf(init, n) {
      IndexOfPrefix(selected, |init|, n);
    }
  }

  /** A name not selected before goes after every earlier key. */
  lemma ExtendOrderFresh(init: seq<string>, name: string, names: seq<string>)
    requires InSelectionOrder(init, names) && name !in init
    ensures InSelectionOrder(init + [name], names + [name])
  {
    var selected := init + [name];
    var rn := names + [name];
    AppendSlices(init, [name]);
    forall n | n in names ensures n in selected && IndexOf(selected, n) == IndexOf(init, n) {
      IndexOfPrefix(selected, |init|, n);
    }
    IndexOfUnique(selected, name, |init|);
    forall i, j | 0 <= i < j < |rn|
      ensures rn[i] in selected && rn[j] in selected && IndexOf(selected, rn[i]) < IndexOf(selected, rn[j])
    {
      if j < |names| {
        assert rn[i] == names[i] && rn[j] == names[j];
      } else {
        assert rn[i] == names[i];
      }
    }
  }

  /** After the first loop every key holds its base nutrient's entry. */
  lemma {:induction false} AddBaseNutrientsDoses(base: seq<Entry>, supplements: seq<Entry>, selected: seq<string>,
                                                 baseDose: Product -> Dose, supplementDose: Product -> Dose, i: nat)
    requires i < |AddBaseNutrients(base, selected, baseDose)|
    ensures var item := AddBaseNutrients(base, selected, baseDose)[i];
            item.dose == DoseFor(base, supplements, item.name, baseDose, supplementDose)
  {
    var init := selected[..|selected| - 1];
    var name := selected[|selected| - 1];
    var prior := AddBaseNutrients(base, init, baseDose);
    var r := AddBaseNutrients(base, selected, baseDose);
    if Find(base, name).None? || r[i].name != name {
      assert r[i] == prior[i];
      AddBaseNutrientsDoses(base, supplements, init, baseDose, supplementDose, i);
    }
  }

  lemma SupplementItemsCons(e: Entry, rest: seq<Entry>, dose: Product -> Dose)
    ensures SupplementItems([e] + rest, dose) == [NutrientItem(e.name, dose(e.product))] + SupplementItems(rest, dose)
  {
    assert ([e] + rest)[1..] == rest;
  }

  lemma {:induction false} AddSupplementsSpec(acc: Nutrients, table: seq<Entry>, dose: Product -> Dose)
    requires Distinct(Names(acc))
    requires Distinct(EntryNames(DosedEntries(table)))
    requires forall n :: n in EntryNames(DosedEntries(table)) ==> n !in Names(acc)
    ensures AddSupplements(acc, table, dose) == acc + SupplementItems(DosedEntries(table), dose)
    decreases |table|
  {
    if table != [] {
      var e := table[0];
      var rest := DosedEntries(table[1..]);
      if e.product.kind in DosedSupplementKinds {
        var item := NutrientItem(e.name, dose(e.product));
        var next := acc + [item];
        assert DosedEntries(table) == [e] + rest;
        assert Distinct(EntryNames(rest)) && e.name !in EntryNames(rest) && e.name !in Names(acc)
            && forall n :: n in EntryNames(rest) ==> n !in Names(acc) by {
          assert EntryNames([e] + rest) == [e.name] + EntryNames(rest);
          DistinctTail(EntryNames([e] + rest));
        }
        PutFresh(acc, e.name, item.dose);
        assert Distinct(Names(next)) && forall n :: n in EntryNames(rest) ==> n !in Names(next) by {
          NamesAppend(acc, [item]);
        }
        AddSupplementsSpec(next, table[1..], dose);
        SupplementItemsCons(e, rest, dose);
        AppendCons(acc, item, SupplementItems(rest, dose));
      } else {
        assert DosedEntries(table) == rest;
        AddSupplementsSpec(acc, table[1..], dose);
      }
    }
  }

  lemma SupplementItemDose(base: seq<Entry>, supplements: seq<Entry>,
                           baseDose: Product -> Dose, supplementDose: Product -> Dose, j: nat)
    requires Distinct(EntryNames(DosedEntries(supplements)))
    requires forall n :: n in EntryNames(DosedEntries(supplements)) ==> n !in EntryNames(base)
    requires j < |DosedEntries(supplements)|
    ensures var item := SupplementItems(DosedEntries(supplements), supplementDose)[j];
            item.dose == DoseFor(base, supplements, item.name, baseDose, supplementDose)
  {
    var dosed := DosedEntries(supplements);
    var name := dosed[j].name;
    FindAt(dosed, j);
    assert EntryNames(dosed)[j] == name;
    assert Find(base, name).None?;
  }

  /** What the lemmas below need of a pair of tables: dosed supplement names are distinct and
      are not base nutrient names, and every dosed product has a positive max_strength. */
  predicate ValidTables(base: seq<Entry>, supplements: seq<Entry>) {
    var dosed := DosedEntries(supplements);
    && Distinct(EntryNames(dosed))
    && (forall n :: n in EntryNames(dosed) ==> n !in EntryNames(base))
    && (forall i :: 0 <= i < |base| ==> base[i].product.maxStrength > 0.0)
    && (forall i :: 0 <= i < |dosed| ==> dosed[i].product.maxStrength > 0.0)
  }

  /** The keys of `r` are the names among `selected` that are in `catalog` (first-occurrence
      order, no repeats) followed by `tail`. */
  ghost predicate KeysAre(r: Nutrients, selected: seq<string>, catalog: seq<string>, tail: seq<string>) {
    && |r| >= |tail|
    && IsSelectedNames(selected, catalog, Names(r)[..|r| - |tail|])
    && Names(r)[|r| - |tail|..] == tail
  }

  /** The keys of calculate_nutrients' result: the selected base nutrients (first-occurrence
      order, no repeats), then every dosed supplement, whatever was selected. */
  lemma CalculateFromKeys(base: seq<Entry>, supplements: seq<Entry>, size: real, strength: real,
                          selected: seq<string>, growthStage: string, unitSystem: string)
    requires ValidTables(base, supplements)
    ensures KeysAre(CalculateFrom(base, supplements, size, strength, selected, growthStage, unitSystem),
                    selected, EntryNames(base), EntryNames(DosedEntries(supplements)))
  {
    var fs := FinalStrength(strength, growthStage);
    var g := Gallons(size, unitSystem);
    var b := AddBaseNutrients(base, selected, BaseDoser(fs, g));
    var s := SupplementItems(DosedEntries(supplements), SupplementDoser(fs, g));
    AddBaseNutrientsNames(base, selected, BaseDoser(fs, g));
    AddSupplementsSpec(b, supplements, SupplementDoser(fs, g));
    NamesAppend(b, s);
    AppendSlices(Names(b), Names(s));
  }

  /** Each entry of calculate_nutrients' result holds the catalog's dose for its name. */
  lemma CalculateFromDoses(base: seq<Entry>, supplements: seq<Entry>, size: real, strength: real,
                           selected: seq<string>, growthStage: string, unitSystem: string, i: nat)
    requires ValidTables(base, supplements)
    requires i < |CalculateFrom(base, supplements, size, strength, selected, growthStage, unitSystem)|
    ensures var item := CalculateFrom(base, supplements, size, strength, selected, growthStage, unitSystem)[i];
            var fs := FinalStrength(strength, growthStage);
            var g := Gallons(size, unitSystem);
            item.dose == DoseFor(base, supplements, item.name, BaseDoser(fs, g), SupplementDoser(fs, g))
  {
    var fs := FinalStrength(strength, growthStage);
    var g := Gallons(size, unitSystem);
    var bd := BaseDoser(fs, g);
    var sd := SupplementDoser(fs, g);
    var b := AddBaseNutrients(base, selected, bd);
    var s := SupplementItems(DosedEntries(supplements), sd);
    AddBaseNutrientsNames(base, selected, bd);
    AddSupplementsSpec(b, supplements, sd);
    if i < |b| {
      AddBaseNutrientsDoses(base, supplements, selected, bd, sd, i);
      assert (b + s)[i] == b[i];
    } else {
      SupplementItemDose(base, supplements, bd, sd, i - |b|);
      assert (b + s)[i] == s[i - |b|];
    }
  }

  /** Each key is a base nutrient or a dosed supplement of the tables. */
  lemma KeyIsCataloged(base: seq<Entry>, supplements: seq<Entry>, size: real, strength: real,
                       selected: seq<string>, growthStage: string, unitSystem: string, i: nat)
    requires ValidTables(base, supplements)
    requires i < |CalculateFrom(base, supplements, size, strength, selected, growthStage, unitSystem)|
    ensures var name := CalculateFrom(base, supplements, size, strength, selected, growthStage, unitSystem)[i].name;
            Find(base, name).Some? || Find(DosedEntries(supplements), name).Some?
  {
    var r := CalculateFrom(base, supplements, size, strength, selected, growthStage, unitSystem);
    var k := |DosedEntries(supplements)|;
    CalculateFromKeys(base, supplements, size, strength, selected, growthStage, unitSystem);
    var n := Names(r);
    if i < |r| - k {
      assert n[..|r| - k][i] == r[i].name;
    } else {
      assert n[|r| - k..][i - (|r| - k)] == r[i].name;
    }
  }

  /** An entry's amount is its product's max_strength times the final strength times the gallons. */
  lemma DoseForAmount(base: seq<Entry>, supplements: seq<Entry>, name: string, fs: real, gallons: real)
    requires Find(base, name).Some? || Find(DosedEntries(supplements), name).Some?
    ensures DoseFor(base, supplements, name, BaseDoser(fs, gallons), SupplementDoser(fs, gallons)).amount
            == Some(AmountOf(MaxStrengthFor(base, supplements, name), fs, gallons))
  {
    var bd := BaseDoser(fs, gallons);
    var sd := SupplementDoser(fs, gallons);
    if Find(base, name).Some? {
      var p := Find(base, name).value;
      assert DoseFor(base, supplements, name, bd, sd) == bd(p) == BaseDose(p, fs, gallons);
    } else {
      var p := Find(DosedEntries(supplements), name).value;
      assert DoseFor(base, supplements, name, bd, sd) == sd(p) == SupplementDose(p, fs, gallons);
    }
  }

  lemma MaxStrengthPositive(base: seq<Entry>, supplements: seq<Entry>, name: string)
    requires ValidTables(base, supplements)
    requires Find(base, name).Some? || Find(DosedEntries(supplements), name).Some?
    ensures MaxStrengthFor(base, supplements, name) > 0.0
  {
    if Find(base, name).Some? {
      FoundPositive(base, name);
    } else {
      FoundPositive(DosedEntries(supplements), name);
    }
  }

  lemma FoundPositive(table: seq<Entry>, name: string)
    requires forall i :: 0 <= i < |table| ==> table[i].product.maxStrength > 0.0
    requires Find(table, name).Some?
    ensures Find(table, name).value.maxStrength > 0.0
  {
    var i :| 0 <= i < |table| && table[i] == Entry(name, Find(table, name).value);
  }

  /** Every amount is max_strength × (strength / 100) × stage multiplier × gallons, with a
      positive max_strength. */
  lemma AmountAt(base: seq<Entry>, supplements: seq<Entry>, size: real, strength: real,
                 selected: seq<string>, growthStage: string, unitSystem: string, i: nat)
    requires ValidTables(base, supplements)
    requires i < |CalculateFrom(base, supplements, size, strength, selected, growthStage, unitSystem)|
    ensures var item := CalculateFrom(base, supplements, size, strength, selected, growthStage, unitSystem)[i];
            var m := MaxStrengthFor(base, supplements, item.name);
            m > 0.0 && item.dose.amount == Some(AmountOf(m, FinalStrength(strength, growthStage), Gallons(size, unitSystem)))
  {
    var r := CalculateFrom(base, supplements, size, strength, selected, growthStage, unitSystem);
    CalculateFromDoses(base, supplements, size, strength, selected, growthStage, unitSystem, i);
    KeyIsCataloged(base, supplements, size, strength, selected, growthStage, unitSystem, i);
    DoseForAmount(base, supplements, r[i].name, FinalStrength(strength, growthStage), Gallons(size, unitSystem));
    MaxStrengthPositive(base, supplements, r[i].name);
  }

  /** "Flush" has multiplier 0, so every amount is 0 whatever the size and strength. */
  lemma FlushGivesZero(base: seq<Entry>, supplements: seq<Entry>, size: real, strength: real,
                       selected: seq<string>, unitSystem: string)
    requires ValidTables(base, supplements)
    ensures var r := CalculateFrom(base, supplements, size, strength, selected, "Flush", unitSystem);
            forall i :: 0 <= i < |r| ==> r[i].dose.amount == Some(0.0)
  {
    var r := CalculateFrom(base, supplements, size, strength, selected, "Flush", unitSystem);
    assert FinalStrength(strength, "Flush") == 0.0;
    forall i | 0 <= i < |r| ensures r[i].dose.amount == Some(0.0) {
      AmountAt(base, supplements, size, strength, selected, "Flush", unitSystem, i);
    }
  }

  /** With a non-negative size and strength no amount is negative. */
  lemma AmountsNonNegative(base: seq<Entry>, supplements: seq<Entry>, size: real, strength: real,
                           selected: seq<string>, growthStage: string, unitSystem: string)
    requires ValidTables(base, supplements)
    requires size >= 0.0 && strength >= 0.0
    ensures var r := CalculateFrom(base, supplements, size, strength, selected, growthStage, unitSystem);
            forall i :: 0 <= i < |r| ==> r[i].dose.amount.Some? && r[i].dose.amount.value >= 0.0
  {
    var r := CalculateFrom(base, supplements, size, strength, selected, growthStage, unitSystem);
    var fs := FinalStrength(strength, growthStage);
    var g := Gallons(size, unitSystem);
    assert fs >= 0.0;
    forall i | 0 <= i < |r| ensures r[i].dose.amount.Some? && r[i].dose.amount.value >= 0.0 {
      AmountAt(base, supplements, size, strength, selected, growthStage, unitSystem, i);
      NonNegativeProduct(MaxStrengthFor(base, supplements, r[i].name), fs, g);
    }
  }

  lemma NonNegativeProduct(a: real, b: real, c: real)
    requires a >= 0.0 && b >= 0.0 && c >= 0.0
    ensures AmountOf(a, b, c) >= 0.0
  {
  }

  lemma ScaledAmount(a: Option<real>, b: Option<real>, m: real, fs: real, g: real, g': real, k: real)
    requires a == Some(AmountOf(m, fs, g)) && b == Some(AmountOf(m, fs, g')) && g' == k * g
    ensures a.Some? && b == Some(Scaled(k, a.value))
  {
    AmountScales(m, fs, g, k);
  }

  /** `k` times `x`. */
  function Scaled(k: real, x: real): real {
    k * x
  }

  lemma AmountScales(m: real, fs: real, g: real, k: real)
    ensures AmountOf(m, fs, k * g) == Scaled(k, AmountOf(m, fs, g))
  {
  }

  /** The keys after the first loop do not depend on how an entry is computed. */
  lemma {:induction false} BaseNamesIndependent(base: seq<Entry>, selected: seq<string>,
                                                d: Product -> Dose, d': Product -> Dose)
    ensures Names(AddBaseNutrients(base, selected, d)) == Names(AddBaseNutrients(base, selected, d'))
  {
    if selected != [] {
      BaseNamesIndependent(base, selected[..|selected| - 1], d, d');
    }
  }

  /** The keys of calculate_nutrients' result are those of the first loop followed by the
      dosed supplements. */
  lemma CalculateFromNames(base: seq<Entry>, supplements: seq<Entry>, size: real, strength: real,
                           selected: seq<string>, growthStage: string, unitSystem: string)
    requires ValidTables(base, supplements)
    ensures var fs := FinalStrength(strength, growthStage);
            var g := Gallons(size, unitSystem);
            Names(CalculateFrom(base, supplements, size, strength, selected, growthStage, unitSystem))
            == Names(AddBaseNutrients(base, selected, BaseDoser(fs, g))) + EntryNames(DosedEntries(supplements))
  {
    var fs := FinalStrength(strength, growthStage);
    var g := Gallons(size, unitSystem);
    var b := AddBaseNutrients(base, selected, BaseDoser(fs, g));
    var s := SupplementItems(DosedEntries(supplements), SupplementDoser(fs, g));
    AddBaseNutrientsNames(base, selected, BaseDoser(fs, g));
    AddSupplementsSpec(b, supplements, SupplementDoser(fs, g));
    NamesAppend(b, s);
  }

  /** The keys do not depend on the reservoir size, strength, stage or unit system. */
  lemma KeysIndependentOfAmounts(base: seq<Entry>, supplements: seq<Entry>, selected: seq<string>,
                                 size: real, strength: real, growthStage: string, unitSystem: string,
                                 size': real, strength': real, growthStage': string, unitSystem': string)
    requires ValidTables(base, supplements)
    ensures Names(CalculateFrom(base, supplements, size, strength, selected, growthStage, unitSystem))
         == Names(CalculateFrom(base, supplements, size', strength', selected, growthStage', unitSystem'))
  {
    CalculateFromNames(base, supplements, size, strength, selected, growthStage, unitSystem);
    CalculateFromNames(base, supplements, size', strength', selected, growthStage', unitSystem');
    BaseNamesIndependent(base, selected,
                         BaseDoser(FinalStrength(strength, growthStage), Gallons(size, unitSystem)),
                         BaseDoser(FinalStrength(strength', growthStage'), Gallons(size', unitSystem')));
  }

  /** Scaling the reservoir by `k` scales every amount by `k`. */
  lemma AmountScalesWithSize(base: seq<Entry>, supplements: seq<Entry>, size: real, k: real, strength: real,
                             selected: seq<string>, growthStage: string, unitSystem: string, i: nat)
    requires ValidTables(base, supplements)
    requires i < |CalculateFrom(base, supplements, size, strength, selected, growthStage, unitSystem)|
    ensures var r := CalculateFrom(base, supplements, size, strength, selected, growthStage, unitSystem);
            var q := CalculateFrom(base, supplements, k * size, strength, selected, growthStage, unitSystem);
            i < |q| && q[i].name == r[i].name
    ensures var r := CalculateFrom(base, supplements, size, strength, selected, growthStage, unitSystem);
            var q := CalculateFrom(base, supplements, k * size, strength, selected, growthStage, unitSystem);
            i < |q| && r[i].dose.amount.Some? && q[i].dose.amount.Some?
    ensures CalculateFrom(base, supplements, k * size, strength, selected, growthStage, unitSystem)[i].dose.amount
            == Some(Scaled(k, CalculateFrom(base, supplements, size, strength, selected, growthStage, unitSystem)[i].dose.amount.value))
  {
    var r := CalculateFrom(base, supplements, size, strength, selected, growthStage, unitSystem);
    var q := CalculateFrom(base, supplements, k * size, strength, selected, growthStage, unitSystem);
    var fs := FinalStrength(strength, growthStage);
    var g := Gallons(size, unitSystem);
    KeysIndependentOfAmounts(base, supplements, selected, size, strength, growthStage, unitSystem,
                             k * size, strength, growthStage, unitSystem);
    assert Names(q)[i] == Names(r)[i];
    var m := MaxStrengthFor(base, supplements, r[i].name);
    AmountAt(base, supplements, size, strength, selected, growthStage, unitSystem, i);
    AmountAt(base, supplements, k * size, strength, selected, growthStage, unitSystem, i);
    GallonsScale(size, k, unitSystem);
    ScaledAmount(r[i].dose.amount, q[i].dose.amount, m, fs, g, Gallons(k * size, unitSystem), k);
  }

  lemma GallonsScale(size: real, k: real, unitSystem: string)
    ensures Gallons(k * size, unitSystem) == k * Gallons(size, unitSystem)
  {
  }

  /** Every dosed supplement is an entry of the table. */
  lemma {:induction false} DosedNamesIn(table: seq<Entry>, n: string)
    requires n in EntryNames(DosedEntries(table))
    ensures n in EntryNames(table)
  {
    if table[0].product.kind in DosedSupplementKinds && n == table[0].name {
    } else {
      if table[0].product.kind in DosedSupplementKinds {
        assert EntryNames(DosedEntries(table)) == [table[0].name] + EntryNames(DosedEntries(table[1..]));
      }
      DosedNamesIn(table[1..], n);
    }
  }

  /** In a table with distinct names, a dosed supplement is found with the same product in the
      whole table. */
  lemma {:induction false} FindDosed(table: seq<Entry>, n: string)
    requires Distinct(EntryNames(table))
    requires Find(DosedEntries(table), n).Some?
    ensures Find(table, n) == Find(DosedEntries(table), n)
  {
    DistinctTail(EntryNames(table));
    assert EntryNames(table[1..]) == EntryNames(table)[1..];
    if table[0].name == n {
      if table[0].product.kind !in DosedSupplementKinds {
        DosedNamesIn(table[1..], n);
        assert false;
      }
    } else {
      FindDosed(table[1..], n);
    }
  }

  /** The `type` stored for each key is its product's type in the table it comes from. */
  lemma KindAt(base: seq<Entry>, supplements: seq<Entry>, size: real, strength: real,
               selected: seq<string>, growthStage: string, unitSystem: string, i: nat)
    requires ValidTables(base, supplements)
    requires i < |CalculateFrom(base, supplements, size, strength, selected, growthStage, unitSystem)|
    ensures var item := CalculateFrom(base, supplements, size, strength, selected, growthStage, unitSystem)[i];
            match Find(base, item.name)
            case Some(p) => item.dose.kind == Some(KindName(p.kind))
            case None => Find(DosedEntries(supplements), item.name).Some? &&
                         item.dose.kind == Some(KindName(Find(DosedEntries(supplements), item.name).value.kind))
  {
    var r := CalculateFrom(base, supplements, size, strength, selected, growthStage, unitSystem);
    var fs := FinalStrength(strength, growthStage);
    var g := Gallons(size, unitSystem);
    var bd := BaseDoser(fs, g);
    var sd := SupplementDoser(fs, g);
    CalculateFromDoses(base, supplements, size, strength, selected, growthStage, unitSystem, i);
    KeyIsCataloged(base, supplements, size, strength, selected, growthStage, unitSystem, i);
    if Find(base, r[i].name).Some? {
      var p := Find(base, r[i].name).value;
      assert DoseFor(base, supplements, r[i].name, bd, sd) == bd(p) == BaseDose(p, fs, g);
    } else {
      var p := Find(DosedEntries(supplements), r[i].name).value;
      assert DoseFor(base, supplements, r[i].name, bd, sd) == sd(p) == SupplementDose(p, fs, g);
    }
  }

  // ---------------------------------------------------------------------------
  // The General Hydroponics tables.

  /** The three General Hydroponics supplements that calculate_nutrients always adds. */
  const DosedSupplementNames: seq<string> := ["CaliMagic", "Armor Si", "Liquid KoolBloom"]

  lemma GhDosedEntries()
    ensures DosedEntries(GhSupplements) == [GhSupplements[0], GhSupplements[3], GhSupplements[4]]
  {
    var t := GhSupplements;
    assert DosedEntries(t[7..]) == [] by { assert t[7..][1..] == t[8..]; }
    assert DosedEntries(t[6..]) == [] by { assert t[6..][1..] == t[7..]; }
    assert DosedEntries(t[5..]) == [] by { assert t[5..][1..] == t[6..]; }
    assert DosedEntries(t[4..]) == [t[4]] by { assert t[4..][1..] == t[5..]; }
    assert DosedEntries(t[3..]) == [t[3], t[4]] by { assert t[3..][1..] == t[4..]; }
    assert DosedEntries(t[2..]) == [t[3], t[4]] by { assert t[2..][1..] == t[3..]; }
    assert DosedEntries(t[1..]) == [t[3], t[4]] by { assert t[1..][1..] == t[2..]; }
  }

  lemma GhBaseNames()
    ensures EntryNames(GhBase) == ["Flora Micro", "Flora Grow", "Flora Bloom"]
  {
  }

  lemma GhDosedNames()
    ensures EntryNames(DosedEntries(GhSupplements)) == DosedSupplementNames
  {
    GhDosedEntries();
  }

  lemma GhDosedNotBase()
    ensures forall n :: n in DosedSupplementNames ==> n !in EntryNames(GhBase)
  {
    GhBaseNames();
  }

  lemma GhDosedPositive()
    ensures forall i :: 0 <= i < |DosedEntries(GhSupplements)| ==>
              DosedEntries(GhSupplements)[i].product.maxStrength > 0.0
  {
    GhDosedEntries();
  }

  /** The General Hydroponics tables meet `ValidTables`, and the dosed supplements are
      CaliMagic, Armor Si and Liquid KoolBloom. */
  lemma GhTablesValid()
    ensures EntryNames(DosedEntries(GhSupplements)) == DosedSupplementNames
    ensures ValidTables(GhBase, GhSupplements)
  {
    GhDosedNames();
    GhDosedNotBase();
    GhDosedPositive();
    ValidTablesFromParts(GhBase, GhSupplements, DosedSupplementNames);
  }

  lemma GhSupplementNames()
    ensures EntryNames(GhSupplements) == ["CaliMagic", "Rapid Start", "Diamond Nectar", "Armor Si", "Liquid KoolBloom",
                                          "Dry KoolBloom", "Floralicious Plus", "Florablend"]
  {
  }

  /** The General Hydroponics supplement names are distinct. */
  lemma GhSupplementsDistinct()
    ensures Distinct(EntryNames(GhSupplements))
  {
    var names := ["CaliMagic", "Rapid Start", "Diamond Nectar", "Armor Si", "Liquid KoolBloom",
                  "Dry KoolBloom", "Floralicious Plus", "Florablend"];
    GhSupplementNames();
    LiteralNamesDistinct(names);
  }

  const GhSupplementLengths: seq<int> := [9, 11, 14, 8, 16, 13, 17, 10]

  /** The names differ because their lengths do. */
  lemma LiteralNamesDistinct(names: seq<string>)
    requires names == ["CaliMagic", "Rapid Start", "Diamond Nectar", "Armor Si", "Liquid KoolBloom",
                       "Dry KoolBloom", "Floralicious Plus", "Florablend"]
    ensures Distinct(names)
  {
    LiteralNamesLengths(names);
    LengthsDistinct();
    forall i, j | 0 <= i < j < |names| ensures names[i] != names[j] {
      assert |names[i]| == GhSupplementLengths[i] && |names[j]| == GhSupplementLengths[j];
    }
  }

  lemma LiteralNamesLengths(names: seq<string>)
    requires names == ["CaliMagic", "Rapid Start", "Diamond Nectar", "Armor Si", "Liquid KoolBloom",
                       "Dry KoolBloom", "Floralicious Plus", "Florablend"]
    ensures |names| == |GhSupplementLengths|
    ensures forall i :: 0 <= i < |names| ==> |names[i]| == GhSupplementLengths[i]
  {
  }

  /** The position of a length in GhSupplementLengths. */
  function LengthIndex(n: int): int {
    if n == 9 then 0 else if n == 11 then 1 else if n == 14 then 2 else if n == 8 then 3
    else if n == 16 then 4 else if n == 13 then 5 else if n == 17 then 6 else 7
  }

  lemma LengthsDistinct()
    ensures Distinct(GhSupplementLengths)
  {
    var s := GhSupplementLengths;
    assert forall i :: 0 <= i < |s| ==> LengthIndex(s[i]) == i;
  }

  lemma ValidTablesFromParts(base: seq<Entry>, supplements: seq<Entry>, dosedNames: seq<string>)
    requires EntryNames(DosedEntries(supplements)) == dosedNames && Distinct(dosedNames)
    requires forall n :: n in dosedNames ==> n !in EntryNames(base)
    requires forall i :: 0 <= i < |base| ==> base[i].product.maxStrength > 0.0
    requires forall i :: 0 <= i < |DosedEntries(supplements)| ==> DosedEntries(supplements)[i].product.maxStrength > 0.0
    ensures ValidTables(base, supplements)
  {
  }

  lemma KeysOf(base: seq<Entry>, supplements: seq<Entry>, dosedNames: seq<string>, size: real, strength: real,
               selected: seq<string>, growthStage: string, unitSystem: string)
    requires ValidTables(base, supplements) && EntryNames(DosedEntries(supplements)) == dosedNames
    ensures KeysAre(CalculateFrom(base, supplements, size, strength, selected, growthStage, unitSystem),
                    selected, EntryNames(base), dosedNames)
  {
    CalculateFromKeys(base, supplements, size, strength, selected, growthStage, unitSystem);
  }

  /** calculate_nutrients' keys: the selected General Hydroponics base nutrients, then
      CaliMagic, Armor Si and Liquid KoolBloom. */
  lemma CalculateNutrientsKeys(size: real, strength: real, selected: seq<string>, growthStage: string, unitSystem: string)
    ensures KeysAre(CalculateNutrients(size, strength, selected, growthStage, unitSystem),
                    selected, EntryNames(GhBase), DosedSupplementNames)
  {
    GhTablesValid();
    KeysOf(GhBase, GhSupplements, DosedSupplementNames, size, strength, selected, growthStage, unitSystem);
  }

  /** calculate_nutrients gives 0 ml of everything in the Flush stage. */
  lemma CalculateNutrientsFlush(size: real, strength: real, selected: seq<string>, unitSystem: string)
    ensures var r := CalculateNutrients(size, strength, selected, "Flush", unitSystem);
            forall i :: 0 <= i < |r| ==> r[i].dose.amount == Some(0.0)
  {
    GhTablesValid();
    FlushGivesZero(GhBase, GhSupplements, size, strength, selected, unitSystem);
  }

  /** A list in selection order is determined by its elements. */
  lemma {:induction false} InSelectionOrderUnique(selected: seq<string>, a: seq<string>, b: seq<string>)
    requires InSelectionOrder(selected, a) && InSelectionOrder(selected, b)
    requires forall n :: n in a <==> n in b
    ensures a == b
  {
    SameElementsBothEmpty(a, b);
    if a != [] {
      if a[0] != b[0] {
        FirstIsEarliest(selected, a, b[0]);
        FirstIsEarliest(selected, b, a[0]);
        assert false;
      }
      forall n ensures n in a[1..] <==> n in b[1..] {
        DropFirst(selected, a, n);
        DropFirst(selected, b, n);
      }
      InSelectionOrderTail(selected, a);
      InSelectionOrderTail(selected, b);
      InSelectionOrderUnique(selected, a[1..], b[1..]);
      assert a == [a[0]] + a[1..] && b == [b[0]] + b[1..];
    }
  }

  lemma FirstIsEarliest(selected: seq<string>, a: seq<string>, n: string)
    requires InSelectionOrder(selected, a) && a != [] && n in a && n != a[0]
    ensures a[0] in selected && n in selected && IndexOf(selected, a[0]) < IndexOf(selected, n)
  {
    var j :| 0 <= j < |a| && a[j] == n;
  }

  lemma DropFirst(selected: seq<string>, a: seq<string>, n: string)
    requires InSelectionOrder(selected, a) && a != []
    ensures n in a[1..] <==> n in a && n != a[0]
  {
    if n in a[1..] {
      var j :| 1 <= j < |a| && a[j] == n;
    }
    if n in a && n != a[0] {
      var j :| 0 <= j < |a| && a[j] == n;
      assert a[1..][j - 1] == n;
    }
  }

  lemma InSelectionOrderTail(selected: seq<string>, a: seq<string>)
    requires InSelectionOrder(selected, a) && a != []
    ensures InSelectionOrder(selected, a[1..])
  {
    var t := a[1..];
    forall i, j | 0 <= i < j < |t|
      ensures t[i] in selected && t[j] in selected && IndexOf(selected, t[i]) < IndexOf(selected, t[j])
    {
      assert t[i] == a[i + 1] && t[j] == a[j + 1];
    }
    forall n | n in t ensures n in selected {
      assert n in a;
    }
  }
}
