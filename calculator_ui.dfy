/** `NutrientCalculatorUI.calculate_recipe` (nutrient_calculator.py): a recipe for a nutrient line
    at a strength fraction, with each entry's `type` taken from the chosen line. */
module NutrientCalculatorUI {
  import opened Common
  import opened Catalog
  import opened Doses

  /** The `type` the annotation loop gives the entry `name`, or its own when neither table of the
      line lists it. Only meaningful when the name is a base nutrient or the line has supplements. */
  function LineKind(brand: Brand, name: string, current: Option<string>): Option<string> {
    match Find(brand.baseNutrients, name)
    case Some(p) => Some(KindName(p.kind))
    case None =>
      if brand.supplements.None? then current
      else
        match Find(brand.supplements.value, name)
        case Some(p) => Some(KindName(p.kind))
        case None => current
  }

  /** The annotation loop fails (a KeyError on the missing 'supplements' table) exactly when
      the line has no supplements and some key is not one of its base nutrients. */
  predicate AnnotationFails(items: Nutrients, brand: Brand) {
    brand.supplements.None? && exists i :: 0 <= i < |items| && items[i].name !in EntryNames(brand.baseNutrients)
  }

  /** The loop `for nutrient, details in recipe.items(): details['type'] = ...`; None stands
      for the exception it raises. */
  function Annotate(items: Nutrients, brand: Brand): (r: Option<Nutrients>)
    ensures r.None? <==> AnnotationFails(items, brand)
    ensures r.Some? ==> |r.value| == |items|
    ensures r.Some? ==> forall i :: 0 <= i < |items| ==>
              r.value[i] == NutrientItem(items[i].name,
                                         items[i].dose.(kind := LineKind(brand, items[i].name, items[i].dose.kind)))
  {
    if items == [] then Some([])
    else
      var it := items[0];
      var rest := Annotate(items[1..], brand);
      if Find(brand.baseNutrients, it.name).None? && brand.supplements.None? then
        assert items[0].name !in EntryNames(brand.baseNutrients);
        None
      else if rest.None? then
        var i :| 0 <= i < |items[1..]| && items[1..][i].name !in EntryNames(brand.baseNutrients);
        assert items[i + 1].name !in EntryNames(brand.baseNutrients);
        None
      else
        assert forall i :: 1 <= i < |items| ==> items[i] == items[1..][i - 1];
        Some([NutrientItem(it.name, it.dose.(kind := LineKind(brand, it.name, it.dose.kind)))] + rest.value)
  }

  /** The strength fraction as the percentage calculate_nutrients expects. */
  function Percent(strength: real): real {
    strength * 100.0
  }

  /** `calculate_recipe(nutrient_line, volume, growth_stage, strength, unit_system)`; `{}` when
      the line is unknown. */
  function CalculateRecipe(line: string, volume: real, growthStage: string, strength: real,
                           unitSystem: string): Nutrients
  {
    match FindLine(line)
    case None => []
    case Some(brand) => RecipeFor(brand, volume, growthStage, strength, unitSystem)
  }

  /** calculate_recipe once the line's brand is found: the General Hydroponics calculation for
      the brand's base nutrient names at `strength * 100` percent, annotated with the brand's
      types; `{}` when the annotation fails. */
  function RecipeFor(brand: Brand, volume: real, growthStage: string, strength: real, unitSystem: string): Nutrients {
    var recipe := CalculateNutrients(volume, Percent(strength), EntryNames(brand.baseNutrients),
                                     growthStage, unitSystem);
    match Annotate(recipe, brand)
    case Some(annotated) => annotated
    case None => []
  }

  /** An annotation that agrees with every entry's current type changes nothing. */
  lemma AnnotateUnchanged(items: Nutrients, brand: Brand)
    requires !AnnotationFails(items, brand)
    requires forall i :: 0 <= i < |items| ==> LineKind(brand, items[i].name, items[i].dose.kind) == items[i].dose.kind
    ensures Annotate(items, brand) == Some(items)
  {
    var r := Annotate(items, brand).value;
    forall i | 0 <= i < |items| ensures r[i] == items[i] {
      assert items[i] == NutrientItem(items[i].name, items[i].dose.(kind := items[i].dose.kind));
    }
    assert r == items;
  }

  /** An unknown line gives `{}`. */
  lemma UnknownLineGivesEmpty(line: string, volume: real, growthStage: string, strength: real, unitSystem: string)
    requires forall i :: 0 <= i < |NutrientLines| ==> NutrientLines[i].name != line
    ensures CalculateRecipe(line, volume, growthStage, strength, unitSystem) == []
  {
  }

  /** A key that is not a base nutrient of a line without supplements makes the loop fail. */
  lemma AnnotateFailsAt(items: Nutrients, brand: Brand, k: nat)
    requires brand.supplements.None? && k < |items| && items[k].name !in EntryNames(brand.baseNutrients)
    ensures Annotate(items, brand).None?
  {
    assert AnnotationFails(items, brand);
  }

  /** calculate_nutrients always returns CaliMagic, so on a line without supplements whose base
      nutrients do not include it the annotation fails. */
  lemma CaliMagicFails(brand: Brand, size: real, strength: real, growthStage: string, unitSystem: string)
    requires brand.supplements.None? && "CaliMagic" !in EntryNames(brand.baseNutrients)
    ensures Annotate(CalculateNutrients(size, strength, EntryNames(brand.baseNutrients), growthStage, unitSystem),
                     brand).None?
  {
    var r := CalculateNutrients(size, strength, EntryNames(brand.baseNutrients), growthStage, unitSystem);
    CalculateNutrientsKeys(size, strength, EntryNames(brand.baseNutrients), growthStage, unitSystem);
    var k := |r| - |DosedSupplementNames|;
    assert Names(r)[k..][0] == "CaliMagic";
    assert r[k].name == "CaliMagic";
    AnnotateFailsAt(r, brand, k);
  }

  /** A line without a supplements table whose base nutrients do not include CaliMagic gives
      `{}`: CaliMagic is always a key, so the annotation loop reaches `['supplements']`. */
  lemma NoSupplementsGivesEmpty(brand: Brand, volume: real, growthStage: string, strength: real, unitSystem: string)
    requires brand.supplements.None? && "CaliMagic" !in EntryNames(brand.baseNutrients)
    ensures RecipeFor(brand, volume, growthStage, strength, unitSystem) == []
  {
    CaliMagicFails(brand, volume, Percent(strength), growthStage, unitSystem);
  }

  /** Advanced Nutrients, Athena, House & Garden and Canna have no supplements table, and
      CaliMagic is none of their base nutrients. */
  lemma LinesWithoutSupplements(i: nat)
    requires 2 <= i < |NutrientLines|
    ensures FindLine(NutrientLines[i].name) == Some(NutrientLines[i].brand)
    ensures NutrientLines[i].brand.supplements.None?
    ensures "CaliMagic" !in EntryNames(NutrientLines[i].brand.baseNutrients)
  {
    FindLineInAt(NutrientLines, i);
  }

  /** calculate_recipe returns `{}` for Advanced Nutrients, Athena, House & Garden and Canna. */
  lemma LinesWithoutSupplementsGiveEmpty(i: nat, volume: real, growthStage: string, strength: real, unitSystem: string)
    requires 2 <= i < |NutrientLines|
    ensures CalculateRecipe(NutrientLines[i].name, volume, growthStage, strength, unitSystem) == []
  {
    LinesWithoutSupplements(i);
    NoSupplementsGivesEmpty(NutrientLines[i].brand, volume, growthStage, strength, unitSystem);
  }

  /** On a line whose own tables are the ones calculated from, the annotation gives every
      entry the type it already has. */
  lemma OwnTablesUnchanged(brand: Brand, base: seq<Entry>, supplements: seq<Entry>, size: real, strength: real,
                           selected: seq<string>, growthStage: string, unitSystem: string)
    requires ValidTables(base, supplements) && Distinct(EntryNames(supplements))
    requires brand.baseNutrients == base && brand.supplements == Some(supplements)
    ensures var r := CalculateFrom(base, supplements, size, strength, selected, growthStage, unitSystem);
            Annotate(r, brand) == Some(r)
  {
    var r := CalculateFrom(base, supplements, size, strength, selected, growthStage, unitSystem);
    forall i | 0 <= i < |r| ensures LineKind(brand, r[i].name, r[i].dose.kind) == r[i].dose.kind {
      KindAt(base, supplements, size, strength, selected, growthStage, unitSystem, i);
      if Find(base, r[i].name).None? {
        FindDosed(supplements, r[i].name);
      }
    }
    AnnotateUnchanged(r, brand);
  }

  /** For General Hydroponics, calculate_recipe is calculate_nutrients on its three base
      nutrients, unchanged by the annotation. */
  lemma GhRecipeIsCalculation(volume: real, growthStage: string, strength: real, unitSystem: string)
    ensures CalculateRecipe(GeneralHydroponics, volume, growthStage, strength, unitSystem)
         == CalculateNutrients(volume, Percent(strength), EntryNames(GhBase), growthStage, unitSystem)
  {
    FindLineInAt(NutrientLines, 1);
    GhTablesValid();
    GhSupplementsDistinct();
    OwnTablesUnchanged(GhLine.brand, GhBase, GhSupplements, volume, Percent(strength), EntryNames(GhBase),
                       growthStage, unitSystem);
  }

  lemma GenericNames()
    ensures EntryNames(GenericBase) == ["Micro", "Grow", "Bloom"]
    ensures EntryNames(GenericSupplements) == ["CalMag", "Silica", "PK Booster"]
  {
  }

  /** No Generic base nutrient is a General Hydroponics one, and none of the three dosed
      supplements is a Generic product (their lengths already differ). */
  lemma GenericNamesApart()
    ensures forall n :: n in EntryNames(GenericBase) ==> n !in EntryNames(GhBase)
    ensures forall n :: n in DosedSupplementNames ==>
              n !in EntryNames(GenericBase) && n !in EntryNames(GenericSupplements)
  {
    GenericNames();
    GhBaseNames();
  }

  /** For the Generic line, calculate_recipe is calculate_nutrients on "Micro", "Grow" and
      "Bloom", none of which is a General Hydroponics base nutrient: the recipe holds only
      CaliMagic, Armor Si and Liquid KoolBloom, and the annotation leaves their types. */
  lemma GenericRecipeIsSupplementsOnly(volume: real, growthStage: string, strength: real, unitSystem: string)
    ensures var r := CalculateRecipe("Generic", volume, growthStage, strength, unitSystem);
            && r == CalculateNutrients(volume, Percent(strength), EntryNames(GenericBase), growthStage, unitSystem)
            && Names(r) == DosedSupplementNames
  {
    FindLineInAt(NutrientLines, 0);
    var selected := EntryNames(GenericBase);
    var r := CalculateNutrients(volume, Percent(strength), selected, growthStage, unitSystem);
    CalculateNutrientsKeys(volume, Percent(strength), selected, growthStage, unitSystem);
    GenericNamesApart();
    var k := |r| - |DosedSupplementNames|;
    NothingSelected(selected, EntryNames(GhBase), Names(r)[..k]);
    assert Names(r) == Names(r)[k..];
    GenericKindsUnchanged(r);
    AnnotateUnchanged(r, GenericLine.brand);
  }

  /** When no selected name is in the table, no key comes from it. */
  lemma NothingSelected(selected: seq<string>, catalog: seq<string>, names: seq<string>)
    requires IsSelectedNames(selected, catalog, names)
    requires forall n :: n in selected ==> n !in catalog
    ensures names == []
  {
    HeadIn(names);
  }

  /** The Generic line lists none of the three dosed supplements, so it keeps their types. */
  lemma GenericLineKind(n: string, current: Option<string>)
    requires n in DosedSupplementNames
    ensures LineKind(GenericLine.brand, n, current) == current
  {
    GenericNamesApart();
  }

  lemma GenericKindsUnchanged(r: Nutrients)
    requires forall n :: n in Names(r) ==> n in DosedSupplementNames
    ensures forall i :: 0 <= i < |r| ==> LineKind(GenericLine.brand, r[i].name, r[i].dose.kind) == r[i].dose.kind
  {
    forall i | 0 <= i < |r| ensures LineKind(GenericLine.brand, r[i].name, r[i].dose.kind) == r[i].dose.kind {
      assert Names(r)[i] == r[i].name;
      GenericLineKind(r[i].name, r[i].dose.kind);
    }
  }
}
