/** The brand catalog that `RecipeManager.load_default_nutrient_lines` builds once: for each
    nutrient line, its base nutrients and (for two of the six lines) its supplements.
    Only the attributes that the calculator reads are kept: type, max_strength (ml per
    gallon at 100% strength), description, npk and when_to_use. */
module Catalog {
  import opened Common

  /** The `type` values that occur in the catalog. */
  datatype Kind = Micro | Grow | Bloom | Base | BaseA | BaseB
                | CalMag | Silica | PkBoost | Root | Humic | Ripening | Enzyme | Biostimulant

  /** The string the catalog stores as `type`. */
  function KindName(k: Kind): string {
    match k
    case Micro => "micro"
    case Grow => "grow"
    case Bloom => "bloom"
    case Base => "base"
    case BaseA => "base_a"
    case BaseB => "base_b"
    case CalMag => "calmag"
    case Silica => "silica"
    case PkBoost => "pk_boost"
    case Root => "root"
    case Humic => "humic"
    case Ripening => "ripening"
    case Enzyme => "enzyme"
    case Biostimulant => "biostimulant"
  }

  datatype Product = Product(
    kind: Kind,
    maxStrength: real,
    description: string,
    npk: Option<string>,
    whenToUse: Option<string>)

  /** One `name: {...}` entry of a product table. */
  datatype Entry = Entry(name: string, product: Product)

  /** `supplements` is None for the lines whose dictionary has no 'supplements' key. */
  datatype Brand = Brand(description: string, baseNutrients: seq<Entry>, supplements: Option<seq<Entry>>)

  datatype Line = Line(name: string, brand: Brand)

  function EntryNames(table: seq<Entry>): (r: seq<string>)
    ensures |r| == |table|
    ensures forall i :: 0 <= i < |table| ==> r[i] == table[i].name
  {
    if table == [] then [] else [table[0].name] + EntryNames(table[1..])
  }

  /** `table.get(name)` on a product table. */
  function Find(table: seq<Entry>, name: string): (r: Option<Product>)
    ensures r.Some? <==> name in EntryNames(table)
    ensures r.Some? ==> exists i :: 0 <= i < |table| && table[i] == Entry(name, r.value)
  {
    if table == [] then None
    else if table[0].name == name then Some(table[0].product)
    else Find(table[1..], name)
  }

  /** In a table with distinct names, `get` finds each entry's own product. */
  lemma {:induction false} FindAt(table: seq<Entry>, i: nat)
    requires Distinct(EntryNames(table)) && i < |table|
    ensures Find(table, table[i].name) == Some(table[i].product)
  {
    if i > 0 {
      var names := EntryNames(table);
      assert names[0] != names[i];
      var rest := EntryNames(table[1..]);
      forall j, k | 0 <= j < k < |rest| ensures rest[j] != rest[k] {
        assert rest[j] == names[j + 1] && rest[k] == names[k + 1];
      }
      FindAt(table[1..], i - 1);
    }
  }

  const GeneralHydroponics: string := "General Hydroponics"

  const GenericMicro := Entry("Micro", Product(Micro, 3.0, "Micronutrient blend", Some("5-0-1"), None))
  const GenericGrow := Entry("Grow", Product(Grow, 3.0, "Vegetative growth nutrient", Some("3-1-3"), None))
  const GenericBloom := Entry("Bloom", Product(Bloom, 3.0, "Flowering nutrient", Some("0-5-4"), None))
  const GenericCalMag := Entry("CalMag", Product(CalMag, 5.0, "Calcium-Magnesium supplement", None,
                                                 Some("Throughout grow cycle")))
  const GenericSilica := Entry("Silica", Product(Silica, 2.0, "Silica supplement for strength", None,
                                                 Some("Add first, throughout cycle")))
  const GenericPkBooster := Entry("PK Booster", Product(PkBoost, 2.0, "Phosphorus-Potassium boost", None,
                                                        Some("Mid to late flower")))
  const GenericBase: seq<Entry> := [GenericMicro, GenericGrow, GenericBloom]
  const GenericSupplements: seq<Entry> := [GenericCalMag, GenericSilica, GenericPkBooster]

  const GenericLine := Line("Generic", Brand(
    "Standard nutrient components for any brand", GenericBase, Some(GenericSupplements)))

  const FloraMicro := Entry("Flora Micro", Product(Micro, 4.0, "Concentrated micronutrients and calcium", Some("5-0-1"), None))
  const FloraGrow := Entry("Flora Grow", Product(Grow, 4.0, "Promotes structural and vegetative growth", Some("2-1-6"),
                                Some("Heavy in veg, reduced in flower")))
  const FloraBloom := Entry("Flora Bloom", Product(Bloom, 4.0, "Promotes flower development and fruiting", Some("0-5-4"),
                                 Some("During flowering phase")))
  const GhBase: seq<Entry> := [FloraMicro, FloraGrow, FloraBloom]

  const CaliMagic := Entry("CaliMagic", Product(CalMag, 5.0, "GH's calcium and magnesium supplement", Some("1-0-0"),
                               Some("Throughout grow cycle, essential with RO water")))
  const RapidStart := Entry("Rapid Start", Product(Root, 2.0, "GH's root development enhancer", None,
                                 Some("Early growth and transplanting")))
  const DiamondNectar := Entry("Diamond Nectar", Product(Humic, 2.0, "GH's premium humic acid supplement", None,
                                    Some("Throughout grow cycle")))
  const ArmorSi := Entry("Armor Si", Product(Silica, 2.0, "GH's silica supplement", None, Some("Throughout grow cycle")))
  const LiquidKoolBloom := Entry("Liquid KoolBloom", Product(PkBoost, 2.5, "GH's liquid P-K booster", Some("0-10-10"),
                                      Some("Early to mid flowering")))
  const DryKoolBloom := Entry("Dry KoolBloom", Product(Ripening, 1.5, "GH's flowering finisher powder", Some("0-27-27"),
                                   Some("Last 2-3 weeks of flower")))
  const FloraliciousPlus := Entry("Floralicious Plus", Product(Enzyme, 1.0, "GH's organic bioactivator", None,
                                       Some("Throughout grow cycle")))
  const Florablend := Entry("Florablend", Product(Biostimulant, 2.0, "GH's organic vegan supplement", None,
                                Some("Throughout grow cycle")))
  const GhSupplements: seq<Entry> :=
    [CaliMagic, RapidStart, DiamondNectar, ArmorSi, LiquidKoolBloom, DryKoolBloom, FloraliciousPlus, Florablend]

  const GhLine := Line(GeneralHydroponics, Brand(
    "Industry standard 3-part system with comprehensive supplements", GhBase, Some(GhSupplements)))

  const PhPerfectMicro := Entry("pH Perfect Micro", Product(Micro, 4.0, "Self-adjusting pH micronutrient formula",
                                                           Some("5-0-1"), None))
  const PhPerfectGrow := Entry("pH Perfect Grow", Product(Grow, 4.0, "Vegetative growth formula", Some("4-0-1"), None))
  const PhPerfectBloom := Entry("pH Perfect Bloom", Product(Bloom, 4.0, "Flowering phase formula", Some("0-5-4"), None))
  const AdvancedBase: seq<Entry> := [PhPerfectMicro, PhPerfectGrow, PhPerfectBloom]

  const AdvancedLine := Line("Advanced Nutrients", Brand(
    "pH Perfect technology with premium supplements", AdvancedBase, None))

  const AthenaCore := Entry("Core", Product(Base, 3.0, "Complete nutrient solution", Some("4-0-1"), None))
  const AthenaBloom := Entry("Bloom", Product(Bloom, 3.0, "Flower enhancer", Some("0-5-4"), None))
  const AthenaBase: seq<Entry> := [AthenaCore, AthenaBloom]

  const AthenaLine := Line("Athena", Brand("Professional grade blended nutrient system", AthenaBase, None))

  const AquaFlakesA := Entry("Aqua Flakes A", Product(BaseA, 3.0, "Part A base nutrient", Some("5-0-3"), None))
  const AquaFlakesB := Entry("Aqua Flakes B", Product(BaseB, 3.0, "Part B base nutrient", Some("1-4-5"), None))
  const HouseAndGardenBase: seq<Entry> := [AquaFlakesA, AquaFlakesB]

  const HouseAndGardenLine := Line("House & Garden", Brand(
    "Premium Dutch nutrients with specialized additives", HouseAndGardenBase, None))

  const CannaA := Entry("Canna A", Product(BaseA, 3.0, "Part A complete nutrient", Some("5-0-1"), None))
  const CannaB := Entry("Canna B", Product(BaseB, 3.0, "Part B complete nutrient", Some("0-4-2"), None))
  const CannaBase: seq<Entry> := [CannaA, CannaB]

  const CannaLine := Line("Canna", Brand(
    "Research-based nutrients optimized for various media", CannaBase, None))

  /** `self.nutrient_lines`, in its insertion order. */
  const NutrientLines: seq<Line> :=
    [GenericLine, GhLine, AdvancedLine, AthenaLine, HouseAndGardenLine, CannaLine]

  /** `self.nutrient_lines[name]`; None stands for the KeyError of an unknown line. */
  function FindLine(name: string): Option<Brand> {
    FindLineIn(NutrientLines, name)
  }

  function FindLineIn(lines: seq<Line>, name: string): (r: Option<Brand>)
    ensures r.Some? ==> exists i :: 0 <= i < |lines| && lines[i] == Line(name, r.value)
    ensures r.None? ==> forall i :: 0 <= i < |lines| ==> lines[i].name != name
  {
    if lines == [] then None
    else if lines[0].name == name then Some(lines[0].brand)
    else FindLineIn(lines[1..], name)
  }

  /** A line is found when no earlier line has its name. */
  lemma {:induction false} FindLineInAt(lines: seq<Line>, i: nat)
    requires i < |lines| && forall j :: 0 <= j < i ==> lines[j].name != lines[i].name
    ensures FindLineIn(lines, lines[i].name) == Some(lines[i].brand)
  {
    if i > 0 {
      assert lines[0].name != lines[i].name;
      FindLineInAt(lines[1..], i - 1);
    }
  }
}
