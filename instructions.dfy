/** `RecipeInstructions` (recipe_instructions.py) without its HTML: the mixing-order sort of a
    recipe, the classifier from product name to type, the warning table, the EC band and the
    sequence of step cards that `display_instructions` shows. */
module RecipeInstructions {
  import opened Common
  import opened Doses
  import opened Mixing

  // ---------------------------------------------------------------------------
  // Mixing order.

  /** The types in the order they go into the reservoir. */
  const OrderedKinds: seq<string> := ["silica", "calmag", "micro", "grow", "bloom", "pk_boost", "supplement"]

  /** `get_mixing_order(nutrient_type)`: the type's place in OrderedKinds, counting from 1,
      and 999 for any other type. */
  function MixingOrder(kind: string): (r: int)
    ensures r == 999 <==> kind !in OrderedKinds
    ensures kind in OrderedKinds ==> 1 <= r <= |OrderedKinds| && OrderedKinds[r - 1] == kind
  {
    if kind == "silica" then 1
    else if kind == "calmag" then 2
    else if kind == "micro" then 3
    else if kind == "grow" then 4
    else if kind == "bloom" then 5
    else if kind == "pk_boost" then 6
    else if kind == "supplement" then 7
    else 999
  }

  /** The sort key of one recipe entry: a missing 'type' counts as 'supplement'. */
  function SortKey(item: NutrientItem): int {
    MixingOrder(item.dose.kind.GetOr("supplement"))
  }

  predicate InMixingOrder(s: Nutrients) {
    forall i, j :: 0 <= i < j < |s| ==> SortKey(s[i]) <= SortKey(s[j])
  }

  /** The entries whose sort key is `k`, in order. */
  function WithKey(s: Nutrients, k: int): Nutrients {
    if s == [] then []
    else if SortKey(s[0]) == k then [s[0]] + WithKey(s[1..], k)
    else WithKey(s[1..], k)
  }

  /** Puts `x` before the first entry that does not go in earlier than it. */
  function InsertByOrder(x: NutrientItem, s: Nutrients): Nutrients {
    if s == [] then [x]
    else if SortKey(s[0]) < SortKey(x) then [s[0]] + InsertByOrder(x, s[1..])
    else [x] + s
  }

  /** `sorted(recipe.items(), key=...)`, stable as Python's sort is. */
  function SortByMixingOrder(s: Nutrients): Nutrients {
    if s == [] then [] else InsertByOrder(s[0], SortByMixingOrder(s[1..]))
  }

  lemma {:induction false} InsertByOrderPermutes(x: NutrientItem, s: Nutrients)
    ensures multiset(InsertByOrder(x, s)) == multiset([x] + s)
  {
    if s != [] && SortKey(s[0]) < SortKey(x) {
      InsertByOrderPermutes(x, s[1..]);
      assert s == [s[0]] + s[1..];
    }
  }

  lemma InMixingOrderCons(x: NutrientItem, s: Nutrients)
    requires InMixingOrder(s)
    requires forall j :: 0 <= j < |s| ==> SortKey(x) <= SortKey(s[j])
    ensures InMixingOrder([x] + s)
  {
    var r := [x] + s;
    forall i, j | 0 <= i < j < |r| ensures SortKey(r[i]) <= SortKey(r[j]) {
      assert r[j] == s[j - 1];
      if i > 0 {
        assert r[i] == s[i - 1];
      }
    }
  }

  lemma {:induction false} InsertByOrderSorted(x: NutrientItem, s: Nutrients)
    requires InMixingOrder(s)
    ensures InMixingOrder(InsertByOrder(x, s))
  {
    if s == [] {
    } else if SortKey(s[0]) < SortKey(x) {
      var rest := InsertByOrder(x, s[1..]);
      InsertByOrderSorted(x, s[1..]);
      InsertByOrderPermutes(x, s[1..]);
      forall j | 0 <= j < |rest| ensures SortKey(s[0]) <= SortKey(rest[j]) {
        assert rest[j] in multiset([x] + s[1..]);
        if rest[j] != x {
          assert rest[j] in s[1..];
        }
      }
      InMixingOrderCons(s[0], rest);
    } else {
      InMixingOrderCons(x, s);
    }
  }

  lemma {:induction false} InsertByOrderStable(x: NutrientItem, s: Nutrients, k: int)
    ensures WithKey(InsertByOrder(x, s), k) == if SortKey(x) == k then [x] + WithKey(s, k) else WithKey(s, k)
  {
    if s == [] {
    } else if SortKey(s[0]) < SortKey(x) {
      InsertByOrderStable(x, s[1..], k);
      assert InsertByOrder(x, s)[1..] == InsertByOrder(x, s[1..]);
    } else {
      assert ([x] + s)[1..] == s;
    }
  }

  /** The sorted recipe is a permutation of the recipe, in non-decreasing mixing order, and
      entries of equal order keep their relative order. */
  lemma {:induction false} SortByMixingOrderSpec(s: Nutrients)
    ensures var r := SortByMixingOrder(s);
            && multiset(r) == multiset(s)
            && InMixingOrder(r)
            && forall k :: WithKey(r, k) == WithKey(s, k)
  {
    if s != [] {
      var rest := SortByMixingOrder(s[1..]);
      SortByMixingOrderSpec(s[1..]);
      InsertByOrderPermutes(s[0], rest);
      InsertByOrderSorted(s[0], rest);
      forall k ensures WithKey(SortByMixingOrder(s), k) == WithKey(s, k) {
        InsertByOrderStable(s[0], rest, k);
      }
      assert s == [s[0]] + s[1..];
    }
  }

  /** Whatever the input order, an entry whose type comes earlier in OrderedKinds is added
      before one whose type comes later: silica before calmag, calmag before micro, micro
      before grow, grow before bloom, bloom before pk_boost. */
  lemma MixingPrecedence(s: Nutrients, i: int, j: int, p: int, q: int)
    requires 0 <= i < |SortByMixingOrder(s)| && 0 <= j < |SortByMixingOrder(s)|
    requires 0 <= p < q < |OrderedKinds|
    requires SortByMixingOrder(s)[i].dose.kind == Some(OrderedKinds[p])
    requires SortByMixingOrder(s)[j].dose.kind == Some(OrderedKinds[q])
    ensures i < j
  {
    SortByMixingOrderSpec(s);
    OrderOfKind(p);
    OrderOfKind(q);
  }

  lemma OrderOfKind(p: int)
    requires 0 <= p < |OrderedKinds|
    ensures MixingOrder(OrderedKinds[p]) == p + 1
  {
    if p == 0 {
    } else if p == 1 {
    } else if p == 2 {
    } else if p == 3 {
    } else if p == 4 {
    } else if p == 5 {
    }
  }

  /** An entry with no type is placed exactly as one of type 'supplement' would be. */
  lemma MissingTypeIsSupplement(item: NutrientItem)
    requires item.dose.kind.None?
    ensures SortKey(item) == SortKey(item.(dose := item.dose.(kind := Some("supplement")))) == 7
  {
  }

  // ---------------------------------------------------------------------------
  // Classifying a product by its name.

  /** The values `_determine_nutrient_type` can return. */
  const DeterminedKinds: seq<string> := ["calmag", "micro", "grow", "bloom", "silica", "pk_boost", "supplement"]

  /** `_determine_nutrient_type(nutrient)`: first matching rule on the lower-cased name. */
  function DetermineNutrientType(name: string): (r: string)
    ensures r in DeterminedKinds
  {
    var s := Lower(name);
    if Contains(s, "cal") && Contains(s, "mag") then "calmag"
    else if Contains(s, "micro") then "micro"
    else if Contains(s, "grow") then "grow"
    else if Contains(s, "bloom") then "bloom"
    else if Contains(s, "silica") then "silica"
    else if Contains(s, "pk") || Contains(s, "p/k") || Contains(s, "phosphorus") then "pk_boost"
    else "supplement"
  }

  /** The classifier's rules in priority order, by the type each gives. */
  const RuleKinds: seq<string> := ["calmag", "micro", "grow", "bloom", "silica", "pk_boost"]

  /** Rule `p` applies to the lower-cased name `s`. */
  predicate RuleMatches(p: nat, s: string) {
    match p
    case 0 => Contains(s, "cal") && Contains(s, "mag")
    case 1 => Contains(s, "micro")
    case 2 => Contains(s, "grow")
    case 3 => Contains(s, "bloom")
    case 4 => Contains(s, "silica")
    case 5 => Contains(s, "pk") || Contains(s, "p/k") || Contains(s, "phosphorus")
    case _ => false
  }

  /** The type of the first rule from `p` on that applies to `s`, or 'supplement'. */
  function FirstMatch(s: string, p: nat): string
    decreases |RuleKinds| - p
  {
    if p >= |RuleKinds| then "supplement"
    else if RuleMatches(p, s) then RuleKinds[p]
    else FirstMatch(s, p + 1)
  }

  /** The classifier gives the type of the first rule that applies to the lower-cased name,
      and 'supplement' when none does. FirstMatch holds the same rules in the same order, as
      a table walked by position rather than an if-chain: it is a second form of the rules,
      not an independent definition of them. What the classifier guarantees to the renderer
      is stated by DeterminedKindsAreOrdered, DeterminedHaveWarnings and
      DetermineNutrientTypeIgnoresCase. */
  lemma DetermineNutrientTypeIsFirstMatch(name: string)
    ensures DetermineNutrientType(name) == FirstMatch(Lower(name), 0)
  {
    var s := Lower(name);
    assert FirstMatch(s, 5) == if RuleMatches(5, s) then "pk_boost" else "supplement";
    assert FirstMatch(s, 4) == if RuleMatches(4, s) then "silica" else FirstMatch(s, 5);
    assert FirstMatch(s, 3) == if RuleMatches(3, s) then "bloom" else FirstMatch(s, 4);
    assert FirstMatch(s, 2) == if RuleMatches(2, s) then "grow" else FirstMatch(s, 3);
    assert FirstMatch(s, 1) == if RuleMatches(1, s) then "micro" else FirstMatch(s, 2);
  }

  /** The classifier ignores the case of ASCII letters. */
  lemma DetermineNutrientTypeIgnoresCase(name: string)
    ensures DetermineNutrientType(Lower(name)) == DetermineNutrientType(name)
  {
    LowerIdempotent(name);
  }

  /** A classified type is one of the seven that have a mixing order. */
  lemma DeterminedKindsAreOrdered(name: string)
    ensures MixingOrder(DetermineNutrientType(name)) <= |OrderedKinds|
  {
    var k := DetermineNutrientType(name);
    assert k in OrderedKinds;
  }

  // ---------------------------------------------------------------------------
  // Warnings.

  const DefaultWarning: string := "Monitor solution for any reactions"

  /** The warning table of `_get_warning_for_nutrient`. */
  const Warnings: map<string, string> := map[
    "calmag" := "Monitor pH, can increase significantly",
    "base" := "Check for precipitation, ensure proper mixing",
    "micro" := "Add first of base nutrients",
    "grow" := "Add second, after micro",
    "bloom" := "Add last of base nutrients",
    "supplement" := "Add slowly, watch for reactions",
    "silica" := "Must be added first, raises pH significantly",
    "enzyme" := "Temperature sensitive, verify water temp",
    "pk_boost" := "Monitor EC closely, can build up salts"]

  /** `_get_warning_for_nutrient(nutrient, nutrient_type)`; a missing type is classified from
      the name. */
  function GetWarningForNutrient(name: string, kind: Option<string>): string {
    var k := if kind.Some? then kind.value else DetermineNutrientType(name);
    if k in Warnings then Warnings[k] else DefaultWarning
  }

  /** A known type gets its own warning, any other type the default; with no type the name's
      class decides, and every class has its own warning, so the default never appears. */
  lemma WarningSpec(name: string, kind: Option<string>)
    ensures kind.Some? && kind.value in Warnings ==> GetWarningForNutrient(name, kind) == Warnings[kind.value]
    ensures kind.Some? && kind.value !in Warnings ==> GetWarningForNutrient(name, kind) == DefaultWarning
    ensures kind.None? ==> && GetWarningForNutrient(name, kind) == Warnings[DetermineNutrientType(name)]
                           && GetWarningForNutrient(name, kind) != DefaultWarning
  {
    if kind.None? {
      DeterminedHaveWarnings(DetermineNutrientType(name));
    }
  }

  lemma DeterminedHaveWarnings(k: string)
    requires k in DeterminedKinds
    ensures k in Warnings && Warnings[k] != DefaultWarning
  {
  }

  // ---------------------------------------------------------------------------
  // The target EC range.

  predicate IsBaseKind(kind: Option<string>) {
    kind == Some("micro") || kind == Some("grow") || kind == Some("bloom")
  }

  /** The number of micro, grow and bloom entries. */
  function BaseCount(s: Nutrients): (c: nat)
    ensures c <= |s|
  {
    if s == [] then 0 else (if IsBaseKind(s[0].dose.kind) then 1 else 0) + BaseCount(s[1..])
  }

  /** The three EC bands, lowest first. */
  const EcBands: seq<string> := ["1.0-1.4", "1.2-1.8", "1.4-2.0"]

  /** The band for a base count. */
  function EcBand(count: nat): (b: nat)
    ensures b < |EcBands|
  {
    if count <= 2 then 0 else if count <= 3 then 1 else 2
  }

  /** `_get_ec_range(recipe)` */
  function GetEcRange(recipe: Nutrients): string {
    if recipe == [] then EcBands[0] else EcBands[EcBand(BaseCount(recipe))]
  }

  /** The band rises with the base count: each of 0..2, 3 and more than 3 has its band, and the
      empty recipe falls in the lowest one. */
  lemma EcRangeSpec(recipe: Nutrients)
    ensures GetEcRange(recipe) == EcBands[EcBand(BaseCount(recipe))]
    ensures BaseCount(recipe) <= 2 ==> GetEcRange(recipe) == "1.0-1.4"
    ensures BaseCount(recipe) == 3 ==> GetEcRange(recipe) == "1.2-1.8"
    ensures BaseCount(recipe) > 3 ==> GetEcRange(recipe) == "1.4-2.0"
  {
  }

  lemma EcBandMonotone(c1: nat, c2: nat)
    requires c1 <= c2
    ensures EcBand(c1) <= EcBand(c2)
  {
  }

  /** The base count is the number of amounts the generated mixing instructions put in step 6. */
  lemma {:induction false} BaseCountIsStepSix(s: Nutrients)
    requires AmountsPresent(s)
    ensures BaseCount(s) == |GroupAmounts(s, 6)|
  {
    if s != [] {
      BaseCountIsStepSix(s[1..]);
      assert IsBaseKind(s[0].dose.kind) <==> StepOfKind(s[0].dose.kind) == 6;
    }
  }

  // ---------------------------------------------------------------------------
  // The step sequence of display_instructions.

  /** One step card: a fixed step of a phase, or the step that adds one product ("Add <name>",
      with its amount, unit, notes and warning). */
  datatype StepCard =
    | Fixed(action: string, detail: string, warning: string)
    | AddNutrient(nutrient: string, amount: Option<real>, unit: string, notes: string, warning: string)

  /** The preparation steps of `mixing_phases`. */
  const PreparationSteps: seq<StepCard> := [
    Fixed("Clean all mixing equipment thoroughly", "Use food-grade sanitizer, rinse 3x with RO water",
          "Contamination can lead to root problems"),
    Fixed("Calibrate pH and EC/PPM meters", "Use fresh calibration solutions, verify accuracy",
          "Inaccurate readings can lead to nutrient lockout"),
    Fixed("Verify water temperature", "Target: 65-75°F (18-24°C)", "Temperature affects nutrient availability"),
    Fixed("Record starting parameters", "Log: pH, EC/PPM, temperature, date/time",
          "Documentation required for compliance")]

  /** The final verification steps of `mixing_phases`. */
  const FinalSteps: seq<StepCard> := [
    Fixed("Top off to final volume", "Use RO/filtered water only", "Record final volume added"),
    Fixed("Verify EC/PPM levels", "Compare to target range for growth stage", "Document any adjustments made"),
    Fixed("Final pH adjustment", "Adjust slowly, verify stability", "Allow 15-30 minutes between adjustments"),
    Fixed("Final documentation", "Record all parameters and calculations", "Required for compliance tracking")]

  /** The step for one recipe entry; a missing amount shows as 'N/A', unit 'ml', notes ''. */
  function AddStep(item: NutrientItem): StepCard {
    AddNutrient(item.name, item.dose.amount, item.dose.unit.GetOr("ml"), item.dose.notes.GetOr(""),
                GetWarningForNutrient(item.name, item.dose.kind))
  }

  function AddSteps(s: Nutrients): (r: seq<StepCard>)
    ensures |r| == |s|
    ensures forall i :: 0 <= i < |s| ==> r[i] == AddStep(s[i])
  {
    if s == [] then [] else [AddStep(s[0])] + AddSteps(s[1..])
  }

  /** What display_instructions shows for a recipe: its step cards and the target panel. */
  datatype Protocol = Protocol(nutrientLine: string, steps: seq<StepCard>, ecRange: string, phRange: string,
                               temperature: string)

  /** `display_instructions(nutrient_line, recipe)`: None for an empty recipe. */
  function DisplayInstructions(nutrientLine: string, recipe: Nutrients): Option<Protocol> {
    if recipe == [] then None
    else Some(Protocol(nutrientLine, PreparationSteps + AddSteps(SortByMixingOrder(recipe)) + FinalSteps,
                       GetEcRange(recipe), "5.8-6.2", "65-75°F (18-24°C)"))
  }

  /** An empty recipe shows nothing. Otherwise the cards are the four preparation steps, one
      "Add" card per entry in mixing order (each entry once, with its own warning), and the four
      final steps; the panel shows the recipe's EC band and pH 5.8-6.2. */
  lemma DisplayInstructionsSpec(nutrientLine: string, recipe: Nutrients)
    ensures DisplayInstructions(nutrientLine, recipe).None? <==> recipe == []
    ensures recipe != [] ==>
              var p := DisplayInstructions(nutrientLine, recipe).value;
              var sorted := SortByMixingOrder(recipe);
              && |p.steps| == |PreparationSteps| + |recipe| + |FinalSteps| == 8 + |recipe|
              && p.steps[..4] == PreparationSteps
              && p.steps[4 + |recipe|..] == FinalSteps
              && multiset(sorted) == multiset(recipe)
              && InMixingOrder(sorted)
              && (forall i :: 0 <= i < |recipe| ==>
                    p.steps[4 + i] == AddNutrient(sorted[i].name, sorted[i].dose.amount, sorted[i].dose.unit.GetOr("ml"),
                                                  sorted[i].dose.notes.GetOr(""),
                                                  GetWarningForNutrient(sorted[i].name, sorted[i].dose.kind)))
              && p.ecRange == GetEcRange(recipe) && p.phRange == "5.8-6.2"
  {
    if recipe != [] {
      SortByMixingOrderSpec(recipe);
      var sorted := SortByMixingOrder(recipe);
      assert |sorted| == |recipe| by {
        assert |multiset(sorted)| == |multiset(recipe)|;
      }
      var p := DisplayInstructions(nutrientLine, recipe).value;
      var adds := AddSteps(sorted);
      assert p.steps == PreparationSteps + adds + FinalSteps;
      forall i | 0 <= i < |recipe| ensures p.steps[4 + i] == adds[i] {
      }
    }
  }
}
