/** `RecipeManager.generate_mixing_instructions` (nutrient_calculator.py): the eight-step
    mixing procedure for a recipe. Steps 1-3 and 8 are always present; steps 4-7 add the
    nutrients of one group each (silica, calmag, micro/grow/bloom, everything else). The
    fixed tips, equipment lists and measurement hints of each step are display text and are
    not part of the model; a step keeps what depends on the recipe. */
module Mixing {
  import opened Common
  import opened Doses

  /** One entry of a step's `amounts`: `name: f"{amount} {unit}"`. */
  datatype AmountLine = AmountLine(name: string, amount: real, unit: string)

  datatype MixStep =
    | Preparation
    | WaterPreparation(gallons: real)
    | InitialPhAdjustment
    | AddSilica(amounts: seq<AmountLine>)
    | AddCalMag(amounts: seq<AmountLine>)
    | AddBaseNutrients(amounts: seq<AmountLine>, targetEc: string)
    | AddSupplements(amounts: seq<AmountLine>)
    | FinalAdjustments(finalPh: string, finalEc: string)

  /** The `step` field. */
  function StepNumber(s: MixStep): nat {
    match s
    case Preparation => 1
    case WaterPreparation(_) => 2
    case InitialPhAdjustment => 3
    case AddSilica(_) => 4
    case AddCalMag(_) => 5
    case AddBaseNutrients(_, _) => 6
    case AddSupplements(_) => 7
    case FinalAdjustments(_, _) => 8
  }

  /** The `amounts` of a step; the fixed steps have none. */
  function StepAmounts(s: MixStep): seq<AmountLine> {
    match s
    case AddSilica(a) => a
    case AddCalMag(a) => a
    case AddBaseNutrients(a, _) => a
    case AddSupplements(a) => a
    case _ => []
  }

  /** Step 4 takes type silica, step 5 calmag, step 6 micro, grow and bloom, and step 7 every
      other type, a missing one included. */
  function StepOfKind(kind: Option<string>): (g: nat)
    ensures 4 <= g <= 7
    ensures g == 4 <==> kind == Some("silica")
    ensures g == 5 <==> kind == Some("calmag")
    ensures g == 6 <==> kind in {Some("micro"), Some("grow"), Some("bloom")}
  {
    if kind == Some("silica") then 4
    else if kind == Some("calmag") then 5
    else if kind in {Some("micro"), Some("grow"), Some("bloom")} then 6
    else 7
  }

  /** Every nutrient has an `amount` (the comprehensions read `n[1]['amount']`). */
  predicate AmountsPresent(items: Nutrients) {
    forall i :: 0 <= i < |items| ==> items[i].dose.amount.Some?
  }

  /** The `amounts` dictionary of step `g`: the nutrients of that step, in recipe order. */
  function GroupAmounts(items: Nutrients, g: nat): (r: seq<AmountLine>)
    requires AmountsPresent(items)
    ensures |r| <= |items|
  {
    if items == [] then []
    else
      var it := items[0];
      var rest := GroupAmounts(items[1..], g);
      if StepOfKind(it.dose.kind) == g then [AmountLine(it.name, it.dose.amount.value, it.dose.unit.GetOr("ml"))] + rest
      else rest
  }

  /** Step `g` for its amounts, when there are any. */
  function GroupStep(items: Nutrients, g: nat, targetEc: string): (r: seq<MixStep>)
    requires AmountsPresent(items) && 4 <= g <= 7
  {
    var a := GroupAmounts(items, g);
    if a == [] then []
    else if g == 4 then [AddSilica(a)]
    else if g == 5 then [AddCalMag(a)]
    else if g == 6 then [AddBaseNutrients(a, targetEc)]
    else [AddSupplements(a)]
  }

  /** `generate_mixing_instructions(recipe_data)` on the recipe's `nutrients`, `size`,
      `target_ec` and `target_ph` (None for an absent key). A missing amount raises inside
      the function, which then returns `[]`. */
  function GenerateMixingInstructions(nutrients: Option<Nutrients>, size: Option<real>,
                                      targetEc: Option<string>, targetPh: Option<string>): (r: seq<MixStep>)
    ensures r == [] <==> !AmountsPresent(nutrients.GetOr([]))
  {
    var items := nutrients.GetOr([]);
    if !AmountsPresent(items) then []
    else
      var ec := targetEc.GetOr("See feeding chart");
      [Preparation, WaterPreparation(size.GetOr(0.0)), InitialPhAdjustment]
      + GroupStep(items, 4, ec) + GroupStep(items, 5, ec) + GroupStep(items, 6, ec) + GroupStep(items, 7, ec)
      + [FinalAdjustments(targetPh.GetOr("5.8-6.2"), ec)]
  }

  // ---------------------------------------------------------------------------
  // Properties.

  /** The steps of one group of a nutrient list. */
  lemma GroupStepShape(items: Nutrients, g: nat, targetEc: string)
    requires AmountsPresent(items) && 4 <= g <= 7
    ensures var r := GroupStep(items, g, targetEc);
            && |r| <= 1
            && (r != [] <==> exists i :: 0 <= i < |items| && StepOfKind(items[i].dose.kind) == g)
            && (r != [] ==> StepNumber(r[0]) == g && StepAmounts(r[0]) == GroupAmounts(items, g))
  {
    GroupAmountsEmpty(items, g);
  }

  /** A group's amounts are empty exactly when no nutrient belongs to it. */
  lemma {:induction false} GroupAmountsEmpty(items: Nutrients, g: nat)
    requires AmountsPresent(items)
    ensures GroupAmounts(items, g) == [] <==> forall i :: 0 <= i < |items| ==> StepOfKind(items[i].dose.kind) != g
  {
    if items != [] {
      GroupAmountsEmpty(items[1..], g);
      assert forall i :: 1 <= i < |items| ==> items[i] == items[1..][i - 1];
    }
  }

  /** A name is among a group's amounts exactly when some nutrient of that name belongs to the
      group; its line then carries that nutrient's amount and unit. */
  lemma {:induction false} GroupAmountsHas(items: Nutrients, g: nat, j: nat)
    requires AmountsPresent(items) && Distinct(Names(items)) && j < |items|
    ensures var a := GroupAmounts(items, g);
            var line := AmountLine(items[j].name, items[j].dose.amount.value, items[j].dose.unit.GetOr("ml"));
            && (StepOfKind(items[j].dose.kind) == g ==> line in a)
            && (StepOfKind(items[j].dose.kind) != g ==> forall k :: 0 <= k < |a| ==> a[k].name != items[j].name)
  {
    var rest := items[1..];
    assert Names(items) == [items[0].name] + Names(rest);
    DistinctTail(Names(items));
    if j > 0 {
      assert items[j] == rest[j - 1];
      GroupAmountsHas(rest, g, j - 1);
    } else if StepOfKind(items[0].dose.kind) != g {
      GroupAmountsNames(rest, g);
    }
  }

  /** The names of a group's amounts are names of the nutrients. */
  lemma {:induction false} GroupAmountsNames(items: Nutrients, g: nat)
    requires AmountsPresent(items)
    ensures forall k :: 0 <= k < |GroupAmounts(items, g)| ==> GroupAmounts(items, g)[k].name in Names(items)
  {
    if items != [] {
      var rest := items[1..];
      GroupAmountsNames(rest, g);
      assert Names(items) == [items[0].name] + Names(rest);
    }
  }

  /** The step numbers, read off the list. */
  function StepNumbers(r: seq<MixStep>): (ns: seq<nat>)
    ensures |ns| == |r| && forall i :: 0 <= i < |r| ==> ns[i] == StepNumber(r[i])
  {
    if r == [] then [] else [StepNumber(r[0])] + StepNumbers(r[1..])
  }

  predicate StrictlyIncreasingNats(ns: seq<nat>) {
    forall i, j :: 0 <= i < j < |ns| ==> ns[i] < ns[j]
  }

  /** The step list of a recipe whose amounts are all present: steps 1, 2 and 3 first, step 8
      last, the step numbers strictly increasing, and each of steps 4-7 present exactly when a
      nutrient of its group is. */
  lemma StepsInOrder(nutrients: Option<Nutrients>, size: Option<real>, targetEc: Option<string>,
                     targetPh: Option<string>)
    requires AmountsPresent(nutrients.GetOr([]))
    ensures var r := GenerateMixingInstructions(nutrients, size, targetEc, targetPh);
            && |r| >= 4
            && StepNumber(r[0]) == 1 && StepNumber(r[1]) == 2 && StepNumber(r[2]) == 3
            && StepNumber(r[|r| - 1]) == 8
            && StrictlyIncreasingNats(StepNumbers(r))
  {
    var items := nutrients.GetOr([]);
    var ec := targetEc.GetOr("See feeding chart");
    var s4, s5, s6, s7 := GroupStep(items, 4, ec), GroupStep(items, 5, ec), GroupStep(items, 6, ec), GroupStep(items, 7, ec);
    GroupStepShape(items, 4, ec);
    GroupStepShape(items, 5, ec);
    GroupStepShape(items, 6, ec);
    GroupStepShape(items, 7, ec);
    var head := [Preparation, WaterPreparation(size.GetOr(0.0)), InitialPhAdjustment];
    var last := [FinalAdjustments(targetPh.GetOr("5.8-6.2"), ec)];
    ConcatenatedSteps(head, s4, s5, s6, s7, last);
  }

  /** The numbers of head, steps 4-7 (each present at most once) and the final step increase. */
  lemma ConcatenatedSteps(head: seq<MixStep>, s4: seq<MixStep>, s5: seq<MixStep>, s6: seq<MixStep>,
                          s7: seq<MixStep>, last: seq<MixStep>)
    requires |head| == 3 && (forall k :: 0 <= k < 3 ==> StepNumber(head[k]) == k + 1)
    requires |s4| <= 1 && |s5| <= 1 && |s6| <= 1 && |s7| <= 1 && |last| == 1
    requires (s4 != [] ==> StepNumber(s4[0]) == 4) && (s5 != [] ==> StepNumber(s5[0]) == 5)
    requires (s6 != [] ==> StepNumber(s6[0]) == 6) && (s7 != [] ==> StepNumber(s7[0]) == 7)
    requires StepNumber(last[0]) == 8
    ensures var r := head + s4 + s5 + s6 + s7 + last;
            && |r| >= 4
            && StepNumber(r[0]) == 1 && StepNumber(r[1]) == 2 && StepNumber(r[2]) == 3
            && StepNumber(r[|r| - 1]) == 8
            && StrictlyIncreasingNats(StepNumbers(r))
  {
    var r := head + s4 + s5 + s6 + s7 + last;
    var ns := StepNumbers(r);
    StepPositions(head, s4, s5, s6, s7, last, 0);
    StepPositions(head, s4, s5, s6, s7, last, 1);
    StepPositions(head, s4, s5, s6, s7, last, 2);
    StepPositions(head, s4, s5, s6, s7, last, |r| - 1);
    forall i, j | 0 <= i < j < |ns| ensures ns[i] < ns[j] {
      StepPositions(head, s4, s5, s6, s7, last, i);
      StepPositions(head, s4, s5, s6, s7, last, j);
      RankIncreasing(i, j, |s4|, |s5|, |s6|, |s7|);
    }
  }

  lemma RankIncreasing(i: nat, j: nat, n4: nat, n5: nat, n6: nat, n7: nat)
    requires n4 <= 1 && n5 <= 1 && n6 <= 1 && n7 <= 1 && i < j < 4 + n4 + n5 + n6 + n7
    ensures Rank(i, n4, n5, n6, n7) < Rank(j, n4, n5, n6, n7)
  {
  }

  /** Where entry `i` of the concatenated list comes from, and hence a bound on its number in
      terms of its position. */
  lemma StepPositions(head: seq<MixStep>, s4: seq<MixStep>, s5: seq<MixStep>, s6: seq<MixStep>,
                      s7: seq<MixStep>, last: seq<MixStep>, i: nat)
    requires |head| == 3 && (forall k :: 0 <= k < 3 ==> StepNumber(head[k]) == k + 1)
    requires |s4| <= 1 && |s5| <= 1 && |s6| <= 1 && |s7| <= 1 && |last| == 1
    requires (s4 != [] ==> StepNumber(s4[0]) == 4) && (s5 != [] ==> StepNumber(s5[0]) == 5)
    requires (s6 != [] ==> StepNumber(s6[0]) == 6) && (s7 != [] ==> StepNumber(s7[0]) == 7)
    requires StepNumber(last[0]) == 8
    requires i < |head + s4 + s5 + s6 + s7 + last|
    ensures var r := head + s4 + s5 + s6 + s7 + last;
            StepNumber(r[i]) == Rank(i, |s4|, |s5|, |s6|, |s7|)
  {
  }

  /** The step number found at position `i` when steps 4-7 are present or not as the lengths say. */
  function Rank(i: nat, n4: nat, n5: nat, n6: nat, n7: nat): nat {
    if i < 3 then i + 1
    else if i < 3 + n4 then 4
    else if i < 3 + n4 + n5 then 5
    else if i < 3 + n4 + n5 + n6 then 6
    else if i < 3 + n4 + n5 + n6 + n7 then 7
    else 8
  }

  /** Some step of `r` has number `g`. */
  predicate HasStep(r: seq<MixStep>, g: nat) {
    exists i :: 0 <= i < |r| && StepNumber(r[i]) == g
  }

  /** Steps 4-7 are present as their parts of the list are. */
  lemma PresentSteps(head: seq<MixStep>, s4: seq<MixStep>, s5: seq<MixStep>, s6: seq<MixStep>,
                     s7: seq<MixStep>, last: seq<MixStep>)
    requires |head| == 3 && (forall k :: 0 <= k < 3 ==> StepNumber(head[k]) == k + 1)
    requires |s4| <= 1 && |s5| <= 1 && |s6| <= 1 && |s7| <= 1 && |last| == 1
    requires (s4 != [] ==> StepNumber(s4[0]) == 4) && (s5 != [] ==> StepNumber(s5[0]) == 5)
    requires (s6 != [] ==> StepNumber(s6[0]) == 6) && (s7 != [] ==> StepNumber(s7[0]) == 7)
    requires StepNumber(last[0]) == 8
    ensures var r := head + s4 + s5 + s6 + s7 + last;
            && (HasStep(r, 4) <==> s4 != []) && (HasStep(r, 5) <==> s5 != [])
            && (HasStep(r, 6) <==> s6 != []) && (HasStep(r, 7) <==> s7 != [])
  {
    var r := head + s4 + s5 + s6 + s7 + last;
    forall g | 4 <= g <= 7 && HasStep(r, g)
      ensures (g == 4 ==> s4 != []) && (g == 5 ==> s5 != []) && (g == 6 ==> s6 != []) && (g == 7 ==> s7 != [])
    {
      var i :| 0 <= i < |r| && StepNumber(r[i]) == g;
      StepPositions(head, s4, s5, s6, s7, last, i);
    }
    var n := [3, 3 + |s4|, 3 + |s4| + |s5|, 3 + |s4| + |s5| + |s6|];
    forall g | 4 <= g <= 7 && [s4, s5, s6, s7][g - 4] != [] ensures HasStep(r, g) {
      StepPositions(head, s4, s5, s6, s7, last, n[g - 4]);
    }
  }

  /** Step 4 is present exactly when some nutrient has type silica, step 5 calmag, step 6 micro,
      grow or bloom, and step 7 any other type or none. */
  lemma StepPresence(nutrients: Option<Nutrients>, size: Option<real>, targetEc: Option<string>,
                     targetPh: Option<string>)
    requires AmountsPresent(nutrients.GetOr([]))
    ensures var r := GenerateMixingInstructions(nutrients, size, targetEc, targetPh);
            var items := nutrients.GetOr([]);
            && (HasStep(r, 4) <==> exists j :: 0 <= j < |items| && items[j].dose.kind == Some("silica"))
            && (HasStep(r, 5) <==> exists j :: 0 <= j < |items| && items[j].dose.kind == Some("calmag"))
            && (HasStep(r, 6) <==> exists j :: 0 <= j < |items| &&
                                     items[j].dose.kind in {Some("micro"), Some("grow"), Some("bloom")})
            && (HasStep(r, 7) <==> exists j :: 0 <= j < |items| &&
                                     items[j].dose.kind !in {Some("silica"), Some("calmag"), Some("micro"),
                                                             Some("grow"), Some("bloom")})
  {
    var items := nutrients.GetOr([]);
    var ec := targetEc.GetOr("See feeding chart");
    GroupStepShape(items, 4, ec);
    GroupStepShape(items, 5, ec);
    GroupStepShape(items, 6, ec);
    GroupStepShape(items, 7, ec);
    PresentSteps([Preparation, WaterPreparation(size.GetOr(0.0)), InitialPhAdjustment],
                 GroupStep(items, 4, ec), GroupStep(items, 5, ec), GroupStep(items, 6, ec), GroupStep(items, 7, ec),
                 [FinalAdjustments(targetPh.GetOr("5.8-6.2"), ec)]);
  }

  /** The step at position `i` with a number from 4 to 7 is the one of that group. */
  lemma StepAt(head: seq<MixStep>, s4: seq<MixStep>, s5: seq<MixStep>, s6: seq<MixStep>,
               s7: seq<MixStep>, last: seq<MixStep>, i: nat)
    requires |head| == 3 && (forall k :: 0 <= k < 3 ==> StepNumber(head[k]) == k + 1)
    requires |s4| <= 1 && |s5| <= 1 && |s6| <= 1 && |s7| <= 1 && |last| == 1
    requires (s4 != [] ==> StepNumber(s4[0]) == 4) && (s5 != [] ==> StepNumber(s5[0]) == 5)
    requires (s6 != [] ==> StepNumber(s6[0]) == 6) && (s7 != [] ==> StepNumber(s7[0]) == 7)
    requires StepNumber(last[0]) == 8
    requires i < |head + s4 + s5 + s6 + s7 + last|
    ensures var r := head + s4 + s5 + s6 + s7 + last;
            && (StepNumber(r[i]) == 4 ==> s4 != [] && r[i] == s4[0])
            && (StepNumber(r[i]) == 5 ==> s5 != [] && r[i] == s5[0])
            && (StepNumber(r[i]) == 6 ==> s6 != [] && r[i] == s6[0])
            && (StepNumber(r[i]) == 7 ==> s7 != [] && r[i] == s7[0])
  {
    StepPositions(head, s4, s5, s6, s7, last, i);
  }

  /** Every nutrient is listed, with its amount and unit, in the one step of its group, and in
      the `amounts` of no other step. */
  lemma NutrientInItsStep(nutrients: Option<Nutrients>, size: Option<real>, targetEc: Option<string>,
                          targetPh: Option<string>, j: nat, i: nat)
    requires AmountsPresent(nutrients.GetOr([])) && Distinct(Names(nutrients.GetOr([])))
    requires j < |nutrients.GetOr([])|
    requires i < |GenerateMixingInstructions(nutrients, size, targetEc, targetPh)|
    ensures var r := GenerateMixingInstructions(nutrients, size, targetEc, targetPh);
            var it := nutrients.GetOr([])[j];
            && HasStep(r, StepOfKind(it.dose.kind))
            && (StepNumber(r[i]) == StepOfKind(it.dose.kind) ==>
                  AmountLine(it.name, it.dose.amount.value, it.dose.unit.GetOr("ml")) in StepAmounts(r[i]))
            && (StepNumber(r[i]) != StepOfKind(it.dose.kind) ==>
                  forall k :: 0 <= k < |StepAmounts(r[i])| ==> StepAmounts(r[i])[k].name != it.name)
  {
    var items := nutrients.GetOr([]);
    var ec := targetEc.GetOr("See feeding chart");
    var head := [Preparation, WaterPreparation(size.GetOr(0.0)), InitialPhAdjustment];
    var last := [FinalAdjustments(targetPh.GetOr("5.8-6.2"), ec)];
    var g := StepOfKind(items[j].dose.kind);
    GroupStepShape(items, 4, ec);
    GroupStepShape(items, 5, ec);
    GroupStepShape(items, 6, ec);
    GroupStepShape(items, 7, ec);
    var s4, s5, s6, s7 := GroupStep(items, 4, ec), GroupStep(items, 5, ec), GroupStep(items, 6, ec), GroupStep(items, 7, ec);
    PresentSteps(head, s4, s5, s6, s7, last);
    StepAt(head, s4, s5, s6, s7, last, i);
    var n := StepNumber(GenerateMixingInstructions(nutrients, size, targetEc, targetPh)[i]);
    if 4 <= n <= 7 {
      GroupAmountsHas(items, n, j);
    }
  }

  /** Step 2 fills `size` gallons (0 when absent); step 8 aims at `target_ph` (default
      "5.8-6.2") and `target_ec` (default "See feeding chart"), as does step 6. */
  lemma StepSettings(nutrients: Option<Nutrients>, size: Option<real>, targetEc: Option<string>,
                     targetPh: Option<string>, i: nat)
    requires AmountsPresent(nutrients.GetOr([]))
    requires i < |GenerateMixingInstructions(nutrients, size, targetEc, targetPh)|
    ensures var r := GenerateMixingInstructions(nutrients, size, targetEc, targetPh);
            && r[1] == WaterPreparation(if size.Some? then size.value else 0.0)
            && r[|r| - 1] == FinalAdjustments(if targetPh.Some? then targetPh.value else "5.8-6.2",
                                               if targetEc.Some? then targetEc.value else "See feeding chart")
            && (r[i].AddBaseNutrients? ==>
                  r[i].targetEc == if targetEc.Some? then targetEc.value else "See feeding chart")
  {
    var items := nutrients.GetOr([]);
    var ec := targetEc.GetOr("See feeding chart");
    var head := [Preparation, WaterPreparation(size.GetOr(0.0)), InitialPhAdjustment];
    var last := [FinalAdjustments(targetPh.GetOr("5.8-6.2"), ec)];
    GroupStepShape(items, 4, ec);
    GroupStepShape(items, 5, ec);
    GroupStepShape(items, 6, ec);
    GroupStepShape(items, 7, ec);
    var s4, s5, s6, s7 := GroupStep(items, 4, ec), GroupStep(items, 5, ec), GroupStep(items, 6, ec), GroupStep(items, 7, ec);
    StepAt(head, s4, s5, s6, s7, last, i);
  }
}
