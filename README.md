# Hydroponic nutrient calculator: recipe table, dose calculation and mixing protocol

This project models, in Dafny, the computational core of a Streamlit hydroponics nutrient
calculator. It covers two classes.

`RecipeManager` (nutrient_calculator.py) provides:
- the constant brand catalog: six nutrient lines, each with base nutrients and, for two of them, supplements;
- the dose calculation `calculate_nutrients`, which always reads the General Hydroponics tables;
- `NutrientCalculatorUI.calculate_recipe`, which calls it and then writes each entry's `type` from the chosen line;
- the generator of the eight-step mixing instructions;
- the in-memory recipe table with its session counter: save, save with metadata, get, list, delete, duplicate, add a result, export and import, strains, tags, and filtered history.

`RecipeInstructions` (recipe_instructions.py) provides:
- the stable sort of a recipe by mixing order;
- the classifier from product name to type;
- the warning table;
- the EC band;
- the sequence of step cards that `display_instructions` shows.

Modules:
- `Common`: optional values, Python's `<` on `str`, `sorted(set(xs))`, the substring test and ASCII lower-casing.
- `Catalog`: the brand catalog as constants.
- `Doses`: recipe entries and `calculate_nutrients`. Its keys, per-entry doses and amounts are proved for any product tables meeting `ValidTables`: the dosed supplement names are distinct, none of them is a base nutrient name, and every max_strength is positive. The results are then applied to the General Hydroponics tables, which meet these conditions (`GhTablesValid`).
- `NutrientCalculatorUI`: `calculate_recipe`.
- `Mixing`: `generate_mixing_instructions`. Proved: the step order, which conditional steps appear, and that every nutrient falls in exactly its step.
- `Recipes`: the recipe table. Each operation is a function on a `Table` value, with its properties proved as lemmas. The class `RecipeManager` keeps the table in mutable fields, and each method's postcondition equates its new state (and result) with the function's.
- `RecipeInstructions`: the renderer's logic without its HTML.

A Python dictionary with a fixed set of keys is a datatype. A key that may be absent is an `Option` field. An insertion-ordered dictionary is a sequence with distinct names. Exceptions that the source catches become the value it then returns.

## Model

| member | source | states |
|---|---|---|
| Catalog.Find | nutrient_calculator.py:759-760 | `get` on a product table returns a product of that name exactly when some entry has the name. |
| Catalog.FindAt | nutrient_calculator.py:22-312 | In a table with distinct names, looking up an entry's name gives that entry's own product. |
| Catalog.FindLineInAt | nutrient_calculator.py:22-312 | A nutrient line is found by its name when no earlier line has that name. |
| Catalog.FindLine | nutrient_calculator.py:817 | `nutrient_lines[line]`: FindLineInAt shows each listed line is found by its own name; an unknown name gives None, the KeyError. |
| Doses.Put | nutrient_calculator.py:764-771 | Assigning `recipe[name]` appends a new name at the end, keeps an existing name in its place, and changes only that entry. |
| Doses.PutDistinct | nutrient_calculator.py:764-771 | Assigning a dictionary key never creates a duplicate key. |
| Doses.StageMultiplier | nutrient_calculator.py:743-754 | Every growth-stage multiplier is between 0 and 1; it is 0 exactly for "Flush", and 1.0 for a stage not in the table. |
| Doses.Gallons | nutrient_calculator.py:740 | A non-negative reservoir size gives a non-negative number of gallons in either unit system. |
| Doses.CalculateNutrients | nutrient_calculator.py:734-790 | The result has no repeated key. |
| Doses.CalculateFrom | nutrient_calculator.py:734-790 | The calculation over any product tables; CalculateFromKeys, CalculateFromDoses and AmountAt state its keys, doses and amounts. |
| Doses.AddBaseNutrientsNames | nutrient_calculator.py:758-771 | After the first loop the keys are the selected base nutrients, each once, in the order of their first selection. |
| Doses.AddSupplementsSpec | nutrient_calculator.py:773-784 | The second loop appends exactly the supplements of type calmag, silica or pk_boost, in table order, each with its own dose. |
| Doses.CalculateFromKeys | nutrient_calculator.py:758-784 | The keys are the selected base nutrients in first-selection order, then every dosed supplement, whatever was selected. |
| Doses.CalculateFromDoses | nutrient_calculator.py:758-784 | Each entry holds the catalog's dose for its name: the base nutrient's when the name is one, otherwise the dosed supplement's. |
| Doses.KeyIsCataloged | nutrient_calculator.py:758-784 | Every key is a base nutrient or a dosed supplement of the tables. |
| Doses.DoseForAmount | nutrient_calculator.py:756-776 | A cataloged name's amount is its max_strength times the final strength times the gallons. |
| Doses.AmountAt | nutrient_calculator.py:754-776 | Every amount is max_strength × (strength / 100) × stage multiplier × gallons, and that max_strength is positive. |
| Doses.FlushGivesZero | nutrient_calculator.py:752-755 | In the Flush stage every amount is 0, whatever the size and strength. |
| Doses.AmountsNonNegative | nutrient_calculator.py:755-776 | With non-negative size and strength every entry has an amount and none is negative. |
| Doses.KeysIndependentOfAmounts | nutrient_calculator.py:758-784 | The keys depend only on the selection, not on size, strength, stage or unit system. |
| Doses.AmountScalesWithSize | nutrient_calculator.py:740-776 | Scaling the reservoir size by k keeps the keys and scales every amount by k. |
| Doses.GallonsScale | nutrient_calculator.py:740 | The gallon conversion is linear in the size. |
| Doses.KindAt | nutrient_calculator.py:759-780 | The `type` stored for a key is its product's type in the table it came from. |
| Doses.GhDosedEntries | nutrient_calculator.py:96-236 | The General Hydroponics supplements of type calmag, silica or pk_boost are CaliMagic, Armor Si and Liquid KoolBloom, in that order. |
| Doses.GhBaseNames | nutrient_calculator.py:70-94 | The General Hydroponics base nutrients are Flora Micro, Flora Grow and Flora Bloom. |
| Doses.GhTablesValid | nutrient_calculator.py:68-236 | The General Hydroponics tables have distinct dosed supplements, none of them a base nutrient, and positive max_strength values. |
| Doses.GhSupplementsDistinct | nutrient_calculator.py:96-236 | The General Hydroponics supplement names are distinct. |
| Doses.CalculateNutrientsKeys | nutrient_calculator.py:758-784 | calculate_nutrients' keys are the selected General Hydroponics base nutrients, then CaliMagic, Armor Si and Liquid KoolBloom. |
| Doses.CalculateNutrientsFlush | nutrient_calculator.py:752-755 | calculate_nutrients gives 0 ml of every product in the Flush stage. |
| Doses.InSelectionOrderUnique | nutrient_calculator.py:758-771 | A key list in first-selection order is determined by its set of names. |
| NutrientCalculatorUI.Annotate | nutrient_calculator.py:823-828 | The type annotation fails exactly when the line has no supplements table and some key is not one of its base nutrients. Otherwise it keeps every key in place and sets each type from the line's base or supplement table, keeping the type when neither lists the name. |
| NutrientCalculatorUI.CalculateRecipe | nutrient_calculator.py:811-835 | calculate_recipe; UnknownLineGivesEmpty, LinesWithoutSupplementsGiveEmpty, GhRecipeIsCalculation and GenericRecipeIsSupplementsOnly state its result per line. |
| NutrientCalculatorUI.RecipeFor | nutrient_calculator.py:813-830 | calculate_recipe for a found line; NoSupplementsGivesEmpty and OwnTablesUnchanged state its result. |
| NutrientCalculatorUI.AnnotateUnchanged | nutrient_calculator.py:823-828 | An annotation that agrees with every current type leaves the recipe unchanged. |
| NutrientCalculatorUI.UnknownLineGivesEmpty | nutrient_calculator.py:811-835 | An unknown nutrient line gives `{}`. |
| NutrientCalculatorUI.AnnotateFailsAt | nutrient_calculator.py:825-828 | On a line without supplements, one key that is not a base nutrient makes the annotation fail. |
| NutrientCalculatorUI.CaliMagicFails | nutrient_calculator.py:773-828 | CaliMagic is always a key, so the annotation fails on a line without supplements that does not list CaliMagic. |
| NutrientCalculatorUI.NoSupplementsGivesEmpty | nutrient_calculator.py:811-835 | calculate_recipe gives `{}` for such a line. |
| NutrientCalculatorUI.LinesWithoutSupplements | nutrient_calculator.py:238-311 | Advanced Nutrients, Athena, House & Garden and Canna are found by name, have no supplements table and do not list CaliMagic. |
| NutrientCalculatorUI.LinesWithoutSupplementsGiveEmpty | nutrient_calculator.py:811-835 | calculate_recipe returns `{}` for Advanced Nutrients, Athena, House & Garden and Canna. |
| NutrientCalculatorUI.OwnTablesUnchanged | nutrient_calculator.py:823-828 | When the line's own tables are the ones calculated from, the annotation changes nothing. |
| NutrientCalculatorUI.GhRecipeIsCalculation | nutrient_calculator.py:811-835 | For General Hydroponics, calculate_recipe equals calculate_nutrients on its base nutrients at strength × 100. |
| NutrientCalculatorUI.GenericNamesApart | nutrient_calculator.py:25-94 | No Generic base nutrient is a General Hydroponics one, and no dosed supplement is a Generic product. |
| NutrientCalculatorUI.GenericRecipeIsSupplementsOnly | nutrient_calculator.py:811-835 | For the Generic line, calculate_recipe holds only CaliMagic, Armor Si and Liquid KoolBloom, with their types unchanged. |
| Mixing.StepOfKind | nutrient_calculator.py:409-474 | Each nutrient type selects one of steps 4-7: silica step 4, calmag step 5, micro, grow or bloom step 6, and any other or missing type step 7. |
| Mixing.GroupAmountsEmpty | nutrient_calculator.py:409-497 | A step's amounts are empty exactly when no nutrient belongs to its group. |
| Mixing.GenerateMixingInstructions | nutrient_calculator.py:343-528 | The instructions are empty exactly when some nutrient has no amount; that case is the exception path. |
| Mixing.GroupStepShape | nutrient_calculator.py:409-500 | A conditional step appears, at most once, exactly when some nutrient belongs to it, and then carries that group's amounts. |
| Mixing.GroupAmountsHas | nutrient_calculator.py:410-494 | With distinct names, a nutrient of the group appears among the step's amounts, and a nutrient outside the group does not. |
| Mixing.StepsInOrder | nutrient_calculator.py:349-522 | Steps 1, 2 and 3 come first and step 8 last, and the step numbers strictly increase. |
| Mixing.StepPresence | nutrient_calculator.py:409-497 | Step 4, 5, 6 or 7 is present iff some nutrient has type silica, calmag, micro/grow/bloom, or any other or missing type, respectively. |
| Mixing.NutrientInItsStep | nutrient_calculator.py:409-497 | Every nutrient's type selects a step that is present, its amount line appears in that step, and in no other conditional step. |
| Mixing.StepSettings | nutrient_calculator.py:375-513 | Step 2 uses the recipe's size (0 by default). Step 8 uses the target pH ("5.8-6.2" by default) and target EC ("See feeding chart" by default). The base-nutrient step shows that same target EC. |
| Recipes.RemoveName | nutrient_calculator.py:588-589 | After `del`, the key list holds every other name and not this one, and an absent name leaves it as it was. |
| Recipes.RemoveNameAt | nutrient_calculator.py:588-589 | In a duplicate-free key list, deleting the name at position i gives the list without position i: the other names keep their order. |
| Recipes.Get | nutrient_calculator.py:578-580 | get_recipe; SaveSpec, DeleteSpec and the other write lemmas state what it returns after each write. |
| Recipes.List | nutrient_calculator.py:582-584 | list_recipes, the key list in insertion order; the write lemmas state how each write changes it. |
| Recipes.Save | nutrient_calculator.py:320-341 | save_recipe; SaveSpec states its contract. |
| Recipes.SaveWithMetadata | nutrient_calculator.py:644-670 | save_recipe_with_metadata; SaveWithMetadataSpec states its contract. |
| Recipes.Delete | nutrient_calculator.py:586-592 | delete_recipe; DeleteSpec states its contract. |
| Recipes.AddResult | nutrient_calculator.py:672-689 | add_recipe_result; AddResultSpec states its contract. |
| Recipes.Duplicate | nutrient_calculator.py:717-732 | duplicate_recipe; DuplicateSpec states its contract. |
| Recipes.Export | nutrient_calculator.py:691-703 | export_recipe, as the record it serialises; ExportSpec states its contract and ExportImportRoundTrip its round trip with import. |
| Recipes.Import | nutrient_calculator.py:705-715 | import_recipe on the parsed record; ImportSpec states its contract and ExportImportRoundTrip its round trip with export. |
| Recipes.SaveSpec | nutrient_calculator.py:320-341 | A save fails and changes nothing unless the name and data are non-empty and the counter exists. On success it stores the stamped record under the name, replacing rather than adding a key. The record's id is the old counter + 1, the counter grows by exactly 1, and every other name keeps its recipe. |
| Recipes.SavedRecipeKeepsData | nutrient_calculator.py:327-331 | The stored record is the given data with `created_at`, `recipe_id` and the mixing instructions of that data added, and nothing else changed. |
| Recipes.SaveWithMetadataSpec | nutrient_calculator.py:644-670 | This method has save_recipe's guard and table effect. Its record is `recipe_data` with the mixing instructions generated from that data, version 1, empty results, the given strain, the given tags (`[]` for None), the new id and both timestamps; every other field is the data's. |
| Recipes.DeleteSpec | nutrient_calculator.py:586-592 | delete returns true iff the name was listed, and otherwise changes nothing. Afterwards the name is gone, the key list is the old one without that position, and every other recipe and the counter are unchanged. |
| Recipes.AddResultSpec | nutrient_calculator.py:672-689 | An unknown name fails and changes nothing. Otherwise the dated result is appended to that recipe's results (created empty when absent), and nothing else changes. |
| Recipes.DuplicateSpec | nutrient_calculator.py:717-732 | A missing source fails. Otherwise the copy is saved under the new name, failing only for an empty name or a missing counter. Any failure changes nothing. On success the counter grows by 1 and the new name is listed (last when new). The copy has the new id and time, version 1, empty results and `duplicated_from` set to the source, and otherwise equals the source apart from the save's stamps. Every recipe other than the new name is unchanged. |
| Recipes.ExportSpec | nutrient_calculator.py:691-703 | export_recipe gives None exactly for an unknown name, and otherwise the stored recipe with only `exported_at` set to the time. |
| Recipes.ImportSpec | nutrient_calculator.py:705-715 | import_recipe succeeds exactly when the text parses, the name is non-empty and the counter exists; any failure changes nothing. On success the stored record is the parsed one with `imported_at`, `version` (1 when absent) and the save's `created_at`, id and instructions set; the counter grows by 1, the name is listed (last when new), and every other recipe is unchanged. |
| Recipes.ExportImportRoundTrip | nutrient_calculator.py:691-715 | Importing an exported recipe under a new name succeeds, bumps the counter and lists the name. The stored copy equals the source in every field except `exported_at`, `imported_at`, `version` (the source's, 1 when absent) and the new save's `created_at`, `recipe_id` and mixing instructions (generated from the source's own fields). Every other recipe is unchanged. |
| Recipes.StrainValues | nutrient_calculator.py:597-600 | The collected strains are exactly the values stored under 'strain'. |
| Recipes.TagValues | nutrient_calculator.py:609-612 | The collected tags are exactly the tags of the recipes that have a 'tags' key. |
| Recipes.AllStrainsSpec | nutrient_calculator.py:594-604 | With no None strain, get_all_strains lists each strain of the table once, in increasing order. |
| Recipes.AllStrainsWithNone | nutrient_calculator.py:594-604 | A None strain gives `[None]` when it is the only value, and `[]` (the failed sort) beside any string strain. |
| Recipes.AllTagsSpec | nutrient_calculator.py:606-616 | get_all_tags lists each tag of the table once, in increasing order. |
| Recipes.AllStrains | nutrient_calculator.py:594-604 | get_all_strains; AllStrainsSpec and AllStrainsWithNone state its result. |
| Recipes.AllTags | nutrient_calculator.py:606-616 | get_all_tags; AllTagsSpec states its result. |
| Recipes.Filtered | nutrient_calculator.py:621-634 | Each filtered entry is a listed recipe that passes every supplied filter, copied with its 'name' key set to its own name. |
| Recipes.InsertByDateStable | nutrient_calculator.py:637-639 | Inserting an entry adds it to its own timestamp's group, at the front, and changes no other group. |
| Recipes.SortNewestFirstSpec | nutrient_calculator.py:637-639 | The history sort is a permutation, has the newest first, and keeps the order of entries with equal `created_at`. |
| Recipes.HistorySpec | nutrient_calculator.py:618-642 | get_recipe_history returns exactly the entries that match every filter, each once and with its 'name' key set to its name, newest first, with ties in table order. |
| Recipes.FilteredOnce | nutrient_calculator.py:621-634 | A matching recipe occurs exactly once among the filtered entries. |
| Recipes.SortNewestFirst | nutrient_calculator.py:637-639 | The history sort; SortNewestFirstSpec states its contract. |
| Recipes.History | nutrient_calculator.py:618-642 | get_recipe_history; HistorySpec states its contract. |
| Recipes.RecipeManager.constructor | nutrient_calculator.py:17-20 | A new manager has an empty table and the session's counter. |
| Recipes.RecipeManager.SaveRecipe | nutrient_calculator.py:320-341 | The method updates the fields in place. Its result and new state are those of `Save`, and the names list stays the duplicate-free key list. |
| Recipes.RecipeManager.SaveRecipeWithMetadata | nutrient_calculator.py:644-670 | Its result and new state are those of `SaveWithMetadata`. |
| Recipes.RecipeManager.DeleteRecipe | nutrient_calculator.py:586-592 | Its result and new state are those of `Delete`. |
| Recipes.RecipeManager.AddRecipeResult | nutrient_calculator.py:672-689 | Its result and new state are those of `AddResult`. |
| Recipes.RecipeManager.DuplicateRecipe | nutrient_calculator.py:717-732 | Its result and new state are those of `Duplicate`. |
| Recipes.RecipeManager.ImportRecipe | nutrient_calculator.py:704-715 | Its result and new state are those of `Import` on the parsed record. |
| RecipeInstructions.MixingOrder | recipe_instructions.py:213-223 | silica, calmag, micro, grow, bloom, pk_boost and supplement rank 1 to 7 by their position in that list; every other type ranks 999. |
| RecipeInstructions.SortByMixingOrder | recipe_instructions.py:225-228 | The mixing-order sort; SortByMixingOrderSpec and MixingPrecedence state its contract. |
| RecipeInstructions.SortByMixingOrderSpec | recipe_instructions.py:225-228 | The sorted recipe is a permutation of the recipe in non-decreasing mixing order, and entries of equal rank keep their input order. |
| RecipeInstructions.InsertByOrderStable | recipe_instructions.py:225-228 | Inserting an entry extends only its own rank's group, at the front. |
| RecipeInstructions.MixingPrecedence | recipe_instructions.py:213-228 | For any input order, an entry whose type comes earlier in silica, calmag, micro, grow, bloom, pk_boost is shown before one whose type comes later. |
| RecipeInstructions.MissingTypeIsSupplement | recipe_instructions.py:227 | An entry without a type is ranked as 'supplement'. |
| RecipeInstructions.DetermineNutrientType | recipe_instructions.py:311-327 | The classifier returns one of calmag, micro, grow, bloom, silica, pk_boost or supplement. |
| RecipeInstructions.DetermineNutrientTypeIsFirstMatch | recipe_instructions.py:311-327 | The classifier gives the type of the first rule, in priority order, whose words occur in the lower-cased name, and 'supplement' when no rule applies. The rule table is a second form of the same rules, not an independent definition. |
| RecipeInstructions.DetermineNutrientTypeIgnoresCase | recipe_instructions.py:313 | Lower-casing the name first does not change its type. |
| RecipeInstructions.DeterminedKindsAreOrdered | recipe_instructions.py:213-327 | Every classified type has one of the seven mixing ranks, never 999. |
| RecipeInstructions.WarningSpec | recipe_instructions.py:292-309 | A known type gets its table warning and an unknown one "Monitor solution for any reactions". With no type, the name's class decides and the default never appears. |
| RecipeInstructions.GetWarningForNutrient | recipe_instructions.py:292-309 | _get_warning_for_nutrient; WarningSpec states its result. |
| RecipeInstructions.DeterminedHaveWarnings | recipe_instructions.py:298-327 | Every class the name classifier can produce has its own warning, different from the default. |
| RecipeInstructions.EcRangeSpec | recipe_instructions.py:329-346 | An empty recipe and a base count up to 2 give "1.0-1.4", a count of 3 gives "1.2-1.8", and more gives "1.4-2.0". |
| RecipeInstructions.GetEcRange | recipe_instructions.py:329-346 | _get_ec_range; EcRangeSpec and EcBandMonotone state its result. |
| RecipeInstructions.EcBandMonotone | recipe_instructions.py:338-343 | The EC band never falls as the micro/grow/bloom count rises. |
| RecipeInstructions.BaseCountIsStepSix | recipe_instructions.py:335-336 | The count of micro, grow and bloom entries equals the number of amounts that nutrient_calculator.py:449-467 puts in mixing step 6. |
| RecipeInstructions.AddSteps | recipe_instructions.py:251-257 | There is one "Add" card per entry, in order, with its amount, unit ('ml' by default), notes ('' by default) and warning. |
| RecipeInstructions.DisplayInstructionsSpec | recipe_instructions.py:194-290 | An empty recipe shows nothing. Otherwise there are 8 + n cards: the four preparation steps, one "Add" card per entry in mixing order, and the four final steps. The panel shows the recipe's EC band and pH 5.8-6.2. |
| RecipeInstructions.DisplayInstructions | recipe_instructions.py:194-290 | display_instructions as the cards it shows; DisplayInstructionsSpec states its result. |

## Left out

- Streamlit output is not modelled: `st.*` calls, CSS, HTML step cards, the print button and logging. `display_instructions` is modelled as the sequence of cards it shows and the values in its target panel.
- The write-back of the table to `st.session_state.saved_recipes` after each change is session I/O and is not modelled; the table is the object's own state.
- Timestamps are a `now` parameter of each operation. One call's two `datetime.now()` readings are taken as equal.
- JSON is not modelled. Export returns the stamped record, and import takes the parsed record, or None when the text does not parse. The encoding is assumed to round-trip.
- Doses.CalculateNutrients: rounding is dropped, so amounts are the unrounded reals. AmountScalesWithSize and FlushGivesZero hold for the unrounded value, and only approximately for the figure `round(x, 1)` shows. The text of `per_unit` is not modelled either: the per-gallon rate is kept as a real. The litre-to-gallon factor 0.264172 is kept as given.
- Doses.CalculateNutrients: `strain_info` is accepted by the source and never read, so it is not a parameter.
- Mixing.GenerateMixingInstructions: only each step's number, amounts and settings are modelled. The fixed titles, descriptions, tips and measurement texts are left out, and amounts are lines of name, amount and unit rather than formatted strings.
- Aliasing is not modelled. `save_recipe` stores the caller's dictionary itself and `update` mutates it, so one dictionary saved under two names, or changed by the caller later, is shared. The model copies values.
- Values of unexpected Python types cannot be represented: a None amount or type, a `tags` value that is None or a string, or an unhashable strain. The exceptions these would cause, such as `[]` from get_all_tags on a None tag list, are not modelled.
- Lower-casing is ASCII only. Python's `str.lower` on other letters is not modelled.
- Recipes.AllStrainsSpec: this lemma covers tables without a None strain; AllStrainsWithNone covers the rest.
- RecipeInstructions.GetEcRange: its except branch names an undefined `logger` and would itself raise. The branch cannot be reached with entries that are dictionaries, which is all the model represents.
- The data files and network clients (strain API, deployment script, debugger and configuration) are not part of this model.
- The calculation always reads the General Hydroponics tables, whichever line is chosen. The model keeps that behaviour, and the NutrientCalculatorUI lemmas state its consequences for each line.
