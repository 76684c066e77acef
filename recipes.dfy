/** The recipe table of `RecipeManager` (nutrient_calculator.py): saved recipes by name in
    insertion order, with the session's running recipe counter, and the operations that
    save, read, delete, duplicate, annotate, export, import and filter them. */
module Recipes {
  import opened Common
  import opened Doses
  import opened Mixing

  /** One recorded grow result (`result_data`), a dictionary of opaque values. */
  type ResultData = map<string, string>

  /** A saved recipe dictionary. A field is None when its key is absent. `strain` is the only
      key the manager itself may set to Python's None. `other` holds the keys the manager never
      reads, such as those the UI adds. */
  datatype Recipe = Recipe(
    nutrients: Option<Nutrients>,
    size: Option<real>,
    targetEc: Option<string>,
    targetPh: Option<string>,
    growthPhase: Option<string>,
    strain: Option<Nullable<string>>,
    tags: Option<seq<string>>,
    createdAt: Option<string>,
    lastModified: Option<string>,
    recipeId: Option<int>,
    mixingInstructions: Option<seq<MixStep>>,
    version: Option<int>,
    results: Option<seq<ResultData>>,
    duplicatedFrom: Option<string>,
    importedAt: Option<string>,
    exportedAt: Option<string>,
    other: map<string, string>)

  /** `{}` */
  const EmptyRecipe: Recipe :=
    Recipe(None, None, None, None, None, None, None, None, None, None, None, None, None, None, None, None, map[])

  /** The recipe names in insertion order, the recipes, and `st.session_state.recipe_count`
      (None when the session holds no counter, so that reading it raises). */
  datatype Table = Table(names: seq<string>, recipes: map<string, Recipe>, count: Option<int>)

  /** The names list is the key set of the table in insertion order. */
  ghost predicate TableValid(t: Table) {
    && Distinct(t.names)
    && (forall n :: n in t.recipes <==> n in t.names)
  }

  /** A table method's return value and the table afterwards. */
  datatype Outcome = Outcome(ok: bool, table: Table)

  // ---------------------------------------------------------------------------
  // Reads.

  /** `get_recipe(name)` */
  function Get(t: Table, name: string): Option<Recipe> {
    if name in t.recipes then Some(t.recipes[name]) else None
  }

  /** `list_recipes()` */
  function List(t: Table): seq<string> {
    t.names
  }

  // ---------------------------------------------------------------------------
  // Writes.

  /** The key order after `recipes[name] = ...`: a new name goes last. */
  function PutName(names: seq<string>, name: string): seq<string> {
    if name in names then names else names + [name]
  }

  /** The key order after `del recipes[name]`. */
  function RemoveName(names: seq<string>, name: string): (r: seq<string>)
    ensures forall n :: n in r <==> n in names && n != name
    ensures name !in names ==> r == names
  {
    if names == [] then []
    else
      var rest := RemoveName(names[1..], name);
      if names[0] == name then rest else [names[0]] + rest
  }

  /** In a duplicate-free key list, deleting the name at position `i` closes the gap and keeps
      the other names in their order. */
  lemma {:induction false} RemoveNameAt(names: seq<string>, name: string, i: int)
    requires Distinct(names) && 0 <= i < |names| && names[i] == name
    ensures RemoveName(names, name) == names[..i] + names[i + 1..]
  {
    DistinctTail(names);
    if i == 0 {
      assert name !in names[1..];
    } else {
      RemoveNameAt(names[1..], name, i - 1);
      assert names[1..][..i - 1] == names[1..i];
      assert names[1..][i..] == names[i + 1..];
      assert names[..i] == [names[0]] + names[1..i];
    }
  }

  lemma {:induction false} RemoveNameDistinct(names: seq<string>, name: string)
    requires Distinct(names)
    ensures Distinct(RemoveName(names, name))
  {
    if names != [] {
      DistinctTail(names);
      RemoveNameDistinct(names[1..], name);
      if names[0] != name {
        DistinctCons(names[0], RemoveName(names[1..], name));
      }
    }
  }

  /** `recipes[name] = recipe` */
  function Store(t: Table, name: string, recipe: Recipe): Table {
    Table(PutName(t.names, name), t.recipes[name := recipe], t.count)
  }

  /** The mixing instructions for a recipe's own fields. */
  function Instructions(data: Recipe): seq<MixStep> {
    GenerateMixingInstructions(data.nutrients, data.size, data.targetEc, data.targetPh)
  }

  /** The guard of `save_recipe` and `save_recipe_with_metadata`: a non-empty name, non-empty
      data, and a counter to read. */
  predicate CanSave(t: Table, name: string, data: Recipe) {
    name != "" && data != EmptyRecipe && t.count.Some?
  }

  /** What save_recipe stores: `data` with `created_at`, `mixing_instructions` (of the data as
      passed in) and `recipe_id` set. */
  function SavedRecipe(data: Recipe, now: string, id: int): Recipe {
    data.(createdAt := Some(now), mixingInstructions := Some(Instructions(data)), recipeId := Some(id))
  }

  /** What save_recipe_with_metadata stores. */
  function SavedWithMetadata(data: Recipe, now: string, id: int, strain: Nullable<string>,
                             tags: Option<seq<string>>): Recipe {
    data.(createdAt := Some(now), recipeId := Some(id), strain := Some(strain), tags := Some(tags.GetOr([])),
          mixingInstructions := Some(Instructions(data)), lastModified := Some(now), version := Some(1),
          results := Some([]))
  }

  /** Storing a saved recipe and incrementing the counter. */
  function Commit(t: Table, name: string, recipe: Recipe): Table
    requires t.count.Some?
  {
    Store(t, name, recipe).(count := Some(t.count.value + 1))
  }

  /** `save_recipe(name, recipe_data)` at time `now`. */
  function Save(t: Table, name: string, data: Recipe, now: string): Outcome {
    if !CanSave(t, name, data) then Outcome(false, t)
    else Outcome(true, Commit(t, name, SavedRecipe(data, now, t.count.value + 1)))
  }

  /** `save_recipe_with_metadata(name, recipe_data, strain, tags)`; `strain` is Null for
      Python's None, the default. */
  function SaveWithMetadata(t: Table, name: string, data: Recipe, now: string, strain: Nullable<string>,
                            tags: Option<seq<string>>): Outcome {
    if !CanSave(t, name, data) then Outcome(false, t)
    else Outcome(true, Commit(t, name, SavedWithMetadata(data, now, t.count.value + 1, strain, tags)))
  }

  /** `delete_recipe(name)` */
  function Delete(t: Table, name: string): Outcome {
    if name in t.recipes then Outcome(true, Table(RemoveName(t.names, name), t.recipes - {name}, t.count))
    else Outcome(false, t)
  }

  /** `result_data` with its `date` set, appended to the recipe's results (created empty when
      the key is absent). */
  function WithResult(r: Recipe, result: ResultData, now: string): Recipe {
    r.(results := Some(r.results.GetOr([]) + [result["date" := now]]))
  }

  /** `add_recipe_result(name, result_data)` */
  function AddResult(t: Table, name: string, result: ResultData, now: string): Outcome {
    if name !in t.recipes then Outcome(false, t)
    else Outcome(true, t.(recipes := t.recipes[name := WithResult(t.recipes[name], result, now)]))
  }

  /** The copy that duplicate_recipe saves. */
  function DuplicateOf(source: Recipe, name: string, now: string): Recipe {
    source.(duplicatedFrom := Some(name), createdAt := Some(now), version := Some(1), results := Some([]))
  }

  /** `duplicate_recipe(name, new_name)` */
  function Duplicate(t: Table, name: string, newName: string, now: string): Outcome {
    if name !in t.recipes then Outcome(false, t)
    else Save(t, newName, DuplicateOf(t.recipes[name], name, now), now)
  }

  /** `export_recipe(name)`: the record that is serialised, with `exported_at` set; None when
      the name is unknown. The JSON text itself is not modelled. */
  function Export(t: Table, name: string, now: string): Option<Recipe> {
    if name in t.recipes then Some(t.recipes[name].(exportedAt := Some(now))) else None
  }

  /** `import_recipe(name, recipe_json)` given the parsed record (None when the text does not
      parse to a dictionary). */
  function Import(t: Table, name: string, parsed: Option<Recipe>, now: string): Outcome {
    if parsed.None? then Outcome(false, t)
    else
      var data := parsed.value.(importedAt := Some(now), version := Some(parsed.value.version.GetOr(1)));
      Save(t, name, data, now)
  }

  // ---------------------------------------------------------------------------
  // Properties of the writes.

  lemma DistinctCons(x: string, s: seq<string>)
    requires Distinct(s) && x !in s
    ensures Distinct([x] + s)
  {
    var q := [x] + s;
    forall i, j | 0 <= i < j < |q| ensures q[i] != q[j] {
      assert q[j] == s[j - 1];
      if i > 0 {
        assert q[i] == s[i - 1];
      }
    }
  }

  lemma StoreValid(t: Table, name: string, recipe: Recipe)
    requires TableValid(t)
    ensures TableValid(Store(t, name, recipe))
  {
    if name !in t.names {
      DistinctSnoc(t.names, name);
    }
  }

  /** save_recipe fails exactly when the name or the data is empty (or there is no counter),
      and then changes nothing. Otherwise it stores the stamped record under `name`, replacing
      any recipe of that name rather than adding a second key, with `recipe_id` one more than
      the old counter; it increments the counter by one and leaves every other name alone. */
  lemma SaveSpec(t: Table, name: string, data: Recipe, now: string)
    requires TableValid(t)
    ensures var o := Save(t, name, data, now);
            && (o.ok <==> name != "" && data != EmptyRecipe && t.count.Some?)
            && (!o.ok ==> o.table == t)
            && (o.ok ==> && Get(o.table, name) == Some(SavedRecipe(data, now, t.count.value + 1))
                         && o.table.count == Some(t.count.value + 1)
                         && List(o.table) == (if name in t.recipes then List(t) else List(t) + [name]))
            && (forall n :: n != name ==> Get(o.table, n) == Get(t, n))
            && TableValid(o.table)
  {
    StoreValid(t, name, SavedRecipe(data, now, if t.count.Some? then t.count.value + 1 else 0));
  }

  /** The stored record of a successful save carries its new id, time and instructions, and
      every field of the data it was given. */
  lemma SavedRecipeKeepsData(data: Recipe, now: string, id: int)
    ensures var r := SavedRecipe(data, now, id);
            && r.recipeId == Some(id) && r.createdAt == Some(now)
            && r.mixingInstructions == Some(Instructions(data))
            && r.(createdAt := data.createdAt, mixingInstructions := data.mixingInstructions,
                  recipeId := data.recipeId) == data
  {
  }

  /** save_recipe_with_metadata has save_recipe's guard and effect on the table; its record is
      the data, with instructions generated from it, version 1, no results, the given strain
      and the given tags (`[]` for None). */
  lemma SaveWithMetadataSpec(t: Table, name: string, data: Recipe, now: string, strain: Nullable<string>,
                             tags: Option<seq<string>>)
    requires TableValid(t)
    ensures var o := SaveWithMetadata(t, name, data, now, strain, tags);
            && (o.ok <==> CanSave(t, name, data))
            && (!o.ok ==> o.table == t)
            && (o.ok ==> && o.table.count == Some(t.count.value + 1)
                         && List(o.table) == (if name in t.recipes then List(t) else List(t) + [name])
                         && Get(o.table, name).Some?
                         && var r := Get(o.table, name).value;
                            && r.version == Some(1) && r.results == Some([]) && r.strain == Some(strain)
                            && r.tags == Some(if tags.Some? then tags.value else [])
                            && r.recipeId == Some(t.count.value + 1)
                            && r.createdAt == Some(now) && r.lastModified == Some(now)
                            && r.mixingInstructions == Some(Instructions(data))
                            && r.(createdAt := data.createdAt, recipeId := data.recipeId, strain := data.strain,
                                  tags := data.tags, mixingInstructions := data.mixingInstructions,
                                  lastModified := data.lastModified, version := data.version,
                                  results := data.results) == data)
            && (forall n :: n != name ==> Get(o.table, n) == Get(t, n))
            && TableValid(o.table)
  {
    StoreValid(t, name, SavedWithMetadata(data, now, if t.count.Some? then t.count.value + 1 else 0, strain, tags));
  }

  /** delete_recipe returns true exactly when the name was present, and otherwise changes
      nothing. Afterwards the name is not listed, every other recipe and the counter are
      unchanged, and the other names keep their order. */
  lemma DeleteSpec(t: Table, name: string)
    requires TableValid(t)
    ensures var o := Delete(t, name);
            && (o.ok <==> name in List(t))
            && name !in List(o.table) && Get(o.table, name).None?
            && (forall n :: n != name ==> Get(o.table, n) == Get(t, n))
            && (forall n :: n in List(o.table) <==> n in List(t) && n != name)
            && (!o.ok ==> o.table == t)
            && (forall i :: 0 <= i < |List(t)| && List(t)[i] == name ==> List(o.table) == List(t)[..i] + List(t)[i + 1..])
            && o.table.count == t.count
            && TableValid(o.table)
  {
    RemoveNameDistinct(t.names, name);
    forall i | 0 <= i < |t.names| && t.names[i] == name
      ensures List(Delete(t, name).table) == t.names[..i] + t.names[i + 1..]
    {
      RemoveNameAt(t.names, name, i);
    }
  }

  /** add_recipe_result fails for an unknown name and changes nothing; otherwise it appends the
      dated result to that recipe's results and changes nothing else. */
  lemma AddResultSpec(t: Table, name: string, result: ResultData, now: string)
    requires TableValid(t)
    ensures var o := AddResult(t, name, result, now);
            && (o.ok <==> name in List(t))
            && (!o.ok ==> o.table == t)
            && (o.ok ==> && Get(o.table, name).Some?
                         && Get(o.table, name).value.results
                            == Some(Get(t, name).value.results.GetOr([]) + [result["date" := now]])
                         && Get(o.table, name).value.(results := Get(t, name).value.results) == Get(t, name).value)
            && (forall n :: n != name ==> Get(o.table, n) == Get(t, n))
            && List(o.table) == List(t) && o.table.count == t.count
            && TableValid(o.table)
  {
  }

  /** duplicate_recipe fails when the source is missing; otherwise it is a save under
      `new_name` and fails only for an empty new name or a missing counter (the copy is never
      empty). A failure changes nothing. On success the counter goes up by one, `new_name` is
      listed (last if it is new), and the copy has the new id, version 1, no results and
      `duplicated_from` set to the source, and agrees with the source elsewhere but for the
      save's stamps; every recipe other than `new_name`, the source included, is untouched. */
  lemma DuplicateSpec(t: Table, name: string, newName: string, now: string)
    requires TableValid(t)
    ensures var o := Duplicate(t, name, newName, now);
            && (name !in List(t) ==> !o.ok)
            && (!o.ok ==> o.table == t)
            && (name in List(t) ==>
                  && (o.ok <==> newName != "" && t.count.Some?)
                  && (o.ok ==>
                        && o.table.count == Some(t.count.value + 1)
                        && List(o.table) == (if newName in List(t) then List(t) else List(t) + [newName])
                        && Get(o.table, newName).Some?
                        && Get(o.table, newName).value.recipeId == Some(t.count.value + 1)
                        && Get(o.table, newName).value.createdAt == Some(now)
                        && var copy := Get(o.table, newName).value;
                           && copy.version == Some(1) && copy.results == Some([])
                           && copy.duplicatedFrom == Some(name)
                           && copy.(version := Get(t, name).value.version, results := Get(t, name).value.results,
                                    duplicatedFrom := Get(t, name).value.duplicatedFrom,
                                    createdAt := Get(t, name).value.createdAt,
                                    mixingInstructions := Get(t, name).value.mixingInstructions,
                                    recipeId := Get(t, name).value.recipeId)
                              == Get(t, name).value))
            && (forall n :: n != newName ==> Get(o.table, n) == Get(t, n))
            && TableValid(o.table)
  {
    if name in t.recipes {
      var copy := DuplicateOf(t.recipes[name], name, now);
      assert copy.duplicatedFrom.Some?;
      SaveSpec(t, newName, copy, now);
    }
  }

  /** export_recipe gives None exactly for an unknown name; otherwise the recipe with only
      `exported_at` set. The table itself is not changed: export works on a copy. */
  lemma ExportSpec(t: Table, name: string, now: string)
    requires TableValid(t)
    ensures var e := Export(t, name, now);
            && (e.None? <==> name !in List(t) && Get(t, name).None?)
            && (e.Some? ==> && e.value.exportedAt == Some(now)
                            && e.value.(exportedAt := Get(t, name).value.exportedAt) == Get(t, name).value)
  {
  }

  /** import_recipe fails and changes nothing when the text does not parse to a record.
      Otherwise it is save_recipe of the parsed record with `imported_at` set and `version`
      defaulted to 1, so it fails, changing nothing, only for an empty name or a missing
      counter (the record is never empty). On success the stored record is the parsed one with
      those two fields and the save's stamps, the counter goes up by one, the name is listed
      (last when new), and every other recipe is untouched. */
  lemma ImportSpec(t: Table, name: string, parsed: Option<Recipe>, now: string)
    requires TableValid(t)
    ensures var o := Import(t, name, parsed, now);
            && (o.ok <==> parsed.Some? && name != "" && t.count.Some?)
            && (!o.ok ==> o.table == t)
            && (o.ok ==> && o.table.count == Some(t.count.value + 1)
                         && List(o.table) == (if name in List(t) then List(t) else List(t) + [name])
                         && Get(o.table, name).Some?
                         && var r := Get(o.table, name).value;
                            && r.importedAt == Some(now)
                            && r.version == Some(parsed.value.version.GetOr(1))
                            && r.createdAt == Some(now) && r.recipeId == Some(t.count.value + 1)
                            && r.mixingInstructions == Some(Instructions(parsed.value))
                            && r.(importedAt := parsed.value.importedAt, version := parsed.value.version,
                                  createdAt := parsed.value.createdAt, recipeId := parsed.value.recipeId,
                                  mixingInstructions := parsed.value.mixingInstructions) == parsed.value)
            && (forall n :: n != name ==> Get(o.table, n) == Get(t, n))
            && TableValid(o.table)
  {
    if parsed.Some? {
      var data := parsed.value.(importedAt := Some(now), version := Some(parsed.value.version.GetOr(1)));
      assert data.importedAt.Some?;
      SaveSpec(t, name, data, now);
    }
  }

  /** Importing what export_recipe produced saves the source recipe under the new name: every
      field is the source's except the export and import times, the version (1 when the source
      had none) and the stamps of the new save (its time, id and instructions, which are those
      of the source's own fields). The JSON encoding is taken to round-trip. */
  lemma ExportImportRoundTrip(t: Table, name: string, newName: string, exportTime: string, importTime: string)
    requires TableValid(t) && name in List(t) && newName != "" && t.count.Some?
    ensures var source := Get(t, name).value;
            var o := Import(t, newName, Export(t, name, exportTime), importTime);
            && o.ok
            && o.table.count == Some(t.count.value + 1)
            && List(o.table) == (if newName in List(t) then List(t) else List(t) + [newName])
            && (forall n :: n != newName ==> Get(o.table, n) == Get(t, n))
            && TableValid(o.table)
            && Get(o.table, newName).Some?
            && var copy := Get(o.table, newName).value;
               && copy.exportedAt == Some(exportTime) && copy.importedAt == Some(importTime)
               && copy.version == Some(source.version.GetOr(1))
               && copy.createdAt == Some(importTime) && copy.recipeId == Some(t.count.value + 1)
               && copy.mixingInstructions == Some(Instructions(source))
               && copy.(exportedAt := source.exportedAt, importedAt := source.importedAt, version := source.version,
                        createdAt := source.createdAt, recipeId := source.recipeId,
                        mixingInstructions := source.mixingInstructions) == source
  {
    var data := t.recipes[name].(exportedAt := Some(exportTime));
    var imported := data.(importedAt := Some(importTime), version := Some(data.version.GetOr(1)));
    assert imported.importedAt.Some?;
    SaveSpec(t, newName, imported, importTime);
  }

  // ---------------------------------------------------------------------------
  // Strains, tags and history.

  /** The values stored under 'strain', in table order. */
  function StrainValues(names: seq<string>, recipes: map<string, Recipe>): (r: seq<Nullable<string>>)
    ensures forall v :: v in r <==> exists n :: n in names && n in recipes && recipes[n].strain == Some(v)
  {
    if names == [] then []
    else
      var rest := StrainValues(names[1..], recipes);
      var n := names[0];
      if n in recipes && recipes[n].strain.Some? then [recipes[n].strain.value] + rest else rest
  }

  /** The strings among some strain values. */
  function StrainNames(vs: seq<Nullable<string>>): (r: seq<string>)
    ensures forall s :: s in r <==> NonNull(s) in vs
  {
    if vs == [] then []
    else if vs[0].NonNull? then [vs[0].value] + StrainNames(vs[1..])
    else StrainNames(vs[1..])
  }

  /** `get_all_strains()`: the distinct strains in increasing order. A None strain beside a
      string makes `sorted` raise, which gives `[]`; a None strain on its own gives `[None]`. */
  function AllStrains(t: Table): seq<Nullable<string>> {
    var vs := StrainValues(t.names, t.recipes);
    var strs := SortedUnique(StrainNames(vs));
    if Null in vs then (if strs == [] then [Null] else [])
    else seq(|strs|, i requires 0 <= i < |strs| => NonNull(strs[i]))
  }

  /** The tags of every recipe that has a 'tags' key, in table order. */
  function TagValues(names: seq<string>, recipes: map<string, Recipe>): (r: seq<string>)
    ensures forall g :: g in r <==> exists n :: n in names && n in recipes && recipes[n].tags.Some? &&
                                          g in recipes[n].tags.value
  {
    if names == [] then []
    else
      var rest := TagValues(names[1..], recipes);
      var n := names[0];
      if n in recipes && recipes[n].tags.Some? then recipes[n].tags.value + rest else rest
  }

  /** `get_all_tags()` */
  function AllTags(t: Table): seq<string> {
    SortedUnique(TagValues(t.names, t.recipes))
  }

  /** With no None strain, get_all_strains lists each strain of the table once, in increasing
      order. */
  lemma AllStrainsSpec(t: Table)
    requires TableValid(t)
    requires forall n :: n in t.recipes ==> t.recipes[n].strain != Some(Null)
    ensures var r := AllStrains(t);
            && (forall i :: 0 <= i < |r| ==> r[i].NonNull?)
            && (forall i, j :: 0 <= i < j < |r| ==> StrLess(r[i].value, r[j].value))
            && (forall s :: NonNull(s) in r <==> exists n :: n in t.recipes && t.recipes[n].strain == Some(NonNull(s)))
  {
    var vs := StrainValues(t.names, t.recipes);
    var strs := SortedUnique(StrainNames(vs));
    var r := AllStrains(t);
    assert r == seq(|strs|, i requires 0 <= i < |strs| => NonNull(strs[i]));
    forall s ensures NonNull(s) in r <==> s in strs {
      if NonNull(s) in r {
        var i :| 0 <= i < |r| && r[i] == NonNull(s);
        assert strs[i] == s;
      }
      if s in strs {
        var i :| 0 <= i < |strs| && strs[i] == s;
        assert r[i] == NonNull(s);
      }
    }
  }

  /** A None strain gives `[None]` when it is the only strain and `[]` beside any string. */
  lemma AllStrainsWithNone(t: Table)
    requires TableValid(t)
    requires exists n :: n in t.recipes && t.recipes[n].strain == Some(Null)
    ensures AllStrains(t) == if exists n :: n in t.recipes && t.recipes[n].strain.Some? && t.recipes[n].strain.value.NonNull?
                             then [] else [Null]
  {
    var vs := StrainValues(t.names, t.recipes);
    var strs := SortedUnique(StrainNames(vs));
    SameElementsBothEmpty(strs, StrainNames(vs));
    if exists n :: n in t.recipes && t.recipes[n].strain.Some? && t.recipes[n].strain.value.NonNull? {
      var n :| n in t.recipes && t.recipes[n].strain.Some? && t.recipes[n].strain.value.NonNull?;
      assert t.recipes[n].strain.value in vs;
      assert t.recipes[n].strain.value.value in StrainNames(vs);
    } else {
      HeadIn(StrainNames(vs));
    }
  }

  /** get_all_tags lists each tag of the table once, in increasing order. */
  lemma AllTagsSpec(t: Table)
    requires TableValid(t)
    ensures var r := AllTags(t);
            && StrictlyIncreasing(r)
            && (forall g :: g in r <==> exists n :: n in t.recipes && t.recipes[n].tags.Some? && g in t.recipes[n].tags.value)
  {
  }

  /** One entry of get_recipe_history: a copy of the recipe with its 'name' key set. */
  datatype HistoryEntry = HistoryEntry(name: string, recipe: Recipe)

  /** `recipe_copy['name'] = name`: the key overrides any 'name' the recipe had. */
  function Named(r: Recipe, name: string): Recipe {
    r.(other := r.other["name" := name])
  }

  /** The filters of get_recipe_history. A filter applies when it is truthy: a non-empty
      string, a non-empty list. */
  predicate Matches(r: Recipe, strain: Option<string>, growthPhase: Option<string>, tags: Option<seq<string>>) {
    && (strain.Some? && strain.value != "" ==> r.strain == Some(NonNull(strain.value)))
    && (growthPhase.Some? && growthPhase.value != "" ==> r.growthPhase == Some(growthPhase.value))
    && (tags.Some? && tags.value != [] ==> forall g :: g in tags.value ==> g in r.tags.GetOr([]))
  }

  /** The matching recipes in table order. */
  function Filtered(names: seq<string>, recipes: map<string, Recipe>, strain: Option<string>,
                    growthPhase: Option<string>, tags: Option<seq<string>>): (r: seq<HistoryEntry>)
    requires forall n :: n in names ==> n in recipes
    ensures |r| <= |names|
    ensures forall i :: 0 <= i < |r| ==>
              && r[i].name in names && r[i].recipe == Named(recipes[r[i].name], r[i].name)
              && Matches(recipes[r[i].name], strain, growthPhase, tags)
  {
    if names == [] then []
    else
      var rest := Filtered(names[1..], recipes, strain, growthPhase, tags);
      var n := names[0];
      if Matches(recipes[n], strain, growthPhase, tags) then [HistoryEntry(n, Named(recipes[n], n))] + rest else rest
  }

  /** The sort key: `created_at`, or '' when absent. */
  function CreatedAt(e: HistoryEntry): string {
    e.recipe.createdAt.GetOr("")
  }

  /** Newest first: no entry is older than a later one. */
  predicate NewestFirst(s: seq<HistoryEntry>) {
    forall i, j :: 0 <= i < j < |s| ==> !StrLess(CreatedAt(s[i]), CreatedAt(s[j]))
  }

  /** The entries created at time `k`, in order. */
  function CreatedAtTime(s: seq<HistoryEntry>, k: string): seq<HistoryEntry> {
    if s == [] then []
    else if CreatedAt(s[0]) == k then [s[0]] + CreatedAtTime(s[1..], k)
    else CreatedAtTime(s[1..], k)
  }

  /** Puts `x` before the first entry that is not newer than it. */
  function InsertByDate(x: HistoryEntry, s: seq<HistoryEntry>): seq<HistoryEntry> {
    if s == [] then [x]
    else if StrLess(CreatedAt(x), CreatedAt(s[0])) then [s[0]] + InsertByDate(x, s[1..])
    else [x] + s
  }

  /** `sorted(entries, key=created_at, reverse=True)`, stable as Python's sort is. */
  function SortNewestFirst(s: seq<HistoryEntry>): seq<HistoryEntry> {
    if s == [] then [] else InsertByDate(s[0], SortNewestFirst(s[1..]))
  }

  /** `get_recipe_history(strain, growth_phase, tags)` */
  function History(t: Table, strain: Option<string>, growthPhase: Option<string>, tags: Option<seq<string>>)
    : seq<HistoryEntry>
    requires TableValid(t)
  {
    SortNewestFirst(Filtered(t.names, t.recipes, strain, growthPhase, tags))
  }

  lemma {:induction false} InsertByDatePermutes(x: HistoryEntry, s: seq<HistoryEntry>)
    ensures multiset(InsertByDate(x, s)) == multiset([x] + s)
  {
    if s != [] && StrLess(CreatedAt(x), CreatedAt(s[0])) {
      InsertByDatePermutes(x, s[1..]);
      assert s == [s[0]] + s[1..];
    }
  }

  lemma {:induction false} InsertByDateSorted(x: HistoryEntry, s: seq<HistoryEntry>)
    requires NewestFirst(s)
    ensures NewestFirst(InsertByDate(x, s))
  {
    if s == [] {
    } else if StrLess(CreatedAt(x), CreatedAt(s[0])) {
      var rest := InsertByDate(x, s[1..]);
      var r := [s[0]] + rest;
      InsertByDateSorted(x, s[1..]);
      InsertByDatePermutes(x, s[1..]);
      forall j | 0 <= j < |rest| ensures !StrLess(CreatedAt(s[0]), CreatedAt(rest[j])) {
        assert rest[j] in multiset([x] + s[1..]);
        if rest[j] == x {
          StrLessAsymmetric(CreatedAt(x), CreatedAt(s[0]));
        } else {
          assert rest[j] in s[1..];
        }
      }
      NewestFirstCons(s[0], rest);
    } else {
      forall j | 0 <= j < |s| ensures !StrLess(CreatedAt(x), CreatedAt(s[j])) {
        if j > 0 {
          NotNewerTransitive(x, s[0], s[j]);
        }
      }
      NewestFirstCons(x, s);
    }
  }

  lemma NewestFirstCons(x: HistoryEntry, s: seq<HistoryEntry>)
    requires NewestFirst(s)
    requires forall j :: 0 <= j < |s| ==> !StrLess(CreatedAt(x), CreatedAt(s[j]))
    ensures NewestFirst([x] + s)
  {
    var r := [x] + s;
    forall i, j | 0 <= i < j < |r| ensures !StrLess(CreatedAt(r[i]), CreatedAt(r[j])) {
      assert r[j] == s[j - 1];
      if i > 0 {
        assert r[i] == s[i - 1];
      }
    }
  }

  lemma {:induction false} InsertByDateStable(x: HistoryEntry, s: seq<HistoryEntry>, k: string)
    ensures CreatedAtTime(InsertByDate(x, s), k)
            == if CreatedAt(x) == k then [x] + CreatedAtTime(s, k) else CreatedAtTime(s, k)
  {
    if s == [] {
    } else if StrLess(CreatedAt(x), CreatedAt(s[0])) {
      var r := InsertByDate(x, s);
      InsertByDateStable(x, s[1..], k);
      assert r[1..] == InsertByDate(x, s[1..]);
      if CreatedAt(x) == k {
        StrLessIrreflexive(k);
      }
    } else {
      assert ([x] + s)[1..] == s;
    }
  }

  /** "not older than" is transitive. */
  lemma NotNewerTransitive(a: HistoryEntry, b: HistoryEntry, c: HistoryEntry)
    requires !StrLess(CreatedAt(a), CreatedAt(b)) && !StrLess(CreatedAt(b), CreatedAt(c))
    ensures !StrLess(CreatedAt(a), CreatedAt(c))
  {
    StrLessTotal(CreatedAt(a), CreatedAt(b));
    StrLessTotal(CreatedAt(b), CreatedAt(c));
    if StrLess(CreatedAt(a), CreatedAt(c)) {
      if CreatedAt(a) == CreatedAt(b) {
      } else if CreatedAt(b) == CreatedAt(c) {
      } else {
        StrLessTransitive(CreatedAt(c), CreatedAt(b), CreatedAt(a));
        StrLessAsymmetric(CreatedAt(a), CreatedAt(c));
      }
    }
  }

  /** The history sort is a permutation, newest first, and stable: entries with the same
      `created_at` keep their relative order. */
  lemma {:induction false} SortNewestFirstSpec(s: seq<HistoryEntry>)
    ensures var r := SortNewestFirst(s);
            && multiset(r) == multiset(s)
            && NewestFirst(r)
            && forall k :: CreatedAtTime(r, k) == CreatedAtTime(s, k)
  {
    if s != [] {
      SortNewestFirstSpec(s[1..]);
      var rest := SortNewestFirst(s[1..]);
      InsertByDatePermutes(s[0], rest);
      InsertByDateSorted(s[0], rest);
      forall k ensures CreatedAtTime(SortNewestFirst(s), k) == CreatedAtTime(s, k) {
        InsertByDateStable(s[0], rest, k);
      }
      assert s == [s[0]] + s[1..];
    }
  }

  /** get_recipe_history returns exactly the matching recipes, each once and tagged with its
      name, newest first, ties in table order. */
  lemma HistorySpec(t: Table, strain: Option<string>, growthPhase: Option<string>, tags: Option<seq<string>>)
    requires TableValid(t)
    ensures var h := History(t, strain, growthPhase, tags);
            var f := Filtered(t.names, t.recipes, strain, growthPhase, tags);
            && multiset(h) == multiset(f)
            && NewestFirst(h)
            && (forall k :: CreatedAtTime(h, k) == CreatedAtTime(f, k))
            && (forall e :: e in h ==> e.name in t.recipes && e.recipe == Named(t.recipes[e.name], e.name)
                                       && Matches(t.recipes[e.name], strain, growthPhase, tags))
            && (forall n :: n in t.recipes && Matches(t.recipes[n], strain, growthPhase, tags) ==>
                             multiset(h)[HistoryEntry(n, Named(t.recipes[n], n))] == 1)
  {
    var f := Filtered(t.names, t.recipes, strain, growthPhase, tags);
    SortNewestFirstSpec(f);
    var h := History(t, strain, growthPhase, tags);
    forall e | e in h
      ensures e.name in t.recipes && e.recipe == Named(t.recipes[e.name], e.name)
              && Matches(t.recipes[e.name], strain, growthPhase, tags)
    {
      assert e in multiset(f);
    }
    forall n | n in t.recipes && Matches(t.recipes[n], strain, growthPhase, tags)
      ensures multiset(h)[HistoryEntry(n, Named(t.recipes[n], n))] == 1
    {
      FilteredOnce(t.names, t.recipes, strain, growthPhase, tags, n);
    }
  }

  /** A matching name of a duplicate-free key list occurs once among the filtered entries. */
  lemma {:induction false} FilteredOnce(names: seq<string>, recipes: map<string, Recipe>, strain: Option<string>,
                                        growthPhase: Option<string>, tags: Option<seq<string>>, n: string)
    requires Distinct(names) && (forall m :: m in names ==> m in recipes)
    requires n in names && Matches(recipes[n], strain, growthPhase, tags)
    ensures multiset(Filtered(names, recipes, strain, growthPhase, tags))[HistoryEntry(n, Named(recipes[n], n))] == 1
  {
    var rest := Filtered(names[1..], recipes, strain, growthPhase, tags);
    DistinctTail(names);
    if names[0] == n {
      assert HistoryEntry(n, Named(recipes[n], n)) !in rest;
    } else {
      FilteredOnce(names[1..], recipes, strain, growthPhase, tags, n);
    }
  }

  // ---------------------------------------------------------------------------
  // The manager object.

  /** `RecipeManager`'s recipe table: `self.recipes` (with its key order) and the session's
      recipe counter. */
  class RecipeManager {
    var names: seq<string>
    var recipes: map<string, Recipe>
    var recipeCount: Option<int>

    function State(): Table
      reads this
    {
      Table(names, recipes, recipeCount)
    }

    ghost predicate Valid()
      reads this
    {
      TableValid(State())
    }

    /** `RecipeManager()` starts with an empty table; the counter is the session's. */
    constructor (sessionCount: Option<int>)
      ensures Valid() && State() == Table([], map[], sessionCount)
    {
      names := [];
      recipes := map[];
      recipeCount := sessionCount;
    }

    function GetRecipe(name: string): Option<Recipe>
      reads this
    {
      Get(State(), name)
    }

    function ListRecipes(): seq<string>
      reads this
    {
      List(State())
    }

    function GetAllStrains(): seq<Nullable<string>>
      reads this
    {
      AllStrains(State())
    }

    function GetAllTags(): seq<string>
      reads this
    {
      AllTags(State())
    }

    function GetRecipeHistory(strain: Option<string>, growthPhase: Option<string>, tags: Option<seq<string>>)
      : seq<HistoryEntry>
      reads this
      requires Valid()
    {
      History(State(), strain, growthPhase, tags)
    }

    /** `self.recipes[name] = recipe` */
    method Put(name: string, recipe: Recipe)
      requires Valid()
      modifies this
      ensures Valid() && State() == Store(old(State()), name, recipe)
    {
      StoreValid(State(), name, recipe);
      if name !in names {
        names := names + [name];
      }
      recipes := recipes[name := recipe];
    }

    method SaveRecipe(name: string, data: Recipe, now: string) returns (ok: bool)
      requires Valid()
      modifies this
      ensures Valid() && Outcome(ok, State()) == Save(old(State()), name, data, now)
    {
      if name == "" || data == EmptyRecipe || recipeCount.None? {
        return false;
      }
      var id := recipeCount.value + 1;
      Put(name, SavedRecipe(data, now, id));
      recipeCount := Some(id);
      ok := true;
    }

    method SaveRecipeWithMetadata(name: string, data: Recipe, now: string, strain: Nullable<string>,
                                  tags: Option<seq<string>>) returns (ok: bool)
      requires Valid()
      modifies this
      ensures Valid() && Outcome(ok, State()) == SaveWithMetadata(old(State()), name, data, now, strain, tags)
    {
      if name == "" || data == EmptyRecipe || recipeCount.None? {
        return false;
      }
      var id := recipeCount.value + 1;
      Put(name, SavedWithMetadata(data, now, id, strain, tags));
      recipeCount := Some(id);
      ok := true;
    }

    method DeleteRecipe(name: string) returns (ok: bool)
      requires Valid()
      modifies this
      ensures Valid() && Outcome(ok, State()) == Delete(old(State()), name)
    {
      DeleteSpec(State(), name);
      if name in recipes {
        names := RemoveName(names, name);
        recipes := recipes - {name};
        return true;
      }
      return false;
    }

    method AddRecipeResult(name: string, result: ResultData, now: string) returns (ok: bool)
      requires Valid()
      modifies this
      ensures Valid() && Outcome(ok, State()) == AddResult(old(State()), name, result, now)
    {
      if name !in recipes {
        return false;
      }
      var r := recipes[name];
      var results := if r.results.Some? then r.results.value else [];
      recipes := recipes[name := r.(results := Some(results + [result["date" := now]]))];
      ok := true;
    }

    method DuplicateRecipe(name: string, newName: string, now: string) returns (ok: bool)
      requires Valid()
      modifies this
      ensures Valid() && Outcome(ok, State()) == Duplicate(old(State()), name, newName, now)
    {
      if name !in recipes {
        return false;
      }
      var copy := recipes[name].(duplicatedFrom := Some(name), createdAt := Some(now), version := Some(1),
                                 results := Some([]));
      ok := SaveRecipe(newName, copy, now);
    }

    function ExportRecipe(name: string, now: string): Option<Recipe>
      reads this
    {
      Export(State(), name, now)
    }

    method ImportRecipe(name: string, parsed: Option<Recipe>, now: string) returns (ok: bool)
      requires Valid()
      modifies this
      ensures Valid() && Outcome(ok, State()) == Import(old(State()), name, parsed, now)
    {
      if parsed.None? {
        return false;
      }
      var data := parsed.value.(importedAt := Some(now),
                                version := Some(if parsed.value.version.Some? then parsed.value.version.value else 1));
      ok := SaveRecipe(name, data, now);
    }
  }
}
