# Sinergy downtime: storage library, skill tree and downtime actions

A Dafny model of the core of the Sinergy downtime planner (an AngularJS
application), with its properties proved.

- **Storage library** (`storage.dfy`, `js_values.dfy`). This is a schema-backed
  store over two process-wide tables:
  - the cell table `uids`: id to `{type, data, parent}`;
  - the store table `roots`: origin to `{origin, schema, map}`.

  A store maps each field of its schema to the id of a cell. A new schema
  migrates a store by a three-way diff:
  - retained fields keep their cell;
  - added fields get a fresh cell holding `''`;
  - the cells of dropped fields are deleted.

  A typed accessor replaces the ES6 proxy. Its `get` reads the cell of a schema
  field. Its `set` coerces the value by the declared type (`string` or `number`)
  and writes it through. Origins come from a string, a function, or an object's
  `storageKey`. Export and import snapshot and restore both tables. The browser's
  `localStorage` is an explicit `Registry` object.
- **Skill tree** (`skills.dfy`). This is the `skills` factory:
  - `processData` classifies a raw table into root types, skills and
    specialisations;
  - guarded training and wiping, where wiping a skill cascades to its trained
    specs;
  - rank/slots bindings on trained records;
  - a per-key modifier registry that refuses duplicate ids;
  - filters and getters;
  - the diminishing-bonus total of a skill check.
- **Action lists** (`actions.dfy`). This is the `actions` factory: one list of
  actions per kind of person (player, contact, hireling), and the current month
  with its names.
- **Downtime panel** (`downtime_actions.dfy`). This is the controller state that
  decides which of the eight downtime options are open for the selected person.

`wrappers.dfy` holds the `Option`, `Result` and `Outcome` types.

The stateful parts are classes:
- `Registry`, `Store` and `Accessor`;
- `SkillTree`;
- `ActionLog`;
- `Panel`.

Their methods carry `modifies` clauses and state the whole new state. The loops
of the source are `for`/`while` loops with invariants, proved against
specification functions and predicates: `Migration`, `ClassifiedAs`,
`SkillTotal`, `HasAction` and `SpliceOne`.

## Model

| member | source | states |
|---|---|---|
| Storage.ResolveOrigin | libraries/lib-storage.js:22-37 | A string is the origin itself, a function gives its result, and an object gives its own `storageKey` (the string, or the key function's result). Each of these succeeds with exactly that key when it is non-empty and is InvalidOrigin when it is empty. An object without a string or function `storageKey`, and any other value, is InvalidOrigin. |
| Storage.FreshIdExists | libraries/lib-storage.js:192-193 | Some id is unused whatever the table holds, so the retry loop for a fresh id can end. |
| Storage.Coerce | libraries/lib-storage.js:130-148 | Only `string` and `number` declarations are understood. A string field stores a string: a string value as it is, a number as text that parses back to it. A number field stores a number: a number value as it is, a string value as its `parseInt` result, or 0 when that is NaN. |
| Storage.MigratedMapSound | libraries/lib-storage.js:75-104 | After a migration, every field of the migrated store addresses a live cell, and no two fields share a cell. |
| Storage.OtherMapUnaffected | libraries/lib-storage.js:75-104 | A migration leaves every cell of a store with disjoint ids live, and gives the migrated store none of that store's ids. |
| Storage.MigrationKeepsConsistent | libraries/lib-storage.js:75-104 | Migrating one store keeps all stores' fields on live cells, with no cell shared within or across stores. |
| Storage.MigratedFieldValue | libraries/lib-storage.js:78-93 | After a migration of a consistent store, a field in both schemas keeps its id and its cell record, so a value written before is read back after; a field only in the new schema reads `''`. |
| Storage.Store.FromData | libraries/lib-storage.js:284-292 | A store rebuilt from a blob entry has exactly that entry's origin, schema and map. |
| Storage.Store.constructor | libraries/lib-storage.js:60-64 | `createStorage`'s new store: the given origin with an empty schema and an empty map. |
| Storage.Registry.constructor | libraries/lib-storage.js:17-20 | Both tables start empty, which is valid and consistent. |
| Storage.Registry.IsUID | libraries/lib-storage.js:167-169 | An id is live exactly when the cell table has an entry for it. |
| Storage.Registry.ReadUID | libraries/lib-storage.js:209-213 | The data of a live cell; undefined exactly for an id that is not live. |
| Storage.Registry.CreateUID | libraries/lib-storage.js:178-202 | A defined parent that is not live gives undefined and changes nothing. Otherwise the id was unused before, the cell `{type, data, parent}` is added, and every other cell is unchanged. |
| Storage.Registry.UpdateUID | libraries/lib-storage.js:221-226 | True exactly for a live id. It overwrites only that cell's data, and a miss changes nothing. |
| Storage.Registry.DeleteUID | libraries/lib-storage.js:233-238 | True exactly for a live id. It removes exactly that id. |
| Storage.Registry.SetStringUID | libraries/lib-storage.js:248-250 | Stores `'' + val` in a live cell. A miss changes nothing. |
| Storage.Registry.SetNumberUID | libraries/lib-storage.js:258-265 | Stores `val` as a number in a live cell: numbers as they are, other strings parsed, NaN as 0. A miss changes nothing. |
| Storage.Registry.RetainedFields | libraries/lib-storage.js:78-85 | The first pass keeps exactly the old fields that the new schema still has, at their old ids. |
| Storage.Registry.AddedFields | libraries/lib-storage.js:87-93 | The second pass covers the new schema. Each added field gets its own id, unused before, whose new cell holds `''`. No existing cell changes. |
| Storage.Registry.DroppedFields | libraries/lib-storage.js:95-100 | The third pass deletes exactly the cells of old fields missing from the new map. The remaining cells are unchanged. |
| Storage.Registry.UpdateStorageSchema | libraries/lib-storage.js:75-104 | The store gets the new schema, and its map covers exactly that schema. Retained fields keep their ids. Added fields get fresh, distinct ids whose cells hold `''`. The ids of dropped fields leave the cell table, and no other cell changes. |
| Storage.Registry.CreateStorage | libraries/lib-storage.js:59-68 | A new store for the origin, migrated from the empty schema to the given one. |
| Storage.Registry.AddStore | libraries/lib-storage.js:38-40 | A never-seen origin gets exactly one new store, filed under it, with the given schema. Its map is the migration from the empty schema: each field gets its own previously unused id, whose new cell holds `''`, and no existing cell changes. Cell consistency is preserved. |
| Storage.Registry.MigrateStore | libraries/lib-storage.js:41-44 | An existing origin's store is migrated in place under the same origin object. The migration relation holds from its old schema and map: retained fields keep their ids, added fields get fresh cells holding `''`, and exactly the dropped fields' cells leave the table. Cell consistency is preserved. |
| Storage.Registry.RetrieveStorage | libraries/lib-storage.js:14-51 | An unresolvable origin is InvalidOrigin and changes nothing. A never-seen origin without a schema is MissingSchema and changes nothing. Otherwise there is one store per origin: it is created only when none exists and re-migrated only when a schema is given. With a schema, the store's map and the cell table are the migration from the store's old schema and map (empty for a new store), so retained fields keep their cells. Other origins' stores are untouched, and the accessor returned is fresh. |
| Storage.Registry.ExportStorage | libraries/lib-storage.js:272-277 | The snapshot holds both sections: every store's origin, schema and map, and the cell table as it is. A valid registry exports a well-formed blob. |
| Storage.Registry.ImportStorage | libraries/lib-storage.js:284-292 | A blob lacking either section gives false and leaves both tables untouched. Otherwise the tables are replaced by fresh stores, and exporting gives back exactly the blob. |
| Storage.Registry.RestoreSnapshot | libraries/lib-storage.js:272-292 | Importing a valid registry's own export is accepted and restores the cell table and every store's origin, schema and map. |
| Storage.Accessor.Get | libraries/lib-storage.js:113-121 | A name outside the schema is InvalidProperty. Otherwise the result is `readUID` of the field's id. |
| Storage.Accessor.Set | libraries/lib-storage.js:122-149 | A name outside the schema is InvalidProperty, and an unknown declared type is SchemaError. A write that reaches no live cell is UpdateFailed. Every failure leaves the cells unchanged. On success only the field's cell changes, and `get` then returns the coerced value. |
| Storage.Accessor.constructor | libraries/lib-storage.js:111-157 | `createProxy`: the accessor works on exactly the given store, through the given registry's tables. |
| JsValues.ParseIntRoundTrip | libraries/lib-storage.js:260 | `parseInt` of the decimal rendering of an integer gives the integer back. |
| JsValues.ToJsString | libraries/lib-storage.js:249 | A string is kept as it is. A number becomes text that parses back to it. |
| JsValues.ToJsNumber | libraries/lib-storage.js:259-263 | A number is kept as it is. A string becomes its `parseInt` value, or 0 when that is NaN. |
| JsValues.CoercionRoundTrip | libraries/lib-storage.js:248-265 | A number written through a string field and read back into a number field is unchanged. |
| JsValues.CoercionExamples | libraries/lib-storage.js:258-265 | `"42"` gives 42, `"abc"` gives 0, `"-7px"` gives -7, and 42 renders as `"42"`. |
| Skills.SortedKeys | sections/skills/fact-skills.js:137 | `Object.keys` of an integer-keyed object lists each key once, in ascending order. |
| Skills.Select | sections/skills/fact-skills.js:275-277 | `filter` keeps exactly the elements passing the test. It never grows the list and keeps ascending order. |
| Skills.MakeEntry | sections/skills/fact-skills.js:763-771 | A record copies the id, name and parent, takes `trained` from the raw flag, and clamps rank and slots at 0. |
| Skills.Without | sections/skills/fact-skills.js:166 | After deleting `id` no modifier has that id, and every other id stays registered. Uniqueness is kept, and the list shrinks by one exactly when `id` was present. |
| Skills.WithoutAppended | sections/skills/fact-skills.js:152-168 | Removing a modifier just added under a fresh id restores the list. |
| Skills.AppendKeepsUnique | sections/skills/fact-skills.js:153-157 | Registering a fresh id keeps ids unique and makes the id registered. |
| Skills.AsFunction | sections/skills/fact-skills.js:156-157 | A function is stored as it is. Any other value becomes a function that always returns it. |
| Skills.DiminishingBonus | sections/skills/fact-skills.js:411-416 | Below 4 the bonus counts in full. From 4 on, each further 2 points count as 1 (floor). |
| Skills.DiminishingBonusBounds | sections/skills/fact-skills.js:411-416 | The diminished bonus never exceeds the raw one and is non-negative for a non-negative bonus. It is monotone and grows by at most the raw increase. |
| Skills.DiminishingBonusStep | sections/skills/fact-skills.js:415 | Past 4, two more raw points give exactly one more point. |
| Skills.BonusPlusPenalty | sections/skills/fact-skills.js:431-435 | Every modifier result lands in exactly one of the bonus and the penalty. |
| Skills.SkillTotal | sections/skills/fact-skills.js:419-423 | -1 for an unknown skill, or for a truthy spec that is unknown or belongs to another skill. |
| Skills.SkillTree.constructor | sections/skills/fact-skills.js:24-39 | The default state followed by `processData`: the tables are the classification of the raw table. There are no bindings and no modifiers, and the state is valid. |
| Skills.SkillTree.ProcessData | sections/skills/fact-skills.js:735-797 | Roots are exactly the entries with parent 0, named by their raw names. Skills are exactly the entries under a root, typed by the root's name. Specs are exactly the entries under a skill. Every key is indexed by the last pass that claimed it, and the resulting state is valid. |
| Skills.SkillTree.AddSkillBinding | sections/skills/fact-skills.js:64-91 | Succeeds exactly for an existing trained skill, adding its binding. A refusal changes nothing. |
| Skills.SkillTree.AddSpecBinding | sections/skills/fact-skills.js:93-124 | Succeeds exactly for an existing trained spec whose parent skill exists and is trained. A refusal changes nothing. |
| Skills.SkillTree.RemoveBindingAsWritten | sections/skills/fact-skills.js:126-132 | Reports whether `id` is bound, but every binding survives. |
| Skills.SkillTree.RemoveBinding | sections/skills/fact-skills.js:126-132 | Reports whether `id` was bound and removes exactly that binding. |
| Skills.SkillTree.CreateBindings | sections/skills/fact-skills.js:134-148 | The bindings become exactly the trained skills plus the trained specs of trained skills. No table changes, and the state is valid. |
| Skills.SkillTree.BindTrainedSkills | sections/skills/fact-skills.js:137-141 | The first loop binds exactly the listed trained skills. |
| Skills.SkillTree.BindTrainedSpecs | sections/skills/fact-skills.js:143-147 | The second loop binds exactly the listed trained specs whose parent skill is trained. |
| Skills.SkillTree.TrainSkill | sections/skills/fact-skills.js:219-227 | Succeeds exactly for an untrained key indexed as a skill. That skill becomes trained and bound, and nothing else changes. A refusal changes nothing. Validity is kept. |
| Skills.SkillTree.TrainSpec | sections/skills/fact-skills.js:229-237 | Succeeds exactly for an untrained key indexed as a spec. That spec becomes trained, and it is bound exactly when its parent skill is trained. A refusal changes nothing. Validity is kept. |
| Skills.SkillTree.WipeSpec | sections/skills/fact-skills.js:254-265 | With `removeBinding` corrected (see Findings): succeeds exactly for a trained key indexed as a spec. Its training, rank, slots and binding go. A refusal changes nothing. Validity is kept. |
| Skills.SkillTree.WipeSkill | sections/skills/fact-skills.js:239-252 | With `removeBinding` corrected (see Findings): succeeds exactly for a trained key indexed as a skill. Its training, rank, slots and binding go, and so do those of each of its trained specs; every other record and binding is kept. A refusal changes nothing. Validity is kept. |
| Skills.SkillTree.WipeSpecs | sections/skills/fact-skills.js:249 | With `removeBinding` corrected (see Findings): wiping the listed trained specs, one by one, wipes exactly those and unbinds exactly those. |
| Skills.SkillTree.AddModifier | sections/skills/fact-skills.js:152-160 | False, with nothing changed, when the id is taken for that key. Otherwise the modifier is appended to the key's registry, creating the registry if needed. Ids stay unique. |
| Skills.SkillTree.RemoveModifier | sections/skills/fact-skills.js:162-168 | False, with nothing changed, when the key has no registry or no such id. Otherwise exactly that entry is removed. |
| Skills.SkillTree.FilterSkillNotType | sections/skills/fact-skills.js:273-278 | Exactly the candidate skills whose type is not `t`. |
| Skills.SkillTree.FilterSkillTrained | sections/skills/fact-skills.js:280-285 | Exactly the candidate skills that are trained. |
| Skills.SkillTree.FilterSkillUntrained | sections/skills/fact-skills.js:287-292 | Exactly the candidate skills that are untrained. |
| Skills.SkillTree.FilterTypeTrained | sections/skills/fact-skills.js:294-299 | Exactly the candidate skills of type `t` that are trained. |
| Skills.SkillTree.FilterSpecAll | sections/skills/fact-skills.js:301-306 | Exactly the candidate specs whose parent is the skill. |
| Skills.SkillTree.FilterSpecTrained | sections/skills/fact-skills.js:308-314 | Nothing for the falsy skill 0. Otherwise exactly the candidate trained specs of the skill. |
| Skills.SkillTree.FilterSpecUntrained | sections/skills/fact-skills.js:316-322 | Nothing for the falsy skill 0. Otherwise exactly the candidate untrained specs of the skill. |
| Skills.SkillTree.IsTypeTrained | sections/skills/fact-skills.js:356-362 | True exactly when `t` names a root type and some trained skill has that type. |
| Skills.SkillTree.RankSkill | sections/skills/fact-skills.js:366-369 | The skill's rank; 0 for an unknown key. |
| Skills.SkillTree.RankSpec | sections/skills/fact-skills.js:371-374 | The spec's rank; 0 for an unknown key. |
| Skills.SkillTree.SlotsSkill | sections/skills/fact-skills.js:376-379 | The skill's slots; 0 for an unknown key. |
| Skills.SkillTree.SlotsSpec | sections/skills/fact-skills.js:381-384 | The spec's slots; 0 for an unknown key. |
| Skills.SkillTree.NameSkill | sections/skills/fact-skills.js:394-397 | The skill's name; `'unknown'` for an unknown key. |
| Skills.SkillTree.NameSpec | sections/skills/fact-skills.js:399-402 | The spec's name; `'unknown'` for an unknown key. |
| Skills.SkillTree.TypeSkill | sections/skills/fact-skills.js:404-407 | The skill's type; `'unknown'` for an unknown key. |
| Skills.SkillTree.TrainableSkill | sections/skills/fact-skills.js:386-388 | The table `[1,2,4,6,10,-1]` (line 14) read at the rank: -1 exactly at rank 5, a positive cost below it. Undefined outside the table. |
| Skills.SkillTree.TrainableSpec | sections/skills/fact-skills.js:390-392 | The table `[5,10,15,-1]` (line 15) read at the rank: -1 exactly at rank 3, a positive cost below it. Undefined outside the table. |
| Skills.SkillTree.CalcSkillTotal | sections/skills/fact-skills.js:418-448 | The result is `SkillTotal`: -1 for an unknown skill or a mismatched truthy spec. Otherwise it is the rank, plus the diminished spec rank and non-negative modifier results of the skill and the spec, plus the negative results. |
| Skills.ClassifiedTablesAgree | sections/skills/fact-skills.js:735-797 | The classification of any raw table indexes only existing records, indexes every spec as a spec, and gives every skill a type. |
| Skills.Classify | sections/skills/fact-skills.js:736-797 | The three passes compute the classification of the raw table. |
| Skills.PassesClassify | sections/skills/fact-skills.js:742-797 | The index entries left by the three passes are those of the last pass that claimed each key. |
| Skills.ClassifyRoots | sections/skills/fact-skills.js:738-749 | The first pass makes exactly the parent-0 entries root types, named by their names. |
| Skills.ClassifySkills | sections/skills/fact-skills.js:753-773 | The second pass makes exactly the entries under a root skills, typed by the root's name, and re-indexes them as skills. |
| Skills.ClassifySpecs | sections/skills/fact-skills.js:777-797 | The third pass makes exactly the entries under a skill specs, and re-indexes them as specs. |
| Skills.CascadeLeavesNoTrainedSpec | sections/skills/fact-skills.js:239-252 | After wiping a non-zero skill, none of its specs is trained, and specs of other skills are as they were. |
| Skills.SelectComplement | sections/skills/fact-skills.js:280-292 | Two tests that disagree everywhere split a list between them. |
| Skills.SelectSplit | sections/skills/fact-skills.js:301-322 | A test equal to the disjunction of two exclusive tests selects as many as both together. |
| Skills.SkillFilterPartition | sections/skills/fact-skills.js:280-292 | The trained and untrained skill filters partition their candidates. |
| Skills.SpecFilterPartition | sections/skills/fact-skills.js:301-322 | The specs of a non-zero skill are exactly its trained and its untrained specs. |
| Skills.ClassificationUnique | sections/skills/fact-skills.js:735-797 | A raw table has exactly one classification, so `processData` has one outcome. |
| Skills.StrandedBinding | sections/skills/fact-skills.js:126-132 | Wiping a bound spec (`wipeSpec`, lines 254-265) while its binding is kept leaves a binding on an untrained record. Removing that binding keeps every binding on a trained record. |
| Skills.StrandedBindingExample | sections/skills/fact-skills.js:130 | Concretely: skill 1 and its spec 2, both trained and bound; wiping spec 2 without removing its binding strands it. |
| Skills.ModifierEffect | sections/skills/fact-skills.js:429-447 | One more modifier on the skill changes the total by its result. A negative result lowers the total by exactly that amount. A non-negative one raises it by between 0 and the result. |
| Skills.BonusAppend | sections/skills/fact-skills.js:432-434 | An appended modifier's result goes into the bonus when non-negative, otherwise into the penalty. |
| Skills.SkillTotalBounds | sections/skills/fact-skills.js:418-448 | With a non-negative spec rank, the total lies between the skill's rank plus all penalties and the skill's rank plus the spec's rank plus every result. |
| Actions.JsRem12 | sections/actions/fact-actions.js:70 | `x % 12` as JavaScript computes it: the remainder has the sign of `x` and is below 12 in size. |
| Actions.NameOfKind | sections/actions/fact-actions.js:70 | `short`, `med` and `long` give the month's short, medium and long name respectively; any other key finds nothing. |
| Actions.MonthName | sections/actions/fact-actions.js:62-71 | `type` defaults to `short` and `offset` to 0. For a non-negative `current + offset` the result is the name of that type for month `(current + offset) % 12`; a negative multiple of 12 reads January. The name is found exactly when the sum is not negative (or is a multiple of 12) and the type is `short`, `med` or `long`. |
| Actions.MonthNamePeriodic | sections/actions/fact-actions.js:70 | An offset 12 months further gives the same name. |
| Actions.SpliceOne | sections/actions/fact-actions.js:110 | `splice(num, 1)`: an index inside the list removes exactly that element and keeps the rest in order. A negative index counts from the end and is clamped to the start. An index past the end removes nothing. Elements are only ever removed. |
| Actions.SpliceOneAppended | sections/actions/fact-actions.js:104-111 | Removing the last element, by its index or by -1, undoes an append. |
| Actions.FiledUnderAppend | sections/actions/fact-actions.js:98-102 | Filtering a concatenation by filter is the concatenation of the filtered parts. |
| Actions.FiledUnderAll | sections/actions/fact-actions.js:104-107 | A list filed wholly under one filter is all of that filter's actions and none of another's. |
| Actions.ConcatFiledUnderOne | sections/actions/fact-actions.js:98-102 | Filtering the concatenation of three lists, each filed wholly under one filter, keeps exactly the lists filed under that filter. |
| Actions.ConcatFiledUnder | sections/actions/fact-actions.js:98-102 | From the concatenation of the player, contact and hireling lists, each list is recovered by its filter. |
| Actions.ConcatFiledUnderEach | sections/actions/fact-actions.js:98-102 | The three recoveries, for lists known to be filed under their own filters. |
| Actions.ActionLog.constructor | sections/actions/fact-actions.js:29-41 | Empty lists and the given month, which is a valid state. |
| Actions.ActionLog.DefaultState | sections/actions/fact-actions.js:29-39 | The player, contact and hireling lists are all empty and the month is the given one. |
| Actions.ActionLog.GetCurrentMonthName | sections/actions/fact-actions.js:62-71 | For a non-negative `current + offset`, the name of the requested type (default `short`) for the month `offset` months on, wrapping at 12. With no arguments, the current month's short name. |
| Actions.ActionLog.SetCurrentMonth | sections/actions/fact-actions.js:73-79 | True exactly for 0 to 11, which becomes the month. Anything else is refused and the month is kept. The lists never change. |
| Actions.ActionLog.ListOf | sections/actions/fact-actions.js:94-96 | `getFilterActions`: in a valid state every action of the list is filed under `f`, so filtering the list by `f` keeps all of it. |
| Actions.ActionLog.HasFilterAction | sections/actions/fact-actions.js:83-90 | True exactly when some action of list `f` has type `t`. |
| Actions.ActionLog.GetActions | sections/actions/fact-actions.js:98-102 | The player, contact and hireling lists, in that order: its length is the sum of the counts and it holds exactly their actions. In a valid state each list is recovered by its filter. |
| Actions.ActionLog.GetFilterCount | sections/actions/fact-actions.js:115-117 | The length of list `f`. |
| Actions.ActionLog.AddAction | sections/actions/fact-actions.js:104-107 | The action, filed under `f`, goes to the end of list `f`, whose count grows by 1. The other lists and the month are unchanged, and validity is kept. |
| Actions.ActionLog.RemoveActionNum | sections/actions/fact-actions.js:109-111 | List `f` becomes its `splice(num, 1)`. The other lists and the month are unchanged, and validity is kept. |
| DowntimeActions.IsOptionDisabled | sections/actions/dtime-actions.js:112-139 | `do`, `make`, `buy` and `net` are never disabled. For anyone but the player, exactly `doc`, `care`, `emp` and `over` are disabled. For the player the rules are characterised by `OpenIffAddKeepsSound`. |
| DowntimeActions.CountOf | sections/actions/dtime-actions.js:112-139 | How many actions have a type: positive exactly when `hasFilterAction` finds one. |
| DowntimeActions.OpenIffAddKeepsSound | sections/actions/dtime-actions.js:112-139 | For a player's sound list (at most one `doc`, `care`, `emp` and `over` each, `care` only with `doc`, `over` only with `emp`), an option is open exactly when adding it keeps the list sound. |
| DowntimeActions.ClosedStaysClosed | sections/actions/dtime-actions.js:115-120 | Once a player has `doc` (or `emp`), that option stays disabled whatever is added. |
| DowntimeActions.Panel.constructor | sections/actions/dtime-actions.js:153-184 | The set-up runs `defaultState`: the form fields are cleared, the ranks and bonuses are 0, the month tab is `month1`, and job editing is disabled exactly when the job level is positive. The person is the player while they have fewer than four actions and a hireling after that; the options are current, and for a hireling exactly `doc`, `care`, `emp` and `over` are disabled. |
| DowntimeActions.Panel.UpdateOptions | sections/actions/dtime-actions.js:141-150 | All eight option entries become `isOptionDisabled` for the current person, and nothing else in the state changes. |
| DowntimeActions.Panel.DefaultState | sections/actions/dtime-actions.js:153-182 | The form fields are cleared. The ranks and bonuses are 0 and the month tab is `month1`. Job editing is disabled exactly when the job level is positive. The person is the player below four player actions and a hireling otherwise; for a hireling exactly `doc`, `care`, `emp` and `over` are disabled. |

## Left out

- The `localStorage` availability guard (libraries/lib-storage.js:15-20) is an environment check, and its condition is inverted. The two tables are fields of an explicitly constructed `Registry` instead, and `Registry.constructor` plays the part of the missing-table initialisation.
- Random ids: `createUID` draws random base-36 ids until one is unused. The model chooses any unused id; `Storage.FreshIdExists` shows one exists. Floating-point randomness is not modelled.
- JSON text: export and import work on a snapshot (`Blob`) of the two tables instead of a JSON string.
- Storage.Registry.ImportStorage: requires the stores of a blob to be filed under their own origins and to cover their schemas, as every exported blob is. The source installs any blob whose `roots` and `uids` are present; an arbitrary parsed blob that breaks this is not modelled.
- ES6 `Proxy` mechanics and the no-op `deleteProperty`/`defineProperty` traps: the accessor is a class with explicit `Get` and `Set` members.
- Storage.Registry.CreateUID: the `console.error` message logged for a parent that is not live is console output and is not modelled; only the undefined result is.
- Exceptions are error values (`StorageError`) rather than thrown objects. Their messages, `exceptionString` and the unused `ExpiredProxyException` are not modelled.
- Storage.Registry.RetrieveStorage: retrieving a never-seen origin without a schema is the error `MissingSchema`, as the code (which throws on `Object.keys(undefined)`) does, not a store with an empty schema.
- JavaScript values: a cell holds a string or an integer. `isNumber` is taken to accept exactly numbers. `parseInt` is modelled for an optional sign followed by decimal digits, without leading white space, radix prefixes or floating-point numbers. `'' + n` is modelled as plain decimal text, which JavaScript produces only for |n| < 10^21; larger numbers render in exponent form (`1e+21`, which `parseInt` reads as 1), so `JsValues.ToJsString`, `JsValues.ParseIntRoundTrip` and `JsValues.CoercionRoundTrip` hold for JavaScript numbers only below that bound.
- Persistence hooks (`persist.registerLoad`, `registerSave` and the like) in all three factories are external I/O and are not modelled.
- The wall-clock month of `new Date().getMonth()` is a parameter of `Actions.ActionLog.DefaultState`.
- Skills.SortedKeys: `Object.keys` lists array-index keys (0 to 2^32 - 2) in ascending order and any other key (a negative one, say) after them in insertion order. The model lists every integer key in ascending order, which agrees with JavaScript for the non-negative ids of the raw table but not for negative keys.
- The literal `rawSkills` table is data. `processData` runs over any raw table given as a map.
- The `unknown` pass of `processData` (sections/skills/fact-skills.js:799-810) is not modelled. It concatenates arrays with `+` and searches the resulting string, so it is not defined on integer keys. `filterAll` and the default path of `factory.filter` concatenate the same way and are left out too.
- Skills.SkillTree.ProcessData builds the three tables in its passes and stores them at the end. No code runs between the passes, so the order of the stores cannot be observed.
- Binding accessor objects: the `rank`/`slots` getters and setters of a binding only forward to the state, so bindings are a set of keys.
- The UI flags `hideSkillEdit`, `lockSkillEdit` and `newSelected` and the `types` list getter are not modelled.
- Skills.SkillTree.CalcSkillTotal: modifier results are integers for each usage, and a registry lists modifiers in registration order. JavaScript enumerates integer-like ids first, which changes nothing in the sums.
- Skills.SkillTree.WipeSpec: uses the corrected `removeBinding` (see Findings), so the wiped spec's binding goes; the code as written keeps it, as `Skills.SkillTree.RemoveBindingAsWritten` and `Skills.StrandedBindingExample` show.
- Skills.SkillTree.WipeSkill: uses the corrected `removeBinding` (see Findings), so the bindings of the skill and its wiped specs go; the code as written keeps them.
- Skills.SkillTree.WipeSpecs: the cascade over the skill's trained specs uses the corrected `removeBinding` (see Findings); as written, each wiped spec keeps its binding.
- Skills.SkillTree.TrainableSkill and Skills.SkillTree.TrainableSpec give None (undefined) for an unknown key, where the source throws on `state.skills[skill].rank`.
- Filters: `data` is either given (a list of existing keys) or absent. An `undefined` key argument to the filters and to the binding functions is not modelled; keys are integers, and the spec argument of `calcSkillTotal` is optional.
- `money.addMoney` in `addClick`, the month-tab and person-change handlers, and the other panel handlers of sections/actions/dtime-actions.js call factories that are not part of this model.
- The UI files (skill selectors, equipment, events and the module list) hold no stateable logic.
- Actions.ActionLog.AddAction: the action object is updated in place and the same object is pushed, so other holders of it see the new `filter`. Actions are values here, so that aliasing is not modelled.
- Actions.ActionLog.GetCurrentMonthName: the `type` argument is an optional string. An unknown type gives None (undefined). A negative sum that is not a multiple of 12 reads a row below the table, and reading a property of that `undefined` throws a TypeError; the model turns that throw into None as well.
- DowntimeActions.Panel: the person is a string. The eight options are an enumeration, each named by `DowntimeActions.OptionName`.

## Findings

| source | as written | input that shows it | evidently intended | confidence | as-written member | corrected member |
|---|---|---|---|---|---|---|
| sections/skills/fact-skills.js:130 | `removeBinding(id)` checks `bindings.hasOwnProperty(id)` but deletes the property literally named `id`, so the binding of `id` survives | train skill 1 and its spec 2 (both bound), then `wipeSpec(2)`: spec 2 is untrained but its binding stays | `delete bindings[id]`: removing the binding of `id` | high (not executed) | Skills.SkillTree.RemoveBindingAsWritten, Skills.StrandedBindingExample | Skills.SkillTree.RemoveBinding, Skills.SkillTree.WipeSpec, Skills.SkillTree.WipeSkill, Skills.SkillTree.WipeSpecs |
